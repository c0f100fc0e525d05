/**
  Sequences of submissions replayed on a ledger, and the invariants every
  ledger reached from the fresh record keeps: the balance is income minus
  expense, each total is the sum of its list, each list is numbered 1..N,
  every stored entry passed validation, and entries, once stored, are never
  changed or removed.
 */
module History {
  import opened Ledger

  /** The sum of the amounts of a list, added up in list order. */
  function Sum(es: seq<Entry>): real {
    if es == [] then 0.0 else Sum(es[..|es| - 1]) + es[|es| - 1].amt
  }

  /** Entry `i` carries number `i + 1`. */
  ghost predicate Numbered(es: seq<Entry>) {
    forall i :: 0 <= i < |es| ==> es[i].no == i + 1
  }

  /** What validation lets through. */
  predicate Storable(e: Entry) {
    e.desc != [] && e.amt > 0.0
  }

  ghost predicate AllStorable(es: seq<Entry>) {
    forall i :: 0 <= i < |es| ==> Storable(es[i])
  }

  ghost predicate WellFormed(es: seq<Entry>) {
    Numbered(es) && AllStorable(es)
  }

  /** The invariant of every ledger reachable from the fresh record. */
  ghost predicate Valid(t: Transactions) {
    && t.bal == t.inc - t.exp
    && WellFormed(t.income) && WellFormed(t.expense)
    && t.inc == Sum(t.income) && t.exp == Sum(t.expense)
  }

  /** The submissions replayed in order on `t`, the last one applied last. */
  function Run(t: Transactions, subs: seq<Submission>): Transactions {
    if subs == [] then t else Step(Run(t, subs[..|subs| - 1]), subs[|subs| - 1])
  }

  /** Replaying `a` and then `b` is replaying `a + b`. */
  lemma {:induction false} RunAppend(t: Transactions, a: seq<Submission>, b: seq<Submission>)
    ensures Run(Run(t, a), b) == Run(t, a + b)
  {
    if b == [] {
      assert a + b == a;
    } else {
      RunAppend(t, a, b[..|b| - 1]);
      assert (a + b)[..|a + b| - 1] == a + b[..|b| - 1];
      assert (a + b)[|a + b| - 1] == b[|b| - 1];
    }
  }

  /** The submissions of kind `k` that pass validation, in order. */
  function AcceptedOf(subs: seq<Submission>, k: Kind): seq<Submission> {
    if subs == [] then []
    else
      var s := subs[|subs| - 1];
      AcceptedOf(subs[..|subs| - 1], k)
        + (if s.kind == k && s.desc != [] && s.amt > 0.0 then [s] else [])
  }

  lemma SumAppend(es: seq<Entry>, e: Entry)
    ensures Sum(es + [e]) == Sum(es) + e.amt
  {
  }

  /** A list of validated entries never sums to a negative total. */
  lemma {:induction false} SumNonNegative(es: seq<Entry>)
    requires AllStorable(es)
    ensures Sum(es) >= 0.0
    ensures es != [] ==> Sum(es) > 0.0
  {
    if es != [] {
      var init := es[..|es| - 1];
      assert AllStorable(init) by {
        forall i | 0 <= i < |init| ensures Storable(init[i]) {
          assert init[i] == es[i];
        }
      }
      SumNonNegative(init);
      assert Storable(es[|es| - 1]);
    }
  }

  lemma FreshIsValid()
    ensures Valid(Fresh)
  {
  }

  /** Appending the next numbered, validated entry keeps a list well formed. */
  lemma AppendWellFormed(es: seq<Entry>, desc: string, amt: real)
    requires WellFormed(es)
    requires desc != [] && amt > 0.0
    ensures WellFormed(es + [Entry(|es| + 1, desc, amt)])
  {
  }

  /** One submission, accepted or rejected, keeps the ledger invariant. */
  lemma {:induction false} StepKeepsValid(t: Transactions, s: Submission)
    requires Valid(t)
    ensures Valid(Step(t, s))
  {
    var o := Submit(t, s.kind, s.desc, s.amt);
    if o.Accepted? {
      var es := Entries(t, s.kind);
      var e := Entry(|es| + 1, s.desc, s.amt);
      AppendWellFormed(es, s.desc, s.amt);
      SumAppend(es, e);
      assert Entries(o.next, s.kind) == es + [e];
    }
  }

  /** Every ledger reached from the fresh record by any submissions is valid. */
  lemma {:induction false} RunValid(subs: seq<Submission>)
    ensures Valid(Run(Fresh, subs))
  {
    if subs == [] {
      FreshIsValid();
    } else {
      RunValid(subs[..|subs| - 1]);
      StepKeepsValid(Run(Fresh, subs[..|subs| - 1]), subs[|subs| - 1]);
    }
  }

  /** The totals of a reachable ledger are never negative, and the balance
      is income minus expense. */
  lemma RunTotals(subs: seq<Submission>)
    ensures var t := Run(Fresh, subs);
      t.inc >= 0.0 && t.exp >= 0.0 && t.bal == t.inc - t.exp
  {
    RunValid(subs);
    SumNonNegative(Run(Fresh, subs).income);
    SumNonNegative(Run(Fresh, subs).expense);
  }

  /** Later submissions only extend the lists and only raise the totals:
      nothing stored is changed or removed. */
  lemma {:induction false} RunPrefix(t: Transactions, subs: seq<Submission>, n: nat)
    requires n <= |subs|
    ensures var a, b := Run(t, subs[..n]), Run(t, subs);
      && a.income <= b.income && a.expense <= b.expense
      && a.inc <= b.inc && a.exp <= b.exp
  {
    if n < |subs| {
      var init := subs[..|subs| - 1];
      assert init[..n] == subs[..n];
      RunPrefix(t, init, n);
      var c := Run(t, init);
      var s := subs[|subs| - 1];
      if Submit(c, s.kind, s.desc, s.amt).Accepted? {
        assert Entries(Step(c, s), s.kind) == Entries(c, s.kind) + [Entry(|Entries(c, s.kind)| + 1, s.desc, s.amt)];
      }
    } else {
      assert subs[..n] == subs;
    }
  }

  /** The list of kind `k` of a reachable ledger holds exactly the accepted
      submissions of that kind, in submission order, numbered from 1. */
  lemma {:induction false} RunEntries(subs: seq<Submission>, k: Kind)
    ensures var es, acc := Entries(Run(Fresh, subs), k), AcceptedOf(subs, k);
      && |es| == |acc|
      && forall i :: 0 <= i < |es| ==> es[i] == Entry(i + 1, acc[i].desc, acc[i].amt)
  {
    if subs != [] {
      var init := subs[..|subs| - 1];
      var s := subs[|subs| - 1];
      RunEntries(init, k);
      var c := Run(Fresh, init);
      var o := Submit(c, s.kind, s.desc, s.amt);
      if o.Accepted? && s.kind != k {
        assert k == Other(s.kind);
      }
    }
  }

  /** An income of 1000 for "Salary" followed by an expense of 300 for
      "Rent" leaves a balance of 700, each entry numbered 1 in its list. */
  lemma SalaryThenRent()
    ensures var t := Run(Fresh, [Submission(Income, "Salary", 1000.0), Submission(Expense, "Rent", 300.0)]);
      && t.inc == 1000.0 && t.exp == 300.0 && t.bal == 700.0
      && t.income == [Entry(1, "Salary", 1000.0)]
      && t.expense == [Entry(1, "Rent", 300.0)]
  {
  }
}
