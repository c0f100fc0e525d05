/**
  The budget tracker's ledger: the `transactions` record the page keeps
  (running balance, income and expense totals, and one list of entries per
  kind), the totals update, input validation and the submission step.
  Everything here is pure; the page and the storage live in module Page.
 */
module Ledger {

  /** The two radio choices of the form. */
  datatype Kind = Income | Expense

  /** The form field a rejected submission is reported on. */
  datatype Field = Description | Amount

  /** One stored transaction: its 1-based number within its list, its
      description and its (already parsed) amount. */
  datatype Entry = Entry(no: nat, desc: string, amt: real)

  /** The whole ledger record, `{bal, inc, exp, income, expense}`. */
  datatype Transactions = Transactions(
    bal: real,
    inc: real,
    exp: real,
    income: seq<Entry>,
    expense: seq<Entry>)

  /** One click of the submit button: the selected kind and the two inputs. */
  datatype Submission = Submission(kind: Kind, desc: string, amt: real)

  datatype Verdict = Valid | Invalid(field: Field)

  datatype Outcome = Rejected(field: Field) | Accepted(next: Transactions)

  /** The record a page starts from when nothing is stored. */
  const Fresh := Transactions(0.0, 0.0, 0.0, [], [])

  function Other(k: Kind): Kind {
    match k
    case Income => Expense
    case Expense => Income
  }

  /** The `value` of the radio button for kind `k`, which is also the key of
      its list in the record. */
  function KindName(k: Kind): string {
    match k
    case Income => "income"
    case Expense => "expense"
  }

  /** `transactions[type]` */
  function Entries(t: Transactions, k: Kind): seq<Entry> {
    match k
    case Income => t.income
    case Expense => t.expense
  }

  /** Replaces the list of kind `k`, keeping the other list and the totals. */
  function WithEntries(t: Transactions, k: Kind, es: seq<Entry>): (r: Transactions)
    ensures Entries(r, k) == es
    ensures Entries(r, Other(k)) == Entries(t, Other(k))
    ensures r.bal == t.bal && r.inc == t.inc && r.exp == t.exp
  {
    match k
    case Income => t.(income := es)
    case Expense => t.(expense := es)
  }

  /** The totals update: an expense moves the balance down, an income moves it
      up, any other type string leaves the record as it is. In every case the
      difference between the balance and income minus expense is kept, and
      the lists are never touched. Writing the totals to the page, which
      `updateSummary` does at its end, is done by the page's
      click handler (`Page.AddNewTransaction`). */
  function UpdateSummary(typ: string, amt: real, t: Transactions): (r: Transactions)
    ensures r.income == t.income && r.expense == t.expense
    ensures r.bal - (r.inc - r.exp) == t.bal - (t.inc - t.exp)
    ensures typ == "expense" ==> r.exp == t.exp + amt && r.inc == t.inc && r.bal == t.bal - amt
    ensures typ == "income" ==> r.inc == t.inc + amt && r.exp == t.exp && r.bal == t.bal + amt
    ensures typ != "expense" && typ != "income" ==> r == t
  {
    if typ == "expense" then
      t.(exp := t.exp + amt, bal := t.bal - amt)
    else if typ == "income" then
      t.(inc := t.inc + amt, bal := t.bal + amt)
    else
      t
  }

  /** The description is checked first, by emptiness only (no trimming), and
      only then the amount; the first failing field is the one reported. */
  function Validate(desc: string, amt: real): (v: Verdict)
    ensures v == Valid <==> desc != [] && amt > 0.0
    ensures v == Invalid(Description) <==> desc == []
    ensures v == Invalid(Amount) <==> desc != [] && amt <= 0.0
  {
    if desc == [] then Invalid(Description)
    else if amt <= 0.0 then Invalid(Amount)
    else Valid
  }

  /** The ledger part of one submission: validate, number the new entry after
      the current length of its list, append it, then update the totals. */
  function Submit(t: Transactions, k: Kind, desc: string, amt: real): (o: Outcome)
    ensures o.Rejected? <==> desc == [] || amt <= 0.0
    ensures desc == [] ==> o == Rejected(Description)
    ensures desc != [] && amt <= 0.0 ==> o == Rejected(Amount)
    ensures o.Accepted? ==>
      Entries(o.next, k) == Entries(t, k) + [Entry(|Entries(t, k)| + 1, desc, amt)]
    ensures o.Accepted? ==> Entries(o.next, Other(k)) == Entries(t, Other(k))
    ensures o.Accepted? && k == Income ==>
      o.next.inc == t.inc + amt && o.next.exp == t.exp && o.next.bal == t.bal + amt
    ensures o.Accepted? && k == Expense ==>
      o.next.exp == t.exp + amt && o.next.inc == t.inc && o.next.bal == t.bal - amt
  {
    match Validate(desc, amt)
    case Invalid(f) => Rejected(f)
    case Valid =>
      var list := Entries(t, k);
      var e := Entry(|list| + 1, desc, amt);
      Accepted(UpdateSummary(KindName(k), e.amt, WithEntries(t, k, list + [e])))
  }

  /** The record after one submission: a rejected one leaves it untouched.
      The totals never go down, and an accepted submission raises exactly the
      total of its own kind. */
  function Step(t: Transactions, s: Submission): (r: Transactions)
    ensures Submit(t, s.kind, s.desc, s.amt).Rejected? ==> r == t
    ensures r.inc >= t.inc && r.exp >= t.exp
    ensures Submit(t, s.kind, s.desc, s.amt).Accepted? ==>
      if s.kind == Income then r.inc > t.inc && r.exp == t.exp
      else r.exp > t.exp && r.inc == t.inc
  {
    match Submit(t, s.kind, s.desc, s.amt)
    case Rejected(_) => t
    case Accepted(next) => next
  }
}
