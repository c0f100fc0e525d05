/**
  What the page shows and stores, abstracted from the DOM: three summary
  slots holding the raw totals (currency formatting is not modelled), two
  append-only tables that are revealed when a row is added, and the storage
  slot holding the last saved ledger. A session is the ledger together with
  its page and its storage; the click handler and the page load are the two
  ways a session changes.
 */
module Page {
  import opened Ledger
  import History

  /** The numbers handed to the formatter for the three summary slots. */
  datatype Summary = Summary(inc: real, exp: real, bal: real)

  /** The rows of one table (number, description, amount) and whether its
      section has been revealed. */
  datatype Table = Table(rows: seq<Entry>, shown: bool)

  /** What the page shows: the summary slots and the two tables. */
  datatype View = View(summary: Summary, incomeTable: Table, expenseTable: Table)

  /** The storage key: absent until the first accepted submission. */
  datatype Stored = Absent | Present(saved: Transactions)

  datatype Session = Session(t: Transactions, page: View, store: Stored)

  /** The page before any script runs. Its markup is not part of this model:
      the tables are taken to start empty and hidden, and the summary slots
      to read as the fresh record's zero totals. */
  const Blank := View(Summary(0.0, 0.0, 0.0), Table([], false), Table([], false))

  function TableOf(p: View, k: Kind): Table {
    match k
    case Income => p.incomeTable
    case Expense => p.expenseTable
  }

  /** What a page showing ledger `t` and nothing else looks like. */
  function Rendered(t: Transactions): View {
    View(Summary(t.inc, t.exp, t.bal),
         Table(t.income, t.income != []),
         Table(t.expense, t.expense != []))
  }

  /** Writes the three totals into the summary slots; the tables stay. */
  function UpdateTotalValues(p: View, t: Transactions): (q: View)
    ensures q.summary.inc == t.inc && q.summary.exp == t.exp && q.summary.bal == t.bal
    ensures q.incomeTable == p.incomeTable && q.expenseTable == p.expenseTable
  {
    p.(summary := Summary(t.inc, t.exp, t.bal))
  }

  /** Reveals the table of kind `k` and appends one row at its end; the
      other table and the summary are untouched. */
  function AddTransactionToPage(p: View, k: Kind, e: Entry): (q: View)
    ensures TableOf(q, k) == Table(TableOf(p, k).rows + [e], true)
    ensures TableOf(q, Other(k)) == TableOf(p, Other(k))
    ensures q.summary == p.summary
  {
    match k
    case Income => p.(incomeTable := Table(p.incomeTable.rows + [e], true))
    case Expense => p.(expenseTable := Table(p.expenseTable.rows + [e], true))
  }

  /** Adds the rows `es` one by one, in order, to the table of kind `k`. */
  function AddRows(p: View, k: Kind, es: seq<Entry>): (q: View)
    ensures TableOf(q, k) == Table(TableOf(p, k).rows + es, TableOf(p, k).shown || es != [])
    ensures TableOf(q, Other(k)) == TableOf(p, Other(k))
    ensures q.summary == p.summary
  {
    if es == [] then p
    else
      var init := es[..|es| - 1];
      assert init + [es[|es| - 1]] == es;
      AddTransactionToPage(AddRows(p, k, init), k, es[|es| - 1])
  }

  /** The load-time replay: the summary first, then every income row, then
      every expense row, each in stored order. */
  function DisplayAll(t: Transactions, p: View): (q: View)
    ensures q.summary == Summary(t.inc, t.exp, t.bal)
    ensures q.incomeTable == Table(p.incomeTable.rows + t.income, p.incomeTable.shown || t.income != [])
    ensures q.expenseTable == Table(p.expenseTable.rows + t.expense, p.expenseTable.shown || t.expense != [])
  {
    AddRows(AddRows(UpdateTotalValues(p, t), Income, t.income), Expense, t.expense)
  }

  /** Page load: a stored ledger is taken as it is and replayed onto the
      blank page; with nothing stored the fresh record is used and the page
      is left blank. */
  function Startup(stored: Stored): (s: Session)
    ensures s.page == Rendered(s.t)
    ensures s.store == stored
    ensures stored.Absent? ==> s.t == Fresh
    ensures stored.Present? ==> s.t == stored.saved
  {
    match stored
    case Absent => Session(Fresh, Blank, Absent)
    case Present(t) => Session(t, DisplayAll(t, Blank), stored)
  }

  /** The click handler: a rejected submission changes nothing (the field
      error is only styling); an accepted one updates the ledger, the
      summary slots, appends the new row to its table and saves the ledger. */
  function AddNewTransaction(s: Session, sub: Submission): (r: Session)
    ensures Submit(s.t, sub.kind, sub.desc, sub.amt).Rejected? ==> r == s
    ensures Submit(s.t, sub.kind, sub.desc, sub.amt).Accepted? ==>
      && r.t == Submit(s.t, sub.kind, sub.desc, sub.amt).next
      && r.store == Present(r.t)
      && r.page.summary == Summary(r.t.inc, r.t.exp, r.t.bal)
      && TableOf(r.page, sub.kind).rows
         == TableOf(s.page, sub.kind).rows + [Entry(|Entries(s.t, sub.kind)| + 1, sub.desc, sub.amt)]
      && TableOf(r.page, sub.kind).shown
      && TableOf(r.page, Other(sub.kind)) == TableOf(s.page, Other(sub.kind))
  {
    match Submit(s.t, sub.kind, sub.desc, sub.amt)
    case Rejected(_) => s
    case Accepted(next) =>
      var e := Entry(|Entries(s.t, sub.kind)| + 1, sub.desc, sub.amt);
      var page := AddTransactionToPage(UpdateTotalValues(s.page, next), sub.kind, e);
      Session(next, page, Present(next))
  }

  /** The page shows exactly the ledger, and storage holds the ledger unless
      nothing has been accepted yet from a fresh start. */
  ghost predicate Consistent(s: Session) {
    && s.page == Rendered(s.t)
    && (s.store == Present(s.t) || (s.store == Absent && s.t == Fresh))
  }

  function SessionRun(s: Session, subs: seq<Submission>): Session {
    if subs == [] then s
    else AddNewTransaction(SessionRun(s, subs[..|subs| - 1]), subs[|subs| - 1])
  }

  lemma StartupIsConsistent(stored: Stored)
    ensures Consistent(Startup(stored))
  {
  }

  /** The click handler keeps the page and the storage in step with the
      ledger. */
  lemma AddNewTransactionKeepsConsistent(s: Session, sub: Submission)
    requires Consistent(s)
    ensures Consistent(AddNewTransaction(s, sub))
  {
  }

  /** Reloading a consistent session restores the same ledger, page and
      storage: what `displayAll` replays equals what the clicks built. */
  lemma ReloadRestores(s: Session)
    requires Consistent(s)
    ensures Startup(s.store) == s
  {
  }

  /** Any run of clicks from a page load keeps the session consistent, and
      its ledger is the ledger-only replay of the same submissions. */
  lemma {:induction false} SessionRunConsistent(stored: Stored, subs: seq<Submission>)
    ensures Consistent(SessionRun(Startup(stored), subs))
    ensures SessionRun(Startup(stored), subs).t == History.Run(Startup(stored).t, subs)
  {
    if subs == [] {
      StartupIsConsistent(stored);
    } else {
      SessionRunConsistent(stored, subs[..|subs| - 1]);
      AddNewTransactionKeepsConsistent(SessionRun(Startup(stored), subs[..|subs| - 1]), subs[|subs| - 1]);
    }
  }

  /** With nothing stored, every session reached by clicks holds a valid
      ledger: balance is income minus expense, lists numbered 1..N, every
      entry validated. */
  lemma FreshSessionValid(subs: seq<Submission>)
    ensures History.Valid(SessionRun(Startup(Absent), subs).t)
  {
    SessionRunConsistent(Absent, subs);
    History.RunValid(subs);
  }

  /** A record saved by one page session and loaded by the next keeps the
      ledger invariant, and the second session continues the first: its
      ledger is the replay of both sessions' submissions from the fresh
      record. */
  lemma {:induction false} TwoSessions(a: seq<Submission>, b: seq<Submission>)
    ensures var s1 := SessionRun(Startup(Absent), a);
      var s2 := SessionRun(Startup(s1.store), b);
      && History.Valid(s2.t)
      && s2.t == History.Run(Fresh, a + b)
  {
    var s1 := SessionRun(Startup(Absent), a);
    SessionRunConsistent(Absent, a);
    ReloadRestores(s1);
    SessionRunConsistent(s1.store, b);
    History.RunAppend(Fresh, a, b);
    History.RunValid(a + b);
  }
}
