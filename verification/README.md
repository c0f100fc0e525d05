# Budget tracker ledger, in Dafny

A model of the ledger kept by the budget tracker's page script (`script.js`).
The page keeps one record, `transactions = {bal, inc, exp, income, expense}`,
where `income` and `expense` are lists of entries `{no, desc, amt}`. A click on
the submit button validates the description and the amount, appends a new entry
numbered after the current length of its list, moves the totals, renders the
new row and the totals, and saves the record. On page load a saved record is
replayed onto the page; with nothing saved a fresh record is used.

Modules:

- `Ledger` (`ledger.dfy`): the record, the entry, the totals update
  (`updateSummary`), validation and the pure submission step
  `Submit(t, kind, desc, amt)`, which yields `Rejected(field)` or
  `Accepted(next)`.
- `History` (`history.dfy`): replaying a sequence of submissions and the
  invariants every ledger reached from the fresh record keeps.
  The balance is income minus expense. Each total is the sum of its list.
  Each list is numbered 1..N. Every entry has a non-empty description and a
  positive amount. Stored entries are never changed or removed.
- `Page` (`page.dfy`): an abstract page (summary slots, two tables, a
  revealed flag per table) and the storage slot. It models the click handler,
  the load-time replay (`displayAll`) and page start-up. It proves that the
  page and the storage agree with the ledger, and that reloading restores the
  same session. Both hold for descriptions without markup and for storage
  with one writer that never fails (see "Left out").

Amounts are already-parsed `real` numbers. The kind is the two-valued
enum `Kind`. `UpdateSummary` alone takes the type as a string, so that its
branch for an unrecognised type is modelled too.

The description check is `!desc`. Only the empty string is rejected; a
whitespace-only description is accepted.

## Model

| member | source | states |
|---|---|---|
| `Ledger.UpdateSummary` | script.js:46-57 | An expense adds the amount to `exp` and subtracts it from `bal`. An income adds it to `inc` and `bal`. Any other type leaves the record unchanged. The lists are never touched, and `bal - (inc - exp)` is preserved in every case. The call to `updateTotalValues` at the end of the function is modelled in `Page.AddNewTransaction`. |
| `Ledger.WithEntries` | script.js:129 | Replacing the list of one kind leaves the other list and all three totals unchanged. |
| `Ledger.Validate` | script.js:108-119 | The description is checked first, by emptiness only; the amount is checked only after that. The result is valid exactly when the description is non-empty and the amount is positive. An empty description is reported on the description field even if the amount is also bad. |
| `Ledger.Submit` | script.js:96-132 | Rejects exactly when the description is empty or the amount is `<= 0`, naming the first failing field. On acceptance, the list of the submitted kind gains exactly one entry at its end: `{no: len + 1, desc, amt}`. Its earlier entries and the other list are unchanged. The matching total and the balance move by the amount. |
| `Ledger.Step` | script.js:110-132 | A rejected submission leaves the record untouched. Neither total ever decreases. An accepted submission strictly raises the total of its own kind and leaves the other total as it was. |
| `History.SumNonNegative` | script.js:116-119 | A list whose entries all passed the amount check sums to a non-negative total, and to a positive total when it is non-empty. |
| `History.FreshIsValid` | script.js:191-197 | The fresh record has zero totals and empty lists, so it satisfies the ledger invariant. |
| `History.AppendWellFormed` | script.js:122-129 | Appending an entry numbered `len + 1` with a validated description and amount keeps a list numbered 1..N with all entries valid. |
| `History.StepKeepsValid` | script.js:110-132 | Any submission, accepted or rejected, preserves the ledger invariant. The invariant says: balance is income minus expense, each total is the sum of its list, lists are numbered 1..N, and entries are valid. |
| `History.RunValid` | script.js:191-197 | Every record reached from the fresh one by any sequence of submissions satisfies the ledger invariant. |
| `History.RunTotals` | script.js:46-59 | In every reachable record, `inc` and `exp` are non-negative and `bal == inc - exp`. |
| `History.RunPrefix` | script.js:129 | Later submissions only extend the lists and only raise the totals. The lists after a prefix of the submissions are prefixes of the lists after all of them. |
| `History.RunAppend` | script.js:172 | Replaying one sequence of submissions and then another gives the same record as replaying their concatenation. |
| `History.RunEntries` | script.js:122-129 | Each list of a reachable record holds exactly the accepted submissions of its kind, in submission order, with entry `i` numbered `i + 1`. |
| `History.SalaryThenRent` | script.js:122-132 | Income "Salary" 1000 followed by expense "Rent" 300 from the fresh record gives `inc` 1000, `exp` 300, `bal` 700, and one entry numbered 1 in each list. |
| `Page.UpdateTotalValues` | script.js:38-42 | The summary slots receive income, expense and balance; the tables are unchanged. |
| `Page.AddTransactionToPage` | script.js:63-85 | The table of the given kind is revealed, and the row is appended at its end. The other table and the summary are unchanged. |
| `Page.AddRows` | script.js:160-161 | Adding a list of rows one by one appends exactly that list, in order, to the table of that kind. The table is revealed if any row was added, and nothing else changes. |
| `Page.DisplayAll` | script.js:155-162 | The replay writes the record's totals into the summary. It appends all income entries to the income table and all expense entries to the expense table, in stored order. |
| `Page.Startup` | script.js:184-197 | With nothing stored the session uses the fresh record. With a stored record it uses that record as is. In both cases the page shows exactly the session's record. |
| `Page.AddNewTransaction` | script.js:96-144 | A rejected click changes nothing. An accepted click does the following: the ledger takes the `Submit` result; storage holds the new ledger; the summary shows the new totals; the new entry is appended to its table, which is revealed; and the other table is unchanged. |
| `Page.StartupIsConsistent` | script.js:184-197 | Right after page load, the page shows the ledger. Storage either holds the ledger or is empty while the ledger is fresh. |
| `Page.AddNewTransactionKeepsConsistent` | script.js:129-143 | A click keeps the page and the storage consistent with the ledger. |
| `Page.ReloadRestores` | script.js:184-188 | Reloading a consistent session rebuilds the same ledger, page and storage. The load-time replay shows what the clicks built. |
| `Page.SessionRunConsistent` | script.js:172 | After any sequence of clicks from page load, the session is consistent. Its ledger equals the ledger-only replay of the same submissions. |
| `Page.FreshSessionValid` | script.js:191-197 | Starting with nothing stored, every session's ledger satisfies the ledger invariant. |
| `Page.TwoSessions` | script.js:184-188 | A record saved by one session and loaded by the next still satisfies the ledger invariant. The second session continues the first: its ledger is the replay of both sessions' submissions from the fresh record. |

## Left out

- Currency formatting with `Intl.NumberFormat` (script.js:31-34): it is a locale-dependent library call. The summary slots and table rows hold the raw numbers that would be formatted.
- The expense percentage `Math.round(exp / inc * 100)` (script.js:40): it is floating-point, display only, and not finite when income is 0.
- Floating-point arithmetic: amounts and totals are exact reals, so rounding in the sums is not modelled. `bal == inc - exp` therefore holds in exact arithmetic only. With IEEE doubles, income 0.1, then expense 0.2, then income 0.2 leaves `bal` at 0.1 while `inc - exp` is 0.10000000000000003.
- String-to-number coercion of the amount field (script.js:106): the amount is taken as already parsed. `NaN` would pass the `amt <= 0` check, which is a floating-point artefact.
- No radio button checked (script.js:100): the kind is a two-valued enum, so the undefined type that would throw at script.js:123 cannot arise.
- DOM work: element lookup (script.js:8-20), row HTML and opacity (script.js:73-83, abstracted as a table row list and a revealed flag), error border and placeholder (script.js:89-92, script.js:148-151; a rejection only names its field), form reset and blur (script.js:138-140), event listener wiring (script.js:172-176), page fade-in (script.js:200).
- JSON serialisation and `localStorage` (script.js:143, script.js:184): the storage slot holds the ledger value itself. The JSON round trip is taken to be lossless. A stored record is not validated on load (script.js:187-188), so the invariants of `History` do not cover a record the page did not write itself. Records the page saved are covered across reloads (`Page.TwoSessions`).
- The initial state of the page comes from markup that is not part of this model. The blank page's tables are taken to start empty and hidden, and its summary slots to read as the fresh record's zero totals.
- Descriptions are inserted into the table as raw HTML (script.js:77-83), without escaping. The table-as-list-of-entries abstraction, and with it the claim that the page agrees with the ledger, holds only for descriptions without markup. A description such as `a</td></tr><tr><td>b` adds two rows in the page but one entry here, and markup with script handlers runs again on every load.
- Storage is assumed to have a single writer and never to fail. `localStorage.setItem` (script.js:143) runs after the ledger, the summary and the table have changed. If it throws, for example on a full quota, storage falls behind the ledger. Two tabs loaded from the same record each save their own ledger, and a reload shows only the one that saved last. `Page.AddNewTransaction`, `Page.Consistent`, `Page.ReloadRestores` and `Page.TwoSessions` hold only under this assumption.
