# Monthly Kharcha ledger, modelled in Dafny

Monthly Kharcha is a desktop expense tracker for a shared flat. Each month has a
roster of roommates and a list of expenses. Each expense records a category, a
description, an amount, the roommate who paid and the roommates who share it.
From those the application derives a balance for each roommate: what they paid
minus their even share of everything they took part in. The monthly summary
also totals the amounts per category.

This project models that ledger logic of the `MonthlyKharcha` class:

- `map_sum.dfy` (module `MapSum`): the sum of the values of a finite map, and
  the order-independence facts used below.
- `kharcha.dfy` (module `MonthlyKharcha`):
  - the `Expense` record;
  - the reference definition of the balances (`Paid`, `Owed`, `Balances`);
  - the step the recomputation loop takes per expense (`Debit`, `Apply`);
  - the recomputation itself, as methods with loops (`DebitSharers`,
    `ApplyExpense`, `ComputeBalances`);
  - a `Ledger` class with the roster, the expense list and the stored balances
    as fields, whose methods model `update_balances`, `add_expense`, the
    category-total loop of `calculate_summary`, `add_roommate` and
    `remove_roommate`.

Amounts are `real`. The zero-sum law is exact over the reals; the application
uses binary floating point, whose rounding is not modelled.

Where the ledger logic raises an exception the model reports it. A
`KeyError` or `ZeroDivisionError` during recomputation gives `ok == false` and
leaves the stored balances unchanged. A `ValueError` in `add_expense` is an
`AddError`. The one exception raised by the dialog code rather than the ledger
logic, in `add_roommate`, is listed under "Left out".

Notable behaviours of the code, which the model follows:

- The code accepts any amount that `float()` parses, including zero and
  negative amounts. It does not evaluate arithmetic expressions.
- Adding a roommate who is already on the roster is silently ignored, not
  reported as an error. Adding a roommate does not give them a balance at
  once. In the model, the next successful recomputation gives them one. In the
  code, that recomputation raises in the display loop for a roommate added
  after the window was built, so no balance is stored for them (see the
  `MonthlyKharcha.Ledger.UpdateBalances` line under "Left out").
- After a roommate who appears in an expense is removed from a roster that
  held the name once, recomputation raises a `KeyError` until the name is
  added back. The history does not go on counting
  against the remaining roster (`RemovedNameBreaksRecompute`).
- In `add_expense`, that `KeyError` escapes the `ValueError` handler after the
  expense has been appended. The expense therefore stays in the list and the
  stored balances go stale (`AddOutcome.Recorded(false)`).

## Model

| member | source | states |
|---|---|---|
| `MonthlyKharcha.Sharers` | monthly_kharcha/main.py:196 | The sharer filter yields at most one name per flag; membership, emptiness and order are stated by `SharersMembers` and `SharersAppend` |
| `MonthlyKharcha.Share` | monthly_kharcha/main.py:230 | The even split: k shares of amount/k add back up to exactly the amount |
| `MonthlyKharcha.Debit` | monthly_kharcha/main.py:236-237 | Debiting the sharers keeps the set of names with a balance; the per-name effect is stated by `DebitAt` |
| `MonthlyKharcha.Apply` | monthly_kharcha/main.py:227-237 | One expense keeps the set of names with a balance; the per-name effect is stated by `ApplyAt` and `ApplyNet`, the conservation by `TotalApply` |
| `MonthlyKharcha.ComputeBalances` | monthly_kharcha/main.py:221-237 | Succeeds exactly when every expense has a non-empty sharer list and a payer and sharers on the roster; the result then equals the reference balances (paid minus owed, one key per roommate) and sums to zero |
| `MonthlyKharcha.ApplyExpense` | monthly_kharcha/main.py:227-237 | One loop pass fails exactly on an empty sharer list or a payer or sharer without a balance; otherwise it is the step `Apply` |
| `MonthlyKharcha.DebitSharers` | monthly_kharcha/main.py:236-237 | The inner loop fails exactly when some sharer has no balance; otherwise it debits every listed sharer by the share |
| `MonthlyKharcha.DebitAt` | monthly_kharcha/main.py:236-237 | Each name loses the share once for every time it is listed, and nothing else changes |
| `MonthlyKharcha.ApplyAt` | monthly_kharcha/main.py:227-237 | One expense credits the payer the full amount and debits every listed sharer amount/k |
| `MonthlyKharcha.ApplyNet` | monthly_kharcha/main.py:230-237 | With distinct sharers: a sharing payer nets amount - amount/k, a non-sharing payer nets amount, another sharer nets -amount/k, anyone else 0 |
| `MonthlyKharcha.BalancesStep` | monthly_kharcha/main.py:226-237 | Applying the step to the balances of a prefix gives the reference balances of the longer list, so the fold computes paid minus owed |
| `MonthlyKharcha.TotalApply` | monthly_kharcha/main.py:227-237 | An expense leaves the sum of all balances unchanged: the payer's credit equals the debits handed out |
| `MonthlyKharcha.ZeroSum` | monthly_kharcha/main.py:223-237 | When every payer and sharer is a roommate and no sharer list is empty, the balances sum to exactly zero |
| `MonthlyKharcha.ThreeWaySplit` | monthly_kharcha/main.py:221-237 | A pays 300 shared by A, B, C gives A +200, B -100, C -100 |
| `MonthlyKharcha.Ledger.UpdateBalances` | monthly_kharcha/main.py:221-247 | On success the stored balances are rebuilt from roster and expenses alone (the old ones play no part) and sum to zero; on failure they are unchanged |
| `MonthlyKharcha.RecomputeIsIdempotent` | monthly_kharcha/main.py:221-247 | Recomputing twice gives the same outcome and the same balances, and changes neither roster nor expenses |
| `MonthlyKharcha.SharersMembers` | monthly_kharcha/main.py:196-198 | A name is a sharer exactly when one of its flags is set; the list is empty exactly when no flag is set |
| `MonthlyKharcha.SharersAppend` | monthly_kharcha/main.py:196 | The sharer filter distributes over concatenation, so it keeps the flags' order |
| `MonthlyKharcha.SharersDistinct` | monthly_kharcha/main.py:196 | Flags with distinct names (a dictionary) give a sharer list without repetitions |
| `MonthlyKharcha.Ledger.AddExpense` | monthly_kharcha/main.py:189-210 | Rejects an unparsable amount, then an empty category, description or payer, then an empty sharer set, in that order, leaving expenses and balances unchanged; otherwise appends exactly one record with the filtered sharers, keeps earlier records, and recomputes when the history is consistent |
| `MonthlyKharcha.AdmittedExpenseConsistent` | monthly_kharcha/main.py:192-210 | An admitted expense whose payer and ticked names are roommates keeps a consistent history consistent, so the recomputation after it succeeds |
| `MonthlyKharcha.Ledger.CategoryTotals` | monthly_kharcha/main.py:249-253 | Succeeds exactly when every expense's category is a known category; the totals then have one key per category, each the sum of that category's amounts, and together sum to the sum of all amounts |
| `MonthlyKharcha.TallyStep` | monthly_kharcha/main.py:252-253 | Adding one expense's amount to its category keeps per-category sums and the grand total |
| `MonthlyKharcha.Ledger.AddRoommate` | monthly_kharcha/main.py:285-289 | Appends the name only when it is non-empty and absent; a roster without repetitions stays without; expenses and balances are untouched |
| `MonthlyKharcha.Ledger.RemoveRoommate` | monthly_kharcha/main.py:293-298 | With a selection removes the first occurrence of the selected name, otherwise nothing; expenses and balances are untouched |
| `MonthlyKharcha.IndexOf` | monthly_kharcha/main.py:297 | The position found is an occurrence of the name with none before it |
| `MonthlyKharcha.RemoveFirst` | monthly_kharcha/main.py:297 | Removal shortens the roster by one and takes exactly one copy of the name out of its multiset; with `RemoveFirstAt`, every other name is kept in order |
| `MonthlyKharcha.RemoveFirstAt` | monthly_kharcha/main.py:297 | The result is the roster with the element at the name's first position taken out: the names before it keep their places and the names after it move up by one |
| `MonthlyKharcha.RemoveFirstDistinct` | monthly_kharcha/main.py:297 | On a roster without repetitions the name is gone afterwards, the roster stays without repetitions, and its name set loses exactly that name |
| `MonthlyKharcha.RemovedNameBreaksRecompute` | monthly_kharcha/main.py:297-298 | When the roster held the name once, removing a roommate who paid or shared an expense makes recomputation fail until the name is added back |
| `MonthlyKharcha.Ledger.Init` | monthly_kharcha/main.py:52-64 | A new month has no expenses and a zero balance for every roommate |
| `MonthlyKharcha.Ledger.Load` | monthly_kharcha/main.py:36-45 | A loaded month holds the roster, expenses and balances as saved |

## Left out

- `MonthlyKharcha.Ledger.UpdateBalances`: does not model the display loop (main.py:239-244). That loop looks up a label for every roommate. For a roommate added after the window was built, this raises a `KeyError` before the balances are stored. The model stores them.
- Saving to and loading from the month's JSON file (main.py:18-19, 36-69, 211, 247, 290, 299): file I/O. A constructor stands for the loaded or freshly initialised data. Write failures are not modelled.
- `float()` parsing (main.py:191): the amount arrives already parsed as `Option<real>`; `None` is a parse failure. Infinities and NaN, which `float()` accepts, have no counterpart in `real`.
- `datetime.now()` (main.py:206): the formatted date is a parameter.
- `MonthlyKharcha.Ledger.AddRoommate`: models lines 287-289 given the name the dialog returns. As written, line 286 calls `tk.simpledialog.askstring` while the file imports only `tkinter`, `ttk` and `messagebox`; `tkinter` does not load its `simpledialog` submodule by itself, so unless some other code has imported it, line 286 raises `AttributeError` and the roster stays as it was. The model appends the name, as the code evidently intends.
- Tkinter widgets, message boxes, dialogs and list boxes: UI. The sharer flags, the typed payer and category, the dialog's name (a cancelled dialog counts as an empty name) and the list-box selection (an index into the roster, which the list box shows in order) are parameters.
- The summary refresh after a successful `add_expense` (main.py:215-216), the summary text and its date-sorted breakdown (main.py:255-283), and PDF export (main.py:307-349): presentation only.
- Settling debts, archiving a month, and editing or deleting an expense: none of these exists in main.py, so none is modelled.
- setup.py: packaging metadata only.
