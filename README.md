# Bank account ledger, in Dafny

This project models the account ledger of `jour1_systeme_bancaire.py` and proves properties of it. There are three kinds of account. `BankAccount` is the standard one. `SaveAccount` caps each withdrawal at 5,000. `ProAccount` caps each deposit at 1,000,000 and allows an overdraft down to −50,000. Every account holds a balance and an append-only transaction history. It supports deposits, withdrawals and transfers to another account, and it can be turned into a structured record and rebuilt from one through a registry of type tags.

Modules:

- `Text` (`text.dfy`): Python's `str.strip()` over the characters for which `str.isspace()` holds, and the substring test `in`.
- `Ledger` (`ledger.dfy`): the exceptions, as an `Error` datatype with `Outcome` and `Result` wrappers; `_validate_positive`; the transaction entries; the log invariant `Chained`; the statement's row selection and sign rule.
- `Rules` (`rules.dfy`): each operation as a function on an account value. It returns the new state or the exception raised. These functions are the specification of the class.
- `Persistence` (`persistence.dfy`): the registry (`_register`, `_ACCOUNT_REGISTRY`), `_to_dict`, and the step of `from_json` that turns a record back into an account.
- `Accounts` (`accounts.dfy`): the class `Account`. Its `balance` and `history` fields are updated in place by `Deposit`, `Withdraw` and `Transfer`. Each method's postcondition ties its outcome and new state to the matching `Rules` or `Persistence` function: `Deposit` and `Withdraw` through the predicate `Reflects`, `Transfer`, `Open` and `FromDict` by comparing with that function's result directly.

Modelling choices:

- Balances and amounts are `real`. So the constructor check `balance + 1 > 0` keeps its float meaning: a balance of −0.5 is accepted.
- The three classes are one class with a `kind` field (`Standard`, `Savings`, `Pro`).
- The identity test `target is self` is `target == this` in the class. In `Rules.Transfer` it is the `sameObject` argument.
- The `uuid.uuid4()` and `datetime.now()` values are inputs: a `Stamp(id, date)` per entry, plus the transfer's `ref`.
- A transfer is one atomic step on two distinct objects.

Behaviour of the code worth noting:

- `from_json` calls the constructor, so its balance check runs again. A record with balance ≤ −1 is therefore rejected, and a Pro account whose balance is −1 or lower cannot be restored (one at −0.5 still can). `Persistence.OverdrawnProIsNotRestorable` shows the refusal on a concrete account.
- `transfer` checks the amount before it checks identity. So a self-transfer of a non-positive amount raises the invalid-amount error, not the `BankAccountError` raised for the same object.
- The debit leg of `transfer` checks only `amount > balance`, whatever the variant. A Pro account cannot use its overdraft by transferring, and a Savings account's transfers are not capped. On the credit leg, the target's deposit ceiling is never checked.
- A fresh account may start with any balance above −1, a negative one included.
- The statement lists its rows oldest first, in the order they were recorded.

## Model

| member | source | states |
|---|---|---|
| `Text.Strip` | jour1_systeme_bancaire.py:52-53 | the stripped name is no longer than the input and neither starts nor ends with whitespace |
| `Text.LeadingSpaces` | jour1_systeme_bancaire.py:52 | counts the whitespace prefix: every counted character is whitespace and the next one is not |
| `Text.TrailingSpaces` | jour1_systeme_bancaire.py:52 | counts the whitespace suffix: every counted character is whitespace and the one before is not |
| `Text.StripIsMiddle` | jour1_systeme_bancaire.py:52-53 | the stripped name is a contiguous middle part of the input, with only whitespace before and after it |
| `Text.StripEmptyIffAllSpace` | jour1_systeme_bancaire.py:46-49 | `not s.strip()` holds exactly when every character of `s` is whitespace (the empty string included) |
| `Text.StripIdempotent` | jour1_systeme_bancaire.py:52-53 | stripping a stripped name changes nothing, which is why a restored account keeps its names |
| `Text.StripOfTrimmed` | jour1_systeme_bancaire.py:52-53 | a non-empty name with no whitespace at either end is stored unchanged |
| `Ledger.ValidatePositive` | jour1_systeme_bancaire.py:24-28 | passes exactly when the amount is strictly positive, otherwise raises the invalid-amount error carrying its label and value |
| `Text.Contains` | jour1_systeme_bancaire.py:131 | `pat in s` holds exactly when `pat` occurs in `s` at some position |
| `Text.NotAtStart` | jour1_systeme_bancaire.py:131 | when the pattern does not start the string, it occurs in the string exactly when it occurs in the rest after the first character |
| `Ledger.ContainedAt` | jour1_systeme_bancaire.py:131 | a type name contains every pattern that occurs in it at some position (`"out" in tx["type"]`) |
| `Ledger.MissingCharNotContained` | jour1_systeme_bancaire.py:131 | a type name lacking one of the pattern's characters does not contain the pattern |
| `Ledger.ShownAsDebit` | jour1_systeme_bancaire.py:131 | the statement's `-` sign goes exactly on withdrawal and transfer_out entries |
| `Ledger.OutOnlyInTransferOut` | jour1_systeme_bancaire.py:131 | of the four type names only `transfer_out` contains `"out"` |
| `Ledger.SignMatchesDelta` | jour1_systeme_bancaire.py:131 | the statement prints `-` exactly for the entries that lower the balance (withdrawal, transfer_out) |
| `Ledger.ChainedAppend` | jour1_systeme_bancaire.py:64-70 | appending one entry keeps the log replaying to the balance exactly when the entry's `balance_after` is the new balance |
| `Ledger.StatementRows` | jour1_systeme_bancaire.py:124 | the rows are always a suffix of the history; no limit or a limit of 0 gives all of them, a positive n the last min(n, len) and a negative n all but the first -n |
| `Rules.Open` | jour1_systeme_bancaire.py:40-55 | fails with ValueError on a blank number, then on a blank owner, then with the invalid-amount error when balance ≤ −1; otherwise stores the stripped names, the given balance and an empty history, which is a valid state |
| `Rules.Deposit` | jour1_systeme_bancaire.py:73-77 | a non-positive amount is refused first and a Pro deposit above 1,000,000 next; an accepted one raises the balance by exactly the amount and appends one deposit entry with the new balance, leaving kind and names alone |
| `Rules.Withdraw` | jour1_systeme_bancaire.py:79-87 | accepted iff the amount is positive and the variant allows it; the Savings cap is checked before funds, Pro allows balance − amount ≥ −50,000; an accepted one lowers the balance by the amount, appends one withdrawal entry, and leaves a non-Pro balance ≥ 0 and a Pro balance ≥ −50,000 |
| `Rules.BaseWithdraw` | jour1_systeme_bancaire.py:79-87 | `BankAccount.withdraw`, reached by `SaveAccount.withdraw` through `super()` (line 198): refuses a non-positive amount, then amount > balance; accepted exactly when 0 < amount ≤ balance, and then lowers the balance by the amount to a value ≥ 0 and appends one withdrawal entry with the new balance |
| `Rules.Transfer` | jour1_systeme_bancaire.py:89-114 | refuses a non-positive amount, then the same object (with the base `BankAccountError`, line 96), then amount > source balance, for every variant; an accepted transfer conserves the sum of the two balances, moves exactly the amount, and appends a transfer_out entry naming the target and a transfer_in entry naming the source, both with the same ref and the right balance_after |
| `Rules.DepositPreservesValid` | jour1_systeme_bancaire.py:73-77 | an accepted deposit keeps the names stored and the balance above the variant's floor |
| `Rules.WithdrawPreservesValid` | jour1_systeme_bancaire.py:79-87 | an accepted withdrawal keeps the names stored and the balance above the variant's floor |
| `Rules.TransferPreservesValid` | jour1_systeme_bancaire.py:101-114 | an accepted transfer keeps both accounts valid |
| `Rules.DepositKeepsLogChained` | jour1_systeme_bancaire.py:76-77 | after a deposit the balance is still the opening balance plus the net of the log, and every entry's balance_after is the balance at that point |
| `Rules.WithdrawKeepsLogChained` | jour1_systeme_bancaire.py:86-87 | the same for a withdrawal |
| `Rules.TransferKeepsLogsChained` | jour1_systeme_bancaire.py:105-114 | the same for both legs of a transfer, each against its own account's opening balance |
| `Rules.TransferAppliesOnlyBaseRule` | jour1_systeme_bancaire.py:101 | cases where only the base rule applies: a Pro source that may withdraw an amount cannot transfer it; a Savings source can transfer above the withdrawal cap; a Pro target receives more by transfer than its ceiling allows by deposit |
| `Rules.EntryFor` | jour1_systeme_bancaire.py:76-77 | the entry a deposit or withdrawal request records has the request's type and amount, moves the balance by the request's signed amount, and carries the given balance_after |
| `Rules.Apply` | jour1_systeme_bancaire.py:73-87 | a request is accepted exactly when `deposit` or `withdraw` allows it (positive amount, Pro ceiling, variant's withdrawal rule); an accepted one moves the balance by the request's signed amount, appends the request's own entry with the new balance, and leaves kind and names alone |
| `Rules.RunReplaysFromStart` | jour1_systeme_bancaire.py:73-87 | after any series of deposits and withdrawals, some of them refused, the old log is a prefix of the new one and the new entries replay from the initial balance to the final one: the log stays consistent over the whole run |
| `Rules.RunBalanceIsAcceptedNet` | jour1_systeme_bancaire.py:73-87 | after any series of deposit and withdrawal requests, the final balance is the initial balance plus the accepted deposits minus the accepted withdrawals |
| `Persistence.TypeTag` | jour1_systeme_bancaire.py:142 | the `account_type` tag is the class name: "BankAccount", "SaveAccount" or "ProAccount", one per variant and each only for its own variant |
| `Persistence.Register` | jour1_systeme_bancaire.py:33-35 | adds the class's name as a key that maps to the class, leaving every other key as it was |
| `Persistence.RegisterIdempotent` | jour1_systeme_bancaire.py:33-35 | registering a class twice is the same as registering it once |
| `Persistence.InitialRegistry` | jour1_systeme_bancaire.py:31 | once the module is loaded the registry has exactly the three class names as keys, each mapped to its own class |
| `Persistence.LookupVariant` | jour1_systeme_bancaire.py:164-165 | a registered tag gives back its own class; a missing or unknown tag gives BankAccount |
| `Persistence.ToRecord` | jour1_systeme_bancaire.py:140-147 | the record holds the class name, number, owner, balance and the full history |
| `Persistence.Restore` | jour1_systeme_bancaire.py:162-174 | a missing number key, then a missing owner key, raises KeyError; otherwise it raises exactly what the constructor raises on the stored values (ValueError for a blank name, the invalid-amount error for balance ≤ −1) and succeeds exactly when the constructor accepts them (balance defaults to 0.0); the result has the looked-up variant, stripped names, the stored balance and the stored history (default empty), and is valid |
| `Persistence.RoundTrip` | jour1_systeme_bancaire.py:50 | for an account with stored names, restoring its record gives back the same variant, names, balance and history iff its balance is > −1; otherwise restoring it raises the constructor's invalid-amount error |
| `Persistence.RoundTripOfValidAccount` | jour1_systeme_bancaire.py:140-174 | any valid Standard or Savings account survives the round trip unchanged |
| `Persistence.OverdrawnProIsNotRestorable` | jour1_systeme_bancaire.py:167-172 | a fresh Pro account that withdraws 100 is valid, but its saved record (balance −100, so −1 or lower) is refused on restore |
| `Persistence.UnknownTagRestoresStandard` | jour1_systeme_bancaire.py:164-165 | a record with a missing or unknown account_type restores as a BankAccount |
| `Accounts.Account.Init` | jour1_systeme_bancaire.py:52-55 | the new object's state is the given one |
| `Accounts.Account.Open` | jour1_systeme_bancaire.py:40-55 | raises what `Rules.Open` raises; otherwise returns a fresh valid object whose state is the one `Rules.Open` computes |
| `Accounts.Account.GetBalance` | jour1_systeme_bancaire.py:59-61 | returns the current balance: the `balance` property, and `get_balance` at lines 116-117 |
| `Accounts.Account.GetTransactionHistory` | jour1_systeme_bancaire.py:119-120 | returns the history as a value: a snapshot that later operations do not change |
| `Accounts.Account.Record` | jour1_systeme_bancaire.py:64-70 | appends exactly the one entry and changes nothing else |
| `Accounts.Account.Deposit` | jour1_systeme_bancaire.py:73-77 | outcome and new state are those of `Rules.Deposit` (the state is untouched when it raises), and validity is kept |
| `Accounts.Account.Withdraw` | jour1_systeme_bancaire.py:79-87 | the same against `Rules.Withdraw`, covering all three classes' `withdraw` |
| `Accounts.Account.Transfer` | jour1_systeme_bancaire.py:89-114 | outcome and both new states are those of `Rules.Transfer`, with the identity test as object equality; a refusal leaves both objects unchanged, and two valid distinct accounts stay valid |
| `Accounts.Account.ToDict` | jour1_systeme_bancaire.py:140-147 | the record is `Persistence.ToRecord` of the account's state (type tag, number, owner, balance, history); for a valid account, restoring the record gives back the account's state iff its balance is > −1 |
| `Accounts.Account.FromDict` | jour1_systeme_bancaire.py:161-174 | raises what `Persistence.Restore` raises; otherwise returns a fresh valid object holding the restored state |

The savings cap (lines 189-198), the pro ceiling (lines 205-215), the pro overdraft (lines 217-226) and the final registration of the base class (line 230) are the `Savings` and `Pro` cases of `Rules.Withdraw` and `Rules.Deposit` and the last `Register` of `Persistence.InitialRegistry`.

`Accounts.ExampleRefusedWithdrawal` and `Accounts.ExampleDepositAndTransfer` are client methods that work through a small session using only the contracts above. A standard account holding 100 refuses a withdrawal of 150. After a deposit of 50 it holds 150, with one deposit entry. After a transfer of 100 to an empty account, the two hold 50 and 100, and their two entries share a ref. A transfer to itself is refused.

## Left out

- Thread locks and the `id()`-sorted lock ordering (lines 56, 98-100): the model is sequential, and a transfer is a single atomic step.
- JSON text and files (`to_json`, `save`, `load`, `json.loads`): these are I/O and a foreign library. Only the record ⇄ account mapping is modelled.
- Record values are typed: a JSON `null`, a non-string name or a malformed history entry cannot occur in an `AccountRecord`. So the `TypeError`/`AttributeError` paths and unvalidated history dictionaries are not modelled.
- `_to_dict` hands out the live history list, not a copy, so in Python a later mutation of the record would alias the account. Records in the model are values.
- `uuid.uuid4()` and `datetime.now()`: nondeterministic foreign calls, taken as inputs (`Stamp`, `ref`).
- Float arithmetic: amounts are exact reals, so rounding is not modelled. The `isinstance` number check (line 25) is enforced by the types.
- `statement` and `__repr__` text formatting (lines 122-137, 176-182): this is presentation. Only the row selection (`Ledger.StatementRows`) and the sign rule (`Ledger.ShownAsDebit`, with the lemma `Ledger.SignMatchesDelta` about it) are modelled.
- Exception messages: each error carries the operands that identify the refusal, not the formatted text. The Pro overdraft refusal (lines 220-223) carries the amount and the balance, as the base refusal does; its message quotes the overdraft limit and `balance - amount`, which follow from those.
- The exception hierarchy: `Error` is one flat datatype. In the source every ledger error (invalid amount, insufficient funds, the two limits) is a subclass of `BankAccountError`, and the same-object transfer raises `BankAccountError` itself, while `ValueError` and `KeyError` are not part of that family. An `except BankAccountError` clause that catches the whole family is therefore not modelled.
