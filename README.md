# Bank account model

A Dafny model of the `Account` class in `NewAccount.py`: an in-memory bank
account with a holder's name, a number drawn from a process-wide counter, a
balance, and an append-only transaction log. Deposits and withdrawals check the
amount first and only then change anything. Each successful call appends one
record `(kind, timestamp, balance before, signed amount, balance after)`.
Accounts are equal when their numbers are equal. They are ordered by balance.
The log can be indexed, iterated with a restartable cursor, and read reversed.

Files:

- `wrappers.dfy`: module `Wrappers`, the `Option` type. `None` stands for the
  source's `IndexError` and `StopIteration`.
- `ledger.dfy`: module `Ledger`, the log as values. It defines the record
  type, what makes a log consistent with an opening balance (`Chains`,
  `Legal`), the closing balance, the sum of signed amounts, and `Reverse`.
  It proves the facts that consistency implies.
- `account.dfy`: module `Bank`, with the `Counter` and `Account` classes.
  Their methods update fields in place and carry `modifies` clauses. Their
  functions that read mutable fields carry `reads` clauses. `Equal` and
  `NotEqual` read only the `const` field `number`, so they need none.
  `Account.Valid()` is the invariant that every constructor and method
  keeps: the log is a chain of legal records that runs from the opening
  balance to the current balance.

Modelling choices:

- Money is an `int` counted in the smallest currency unit (paise), so the
  default opening balance of Rs. 500.00 is `50000`.
- Timestamps are opaque strings passed in by the caller.
- The class-level counter `Account.account_number` is an explicit `Counter`
  object passed to the constructor. It starts at 328710100001. Account
  numbers are unique only among accounts opened with the same `Counter`.
  Two counters both start at 328710100001, so accounts opened from different
  counters can be `Equal`. The source has a single class-wide counter, which
  rules this out; a program using the model should share one `Counter`.
- The read-only properties `number`, `name` and `balance` are the fields
  `number` and `name` (both `const`) and `balance`. Only `Deposit` and
  `Withdraw` (and the `+=`/`-=` wrappers) have `balance` in their `modifies`
  clauses.
- The opening balance is a ghost constant `initial`. The invariants are
  stated against it.

## Model

| member | source | states |
|---|---|---|
| Bank.Counter.constructor | NewAccount.py:53-54 | the counter starts at 328710100001 and has handed out no numbers |
| Bank.Counter.NextAccountNumber | NewAccount.py:56-58 | `get_next_account_number` reports one past the counter, which is one past the number the next account receives |
| Bank.Counter.Upcoming | NewAccount.py:65-70 | the number the next account receives: the counter's value, above every number handed out so far |
| Bank.NextAccountNumberSkipsOne | NewAccount.py:57-65 | the reported "next account number" never equals the number the next account actually gets |
| Bank.Account.constructor | NewAccount.py:61-70 | the new account takes the counter's value as its number, and that number is above every earlier one; the counter advances by exactly one; the name and the unchecked opening balance are stored; the log is empty; the cursor is at 0 with an empty snapshot; the invariant holds |
| Bank.Account.Deposit | NewAccount.py:90-100 | succeeds exactly when the amount is positive; on success the balance grows by the amount and exactly one CREDIT record (old balance, amount, new balance) is appended behind the untouched earlier records; on failure balance and log are unchanged; the invariant is kept |
| Bank.Account.Withdraw | NewAccount.py:103-111 | succeeds exactly when balance minus amount is at least 0, with no check on the amount's sign; on success the balance drops by the amount and stays non-negative, and exactly one DEBIT record (old balance, negated amount, new balance) is appended; on failure nothing changes; the invariant is kept |
| Bank.Account.AddAssign | NewAccount.py:121-124 | `+=` has the same effect as a deposit and returns the account itself |
| Bank.Account.SubAssign | NewAccount.py:127-130 | `-=` has the same effect as a withdrawal and returns the account itself |
| Bank.Account.LessOrEqual | NewAccount.py:147-150 | `<=` is the converse of `>=`, and any two accounts are related one way or the other |
| Bank.Account.GreaterOrEqual | NewAccount.py:153-156 | `>=` holds exactly when the other account's balance is at most this one's; numbers play no part |
| Bank.Account.Equal | NewAccount.py:159-162 | `==` holds exactly when the account numbers match, whatever the balances; every account equals itself |
| Bank.Account.NotEqual | NewAccount.py:165-169 | `!=` is always the negation of `==` |
| Bank.Account.Length | NewAccount.py:176-177 | `len` is the number of logged transactions, which is also the length of the reversed log |
| Bank.Account.At | NewAccount.py:180-181 | indexing succeeds exactly for `-len <= i < len`; a non-negative index gives record `i`, a negative one counts from the end; any other index is an IndexError |
| Bank.Account.ReversedLog | NewAccount.py:203-204 | `reversed` has the log's length and holds record `len-1-k` at position `k`; it is a function of the state and changes nothing |
| Bank.Account.Iterate | NewAccount.py:184-187 | `iter` resets the cursor to 0, snapshots the log length and returns the account itself |
| Bank.Account.Next | NewAccount.py:189-195 | `next` yields the record under the cursor and advances it while the cursor is below the snapshot; after that it signals StopIteration and changes nothing |
| Bank.Account.Collect | NewAccount.py:184-195 | a `for` loop over the account yields exactly the log, in order, and then stops |
| Bank.BalanceIsOpeningPlusSum | NewAccount.py:97-109 | after any sequence of deposits and withdrawals, the balance equals the opening balance plus the sum of the logged signed amounts, and every record's after equals its before plus its amount |
| Bank.StaysSolvent | NewAccount.py:106-109 | an account opened with a non-negative balance never has a negative balance, nor a record with a negative balance before or after |
| Bank.NegativeIndexReadsReversed | NewAccount.py:180-204 | `account[-1-k]` is position `k` of `reversed(account)` |
| Bank.DriverScenario | NewAccount.py:244-259 | the driver's Guido account ends at Rs. 6500.00 with four records; it equals itself, differs from Meghna's account, and is `>=` but not `<=` Meghna's Rs. 5000.00 |
| Ledger.Kind.Label | NewAccount.py:98-108 | a credit record is labelled exactly "CREDIT" and a debit record exactly "DEBIT " (with a trailing space), so the two labels differ and have the same width |
| Ledger.ChainsAppend | NewAccount.py:97-109 | appending a record that starts at the closing balance keeps the log chained, and the log then closes on that record's after |
| Ledger.ClosingIsStartPlusSum | NewAccount.py:97-109 | a chained log of balanced records closes on its opening balance plus the sum of its signed amounts |
| Ledger.NeverNegative | NewAccount.py:93-109 | a chained log of legal records that opens at or above 0 never goes below 0 |
| Ledger.Reverse | NewAccount.py:203-204 | the reverse has the same length and holds element `len-1-i` at position `i` |
| Ledger.ReverseInvolution | NewAccount.py:203-204 | reversing the reversed log gives back the log |

## Findings

| source | as written | input that shows it | evidently intended | confidence | as-written member | corrected member |
|---|---|---|---|---|---|---|
| NewAccount.py:57-58 | `get_next_account_number` returns `Account.account_number + 1` | a fresh counter: it reports 328710100002, but the next `Account(...)` receives 328710100001 (line 65) | report the number the next constructed account will receive, the counter itself | medium, not executed | Bank.NextAccountNumberSkipsOne | Bank.Counter.Upcoming |

`Bank.Counter.NextAccountNumber` keeps the source's value. The constructor's
contract states the number it assigns through `Upcoming`.

## Left out

- `TransactionWriter` (the passbook file) is left out. It only opens and closes a file. Note that it closes the file only when the `with` block ends without an exception.
- Console output is left out: `__del__`, `print_cust_details`, `__call__`, the messages printed by `+=` and `-=`, and `__lt__`/`__gt__`, which only print and return nothing.
- `__str__` and `__repr__` are left out. They only format numbers as text.
- Floating-point balances are left out. Money is an exact integer. Under Python floats, both operations recompute the logged "before" after the update: `deposit` as `balance - amount` and `withdraw` as `balance + amount`. Either may differ from the old balance by a rounding error. The model logs the old balance exactly. The chaining and "opening balance plus sum" invariants therefore describe exact arithmetic, not the float program.
- Wall-clock timestamps (`datetime.now()`) are left out. The caller passes the timestamp in.
- `Bank.Account.At` models integer indices only. Python slices (`account[1:3]`) are not modelled.
- Comparing an account with an object that is not an account (an AttributeError in Python) is not modelled. The comparison methods take an `Account`.
- The rest of the driver script (lines 241-284) is left out, apart from the balances and comparisons checked in `Bank.DriverScenario`. It only prints and writes the passbook.
