# In-memory bank bookkeeping, modelled in Dafny

This project models the small bookkeeping component in `SophisticatedCode.js`.

- A `Bank` keeps an ordered list of `Account` objects. It can create an account, close an account, and transfer funds between two accounts, which it finds by id.
- An `Account` gets its id from a class-wide counter (`Account.lastId`). It holds a balance and an append-only list of transaction records. It offers `deposit`, `withdraw` and `getStatement`.

The model keeps the source's shape:

- `Accounts.Account` and `Banking.Bank` are classes whose methods update fields in place.
- The static counter becomes an explicit `Accounts.IdCounter` object. The bank holds it, and every account construction increments it.
- Each guarded operation returns an `Outcomes.Outcome`: `Ok`, or `Fail` with `InvalidAmount`, `InsufficientFunds` or `AccountNotFound`. This stands for the thrown `Error`. The guard is checked before anything changes, as in the source.
- `findIndex`/`find` and `getStatement` are pure functions.

Deposit, withdraw and transfer are proved against specification functions. Account creation and closure state their new state outright (the appended account, the spliced list):

- `Ledger.Deposited` and `Ledger.Withdrawn` specify deposit and withdraw on the value `Books(balance, log)`.
- `Banking.Transferred` specifies transfer on the sequence of balances.
- Lemmas state what these functions promise:
  - the log is append-only;
  - the balance moves by exactly the net of the added records;
  - a transfer conserves the total;
  - the statement reads back as the log (a property stated in the contracts of the statement functions themselves).

Files:

- `outcomes.dfy`: error kinds, `Outcome`, `Option`.
- `ledger.dfy`: transaction records, and deposit/withdraw as steps on an account's books. It also covers runs of such steps.
- `statement.dfy`: the `getStatement` text, and a reader for it.
- `accounts.dfy`: the `IdCounter` and `Account` classes.
- `banking.dfy`: search by id, removal, the transfer specification and the `Bank` class.

## Model

| member | source | states |
|---|---|---|
| `Ledger.Deposited` | SophisticatedCode.js:53-60 | A deposit fails with InvalidAmount exactly when amount <= 0, and then nothing changes. Otherwise the balance rises by exactly amount and one Deposit record is appended after the old log. |
| `Ledger.Withdrawn` | SophisticatedCode.js:62-69 | A withdrawal fails with InsufficientFunds exactly when amount > balance, and then nothing changes. The sign of the amount is not checked: a zero or negative amount succeeds whenever it is not above the balance (which can itself be negative, through the unchecked initial balance or a transfer). Otherwise the new balance is balance - amount, which is >= 0, and one Withdrawal record is appended. |
| `Ledger.StepKeepsLedgerBalanced` | SophisticatedCode.js:53-69 | Deposit and withdraw leave unchanged the part of the balance that the log does not account for (balance minus the signed sum of the records). |
| `Ledger.RunAppendsOnly` | SophisticatedCode.js:53-69 | After any series of deposits and withdrawals, the old log is a prefix of the new one. Exactly one record was added per successful call. |
| `Ledger.RunKeepsLedgerBalanced` | SophisticatedCode.js:53-69 | Over any series of deposits and withdrawals, balance minus the net of the log stays constant. |
| `Ledger.RunMovesBalanceByAddedRecords` | SophisticatedCode.js:58-68 | After any series of calls, the balance equals the old balance plus the net of exactly the records that were added. |
| `Ledger.RunKeepsNonNegative` | SophisticatedCode.js:62-68 | An account that starts with a non-negative balance never goes negative through its own deposits and withdrawals. |
| `Ledger.RunKeepsDepositsPositive` | SophisticatedCode.js:53-59 | If every Deposit record in the log has a positive amount, that stays true after any series of calls. |
| `Statement.NatDigitsRoundTrip` | SophisticatedCode.js:72 | Reading back the decimal digits written for a natural number gives the number. |
| `Statement.Decimal` | SophisticatedCode.js:72 | An amount as written in a statement line holds only a minus sign and digits, and it reads back as the same integer. |
| `Statement.Line` | SophisticatedCode.js:72 | A line `"<type>: $<amount>"` holds no newline, and it reads back as the record it shows: the same type and the same amount. |
| `Statement.Join` | SophisticatedCode.js:72 | `join("\n")`: for a non-empty list of lines without newlines, splitting the result at newlines gives back exactly that list. The result is at least as long as the first line. |
| `Statement.Lines` | SophisticatedCode.js:72 | The `map` step gives one line per record, in log order. |
| `Statement.Render` | SophisticatedCode.js:71-73 | The statement text is the empty string exactly when there are no records. It loses nothing: reading it back gives the whole log, in order. |
| `Statement.StatementOfDepositThenWithdrawal` | SophisticatedCode.js:71-73 | A deposit of 500 then a withdrawal of 200 render as exactly `"Deposit: $500"`, a newline, then `"Withdrawal: $200"`. |
| `Accounts.IdCounter.constructor` | SophisticatedCode.js:44 | The id counter starts at 0. |
| `Accounts.Account.constructor` | SophisticatedCode.js:46-51 | A new account raises the shared counter by exactly one and takes the new value as its id. It keeps its name and the unchecked initial balance, and its transaction log is empty. |
| `Accounts.Account.Deposit` | SophisticatedCode.js:53-60 | The outcome and the new balance and log are exactly what `Ledger.Deposited` gives for the old ones. |
| `Accounts.Account.Withdraw` | SophisticatedCode.js:62-69 | The outcome and the new balance and log are exactly what `Ledger.Withdrawn` gives for the old ones. |
| `Accounts.Account.GetStatement` | SophisticatedCode.js:71-73 | The statement is empty exactly when there are no transactions, and it reads back as the transaction log. |
| `Banking.FindIndex` | SophisticatedCode.js:20 | Returns -1 exactly when no account has the id. Otherwise it returns the position of the first account with that id. |
| `Banking.Find` | SophisticatedCode.js:27-28 | Returns nothing exactly when no account has the id, that is, when `FindIndex` gives -1. Otherwise it returns the first account with that id, the one at the position `FindIndex` finds. |
| `Banking.RemoveAt` | SophisticatedCode.js:22 | `splice(i, 1)`: one element fewer, the elements before i in place, and those after i moved down by one in the same order. |
| `Banking.FindIndexOfMember` | SophisticatedCode.js:20 | With increasing ids, looking up an account's own id finds that account's position. |
| `Banking.DistinctPositionsDistinctAccounts` | SophisticatedCode.js:47 | With increasing ids, two positions never hold the same account object. |
| `Banking.AppendKeepsIdsIncreasing` | SophisticatedCode.js:13-17 | Appending an account whose id exceeds every present id keeps the ids increasing. The new account is then found at the end. |
| `Banking.RemoveFirstMatch` | SophisticatedCode.js:19-24 | Removing the first match of a present id keeps the ids increasing. Afterwards the id is absent, and every account with another id remains. |
| `Banking.SumUpdate` | SophisticatedCode.js:38-39 | Changing one balance changes the total by exactly the difference. |
| `Banking.Transferred` | SophisticatedCode.js:26-40 | A transfer fails with AccountNotFound exactly when either lookup fails. It fails with InsufficientFunds exactly when both are found and the source balance is below the amount. It succeeds exactly when both are found and the source balance is at least the amount, and the new balances are then the source debited and the target credited (`DebitThenCredit`). A failure changes no balance. |
| `Banking.DebitThenCredit` | SophisticatedCode.js:38-39 | Between two different positions, the source balance drops by the amount and the target rises by it. For a transfer to the same position nothing changes. Every other balance stays as it was. |
| `Banking.DebitThenCreditConserves` | SophisticatedCode.js:38-39 | Subtracting the amount at the source position and then adding it at the target position keeps the total. |
| `Banking.TransferConserves` | SophisticatedCode.js:38-39 | Whatever the outcome, a transfer keeps the sum of all balances unchanged. |
| `Banking.TransferBetweenTwo` | SophisticatedCode.js:38-39 | A successful transfer between two different accounts debits the source by the amount and credits the target by the amount. No other balance changes. |
| `Banking.TransferToSelf` | SophisticatedCode.js:38-39 | A successful transfer from an account to itself leaves every balance as it was. |
| `Banking.TransferNegativeAmount` | SophisticatedCode.js:34-39 | The amount is only compared with the source balance. So a negative amount between two accounts succeeds whenever the source balance is not below it. The source then gains, the target loses, and the target goes below zero when its balance is less than the absolute amount. |
| `Banking.Bank.constructor` | SophisticatedCode.js:8-11 | A new bank has its name, the given counter and no accounts, and satisfies the bank invariant. |
| `Banking.Bank.CreateAccount` | SophisticatedCode.js:13-17 | Returns a fresh account with id equal to the old counter + 1, and the counter grows by one. The account has the given name and balance and an empty log. It is appended after the old accounts. The invariant (ids strictly increasing, none above the counter) is kept. |
| `Banking.Bank.CloseAccount` | SophisticatedCode.js:19-24 | If an account has the id, exactly the first match is spliced out. Otherwise the accounts are unchanged. Afterwards no account has the id, the invariant is kept, and the counter and every account object are untouched. |
| `Banking.Bank.MoveFunds` | SophisticatedCode.js:38-39 | The balances become the old ones with the source debited and then the target credited. No transaction log changes, and the bank invariant is kept. |
| `Banking.Bank.TransferFunds` | SophisticatedCode.js:26-40 | The outcome and the new balances are exactly `Banking.Transferred` of the old balances at the two lookup positions. The account list and every transaction log stay the same, and the bank invariant is kept. The total of all balances is conserved. |

## Left out

- Amounts are integers (whole currency units). The source uses JavaScript numbers: floating-point rounding, fractional amounts, `NaN` and the infinities are not modelled.
- `Statement.Decimal`: writes an integer the way JavaScript prints it. Exponent notation (at 1e21 and above) and fractions are not modelled.
- The error message texts are not modelled. Each error is the kind it signals (`InvalidAmount`, `InsufficientFunds`, `AccountNotFound`), returned before any change instead of thrown.
- `Account.lastId` is a process-wide static in the source. Here it is an `IdCounter` object passed to each account's constructor and held by the bank. Accounts created by other banks that share the counter are covered. Code that assigns the counter directly is not.
- `Banking.Bank.TransferFunds`: requires the bank invariant (unique ids). The unguarded source would also act on a list that held one account object twice. Here such a list cannot arise, because accounts only enter through `CreateAccount`.
- The `!fromAccount` / `!toAccount` tests are modelled as "not found". Account objects are always truthy, so nothing else can reach them.
- The bank's and the account's `name` are stored and never used by any operation.
- The usage block at the end of the file (console output) is not part of this model. Its comments disagree with the code in three places:
  - the failed withdrawal of 2000 throws uncaught;
  - the transfer writes no `Withdrawal` record;
  - a closed account's balance stays readable.
  The model follows the code.
- Single-threaded execution is assumed, as in the source. No concurrency is modelled.
