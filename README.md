# Currency-converting ATM, modelled in Dafny

The repository is a small web ATM. An `Account` holds one balance that starts
at 1000. Deposits are added unconditionally. A withdrawal is subtracted only
when the balance covers it, and is otherwise ignored without any signal. An
`ATM` class sits in front of the account. It converts `(amount, currency)`
requests into Canadian dollars (CAD) with a fixed rate table and hands the
converted amount to the account. The rates are USD 2, MXN 0.1, EUR 4 and CAD 1.
The repository has two copies of the `ATM` class, `Services/ATM.cs` and
`Models/ATM.cs`, which behave the same.

Files:

- `atm_errors.dfy` (module `AtmErrors`): the failure value `UnknownCurrency`,
  a `Result` for conversions and an `Outcome` for ATM requests.
- `account.dfy` (module `Accounts`): the `Account` class with a mutable
  `accountBalance` field. It also holds the value-level functions
  `Deposited` and `Withdrawn` that specify its methods, and a `Replay` of any
  sequence of calls, used to state the non-negativity invariant.
- `services_atm.dfy` (module `ServicesAtm`): the service ATM. It has the rate
  table, `ConvertToCAD`, the `ATM` class, and `Forward`, which says which
  account call each `(amount, currency)` request becomes. A client `Session`
  runs deposit 50 USD, withdraw 200 EUR, withdraw 1000 CAD and deposit 5 GBP
  on a new ATM.
- `models_atm.dfy` (module `ModelsAtm`): the second ATM class, with its own
  table and conversion, and the lemma `SameAsServices` showing that both
  classes agree.

Amounts and rates are exact `real`s, where the C# code uses single-precision
`float`. The sample amounts (10 MXN, 50 USD, 200 EUR) happen to come out
exactly in `float` too, but others do not: 3 MXN is 0.3 here and 0.30000001f
in C#, and 1000 plus 3 MXN is 1000.3 here and 1000.2999878f in C#.

A currency missing from the table makes the C# dictionary indexer throw
before the account is touched. Here that case is an explicit
`Fail(UnknownCurrency)` outcome, and the balance stays unchanged. A known
currency gives `Pass`, including a withdrawal the account ignored. This matches
the C# code, which signals nothing in that case.

There is no persistence: `Models/Account.cs:5` keeps the balance in an
in-memory field initialised to 1000, and nothing loads or saves it.

`balance >= 0` holds only while callers deposit non-negative amounts, since
`deposit` validates nothing. `ReplayStaysNonNegative` proves this for any
sequence of account calls, and `AtmStaysNonNegative` for any sequence of ATM
requests. `NegativeDepositOverdraws` shows a single negative deposit breaking
it.
Likewise, a deposit followed by a withdrawal of the same amount restores the
balance only when the balance was non-negative (`DepositThenWithdraw`, and
`DepositThenWithdrawRequest` for ATM requests).

## Model

| member | source | states |
|---|---|---|
| Accounts.Account.constructor | Models/Account.cs:5 | a new account holds exactly 1000 |
| Accounts.Account.Deposit | Models/Account.cs:7-10 | the new balance is the old one plus the amount, for any amount, with no validation |
| Accounts.Account.Withdraw | Models/Account.cs:12-18 | when the old balance is at least the amount it drops by exactly the amount; otherwise it is unchanged; a non-negative balance stays non-negative |
| Accounts.Account.GetBalance | Models/Account.cs:20-23 | returns the current balance and changes nothing |
| Accounts.Deposited | Models/Account.cs:9 | a non-negative deposit never lowers the balance and keeps a non-negative balance non-negative; afterwards the same amount can be withdrawn exactly when the old balance was non-negative |
| Accounts.Withdrawn | Models/Account.cs:14-17 | a covered withdrawal debits exactly the amount; an uncovered one changes nothing; whenever the balance changes the result is non-negative; a non-negative balance stays non-negative |
| Accounts.DepositThenWithdraw | Models/Account.cs:9-16 | deposit then withdrawal of the same amount restores a non-negative balance; from a negative balance the withdrawal is rejected and the deposit remains |
| Accounts.ReplayStaysNonNegative | Models/Account.cs:7-18 | starting from a non-negative balance, any sequence of deposits and withdrawals whose deposits are non-negative ends with a non-negative balance |
| Accounts.NegativeDepositOverdraws | Models/Account.cs:9 | a deposit of -2000 into a new account leaves -1000, so non-negativity depends on the callers |
| ServicesAtm.RatesTable | Services/ATM.cs:21-27 | the table maps exactly USD to 2, MXN to 0.1, EUR to 4 and CAD to 1, all positive |
| ServicesAtm.ConvertToCAD | Services/ATM.cs:76-80 | a known currency gives the amount times its rate, with the amount's sign kept and CAD the identity; an unknown currency fails with UnknownCurrency |
| ServicesAtm.ConvertExamples | Services/ATM.cs:21-27 | 10 MXN is 1 CAD, 50 USD is 100 CAD, 200 EUR is 800 CAD, and GBP is unknown |
| ServicesAtm.Forward | Services/ATM.cs:53-80 | an unknown currency reaches the account as no call at all; a known one as one call of the same kind (deposit or withdrawal) for amount times rate |
| ServicesAtm.ForwardedDepositsNonNegative | Services/ATM.cs:53-80 | non-negative deposit requests become only non-negative account deposits, in any sequence of requests |
| ServicesAtm.AtmStaysNonNegative | Services/ATM.cs:53-68 | from a non-negative balance, any sequence of requests whose deposits are non-negative, in any currencies and with any withdrawal amounts, leaves the balance non-negative |
| ServicesAtm.DepositThenWithdrawRequest | Services/ATM.cs:53-68 | depositing then withdrawing the same amount in the same known currency restores a non-negative balance; from a negative balance the converted deposit stays; an unknown currency changes nothing |
| ServicesAtm.WithdrawGuardInCurrency | Services/ATM.cs:64-68 | a withdrawal is accepted exactly when the requested amount is at most the balance divided by the currency's rate |
| ServicesAtm.GuardUsesConvertedAmount | Services/ATM.cs:64-68 | the guard checks the converted amount: 300 EUR is refused from 1000 even though 300 is at most 1000 |
| ServicesAtm.ATM.constructor | Services/ATM.cs:33-37 | a new ATM owns a freshly created account at balance 1000 |
| ServicesAtm.ATM.GetBalance | Services/ATM.cs:43-46 | returns the owned account's balance and changes nothing |
| ServicesAtm.ATM.Deposit | Services/ATM.cs:53-57 | a known currency raises the balance by exactly amount times rate; an unknown one fails and leaves the balance unchanged; the new balance is the old one after the calls `Forward` gives for the request |
| ServicesAtm.ATM.Withdraw | Services/ATM.cs:64-68 | a known currency lowers the balance by amount times rate when the balance covers that converted amount, and otherwise leaves it; an unknown one fails and leaves it unchanged; the new balance is the old one after the calls `Forward` gives for the request |
| ServicesAtm.Session | Services/ATM.cs:33-68 | on a new ATM: deposit 50 USD gives 1100, withdraw 200 EUR gives 300, withdraw 1000 CAD is ignored (300), deposit 5 GBP fails (300) |
| ModelsAtm.RatesTable | Models/ATM.cs:6-12 | the table maps exactly USD to 2, MXN to 0.1, EUR to 4 and CAD to 1, all positive |
| ModelsAtm.ConvertToCAD | Models/ATM.cs:35-38 | a known currency gives the amount times its rate, with the amount's sign kept and CAD the identity; an unknown currency fails with UnknownCurrency |
| ModelsAtm.SameAsServices | Models/ATM.cs:6-38 | this class's table and conversion equal the service class's, so both ATMs treat every request alike |
| ModelsAtm.ATM.constructor | Models/ATM.cs:14-17 | a new ATM owns a freshly created account at balance 1000 |
| ModelsAtm.ATM.GetBalance | Models/ATM.cs:19-22 | returns the owned account's balance and changes nothing |
| ModelsAtm.ATM.Deposit | Models/ATM.cs:24-27 | a known currency raises the balance by exactly amount times rate; an unknown one fails and leaves the balance unchanged |
| ModelsAtm.ATM.Withdraw | Models/ATM.cs:30-33 | a known currency lowers the balance by amount times rate when the balance covers that converted amount, and otherwise leaves it; an unknown one fails and leaves it unchanged |

## Left out

- Single-precision floating point: amounts and rates are exact reals. Rounding is not modelled (0.1f is not exact, so 3 MXN is 0.30000001f in C#). Overflow to infinity is not modelled. NaN is not modelled either: in C# a NaN deposit leaves the balance NaN for good, and every later withdrawal is silently ignored because `accountBalance >= amount` is false.
- The exceptions raised for a bad currency: an unknown code throws `KeyNotFoundException` and a null code throws `ArgumentNullException`. Only the outcome is modelled, as `Fail(UnknownCurrency)` with the balance untouched; a currency here is a string and cannot be null.
- File persistence of the balance: the code has none; the account is an in-memory field.
- The rate table as a per-instance field: it is a module constant, since every instance builds the same table and nothing changes it.
- The Razor page handler `Pages/Index.cshtml.cs`: HTTP plumbing that only forwards to `ATM`.
- Concurrency between page instances: the code has none.
