/**
 * The bank account behind the ATM: one mutable balance, an unconditional
 * deposit and a guarded withdrawal (Models/Account.cs).
 *
 * Amounts are exact reals; C#'s single-precision `float` rounding is not
 * modelled.
 */
module Accounts {

  /** The balance every new account starts with. */
  const InitialBalance: real := 1000.0

  /** The withdrawal guard: the balance covers the amount. */
  predicate Covers(balance: real, amount: real) {
    balance >= amount
  }

  /** The balance after a deposit. No amount is refused, not even a negative one. */
  function Deposited(balance: real, amount: real): (r: real)
    ensures amount >= 0.0 ==> r >= balance
    ensures balance >= 0.0 && amount >= 0.0 ==> r >= 0.0
    ensures Covers(r, amount) <==> balance >= 0.0
  {
    balance + amount
  }

  /** The balance after a withdrawal: debited by exactly the amount when the
      balance covers it, otherwise left as it was. */
  function Withdrawn(balance: real, amount: real): (r: real)
    ensures Covers(balance, amount) ==> r + amount == balance
    ensures !Covers(balance, amount) ==> r == balance
    ensures r != balance ==> Covers(balance, amount) && r >= 0.0
    ensures balance >= 0.0 ==> r >= 0.0
  {
    if Covers(balance, amount) then balance - amount else balance
  }

  /** A deposit followed by a withdrawal of the same amount gives the old
      balance back exactly when that balance was non-negative; from a negative
      balance the guard rejects the withdrawal and the deposit stays. */
  lemma DepositThenWithdraw(balance: real, amount: real)
    ensures Withdrawn(Deposited(balance, amount), amount)
            == if balance >= 0.0 then balance else balance + amount
  {
  }

  /** One call on an account, as a value. */
  datatype Call = DepositCall(amount: real) | WithdrawCall(amount: real)

  /** The balance after one call. */
  function Step(balance: real, call: Call): (r: real) {
    match call
    case DepositCall(a) => Deposited(balance, a)
    case WithdrawCall(a) => Withdrawn(balance, a)
  }

  /** The balance after a sequence of calls, applied first to last. */
  function Replay(balance: real, calls: seq<Call>): (r: real)
    decreases |calls|
  {
    if calls == [] then balance else Replay(Step(balance, calls[0]), calls[1..])
  }

  /** Every deposit in the sequence is of a non-negative amount. */
  predicate NoNegativeDeposits(calls: seq<Call>) {
    forall i :: 0 <= i < |calls| ==> calls[i].DepositCall? ==> calls[i].amount >= 0.0
  }

  /** The account never goes below zero: from a non-negative balance, any
      sequence of calls whose deposits are non-negative ends non-negative.
      Withdrawals of any amount are safe because of the guard. */
  lemma {:induction false} ReplayStaysNonNegative(balance: real, calls: seq<Call>)
    requires balance >= 0.0
    requires NoNegativeDeposits(calls)
    ensures Replay(balance, calls) >= 0.0
    decreases |calls|
  {
    if calls != [] {
      assert NoNegativeDeposits(calls[1..]) by {
        forall i | 0 <= i < |calls[1..]|
          ensures calls[1..][i].DepositCall? ==> calls[1..][i].amount >= 0.0
        {
          assert calls[1..][i] == calls[i + 1];
        }
      }
      ReplayStaysNonNegative(Step(balance, calls[0]), calls[1..]);
    }
  }

  /** Without the caller keeping deposits non-negative the balance can go
      negative, because the deposit validates nothing. */
  lemma NegativeDepositOverdraws()
    ensures Replay(InitialBalance, [DepositCall(-2000.0)]) == -1000.0
  {
  }

  /** The account object: one balance, updated in place. */
  class Account {
    var accountBalance: real

    /** A fresh account holds the initial balance; nothing is loaded from storage. */
    constructor ()
      ensures accountBalance == InitialBalance
    {
      accountBalance := InitialBalance;
    }

    /** Adds the amount to the balance unconditionally. */
    method Deposit(amount: real)
      modifies this
      ensures accountBalance == Deposited(old(accountBalance), amount)
      ensures accountBalance - old(accountBalance) == amount
    {
      accountBalance := accountBalance + amount;
    }

    /** Subtracts the amount when the balance covers it; otherwise does nothing
        and gives no signal. */
    method Withdraw(amount: real)
      modifies this
      ensures accountBalance == Withdrawn(old(accountBalance), amount)
      ensures Covers(old(accountBalance), amount) ==> accountBalance == old(accountBalance) - amount
      ensures !Covers(old(accountBalance), amount) ==> accountBalance == old(accountBalance)
      ensures old(accountBalance) >= 0.0 ==> accountBalance >= 0.0
    {
      if accountBalance >= amount {
        accountBalance := accountBalance - amount;
      }
    }

    /** Reads the balance and changes nothing. */
    method GetBalance() returns (balance: real)
      ensures balance == accountBalance
    {
      balance := accountBalance;
    }
  }
}
