/**
 * The ATM service (Services/ATM.cs): a fixed table of rates into Canadian
 * dollars (CAD) in front of one account. Deposits and withdrawals arrive as an
 * amount in some currency, are converted into CAD and handed to the account.
 */
module ServicesAtm {
  import opened AtmErrors
  import opened Accounts

  /** CAD per unit of each supported currency. The table is the same for every
      ATM and never changes, so it is a module constant here. */
  const ExchangeRates: map<string, real> :=
    map["USD" := 2.0, "MXN" := 0.1, "EUR" := 4.0, "CAD" := 1.0]

  /** The table holds exactly the four currencies, each with a positive rate. */
  lemma RatesTable()
    ensures ExchangeRates.Keys == {"USD", "MXN", "EUR", "CAD"}
    ensures ExchangeRates["USD"] == 2.0 && ExchangeRates["MXN"] == 0.1
    ensures ExchangeRates["EUR"] == 4.0 && ExchangeRates["CAD"] == 1.0
    ensures forall c :: c in ExchangeRates ==> ExchangeRates[c] > 0.0
  {
  }

  /** The amount in CAD, or UnknownCurrency for a code the table lacks (where
      the C# dictionary indexer throws). Because every rate is positive,
      conversion keeps the sign of the amount; CAD converts to itself. */
  function ConvertToCAD(amount: real, currency: string): (r: Result<real>)
    ensures r.Success? <==> currency in ExchangeRates
    ensures r.Failure? ==> r.error == UnknownCurrency
    ensures r.Success? ==> r.value == amount * ExchangeRates[currency]
    ensures r.Success? ==> (r.value >= 0.0 <==> amount >= 0.0)
    ensures currency == "CAD" ==> r == Success(amount)
  {
    if currency in ExchangeRates then Success(amount * ExchangeRates[currency])
    else Failure(UnknownCurrency)
  }

  /** The sample conversions: ten pesos are one dollar, pounds are unknown. */
  lemma ConvertExamples()
    ensures ConvertToCAD(10.0, "MXN") == Success(1.0)
    ensures ConvertToCAD(50.0, "USD") == Success(100.0)
    ensures ConvertToCAD(200.0, "EUR") == Success(800.0)
    ensures ConvertToCAD(5.0, "GBP") == Failure(UnknownCurrency)
  {
  }

  /** One deposit or withdrawal request made to the ATM, in some currency. */
  datatype Request = DepositRequest(amount: real, currency: string)
                   | WithdrawRequest(amount: real, currency: string)

  /** The account calls one request turns into: none when the currency is
      unknown, otherwise the same kind of call for the converted amount. */
  function Forward(req: Request): (calls: seq<Call>)
    ensures |calls| <= 1
    ensures calls == [] <==> req.currency !in ExchangeRates
    ensures calls != [] ==> calls[0].amount == req.amount * ExchangeRates[req.currency]
    ensures calls != [] ==> (calls[0].DepositCall? <==> req.DepositRequest?)
  {
    match ConvertToCAD(req.amount, req.currency)
    case Failure(_) => []
    case Success(cad) => if req.DepositRequest? then [DepositCall(cad)] else [WithdrawCall(cad)]
  }

  /** The account calls a sequence of requests turns into, in order. */
  function Forwarded(reqs: seq<Request>): (calls: seq<Call>)
    decreases |reqs|
  {
    if reqs == [] then [] else Forward(reqs[0]) + Forwarded(reqs[1..])
  }

  /** Every deposit request is of a non-negative amount. */
  predicate NoNegativeDepositRequests(reqs: seq<Request>) {
    forall i :: 0 <= i < |reqs| ==> reqs[i].DepositRequest? ==> reqs[i].amount >= 0.0
  }

  /** Non-negative deposit requests turn into non-negative account deposits,
      because every rate is positive. */
  lemma {:induction false} ForwardedDepositsNonNegative(reqs: seq<Request>)
    requires NoNegativeDepositRequests(reqs)
    ensures NoNegativeDeposits(Forwarded(reqs))
    decreases |reqs|
  {
    if reqs != [] {
      assert NoNegativeDepositRequests(reqs[1..]) by {
        forall i | 0 <= i < |reqs[1..]|
          ensures reqs[1..][i].DepositRequest? ==> reqs[1..][i].amount >= 0.0
        {
          assert reqs[1..][i] == reqs[i + 1];
        }
      }
      ForwardedDepositsNonNegative(reqs[1..]);
      var head: seq<Call>, tail: seq<Call> := Forward(reqs[0]), Forwarded(reqs[1..]);
      forall i | 0 <= i < |head + tail|
        ensures (head + tail)[i].DepositCall? ==> (head + tail)[i].amount >= 0.0
      {
        if i < |head| {
          assert (head + tail)[i] == head[0];
          RatesTable();
        } else {
          assert (head + tail)[i] == tail[i - |head|];
        }
      }
    }
  }

  /** The account behind an ATM never goes below zero: from a non-negative
      balance, any sequence of requests whose deposits are non-negative ends
      non-negative, whatever the currencies (unknown ones change nothing) and
      whatever the withdrawal amounts. */
  lemma AtmStaysNonNegative(balance: real, reqs: seq<Request>)
    requires balance >= 0.0
    requires NoNegativeDepositRequests(reqs)
    ensures Replay(balance, Forwarded(reqs)) >= 0.0
  {
    ForwardedDepositsNonNegative(reqs);
    ReplayStaysNonNegative(balance, Forwarded(reqs));
  }

  /** Depositing and then withdrawing the same amount in the same known
      currency restores a non-negative balance; from a negative balance the
      withdrawal is refused and the converted deposit stays. An unknown
      currency changes nothing either way. */
  lemma DepositThenWithdrawRequest(balance: real, amount: real, currency: string)
    ensures Replay(balance, Forwarded([DepositRequest(amount, currency), WithdrawRequest(amount, currency)]))
            == if currency in ExchangeRates && balance < 0.0
               then balance + amount * ExchangeRates[currency]
               else balance
  {
    var dep, wd := DepositRequest(amount, currency), WithdrawRequest(amount, currency);
    var reqs := [dep, wd];
    assert reqs[1..] == [wd] && [wd][1..] == [];
    assert Forwarded([wd]) == Forward(wd) + Forwarded([]) == Forward(wd);
    assert Forwarded(reqs) == Forward(dep) + Forwarded([wd]);
    if currency in ExchangeRates {
      var cad := amount * ExchangeRates[currency];
      assert Forwarded(reqs) == [DepositCall(cad), WithdrawCall(cad)];
      var calls := Forwarded(reqs);
      assert calls[1..] == [WithdrawCall(cad)] && calls[1..][1..] == [];
      var credited := Deposited(balance, cad);
      assert Replay(credited, [WithdrawCall(cad)]) == Replay(Withdrawn(credited, cad), []);
      assert Replay(balance, calls) == Replay(credited, [WithdrawCall(cad)]);
      DepositThenWithdraw(balance, cad);
    } else {
      assert Forwarded(reqs) == [];
    }
  }

  /** The withdrawal guard, read in the requested currency: the account
      accepts a withdrawal exactly when the amount is at most the balance
      divided by the currency's rate. */
  lemma WithdrawGuardInCurrency(balance: real, amount: real, currency: string)
    requires currency in ExchangeRates
    ensures Covers(balance, ConvertToCAD(amount, currency).value)
            <==> amount <= balance / ExchangeRates[currency]
  {
  }

  /** The guard applies to the converted amount, not to the amount as given:
      300 EUR is 1200 CAD, which a balance of 1000 does not cover. */
  lemma GuardUsesConvertedAmount()
    ensures Covers(InitialBalance, 300.0)
    ensures Withdrawn(InitialBalance, ConvertToCAD(300.0, "EUR").value) == InitialBalance
  {
  }

  /** The ATM object: it owns one account, created with it. */
  class ATM {
    const account: Account

    /** A new ATM comes with a fresh account at the initial balance. */
    constructor ()
      ensures fresh(account)
      ensures account.accountBalance == InitialBalance
    {
      account := new Account();
    }

    /** Passes the account's balance through and changes nothing. */
    method GetBalance() returns (balance: real)
      ensures balance == account.accountBalance
    {
      balance := account.GetBalance();
    }

    /** Converts the amount into CAD and deposits it. An unknown currency fails
        before the account is touched. */
    method Deposit(amount: real, currency: string) returns (outcome: Outcome)
      modifies account
      ensures outcome == if currency in ExchangeRates then Pass else Fail(UnknownCurrency)
      ensures currency in ExchangeRates ==>
                account.accountBalance == old(account.accountBalance) + amount * ExchangeRates[currency]
      ensures currency !in ExchangeRates ==> account.accountBalance == old(account.accountBalance)
      ensures account.accountBalance == Replay(old(account.accountBalance), Forward(DepositRequest(amount, currency)))
    {
      match ConvertToCAD(amount, currency)
      case Failure(e) =>
        outcome := Fail(e);
      case Success(cad) =>
        account.Deposit(cad);
        outcome := Pass;
    }

    /** Converts the amount into CAD and withdraws that from the account, which
        subtracts it only if the balance covers the converted amount. An unknown
        currency fails before the account is touched. */
    method Withdraw(amount: real, currency: string) returns (outcome: Outcome)
      modifies account
      ensures outcome == if currency in ExchangeRates then Pass else Fail(UnknownCurrency)
      ensures currency in ExchangeRates ==>
                account.accountBalance == Withdrawn(old(account.accountBalance), amount * ExchangeRates[currency])
      ensures currency in ExchangeRates && Covers(old(account.accountBalance), amount * ExchangeRates[currency]) ==>
                account.accountBalance == old(account.accountBalance) - amount * ExchangeRates[currency]
      ensures (currency in ExchangeRates ==> !Covers(old(account.accountBalance), amount * ExchangeRates[currency])) ==>
                account.accountBalance == old(account.accountBalance)
      ensures account.accountBalance == Replay(old(account.accountBalance), Forward(WithdrawRequest(amount, currency)))
    {
      match ConvertToCAD(amount, currency)
      case Failure(e) =>
        outcome := Fail(e);
      case Success(cad) =>
        account.Withdraw(cad);
        outcome := Pass;
    }
  }

  /** A client session on a new ATM: deposit 50 USD, withdraw 200 EUR,
      withdraw 1000 CAD (more than is left, so ignored), deposit 5 GBP
      (unknown, so it fails and changes nothing). */
  method Session() returns (afterUsd: real, afterEur: real, afterCad: real, gbp: Outcome, afterGbp: real)
    ensures afterUsd == 1100.0
    ensures afterEur == 300.0
    ensures afterCad == 300.0
    ensures gbp == Fail(UnknownCurrency) && afterGbp == 300.0
  {
    var atm := new ATM();
    var usd := atm.Deposit(50.0, "USD");
    afterUsd := atm.GetBalance();
    var eur := atm.Withdraw(200.0, "EUR");
    afterEur := atm.GetBalance();
    var cad := atm.Withdraw(1000.0, "CAD");
    afterCad := atm.GetBalance();
    gbp := atm.Deposit(5.0, "GBP");
    afterGbp := atm.GetBalance();
  }
}
