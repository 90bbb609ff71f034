/**
 * The second ATM class (Models/ATM.cs): a near copy of the service class with
 * its own rate table and conversion, in front of its own account. It is kept
 * separate because the repository declares it separately; the lemma
 * SameAsServices shows that the two behave alike.
 */
module ModelsAtm {
  import opened AtmErrors
  import opened Accounts
  import ServicesAtm

  /** CAD per unit of each supported currency, as this class declares it. */
  const ExchangeRates: map<string, real> :=
    map["USD" := 2.0, "MXN" := 0.1, "EUR" := 4.0, "CAD" := 1.0]

  /** The table holds exactly the four currencies, each with a positive rate. */
  lemma RatesTable()
    ensures ExchangeRates.Keys == {"USD", "MXN", "EUR", "CAD"}
    ensures ExchangeRates["USD"] == 2.0 && ExchangeRates["MXN"] == 0.1
    ensures ExchangeRates["EUR"] == 4.0 && ExchangeRates["CAD"] == 1.0
    ensures forall c :: c in ExchangeRates ==> ExchangeRates[c] > 0.0
  {
  }

  /** The amount in CAD, or UnknownCurrency for a code the table lacks (where
      the C# dictionary indexer throws). The conversion keeps the sign of
      the amount; CAD converts to itself. */
  function ConvertToCAD(amount: real, currency: string): (r: Result<real>)
    ensures r.Success? <==> currency in ExchangeRates
    ensures r.Failure? ==> r.error == UnknownCurrency
    ensures r.Success? ==> r.value == amount * ExchangeRates[currency]
    ensures r.Success? ==> (r.value >= 0.0 <==> amount >= 0.0)
    ensures currency == "CAD" ==> r == Success(amount)
  {
    if currency in ExchangeRates then Success(amount * ExchangeRates[currency])
    else Failure(UnknownCurrency)
  }

  /** Both ATM classes hold the same table and convert every request alike. */
  lemma SameAsServices(amount: real, currency: string)
    ensures ExchangeRates == ServicesAtm.ExchangeRates
    ensures ConvertToCAD(amount, currency) == ServicesAtm.ConvertToCAD(amount, currency)
  {
  }

  /** The ATM object: it owns one account, created with it. */
  class ATM {
    const account: Account

    /** A new ATM comes with a fresh account at the initial balance. */
    constructor ()
      ensures fresh(account)
      ensures account.accountBalance == InitialBalance
    {
      account := new Account();
    }

    /** Passes the account's balance through and changes nothing. */
    method GetBalance() returns (balance: real)
      ensures balance == account.accountBalance
    {
      balance := account.GetBalance();
    }

    /** Converts the amount into CAD and deposits it. An unknown currency fails
        before the account is touched. */
    method Deposit(amount: real, currency: string) returns (outcome: Outcome)
      modifies account
      ensures outcome == if currency in ExchangeRates then Pass else Fail(UnknownCurrency)
      ensures currency in ExchangeRates ==>
                account.accountBalance == old(account.accountBalance) + amount * ExchangeRates[currency]
      ensures currency !in ExchangeRates ==> account.accountBalance == old(account.accountBalance)
    {
      match ConvertToCAD(amount, currency)
      case Failure(e) =>
        outcome := Fail(e);
      case Success(cad) =>
        account.Deposit(cad);
        outcome := Pass;
    }

    /** Converts the amount into CAD and withdraws that from the account, which
        subtracts it only if the balance covers the converted amount. An unknown
        currency fails before the account is touched. */
    method Withdraw(amount: real, currency: string) returns (outcome: Outcome)
      modifies account
      ensures outcome == if currency in ExchangeRates then Pass else Fail(UnknownCurrency)
      ensures currency in ExchangeRates ==>
                account.accountBalance == Withdrawn(old(account.accountBalance), amount * ExchangeRates[currency])
      ensures currency in ExchangeRates && Covers(old(account.accountBalance), amount * ExchangeRates[currency]) ==>
                account.accountBalance == old(account.accountBalance) - amount * ExchangeRates[currency]
      ensures (currency in ExchangeRates ==> !Covers(old(account.accountBalance), amount * ExchangeRates[currency])) ==>
                account.accountBalance == old(account.accountBalance)
    {
      match ConvertToCAD(amount, currency)
      case Failure(e) =>
        outcome := Fail(e);
      case Success(cad) =>
        account.Withdraw(cad);
        outcome := Pass;
    }
  }
}
