/**
 * Failure values shared by both ATM classes.
 *
 * Looking up a currency code that is not in an ATM's rate table makes the
 * C# dictionary indexer throw before any account is touched; this model turns
 * that exception into an explicit failure value.
 */
module AtmErrors {

  /** The one way an ATM operation can fail: the currency code is not in the rate table. */
  datatype Error = UnknownCurrency

  /** A converted amount, or the reason there is none. */
  datatype Result<+T> = Success(value: T) | Failure(error: Error)

  /** How a deposit or withdrawal request ended. A withdrawal the balance does
      not cover still ends in Pass: the account ignores it without a signal. */
  datatype Outcome = Pass | Fail(error: Error)
}
