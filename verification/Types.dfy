/** The values both services exchange. */
module Types {

  datatype Option<+T> = None | Some(value: T)

  type EventId = string
  type AccountId = string
  type Currency = string

  /** A positive amount of money in units of 1/10000. */
  type Amount = a: int | 0 < a witness 1

  datatype Kind = CREDIT | DEBIT

  /** The body of POST /accounts/{accountId}/transactions; `at` is a UTC instant. */
  datatype Command = Command(
    eventId: EventId, accountId: AccountId, kind: Kind, amount: Amount, currency: Currency, at: int)

  function Signed(kind: Kind, amount: Amount): int
  {
    var units: int := amount;
    if kind.CREDIT? then units else -units
  }
}
