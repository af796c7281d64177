/** The entities of the card engine: the card record, its lifecycle status
    and the typed failures the service reports. */
module Cards {

  /** Database identity of a card (a `Long` assigned by the store). */
  type CardId = int

  /** Identity of the user who owns a card. */
  type UserId = int

  /** A card's lifecycle status. */
  datatype Status = Pending | Active | PendingToBlocking | Blocked | Expired

  /** One row of the card table. `validity` is the expiry timestamp and
      `balance` is an exact amount in minor currency units. */
  datatype Card = Card(
    cardNumber: string,
    owner: UserId,
    validity: int,
    status: Status,
    balance: int)

  /** The exceptions the service throws, as tagged failures. */
  datatype Error =
    | CardNotFound
    | CardNotReadyToBlock
    | InsufficientBalance
    | CardNotActive
    | UserNotFound

  /** Result of an operation that returns nothing on success. */
  datatype Outcome = Ok | Fail(error: Error)

  /** Result of an operation that returns a value on success. */
  datatype Result<T> = Success(value: T) | Failure(error: Error)

  datatype Option<T> = None | Some(value: T)
}
