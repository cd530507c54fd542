/** The versioned messages exchanged by the two services, with the fields their handlers read. */
module Events {
  import opened Base

  datatype ReleaseReason = PaymentFailedReason | UserCancelled | SweeperReason

  /** `seat.*.v1`; `hold` is the outbox row's aggregate id. */
  datatype SeatEvent =
    | SeatHeld(hold: Uuid, seat: Uuid, user: Uuid, heldUntil: int, price: nat, currency: string, at: int)
    | SeatReleased(hold: Uuid, seat: Uuid, reason: ReleaseReason, at: int)
    | SeatReserved(hold: Uuid, seat: Uuid, user: Uuid, at: int)

  datatype FailureReason = DeclinedReason | SeatReleasedReason

  /**
   * `payment.*.v1`. `traceOk` says whether the trace id has the UUID shape the consumer's
   * schema demands; a message without it is dead-lettered unread.
   */
  datatype PayEvent =
    | PaymentSucceeded(eventId: Uuid, intent: Uuid, seat: Uuid, user: Uuid, hold: Uuid,
                       amount: nat, currency: string, psp: string, traceOk: bool)
    | PaymentFailed(eventId: Uuid, intent: Uuid, seat: Uuid, user: Uuid, hold: Uuid,
                    reason: FailureReason, traceOk: bool)
}
