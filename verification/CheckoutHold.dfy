/** Checkout holds on catalogue rows (src/commerce/checkout-hold.util.ts). */
module CheckoutHold {
  import opened Common

  /** The three hold columns of a row. */
  datatype Hold = Hold(expiresAt: Option<int>, orderId: Option<Id>, paymentId: Option<Id>)

  const NO_HOLD := Hold(None, None, None)

  /** The checkout that is asking; its own hold never blocks it. */
  datatype Exclude = Exclude(orderId: Option<Id>, paymentId: Option<Id>)

  predicate IsActive(h: Hold, now: int) {
    (h.orderId.Some? || h.paymentId.Some?) && h.expiresAt.Some? && h.expiresAt.value > now
  }

  predicate IsBlockedByOther(h: Hold, ex: Exclude, now: int) {
    && IsActive(h, now)
    && !(ex.orderId.Some? && h.orderId == ex.orderId)
    && !(ex.paymentId.Some? && h.paymentId == ex.paymentId)
  }
}
