/** The entities shared by both stores: statuses, memberships, rights and stock rows. */
module Models {
  datatype Option<+T> = None | Some(value: T)

  // Product and user names and right tokens are opaque to the service. Names are
  // numbered, and NO_NAME stands for the empty string that recovery rejects.
  type ProductId = nat
  type UserId = nat
  type Token = nat
  type OrderId = nat

  const NO_NAME: nat := 0

  // Instants in milliseconds. Redis sorted sets of timers are scored in whole
  // seconds, so a deadline is rounded down on its way into a timer.
  type Time = nat
  type Second = nat

  const MILLIS: nat := 1000

  function Seconds(t: Time): (s: Second)
    ensures s * MILLIS <= t < s * MILLIS + MILLIS
  {
    t / MILLIS
  }

  datatype RightStatus = Active | Expired | Used | UnknownRightStatus

  datatype MembershipStatus =
    | Queued
    | RightActive
    | OfferPending
    | Declined
    | Purchased
    | SoldOut
    | UnknownMembershipStatus
  {
    // A terminal membership holds nothing and waits for nothing.
    predicate IsTerminal() {
      Declined? || Purchased? || SoldOut?
    }
  }

  datatype Membership = Membership(
    product: ProductId,
    user: UserId,
    status: MembershipStatus,
    quantity: int,
    available: Option<int>,
    token: Option<Token>,
    expiresAt: Option<Time>,
    createdAt: Time,
    updatedAt: Time)
  {
    predicate IsLive() {
      !status.IsTerminal()
    }

    // Carries a business deadline of its own: an offer or a purchase right.
    predicate IsTimed() {
      status.RightActive? || status.OfferPending?
    }

    // Units taken out of the pool on behalf of this membership.
    function Units(): int {
      if status.RightActive? then quantity
      else if status.OfferPending? && available.Some? then available.value
      else 0
    }

    // The terminal form shared by leaving, expiring and recovery.
    function Settled(to: MembershipStatus, at: Time): Membership {
      this.(status := to, available := None, token := None, expiresAt := None, updatedAt := at)
    }

    // Equality up to the time stamp that each store writes for itself.
    predicate SameUpToStamp(other: Membership) {
      this.(updatedAt := 0) == other.(updatedAt := 0)
    }
  }

  datatype Right = Right(
    token: Token,
    user: UserId,
    product: ProductId,
    quantity: int,
    status: RightStatus,
    order: Option<OrderId>,
    createdAt: Time,
    expiresAt: Time,
    usedAt: Option<Time>)
  {
    function UsedUnits(): int {
      if status.Used? then quantity else 0
    }
  }

  datatype StockRow = StockRow(product: ProductId, count: int, total: int)

  datatype Error =
    | InvalidQuantity
    | TokenNotFound
    | TokenExpired
    | TokenUsed
    | StockDepleted
    | InvalidStatus
    | QuantityExceeded
    | QueueLimitReached
    | StoreUnavailable
}
