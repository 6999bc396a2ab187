/**
The queue service of one product: what every operation does to the two stores.

An operation is one step, except that the process may die right after any durable write.
The fault plan says how many durable writes of the operation commit before one fails or
is the last thing the process does. A lost membership claim while the queue advances is
rolled back exactly as a failed durable write is, and counts as one.
*/
module Service {
  import opened Models
  import opened CacheScripts
  import opened DurableTx
  import T = Timers

  datatype Config = Config(
    offerTtl: Time,
    paymentTtl: Time,
    presenceTimeout: Time,
    slotLimit: nat,
    initialStock: nat)  // what AvitoBackend reports before the first sale
  {
    predicate Valid() {
      offerTtl >= MILLIS && paymentTtl >= MILLIS
    }
  }

  datatype Faults = Healthy | After(writes: nat, crash: bool)

  datatype Ended = Finished | StoreFailed | Died

  datatype State = State(
    product: ProductId,
    cfg: Config,
    cache: Cache,
    db: Durable,
    clock: Time,
    nextToken: Token,
    faults: Faults,
    down: bool,
    open: set<T.Claim>,      // timers claimed by workers and not yet handled
    handled: set<T.Claim>,   // handled, so the worker may acknowledge them
    failed: set<T.Claim>)    // failed, so the worker may return them

  datatype Reply =
    | Ok
    | Existing(member: Membership)
    | Granted(right: Right)
    | Refused(error: Error)
    | Crashed

  function Replied(e: Ended, ok: Reply): Reply {
    match e
    case Finished => ok
    case StoreFailed => Refused(StoreUnavailable)
    case Died => Crashed
  }

  // ---- Durable writes ----

  // What no durable write and no advance of the queue ever touches.
  predicate SameRun(s: State, s': State) {
    && s'.product == s.product && s'.cfg == s.cfg && s'.clock == s.clock
    && s'.open == s.open && s'.handled == s.handled && s'.failed == s.failed
    && s'.cache.presence == s.cache.presence
    && s'.cache.timers.processing == s.cache.timers.processing && s'.cache.timers.deadlines == s.cache.timers.deadlines
  }

  function Persist(s: State, after: Durable): (State, Ended) {
    match s.faults
    case Healthy => (s.(db := after), Finished)
    case After(n, crash) =>
      if n > 0 then (s.(db := after, faults := After(n - 1, crash)), Finished)
      else if crash then (s.(db := after, down := true), Died)
      else (s, StoreFailed)
  }

  // ---- syncCacheState ----

  function SyncCache(c: Cache, m: Membership, r: Option<Right>, now: Time, presence: Time): Cache {
    var c1 := if r.Some? then SetRight(c, r.value) else c;
    var c2 :=
      if m.expiresAt.Some? then AddTimer(c1, m.user, m.expiresAt.value)
      else if m.status.Queued? then AddTimer(c1, m.user, now + presence)
      else c1;
    SetMembership(c2, m)
  }

  function Sync(s: State, m: Membership, r: Option<Right>, now: Time): State {
    s.(cache := SyncCache(s.cache, m, r, now, s.cfg.presenceTimeout))
  }

  function NewRight(s: State, m: Membership, quantity: int, now: Time): Right {
    Right(s.nextToken, m.user, s.product, quantity, Active, None, now, now + s.cfg.paymentTtl, None)
  }

  function Holding(m: Membership, r: Right): Membership {
    m.(status := RightActive, token := Some(r.token), expiresAt := Some(r.expiresAt))
  }

  function Offered(m: Membership, n: int, until: Time): Membership {
    m.(status := OfferPending, available := Some(n), expiresAt := Some(until))
  }

  function TokenSpent(s: State): State {
    s.(nextToken := s.nextToken + 1)
  }

  // ---- AdvanceQueue ----

  function Rollback(s: State, e: Entry, n: int): State {
    var restored := if n > 0 then RestoreUnits(s.cache, n) else s.cache;
    s.(cache := Requeue(restored, e))
  }

  function Settle(w: (State, Ended), m: Membership, r: Option<Right>, now: Time, e: Entry, n: int): (x: (State, Ended))
    ensures SameRun(w.0, x.0) && x.1 == w.1 && x.0.down == w.0.down
    ensures x.1.Finished? ==> x.0.cache.queue == w.0.cache.queue
  {
    match w.1
    case Finished => (Sync(w.0, m, r, now), Finished)
    case StoreFailed => (Rollback(w.0, e, n), StoreFailed)
    case Died => w
  }

  function ApplyAdvanceStep(s: State, p: Popped, now: Time): (r: (State, Ended))
    requires p.Popped?
    ensures r.1.Finished? ==> r.0.cache.queue == s.cache.queue
    ensures SameRun(s, r.0)
    ensures r.1.Died? ==> r.0.down
    ensures !r.1.Died? ==> r.0.down == s.down
  {
    var u := p.entry.user;
    if u !in s.cache.members then (Rollback(s, p.entry, p.granted + p.offered), StoreFailed) else
      var m := s.cache.members[u].(updatedAt := now);
      match p.status
      case Some(RightActive) =>
        var r := NewRight(s, m, p.granted, now);
        var m' := Holding(m, r);
        Settle(Persist(TokenSpent(s), IssueRight(s.db, r, m', now)), m', Some(r), now, p.entry, p.granted)
      case Some(OfferPending) =>
        var m' := Offered(m, p.offered, now + s.cfg.offerTtl);
        Settle(Persist(s, UpsertMembership(s.db, m', now)), m', None, now, p.entry, p.offered)
      case Some(SoldOut) =>
        var m' := m.(status := SoldOut);
        Settle(Persist(s, UpsertMembership(s.db, m', now)), m', None, now, p.entry, 0)
      case _ => (s, Finished)
  }

  // The pop found somebody to serve or to turn away.
  predicate Decides(p: Popped) {
    p.Popped? && p.status.Some?
    && (p.status.value.RightActive? || p.status.value.OfferPending? || p.status.value.SoldOut?)
  }

  function AdvanceQueue(s: State, now: Time): (r: (State, Ended))
    ensures SameRun(s, r.0)
    ensures r.1.Died? ==> r.0.down
    ensures !r.1.Died? ==> r.0.down == s.down
    decreases |s.cache.queue|
  {
    var (popped, p) := PopAndAllocate(s.cache);
    if p.NoOne? || p.status == Some(Queued) then (s, Finished)
    else
      var s1 := s.(cache := popped);
      if !Decides(p) then AdvanceQueue(s1, now) else
        var step := ApplyAdvanceStep(s1, p, now);
        if step.1.Finished? then AdvanceQueue(step.0, now) else step
  }

  // ---- JoinQueue ----

  // Some(reply) when the user already takes part.
  function Idempotent(c: Cache, u: UserId): Option<Reply> {
    if u !in c.members then None else
      var m := c.members[u];
      if m.status.RightActive? && m.token.Some? then
        if m.token.value in c.rights then Some(Existing(m)) else Some(Refused(TokenNotFound))
      else if m.status.Queued? || m.status.OfferPending? then Some(Existing(m))
      else None
  }

  // A failed write gives the allocated units back.
  function Recorded(w: (State, Ended), m: Membership, r: Option<Right>, n: int, now: Time): (State, Ended) {
    match w.1
    case Finished => (Sync(w.0, m, r, now), Finished)
    case StoreFailed => (if n > 0 then w.0.(cache := RestoreUnits(w.0.cache, n)) else w.0, StoreFailed)
    case Died => w
  }

  function ProcessAllocation(s: State, m: Membership, a: Allocation, now: Time): (State, Ended) {
    if a.granted == m.quantity then
      var r := NewRight(s, m, a.granted, now);
      var m' := Holding(m, r);
      Recorded(Persist(TokenSpent(s), IssueRight(s.db, r, m', now)), m', Some(r), a.granted, now)
    else if a.offered > 0 then
      var m' := Offered(m, a.offered, now + s.cfg.offerTtl);
      Recorded(Persist(s, UpsertMembership(s.db, m', now)), m', None, a.offered, now)
    else
      var m' := m.(status := if a.soldOut then SoldOut else Queued);
      var w := Persist(s, UpsertMembership(s.db, m', now));
      var enqueued :=
        if w.1.Finished? && !a.soldOut then (w.0.(cache := Enqueue(w.0.cache, m.user)), Finished) else w;
      Recorded(enqueued, m', None, 0, now)
  }

  // A slot taken by a join that left no membership behind is given back.
  function Abandon(s: State, u: UserId, slot: SlotOutcome): State {
    if slot.SlotTaken? then s.(cache := ReleaseSlot(s.cache, u)) else s
  }

  function NewMembership(s: State, u: UserId, quantity: int, now: Time): Membership {
    Membership(s.product, u, Queued, quantity, None, None, None, now, now)
  }

  // The part of a join that decides what the newcomer gets.
  function Admit(s: State, u: UserId, quantity: int, now: Time): (State, Ended) {
    var (c, a) := TryAllocate(s.cache, quantity);
    ProcessAllocation(s.(cache := c), NewMembership(s, u, quantity, now), a, now)
  }

  function JoinReply(s: State, u: UserId, quantity: int, now: Time): Reply {
    if TryAllocate(s.cache, quantity).1.granted == quantity
    then Granted(NewRight(s, NewMembership(s, u, quantity, now), quantity, now))
    else Ok
  }

  // First contact with a product: both stores learn AvitoBackend's stock.
  function Touch(s: State, total: nat): (State, Ended) {
    var s1 := s.(cache := InitStock(s.cache, total));
    Persist(s1, SaveInitialStock(s1.db, s1.product, total))
  }

  // fetched is AvitoBackend's answer, None when it does not answer.
  function JoinQueue(s: State, u: UserId, quantity: int, others: nat, fetched: Option<nat>, now: Time): (State, Reply) {
    if quantity <= 0 then (s, Refused(InvalidQuantity))
    else if Idempotent(s.cache, u).Some? then (s, Idempotent(s.cache, u).value)
    else
      var (c1, slot) := OccupySlot(s.cache, u, others, s.cfg.slotLimit);
      if slot.SlotRefused? then (s, Refused(QueueLimitReached)) else
        var s1 := s.(cache := c1);
        if fetched.None? then (Abandon(s1, u, slot), Refused(StoreUnavailable)) else
          var s2 := Touch(s1, fetched.value);
          if s2.1.Died? then (s2.0, Crashed)
          else if s2.1.StoreFailed? then (Abandon(s2.0, u, slot), Refused(StoreUnavailable))
          else
            var s3 := Admit(s2.0, u, quantity, now);
            if s3.1.StoreFailed? then (Abandon(s3.0, u, slot), Refused(StoreUnavailable))
            else (s3.0, Replied(s3.1, JoinReply(s2.0, u, quantity, now)))
  }

  // ---- AcceptOffer, LeaveQueue, DeclineOffer ----

  function AcceptedRow(s: State, m: Membership, accepted: int, now: Time): Membership {
    Holding(m, NewRight(s, m, accepted, now)).(quantity := accepted, available := None, updatedAt := now)
  }

  // Up to the point where the queue advances.
  function TakeOffer(s: State, m: Membership, accepted: int, now: Time): (State, Ended)
    requires m.available.Some?
  {
    var r := NewRight(s, m, accepted, now);
    var m' := AcceptedRow(s, m, accepted, now);
    var w := Persist(TokenSpent(s), IssueRight(s.db, r, m', now));
    if !w.1.Finished? then w else
      var synced := Sync(w.0, m', Some(r), now);
      var returned := m.available.value - accepted;
      (if returned > 0 then synced.(cache := RestoreUnits(synced.cache, returned)) else synced, Finished)
  }

  function AcceptOffer(s: State, u: UserId, accepted: int, now: Time): (State, Reply) {
    if accepted <= 0 then (s, Refused(InvalidQuantity))
    else if u !in s.cache.members then (s, Refused(TokenNotFound))
    else
      var m := s.cache.members[u];
      if m.expiresAt.Some? && now > m.expiresAt.value then (s, Refused(TokenExpired))
      else if !m.status.OfferPending? || m.available.None? then (s, Refused(InvalidStatus))
      else if accepted > m.available.value then (s, Refused(QuantityExceeded))
      else
        var taken := TakeOffer(s, m, accepted, now);
        var reply := Granted(NewRight(s, m, accepted, now));
        if !taken.1.Finished? || accepted == m.available.value then (taken.0, Replied(taken.1, reply)) else
          var advanced := AdvanceQueue(taken.0, now);
          (advanced.0, Replied(advanced.1, reply))
  }

  // The cache side of a transition that ended a membership and freed n units.
  function Release(s: State, final: Membership, r: Option<Right>, removeTimer: bool, n: int, now: Time): State {
    var synced := Sync(s, final, r, now);
    var untimed := if removeTimer then RemoveTimer(synced.cache, final.user) else synced.cache;
    synced.(cache := if n > 0 then RestoreUnits(untimed, n) else untimed)
  }

  // Durable expiry of the right a membership holds, up to the point where the queue advances.
  function ExpireHeld(s: State, m: Membership, after: Durable, right: Right, stamp: Time, removeTimer: bool, now: Time): (State, Ended) {
    var w := Persist(s, after);
    if !w.1.Finished? then w
    else (Release(w.0, m.Settled(Declined, stamp), Some(right), removeTimer, m.quantity, now), Finished)
  }

  function ExpireActiveRight(s: State, m: Membership, stamp: Time, removeTimer: bool, now: Time): (State, Reply) {
    if m.token.None? then (s, Refused(InvalidStatus)) else
      var final := m.Settled(Declined, stamp);
      match ExpireRight(s.db, m.token.value, final, now)
      case TxError(e) => (s, Refused(e))
      case TxResult(after, right, transitioned) =>
        if transitioned then
          var expired := ExpireHeld(s, m, after, right, stamp, removeTimer, now);
          if !expired.1.Finished? then (expired.0, Replied(expired.1, Ok)) else
            var advanced := AdvanceQueue(expired.0, now);
            (advanced.0, Replied(advanced.1, Ok))
        else
          var w := Persist(s, after);
          if !w.1.Finished? then (w.0, Replied(w.1, Ok))
          else if right.status.Expired? then (Sync(w.0, final, Some(right), now), Ok)
          else (w.0.(cache := SetRight(w.0.cache, right)), Ok)
  }

  // Shared by declining and by the expiration worker, which differ in the cached stamp and
  // in who removes the timer; up to the point where the queue advances.
  function CloseOffer(s: State, m: Membership, stamp: Time, removeTimer: bool, now: Time): (State, Ended)
    requires m.available.Some?
  {
    var final := m.Settled(Declined, stamp);
    var w := Persist(s, UpsertMembership(s.db, final, now));
    if !w.1.Finished? then w
    else (Release(w.0, final, None, removeTimer, m.available.value, now), Finished)
  }

  function EndOffer(s: State, m: Membership, stamp: Time, removeTimer: bool, skipAdvance: bool, now: Time): (State, Reply)
    requires m.available.Some?
  {
    var closed := CloseOffer(s, m, stamp, removeTimer, now);
    if !closed.1.Finished? || skipAdvance then (closed.0, Replied(closed.1, Ok)) else
      var advanced := AdvanceQueue(closed.0, now);
      (advanced.0, Replied(advanced.1, Ok))
  }

  // A waiting user leaves, or is removed for absence.
  function QuitQueue(s: State, final: Membership, now: Time): (State, Ended) {
    var w := Persist(s, UpsertMembership(s.db, final, now));
    if !w.1.Finished? then w else
      var synced := Sync(w.0, final, None, now);
      (synced.(cache := RemoveFromQueue(synced.cache, final.user)), Finished)
  }

  function LeaveQueue(s: State, u: UserId, offerOnly: bool, now: Time): (State, Reply) {
    if u !in s.cache.members then (s, Refused(TokenNotFound)) else
      var m := s.cache.members[u];
      if m.expiresAt.Some? && now > m.expiresAt.value then (s, Refused(TokenExpired))
      else if offerOnly && !m.status.OfferPending? then (s, Refused(InvalidStatus))
      else
        match m.status
        case Queued =>
          var quit := QuitQueue(s, m.Settled(Declined, now), now);
          (quit.0, Replied(quit.1, Ok))
        case OfferPending =>
          if m.available.None? then (s, Refused(InvalidStatus))
          else EndOffer(s, m, now, true, m.available.value <= 0, now)
        case RightActive => ExpireActiveRight(s, m, now, true, now)
        case _ => (s, Refused(InvalidStatus))
  }

  // ---- ProcessPayment ----

  // The cache side of a payment, up to the point where the queue advances.
  function RecordPayment(s: State, right: Right, transitioned: bool, now: Time): State {
    var c := if transitioned then CommitPurchase(s.cache, right.quantity) else s.cache;
    s.(cache := MarkPurchased(SetRight(c, right), right, now))
  }

  function ProcessPayment(s: State, token: Token, order: OrderId, now: Time): (State, Reply) {
    match UseRight(s.db, token, order, now)
    case TxError(e) => (s, Refused(e))
    case TxResult(after, right, transitioned) =>
      var w := Persist(s, after);
      if !w.1.Finished? then (w.0, Replied(w.1, Ok)) else
        var advanced := AdvanceQueue(RecordPayment(w.0, right, transitioned, now), now);
        (advanced.0, Replied(advanced.1, Ok))
  }

  // ---- RefreshUserPresence, for this product ----

  function RefreshPresence(s: State, u: UserId, now: Time): State {
    var deadline := now + s.cfg.presenceTimeout;
    var c := s.cache.(presence := s.cache.presence[u := Seconds(deadline)]);
    if u !in c.index then s.(cache := c)
    else if u !in c.members || !c.members[u].status.Queued? then s.(cache := RemoveFromQueue(c, u))
    else s.(cache := c.(timers := T.Refresh(c.timers, u, Seconds(deadline))))
  }

  // ---- ProcessExpirations ----

  predicate IsStale(c: T.Claim, m: Membership) {
    c.deadline * MILLIS < m.updatedAt
  }

  // Absence is judged by the stored deadline, which is in whole seconds.
  predicate IsPresent(c: Cache, u: UserId, pass: Time) {
    u in c.presence && pass < c.presence[u] * MILLIS
  }

  // What is done about a timer that belongs to the current lifecycle. A right whose expiry
  // is refused for its status is settled, not failed.
  function ExpireNow(s: State, m: Membership, pass: Time, now: Time): (State, Reply) {
    match m.status
    case Queued =>
      if IsPresent(s.cache, m.user, pass) then
        (s.(cache := AddTimer(s.cache, m.user, s.cache.presence[m.user] * MILLIS)), Ok)
      else
        var quit := QuitQueue(s, m.(status := Declined, updatedAt := pass), now);
        (quit.0, Replied(quit.1, Ok))
    case RightActive =>
      var r := ExpireActiveRight(s, m, now, false, now);
      if r.1 == Refused(InvalidStatus) then (r.0, Ok) else r
    case _ =>
      if m.available.None? then (s, Refused(InvalidStatus)) else EndOffer(s, m, pass, false, false, now)
  }

  // A claim of an older lifecycle: the current one gets its own deadline back.
  function RestoreTimer(s: State, m: Membership, pass: Time): State {
    s.(cache := AddTimer(s.cache, m.user, RestoredDeadline(s, m, pass)))
  }

  function RestoredDeadline(s: State, m: Membership, pass: Time): Time {
    if m.expiresAt.Some? then m.expiresAt.value else pass + s.cfg.presenceTimeout
  }

  // handleExpiredKey
  function HandleExpired(s: State, c: T.Claim, now: Time): (State, Reply) {
    if c.user !in s.cache.members then (s, Refused(TokenNotFound)) else
      var m := s.cache.members[c.user];
      if !m.status.Queued? && !m.IsTimed() then (s, Ok)
      else if !m.status.Queued? && m.expiresAt.None? then (s, Refused(InvalidStatus))
      else if IsStale(c, m) then (RestoreTimer(s, m, c.pass), Ok)
      else ExpireNow(s, m, c.pass, now)
  }

  function HandleClaim(s: State, c: T.Claim, now: Time): State {
    var r := HandleExpired(s, c, now);
    if r.1.Crashed? then r.0
    else if r.1.Refused? then r.0.(open := r.0.open - {c}, failed := r.0.failed + {c})
    else r.0.(open := r.0.open - {c}, handled := r.0.handled + {c})
  }

  ghost function ClaimTimers(s: State, limit: nat, now: Time): State {
    var (timers, claims) := T.ClaimDue(s.cache.timers, now, limit);
    s.(cache := s.cache.(timers := timers), open := s.open + T.AsSet(claims))
  }

  function WithTimers(s: State, timers: T.Timers): State {
    s.(cache := s.cache.(timers := timers))
  }
}
