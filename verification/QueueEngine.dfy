/** The queue service as it runs: its methods over the two repositories, step by step. */
module QueueEngine {
  import opened Models
  import opened CacheScripts
  import D = DurableTx
  import opened Service
  import T = Timers
  import opened RedisCache
  import opened DurableStore
  import E = ExpirationPass
  import R = Recovery
  import opened Restart
  import opened RecoveryLoops
  import opened RecoveryReplay

  class QueueService {
    const product: ProductId
    const cfg: Config
    const cache: CacheRepo
    const durable: DurableRepo
    var nextToken: Token
    // What the specification remembers about the world around the service.
    ghost var clock: Time
    ghost var open: set<T.Claim>
    ghost var handled: set<T.Claim>
    ghost var failed: set<T.Claim>

    ghost function Contents(): State
      reads this, cache, durable
    {
      State(product, cfg, cache.Contents(), durable.Contents(), clock, nextToken, durable.faults, durable.down,
            open, handled, failed)
    }

    constructor (product: ProductId, cfg: Config, cache: CacheRepo, durable: DurableRepo)
      ensures Contents() == State(product, cfg, cache.Contents(), durable.Contents(), 0, 1, durable.faults, durable.down, {}, {}, {})
      ensures this.cache == cache && this.durable == durable
    {
      this.product, this.cfg, this.cache, this.durable := product, cfg, cache, durable;
      nextToken := 1;
      clock, open, handled, failed := 0, {}, {}, {};
    }

    // ---- syncCacheState ----

    method SyncCacheState(m: Membership, r: Option<Right>, now: Time)
      modifies cache
      ensures Contents() == Sync(old(Contents()), m, r, now)
    {
      if r.Some? {
        cache.SetRight(r.value);
      }
      if m.status.Queued? || m.expiresAt.Some? {
        var deadline := now + cfg.presenceTimeout;
        if m.expiresAt.Some? {
          deadline := m.expiresAt.value;
        }
        cache.AddToExpiryTimer(m.user, deadline);
      }
      cache.SetMembership(m);
    }

    // A fresh ACTIVE right for a membership.
    method MintRight(m: Membership, quantity: int, now: Time) returns (r: Right)
      modifies this`nextToken
      ensures r == NewRight(old(Contents()), m, quantity, now)
      ensures Contents() == TokenSpent(old(Contents()))
    {
      r := Right(nextToken, m.user, product, quantity, Active, None, now, now + cfg.paymentTtl, None);
      nextToken := nextToken + 1;
    }

    // ---- AdvanceQueue ----

    method RollbackAdvance(e: Entry, n: int)
      modifies cache
      ensures Contents() == Rollback(old(Contents()), e, n)
    {
      if n > 0 {
        cache.AddAvailable(n);
      }
      cache.Requeue(e);
    }

    method SettleAdvance(written: Ended, m: Membership, r: Option<Right>, now: Time, entry: Entry, n: int)
      modifies cache
      ensures (Contents(), written) == Settle((old(Contents()), written), m, r, now, entry, n)
    {
      if written.StoreFailed? {
        RollbackAdvance(entry, n);
      } else if written.Finished? {
        SyncCacheState(m, r, now);
      }
    }

    method AdvanceToRight(p: Popped, m: Membership, now: Time) returns (e: Ended)
      requires p.Popped?
      modifies this`nextToken, cache, durable
      ensures var s := old(Contents());
        var r := NewRight(s, m, p.granted, now);
        (Contents(), e) == Settle(Persist(TokenSpent(s), D.IssueRight(s.db, r, Holding(m, r), now)),
                                  Holding(m, r), Some(r), now, p.entry, p.granted)
    {
      var r := MintRight(m, p.granted, now);
      var m' := m.(status := RightActive, token := Some(r.token), expiresAt := Some(r.expiresAt));
      e := durable.IssueRightAndUpsertMembershipTx(r, m', now);
      SettleAdvance(e, m', Some(r), now, p.entry, p.granted);
    }

    method AdvanceToRow(p: Popped, m: Membership, n: int, now: Time) returns (e: Ended)
      requires p.Popped?
      modifies cache, durable
      ensures var s := old(Contents());
        (Contents(), e) == Settle(Persist(s, D.UpsertMembership(s.db, m, now)), m, None, now, p.entry, n)
    {
      e := durable.UpsertMembership(m, now);
      SettleAdvance(e, m, None, now, p.entry, n);
    }

    // Turns what the pop decided into durable and cached state, or undoes the pop.
    method ApplyStep(p: Popped, now: Time) returns (e: Ended)
      requires p.Popped?
      modifies this`nextToken, cache, durable
      ensures (Contents(), e) == ApplyAdvanceStep(old(Contents()), p, now)
    {
      var u := p.entry.user;
      if u !in cache.members {
        RollbackAdvance(p.entry, p.granted + p.offered);
        return StoreFailed;
      }
      var m := cache.members[u].(updatedAt := now);
      e := Finished;
      match p.status {
        case Some(RightActive) =>
          e := AdvanceToRight(p, m, now);
        case Some(OfferPending) =>
          m := m.(status := OfferPending, available := Some(p.offered), expiresAt := Some(now + cfg.offerTtl));
          e := AdvanceToRow(p, m, p.offered, now);
        case Some(SoldOut) =>
          m := m.(status := SoldOut);
          e := AdvanceToRow(p, m, 0, now);
        case _ =>
      }
    }

    method Advance(now: Time) returns (e: Ended)
      modifies this`nextToken, cache, durable
      ensures (Contents(), e) == AdvanceQueue(old(Contents()), now)
    {
      while true
        invariant AdvanceQueue(Contents(), now) == AdvanceQueue(old(Contents()), now)
        decreases |cache.queue|
      {
        var p := cache.PopAndAllocate();
        if p.NoOne? || p.status == Some(Queued) {
          return Finished;
        }
        if Decides(p) {
          e := ApplyStep(p, now);
          if !e.Finished? {
            return;
          }
        }
      }
    }

    // ---- JoinQueue ----

    method RecordAllocation(written: Ended, m: Membership, r: Option<Right>, n: int, now: Time)
      modifies cache
      ensures (Contents(), written) == Recorded((old(Contents()), written), m, r, n, now)
    {
      if written.StoreFailed? {
        if n > 0 {
          cache.AddAvailable(n);
        }
      } else if written.Finished? {
        SyncCacheState(m, r, now);
      }
    }

    method Allocate(m: Membership, a: Allocation, now: Time) returns (e: Ended, right: Option<Right>)
      modifies this`nextToken, cache, durable
      ensures (Contents(), e) == ProcessAllocation(old(Contents()), m, a, now)
      ensures right == if a.granted == m.quantity then Some(NewRight(old(Contents()), m, a.granted, now)) else None
    {
      right := None;
      if a.granted == m.quantity {
        var r := MintRight(m, a.granted, now);
        var m' := m.(status := RightActive, token := Some(r.token), expiresAt := Some(r.expiresAt));
        e := durable.IssueRightAndUpsertMembershipTx(r, m', now);
        RecordAllocation(e, m', Some(r), a.granted, now);
        right := Some(r);
      } else if a.offered > 0 {
        var m' := m.(status := OfferPending, available := Some(a.offered), expiresAt := Some(now + cfg.offerTtl));
        e := durable.UpsertMembership(m', now);
        RecordAllocation(e, m', None, a.offered, now);
      } else {
        var m' := m.(status := if a.soldOut then SoldOut else Queued);
        e := durable.UpsertMembership(m', now);
        if e.Finished? && !a.soldOut {
          cache.Enqueue(m.user);
        }
        RecordAllocation(e, m', None, 0, now);
      }
    }

    method KnowProduct(total: nat) returns (e: Ended)
      modifies cache, durable
      ensures (Contents(), e) == Touch(old(Contents()), total)
    {
      cache.InitStock(total);
      e := durable.SaveInitialStock(product, total);
    }

    // The reply for a user who already takes part.
    method AlreadyIn(u: UserId) returns (r: Option<Reply>)
      ensures r == Idempotent(cache.Contents(), u)
    {
      r := None;
      if u in cache.members {
        var m := cache.members[u];
        if m.status.RightActive? && m.token.Some? {
          r := Some(if m.token.value in cache.rights then Existing(m) else Refused(TokenNotFound));
        } else if m.status.Queued? || m.status.OfferPending? {
          r := Some(Existing(m));
        }
      }
    }

    method Join(u: UserId, quantity: int, others: nat, fetched: Option<nat>, now: Time) returns (reply: Reply)
      modifies this`nextToken, cache, durable
      ensures (Contents(), reply) == JoinQueue(old(Contents()), u, quantity, others, fetched, now)
    {
      if quantity <= 0 {
        return Refused(InvalidQuantity);
      }
      var existing := AlreadyIn(u);
      if existing.Some? {
        return existing.value;
      }
      var slot := cache.TryOccupyQueueSlot(u, others, cfg.slotLimit);
      if slot.SlotRefused? {
        return Refused(QueueLimitReached);
      }
      reply := JoinWithSlot(u, quantity, fetched, now);
      if reply == Refused(StoreUnavailable) && slot.SlotTaken? {
        cache.ReleaseQueueSlot(u);
      }
    }

    // Everything between taking the slot and giving it back.
    method JoinWithSlot(u: UserId, quantity: int, fetched: Option<nat>, now: Time) returns (reply: Reply)
      modifies this`nextToken, cache, durable
      ensures var s := old(Contents());
        if fetched.None? then Contents() == s && reply == Refused(StoreUnavailable) else
          var s2 := Touch(s, fetched.value);
          if s2.1.Died? then (Contents(), reply) == (s2.0, Crashed)
          else if s2.1.StoreFailed? then (Contents(), reply) == (s2.0, Refused(StoreUnavailable))
          else
            var s3 := Admit(s2.0, u, quantity, now);
            Contents() == s3.0 && reply == Replied(s3.1, JoinReply(s2.0, u, quantity, now))
    {
      if fetched.None? {
        return Refused(StoreUnavailable);
      }
      var e := KnowProduct(fetched.value);
      if e.Died? {
        return Crashed;
      }
      if e.StoreFailed? {
        return Refused(StoreUnavailable);
      }
      var a := cache.TryAllocate(quantity);
      var m := Membership(product, u, Queued, quantity, None, None, None, now, now);
      var right;
      e, right := Allocate(m, a, now);
      match e
      case Died => reply := Crashed;
      case StoreFailed => reply := Refused(StoreUnavailable);
      case Finished => reply := if right.Some? then Granted(right.value) else Ok;
    }

    // ---- AcceptOffer ----

    method Accept(u: UserId, accepted: int, now: Time) returns (reply: Reply)
      modifies this`nextToken, cache, durable
      ensures (Contents(), reply) == AcceptOffer(old(Contents()), u, accepted, now)
    {
      if accepted <= 0 {
        return Refused(InvalidQuantity);
      }
      if u !in cache.members {
        return Refused(TokenNotFound);
      }
      var m := cache.members[u];
      if m.expiresAt.Some? && now > m.expiresAt.value {
        return Refused(TokenExpired);
      }
      if !m.status.OfferPending? || m.available.None? {
        return Refused(InvalidStatus);
      }
      if accepted > m.available.value {
        return Refused(QuantityExceeded);
      }
      var e, r := Take(m, accepted, now);
      if e.Finished? && accepted < m.available.value {
        e := Advance(now);
      }
      reply := Replied(e, Granted(r));
    }

    method Take(m: Membership, accepted: int, now: Time) returns (e: Ended, r: Right)
      requires m.available.Some?
      modifies this`nextToken, cache, durable
      ensures (Contents(), e) == TakeOffer(old(Contents()), m, accepted, now)
      ensures r == NewRight(old(Contents()), m, accepted, now)
    {
      r := MintRight(m, accepted, now);
      var m' := m.(status := RightActive, token := Some(r.token), quantity := accepted, available := None,
                   expiresAt := Some(r.expiresAt), updatedAt := now);
      e := durable.IssueRightAndUpsertMembershipTx(r, m', now);
      if e.Finished? {
        SyncCacheState(m', Some(r), now);
        var returned := m.available.value - accepted;
        if returned > 0 {
          cache.AddAvailable(returned);
        }
      }
    }

    // ---- Leaving and expiring ----

    method ReleaseUnits(final: Membership, r: Option<Right>, removeTimer: bool, n: int, now: Time)
      modifies cache
      ensures Contents() == Release(old(Contents()), final, r, removeTimer, n, now)
    {
      SyncCacheState(final, r, now);
      if removeTimer {
        cache.RemoveFromExpiryTimer(final.user);
      }
      if n > 0 {
        cache.AddAvailable(n);
      }
    }

    method ExpireRight(m: Membership, stamp: Time, removeTimer: bool, now: Time) returns (reply: Reply)
      modifies this`nextToken, cache, durable
      ensures (Contents(), reply) == ExpireActiveRight(old(Contents()), m, stamp, removeTimer, now)
    {
      if m.token.None? {
        return Refused(InvalidStatus);
      }
      var final := m.(status := Declined, available := None, token := None, expiresAt := None, updatedAt := stamp);
      var t, e := durable.ExpireRightAndUpsertMembershipTx(m.token.value, final, now);
      if t.Denied? {
        return Refused(t.error);
      }
      if e.Finished? {
        if t.transitioned {
          ReleaseUnits(final, Some(t.right), removeTimer, m.quantity, now);
          e := Advance(now);
        } else if t.right.status.Expired? {
          SyncCacheState(final, Some(t.right), now);
        } else {
          cache.SetRight(t.right);
        }
      }
      reply := Replied(e, Ok);
    }

    method FinishOffer(m: Membership, stamp: Time, removeTimer: bool, skipAdvance: bool, now: Time) returns (reply: Reply)
      requires m.available.Some?
      modifies this`nextToken, cache, durable
      ensures (Contents(), reply) == EndOffer(old(Contents()), m, stamp, removeTimer, skipAdvance, now)
    {
      var final := m.(status := Declined, available := None, token := None, expiresAt := None, updatedAt := stamp);
      var e := durable.UpsertMembership(final, now);
      if e.Finished? {
        ReleaseUnits(final, None, removeTimer, m.available.value, now);
        if !skipAdvance {
          e := Advance(now);
        }
      }
      reply := Replied(e, Ok);
    }

    method Quit(final: Membership, now: Time) returns (e: Ended)
      modifies cache, durable
      ensures (Contents(), e) == QuitQueue(old(Contents()), final, now)
    {
      e := durable.UpsertMembership(final, now);
      if e.Finished? {
        SyncCacheState(final, None, now);
        cache.RemoveFromQueue(final.user);
      }
    }

    method Leave(u: UserId, offerOnly: bool, now: Time) returns (reply: Reply)
      modifies this`nextToken, cache, durable
      ensures (Contents(), reply) == LeaveQueue(old(Contents()), u, offerOnly, now)
    {
      if u !in cache.members {
        return Refused(TokenNotFound);
      }
      var m := cache.members[u];
      if m.expiresAt.Some? && now > m.expiresAt.value {
        return Refused(TokenExpired);
      }
      if offerOnly && !m.status.OfferPending? {
        return Refused(InvalidStatus);
      }
      match m.status
      case Queued =>
        var e := Quit(m.(status := Declined, available := None, token := None, expiresAt := None, updatedAt := now), now);
        reply := Replied(e, Ok);
      case OfferPending =>
        if m.available.None? {
          return Refused(InvalidStatus);
        }
        reply := FinishOffer(m, now, true, m.available.value <= 0, now);
      case RightActive =>
        reply := ExpireRight(m, now, true, now);
      case _ =>
        reply := Refused(InvalidStatus);
    }

    // ---- ProcessPayment ----

    // The cache side: the count, the right, and the membership if it still holds that right.
    method CachePayment(right: Right, transitioned: bool, now: Time)
      modifies cache
      ensures Contents() == RecordPayment(old(Contents()), right, transitioned, now)
    {
      if transitioned {
        cache.CommitPurchase(right.quantity);
      }
      cache.SetRight(right);
      var marked := cache.MarkPurchasedIfCurrentToken(right, now);
    }

    // Everything up to the point where the queue advances.
    method Charge(token: Token, order: OrderId, now: Time) returns (t: Transition, e: Ended)
      modifies cache, durable
      ensures match D.UseRight(old(durable.Contents()), token, order, now)
        case TxError(error) => t == Denied(error) && Contents() == old(Contents())
        case TxResult(after, right, transitioned) =>
          !t.Denied?
          && var w := Persist(old(Contents()), after);
             e == w.1 && Contents() == (if e.Finished? then RecordPayment(w.0, right, transitioned, now) else w.0)
    {
      t, e := durable.UseRightTx(token, order, now);
      if !t.Denied? && e.Finished? {
        CachePayment(t.right, t.transitioned, now);
      }
    }

    method Pay(token: Token, order: OrderId, now: Time) returns (reply: Reply)
      modifies this`nextToken, cache, durable
      ensures (Contents(), reply) == ProcessPayment(old(Contents()), token, order, now)
    {
      var t, e := Charge(token, order, now);
      if t.Denied? {
        return Refused(t.error);
      }
      if e.Finished? {
        e := Advance(now);
      }
      reply := Replied(e, Ok);
    }

    // ---- RefreshUserPresence, for this product ----

    method Refresh(u: UserId, now: Time)
      modifies cache
      ensures Contents() == RefreshPresence(old(Contents()), u, now)
    {
      var deadline := now + cfg.presenceTimeout;
      var queued := u in cache.index;
      cache.SetUserPresenceDeadline(u, deadline);
      if queued {
        if u !in cache.members || !cache.members[u].status.Queued? {
          cache.RemoveFromQueue(u);
        } else {
          var refreshed := cache.RefreshExpiryTimer(u, deadline);
        }
      }
    }

    // ---- handleExpiredKey ----

    method Expire(m: Membership, pass: Time, now: Time) returns (reply: Reply)
      requires m.status.Queued? || m.IsTimed()
      modifies this`nextToken, cache, durable
      ensures (Contents(), reply) == ExpireNow(old(Contents()), m, pass, now)
    {
      match m.status
      case Queued =>
        if m.user in cache.presence && pass < cache.presence[m.user] * MILLIS {
          cache.AddToExpiryTimer(m.user, cache.presence[m.user] * MILLIS);
          return Ok;
        }
        var e := Quit(m.(status := Declined, updatedAt := pass), now);
        reply := Replied(e, Ok);
      case RightActive =>
        reply := ExpireRight(m, now, false, now);
        if reply == Refused(InvalidStatus) {
          reply := Ok;
        }
      case _ =>
        if m.available.None? {
          return Refused(InvalidStatus);
        }
        reply := FinishOffer(m, pass, false, false, now);
    }

    method HandleKey(c: T.Claim, now: Time) returns (reply: Reply)
      modifies this`nextToken, cache, durable
      ensures (Contents(), reply) == HandleExpired(old(Contents()), c, now)
    {
      if c.user !in cache.members {
        return Refused(TokenNotFound);
      }
      var m := cache.members[c.user];
      if !m.status.Queued? && !m.IsTimed() {
        return Ok;
      }
      if !m.status.Queued? && m.expiresAt.None? {
        return Refused(InvalidStatus);
      }
      if c.deadline * MILLIS < m.updatedAt {
        var deadline := c.pass + cfg.presenceTimeout;
        if m.expiresAt.Some? {
          deadline := m.expiresAt.value;
        }
        cache.AddToExpiryTimer(m.user, deadline);
        return Ok;
      }
      reply := Expire(m, c.pass, now);
    }

    // ---- ProcessExpirations ----

    // Handles one claim and files it, unless the process dies of it.
    method HandleOne(c: T.Claim, now: Time) returns (reply: Reply)
      requires !durable.down
      modifies this, cache, durable
      ensures reply == HandleExpired(old(Contents()), c, now).1
      ensures Contents() == HandleClaim(old(Contents()), c, now)
    {
      reply := HandleKey(c, now);
      if !reply.Crashed? {
        open := open - {c};
        if reply.Refused? {
          failed := failed + {c};
        } else {
          handled := handled + {c};
        }
      }
    }

    // For each claim, the reading of the clock and the fate of its durable calls.
    method HandleBatch(claims: seq<T.Claim>, moments: seq<E.Moment>) returns (done: seq<T.Claim>, retry: seq<T.Claim>)
      requires |moments| >= |claims|
      modifies this, cache, durable
      ensures E.HandleAll(old(Contents()), claims, moments) == E.Batch(Contents(), done, retry)
      ensures forall c :: c in retry ==> c in claims
    {
      done, retry := [], [];
      var i := 0;
      assert claims[0..] == claims && moments[0..] == moments;
      while i < |claims| && !durable.down
        invariant 0 <= i <= |claims|
        invariant forall c :: c in retry ==> c in claims
        invariant E.HandleAll(old(Contents()), claims, moments)
               == Prefixed(done, retry, E.HandleAll(Contents(), claims[i..], moments[i..]))
        decreases |claims| - i
      {
        var c := claims[i];
        assert claims[i..][0] == c && claims[i..][1..] == claims[i + 1..];
        assert moments[i..][0] == moments[i] && moments[i..][1..] == moments[i + 1..];
        ghost var before := Contents();
        durable.faults := moments[i].faults;
        var reply := HandleOne(c, moments[i].at);
        E.BatchUnfolds(before, claims[i..], moments[i..]);
        PrefixedMore(done, retry, c, reply, E.HandleAll(Contents(), claims[i + 1..], moments[i + 1..]));
        if reply.Refused? {
          retry := retry + [c];
        } else if !reply.Crashed? {
          done := done + [c];
        }
        i := i + 1;
      }
      assert E.HandleAll(Contents(), claims[i..], moments[i..]) == E.Batch(Contents(), [], []);
      assert done + [] == done && retry + [] == retry;
    }

    // Abandoned timers come first, then a batch is claimed.
    method RescueAndClaim(pass: Time, limit: nat) returns (claims: seq<T.Claim>)
      modifies this, cache
      ensures var rescued := WithTimers(old(Contents()), T.Reclaim(old(cache.Timers()), pass));
        claims == T.ClaimDue(rescued.cache.timers, pass, limit).1
        && Contents() == ClaimTimers(rescued, limit, pass).(clock := pass)
      ensures |claims| <= limit && forall c :: c in claims ==> c.pass == pass
    {
      var rescued := cache.ReclaimStaleExpired(pass);
      E.BatchFits(cache.Timers(), pass, limit);
      claims := cache.ClaimExpired(pass, limit);
      open := open + T.AsSet(claims);
      clock := pass;
    }

    method ProcessExpirations(pass: Time, limit: nat, moments: seq<E.Moment>)
      requires |moments| >= limit
      modifies this, cache, durable
      ensures Contents() == E.Pass(old(Contents()), pass, limit, moments)
    {
      var claims := RescueAndClaim(pass, limit);
      var done, retry := HandleBatch(claims, moments);
      if !durable.down {
        cache.AckExpired(done);
        cache.NackExpired(retry, pass + T.RETRY_DELAY);
      }
    }

    // ---- RecoverCache ----

    // Finds out what the rows say and repairs those that contradict each other.
    method RepairRows(rows: seq<Membership>, rights: seq<Right>, now: Time)
      returns (state: RecoveryState, repaired: seq<Membership>)
      requires TablesOf(durable.Contents(), product).WellKeyed() && durable.faults.Healthy?
      requires IsSnapshot(durable.Contents(), product, rows)
      requires ListsRights(rights, TablesOf(durable.Contents(), product))
      modifies durable
      ensures fresh(state)
      ensures durable.Contents() == RepairedRows(old(durable.Contents()), product, now)
      ensures durable.faults == old(durable.faults) && durable.down == old(durable.down)
      ensures var t := TablesOf(old(durable.Contents()), product);
        && state.queued.Keys == state.reserved.Keys == R.Known(t)
        && (forall p :: p in R.Known(t) ==>
              state.queued[p] == R.Waiting(rows, R.Known(t), p) && state.reserved[p] == R.Reserved(t, p))
        && state.timers == TimersAlong(rows, t, now) && repaired == RepairedAlong(rows, t, now)
        && forall x :: x in state.expired <==> x in t.rights && R.MustExpire(t, x)
    {
      ghost var d := durable.Contents();
      var stocks := StockList(durable.Contents());
      StockIsListed(d, product);
      state := new RecoveryState();
      repaired := state.Build(stocks, rows, rights, now, TablesOf(d, product));
      DeclinedAreRepairs(d, product, rows, now);
      MarkedIsList(d, product, rights, state.expired, now);
      ApplyRepairs(durable, state.expired, state.declined, now, RepairedRows(d, product, now).members);
    }

    // Rebuilds the cache from the repaired rows. s is what both stores held before the repairs.
    method ReplayCache(state: RecoveryState, repaired: seq<Membership>, rows: seq<Membership>, rights: seq<Right>, now: Time, ghost s: State)
      requires TablesOf(s.db, product).WellKeyed() && s.product == product && s.cache == cache.Contents()
      requires IsSnapshot(s.db, product, rows) && ListsRights(rights, TablesOf(s.db, product))
      requires durable.Contents() == RepairedRows(s.db, product, now)
      requires var t := TablesOf(s.db, product);
        && state.queued.Keys == state.reserved.Keys == R.Known(t)
        && (forall p :: p in R.Known(t) ==>
              state.queued[p] == R.Waiting(rows, R.Known(t), p) && state.reserved[p] == R.Reserved(t, p))
        && state.timers == TimersAlong(rows, t, now) && repaired == RepairedAlong(rows, t, now)
        && forall x :: x in state.expired <==> x in t.rights && R.MustExpire(t, x)
      modifies cache
      ensures cache.Contents() == Rebuilt(s, rows, now)
    {
      var t := TablesOf(s.db, product);
      RestoreStock(cache, durable.stock, state, product, t, rows);
      RepairedIsList(s.db, product, rows, now);
      MarkedIsList(s.db, product, rights, state.expired, now);
      TimersAreSchedule(s.db, product, rows, now);
      ResetLeavesNothing(cache.Contents(), s.cache, t, product, rows);
      ReplayRows(cache, repaired, MarkedRights(rights, state.expired), state.timers,
        durable.Contents(), RestoredSchedule(s.db, product, now));
    }

    // rows and rights are the tables in the order in which the snapshot lists them.
    method RecoverCache(rows: seq<Membership>, rights: seq<Right>, now: Time)
      requires TablesOf(durable.Contents(), product).WellKeyed() && durable.faults.Healthy?
      requires IsSnapshot(durable.Contents(), product, rows)
      requires ListsRights(rights, TablesOf(durable.Contents(), product))
      modifies this, cache, durable
      ensures Contents() == Restarted(old(Contents()), rows, now)
    {
      ghost var s := Contents();
      var state, repaired := RepairRows(rows, rights, now);
      ReplayCache(state, repaired, rows, rights, now, s);
      clock, open, handled, failed := now, {}, {}, {};
      durable.down := false;
    }
  }

  lemma {:induction false} ResetLeavesNothing(c': Cache, c: Cache, t: R.Tables, p: ProductId, rows: seq<Membership>)
    requires c' == RestoredStock(ResetSlots(ResetTimers(c)), t, p, rows)
    ensures c'.slots == {} && c'.timers == T.NO_TIMERS
  {
  }

  function Prefixed(done: seq<T.Claim>, retry: seq<T.Claim>, b: E.Batch): E.Batch {
    b.(handled := done + b.handled, failed := retry + b.failed)
  }

  lemma {:induction false} PrefixedMore(done: seq<T.Claim>, retry: seq<T.Claim>, c: T.Claim, reply: Reply, rest: E.Batch)
    ensures Prefixed(done, retry, E.WithFirst(c, reply, rest))
         == if reply.Crashed? then Prefixed(done, retry, rest)
            else if reply.Refused? then Prefixed(done, retry + [c], rest)
            else Prefixed(done + [c], retry, rest)
  {
    assert done + ([c] + rest.handled) == done + [c] + rest.handled;
    assert retry + ([c] + rest.failed) == retry + [c] + rest.failed;
  }
}
