/** The cache repository: the keys of one product, and the scripts that change them in place. */
module RedisCache {
  import opened Models
  import C = CacheScripts
  import T = Timers

  class CacheRepo {
    var stock: Option<C.Stock>
    var queue: seq<C.Entry>
    var lastScore: nat
    var members: map<UserId, Membership>
    var rights: map<Token, Right>
    var slots: set<UserId>
    var index: set<UserId>
    var presence: map<UserId, Second>
    var scheduled: map<UserId, Second>
    var processing: map<UserId, Time>
    var deadlines: map<UserId, Second>

    function Timers(): T.Timers
      reads this
    {
      T.Timers(scheduled, processing, deadlines)
    }

    function Contents(): C.Cache
      reads this
    {
      C.Cache(stock, queue, lastScore, members, rights, slots, index, Timers(), presence)
    }

    constructor ()
      ensures Contents() == C.Cache(None, [], 0, map[], map[], {}, {}, T.NO_TIMERS, map[])
    {
      stock, queue, lastScore, members, rights := None, [], 0, map[], map[];
      slots, index, presence := {}, {}, map[];
      scheduled, processing, deadlines := map[], map[], map[];
    }

    // ---- Stock ----

    method InitStock(total: int)
      modifies this
      ensures Contents() == C.InitStock(old(Contents()), total)
    {
      if stock.None? {
        stock := Some(C.Stock(total, total));
      }
    }

    // HINCRBY, on a field that counts as zero when it is missing.
    method AddAvailable(n: int)
      modifies this
      ensures Contents() == C.RestoreUnits(old(Contents()), n)
    {
      var k := C.Counters(Contents());
      stock := Some(k.(available := k.available + n));
    }

    method CommitPurchase(n: int)
      modifies this
      ensures Contents() == C.CommitPurchase(old(Contents()), n)
    {
      var k := C.Counters(Contents());
      stock := Some(k.(count := k.count - n));
    }

    method TryAllocate(quantity: int) returns (a: C.Allocation)
      modifies this
      ensures (Contents(), a) == C.TryAllocate(old(Contents()), quantity)
    {
      var k := C.Counters(Contents());
      if k.count == 0 {
        return C.Allocation(0, 0, true);
      }
      if |queue| > 0 {
        return C.Allocation(0, 0, false);
      }
      if k.available >= quantity {
        AddAvailable(-quantity);
        return C.Allocation(quantity, 0, false);
      }
      if k.available > 0 {
        AddAvailable(-k.available);
        return C.Allocation(0, k.available, false);
      }
      return C.Allocation(0, 0, false);
    }

    // ---- Queue ----

    method Enqueue(u: UserId)
      modifies this
      ensures Contents() == C.Enqueue(old(Contents()), u)
    {
      lastScore := lastScore + 1;
      queue := C.Place(queue, C.Entry(lastScore, u));
      index := index + {u};
    }

    method RemoveFromQueue(u: UserId)
      modifies this
      ensures Contents() == C.RemoveFromQueue(old(Contents()), u)
    {
      queue := C.Without(queue, u);
      index := index - {u};
    }

    method Requeue(e: C.Entry)
      modifies this
      ensures Contents() == C.Requeue(old(Contents()), e)
    {
      queue := C.Place(queue, e);
      index := index + {e.user};
    }

    method PopAndAllocate() returns (p: C.Popped)
      modifies this
      ensures (Contents(), p) == C.PopAndAllocate(old(Contents()))
    {
      if queue == [] {
        return C.NoOne;
      }
      var head := queue[0];
      if head.user !in members || !members[head.user].status.Queued? {
        p := C.Popped(head, 0, 0, if head.user in members then Some(members[head.user].status) else None);
        RemoveFromQueue(head.user);
        return;
      }
      var wanted := members[head.user].quantity;
      var k := C.Counters(Contents());
      if k.count == 0 {
        RemoveFromQueue(head.user);
        return C.Popped(head, 0, 0, Some(SoldOut));
      }
      if k.available >= wanted {
        AddAvailable(-wanted);
        RemoveFromQueue(head.user);
        return C.Popped(head, wanted, 0, Some(RightActive));
      }
      if k.available > 0 {
        AddAvailable(-k.available);
        RemoveFromQueue(head.user);
        return C.Popped(head, 0, k.available, Some(OfferPending));
      }
      return C.Popped(head, 0, 0, Some(Queued));
    }

    // ---- Memberships, rights and slots ----

    method SetMembership(m: Membership)
      modifies this
      ensures Contents() == C.SetMembership(old(Contents()), m)
    {
      members := members[m.user := m];
      if m.status.IsTerminal() {
        slots := slots - {m.user};
      } else {
        slots := slots + {m.user};
      }
    }

    method SetRight(r: Right)
      modifies this
      ensures Contents() == C.SetRight(old(Contents()), r)
    {
      rights := rights[r.token := r];
    }

    method MarkPurchasedIfCurrentToken(r: Right, at: Time) returns (marked: bool)
      modifies this
      ensures Contents() == C.MarkPurchased(old(Contents()), r, at)
      ensures marked <==> r.user in old(members) && old(members)[r.user].token == Some(r.token)
                          && old(members)[r.user].status.RightActive?
    {
      if r.user !in members || members[r.user].token != Some(r.token) {
        return false;
      }
      if !members[r.user].status.RightActive? {
        return false;
      }
      members := members[r.user := members[r.user].(
        status := Purchased, available := None, token := None, expiresAt := None, updatedAt := at)];
      scheduled := scheduled - {r.user};
      slots := slots - {r.user};
      return true;
    }

    method TryOccupyQueueSlot(u: UserId, others: nat, limit: nat) returns (outcome: C.SlotOutcome)
      modifies this
      ensures (Contents(), outcome) == C.OccupySlot(old(Contents()), u, others, limit)
    {
      if u in slots {
        return C.SlotAlreadyHeld;
      }
      if others >= limit {
        return C.SlotRefused;
      }
      slots := slots + {u};
      return C.SlotTaken;
    }

    method ReleaseQueueSlot(u: UserId)
      modifies this
      ensures Contents() == C.ReleaseSlot(old(Contents()), u)
    {
      slots := slots - {u};
    }

    // ---- Timers ----

    method AddToExpiryTimer(u: UserId, deadline: Time)
      modifies this
      ensures Contents() == C.AddTimer(old(Contents()), u, deadline)
    {
      scheduled := scheduled[u := Seconds(deadline)];
    }

    method RemoveFromExpiryTimer(u: UserId)
      modifies this
      ensures Contents() == C.RemoveTimer(old(Contents()), u)
    {
      scheduled := scheduled - {u};
    }

    method RefreshExpiryTimer(u: UserId, deadline: Time) returns (refreshed: bool)
      modifies this
      ensures Contents() == old(Contents()).(timers := T.Refresh(old(Timers()), u, Seconds(deadline)))
      ensures refreshed <==> u in old(scheduled)
    {
      if u !in scheduled {
        return false;
      }
      if Seconds(deadline) > scheduled[u] {
        scheduled := scheduled[u := Seconds(deadline)];
      }
      return true;
    }

    method SetUserPresenceDeadline(u: UserId, deadline: Time)
      modifies this
      ensures Contents() == old(Contents()).(presence := old(presence)[u := Seconds(deadline)])
    {
      presence := presence[u := Seconds(deadline)];
    }

    // ZRANGE BYSCORE over the schedule, first element.
    method EarliestDue(now: Time) returns (u: Option<UserId>)
      ensures u.Some? ==> T.IsEarliestDue(Timers(), u.value, now)
      ensures u.None? ==> forall v :: v in scheduled ==> !T.IsDue(Timers(), v, now)
    {
      u := None;
      var pool := scheduled.Keys;
      while pool != {}
        invariant pool <= scheduled.Keys
        invariant u.Some? ==> T.IsDue(Timers(), u.value, now)
        invariant forall v :: v in scheduled && v !in pool && T.IsDue(Timers(), v, now) ==>
          u.Some? && T.IsDue(Timers(), u.value, now) && T.Before(Timers(), u.value, v)
        decreases pool
      {
        var v :| v in pool;
        pool := pool - {v};
        if scheduled[v] <= Seconds(now) && (u.None? || T.Before(Timers(), v, u.value)) {
          u := Some(v);
        }
      }
    }

    // ZREM from the schedule, ZADD to processing, HSET of the deadline.
    method TakeTimer(u: UserId, now: Time) returns (c: T.Claim)
      requires u in scheduled
      modifies this`scheduled, this`processing, this`deadlines
      ensures Timers() == T.Take(old(Timers()), u, now + T.LEASE)
      ensures c == T.Claim(u, old(scheduled)[u], now + T.LEASE, now)
    {
      var deadline := scheduled[u];
      scheduled := scheduled - {u};
      processing := processing[u := now + T.LEASE];
      deadlines := deadlines[u := deadline];
      c := T.Claim(u, deadline, now + T.LEASE, now);
    }

    method ClaimExpired(now: Time, limit: nat) returns (claims: seq<T.Claim>)
      modifies this
      ensures (Timers(), claims) == T.ClaimDue(old(Timers()), now, limit)
      ensures Contents() == old(Contents()).(timers := Timers())
    {
      claims := [];
      var u := EarliestDue(now);
      assert claims + T.ClaimDue(Timers(), now, limit).1 == T.ClaimDue(Timers(), now, limit).1;
      while |claims| < limit && u.Some?
        invariant |claims| <= limit
        invariant u.Some? ==> T.IsEarliestDue(Timers(), u.value, now)
        invariant u.None? ==> forall v :: v in scheduled ==> !T.IsDue(Timers(), v, now)
        invariant Contents() == old(Contents()).(timers := Timers())
        invariant T.ClaimDue(old(Timers()), now, limit) == Following(claims, T.ClaimDue(Timers(), now, limit - |claims|))
        decreases limit - |claims|
      {
        ghost var before, done := Timers(), claims;
        var c := TakeTimer(u.value, now);
        claims := claims + [c];
        ClaimStep(before, u.value, now, limit - |done|);
        FollowingMore(done, c, T.ClaimDue(Timers(), now, limit - |claims|));
        u := EarliestDue(now);
      }
      NothingFollows(claims, Timers(), now, limit - |claims|);
    }

    method AckExpired(claims: seq<T.Claim>)
      modifies this
      ensures Contents() == old(Contents()).(timers := T.Ack(old(Timers()), claims))
    {
      var i := 0;
      while i < |claims|
        invariant 0 <= i <= |claims|
        invariant Contents() == old(Contents()).(timers := Timers())
        invariant T.Ack(old(Timers()), claims) == T.Ack(Timers(), claims[i..])
      {
        var c := claims[i];
        assert claims[i..][0] == c && claims[i..][1..] == claims[i + 1..];
        if c.user in processing && processing[c.user] == c.lease {
          processing := processing - {c.user};
          deadlines := deadlines - {c.user};
        }
        i := i + 1;
      }
    }

    // retryAt is one second after the pass that made the claims.
    method NackExpired(claims: seq<T.Claim>, retryAt: Time)
      requires forall c :: c in claims ==> retryAt == c.pass + T.RETRY_DELAY
      modifies this
      ensures Contents() == old(Contents()).(timers := T.Nack(old(Timers()), claims))
    {
      var i := 0;
      while i < |claims|
        invariant 0 <= i <= |claims|
        invariant Contents() == old(Contents()).(timers := Timers())
        invariant T.Nack(old(Timers()), claims) == T.Nack(Timers(), claims[i..])
      {
        var c := claims[i];
        assert claims[i..][0] == c && claims[i..][1..] == claims[i + 1..] && c in claims;
        if c.user in processing && processing[c.user] == c.lease {
          processing := processing - {c.user};
          deadlines := deadlines - {c.user};
          if c.user !in scheduled {
            scheduled := scheduled[c.user := Seconds(retryAt)];
          }
        }
        i := i + 1;
      }
    }

    // ZREM from processing, HDEL of the deadline, ZADD to the schedule unless it is there.
    method RescueTimer(u: UserId, now: Time)
      modifies this`scheduled, this`processing, this`deadlines
      ensures processing == old(processing) - {u} && deadlines == old(deadlines) - {u}
      ensures scheduled == if u in old(scheduled) then old(scheduled)
        else old(scheduled)[u := if u in old(deadlines) then old(deadlines)[u] else Seconds(now)]
    {
      var original := if u in deadlines then deadlines[u] else Seconds(now);
      processing := processing - {u};
      deadlines := deadlines - {u};
      if u !in scheduled {
        scheduled := scheduled[u := original];
      }
    }

    method ReclaimStaleExpired(now: Time) returns (rescued: nat)
      modifies this
      ensures Contents() == old(Contents()).(timers := T.Reclaim(old(Timers()), now))
      ensures rescued == |T.Stale(old(Timers()), now)|
    {
      ghost var before := Timers();
      var stale := T.Stale(Timers(), now);
      rescued := |stale|;
      var left := stale;
      while left != {}
        invariant left <= stale
        invariant Rescuing(before, now, left, Timers())
        invariant Contents() == old(Contents()).(timers := Timers())
        decreases left
      {
        var u :| u in left;
        ghost var t := Timers();
        RescueTimer(u, now);
        RescuedOne(before, now, left, t, Timers(), u);
        left := left - {u};
      }
      RescuedAll(before, now, Timers());
    }

    // ---- Recovery ----

    method ResetExpiryTimers()
      modifies this
      ensures Contents() == C.ResetTimers(old(Contents()))
    {
      scheduled, processing, deadlines, index := map[], map[], map[], {};
    }

    method ResetQueueSlots()
      modifies this
      ensures Contents() == C.ResetSlots(old(Contents()))
    {
      slots := {};
    }

    // Takes the product out of the indexes of all users who were in its queue.
    method DropFromIndexes()
      modifies this`index
      ensures index == old(index) - (set e | e in queue :: e.user)
    {
      var i := 0;
      while i < |queue|
        invariant 0 <= i <= |queue|
        invariant index == old(index) - (set e | e in queue[..i] :: e.user)
      {
        assert queue[..i + 1] == queue[..i] + [queue[i]];
        index := index - {queue[i].user};
        i := i + 1;
      }
      assert queue[..i] == queue;
    }

    method FillQueue(users: seq<UserId>)
      modifies this`queue, this`index
      ensures queue == C.Numbered(users) && index == old(index) + (set u | u in users)
    {
      queue := [];
      var i := 0;
      while i < |users|
        invariant 0 <= i <= |users|
        invariant queue == C.Numbered(users[..i]) && index == old(index) + (set u | u in users[..i])
      {
        assert users[..i + 1] == users[..i] + [users[i]];
        queue := queue + [C.Entry(i + 1, users[i])];
        index := index + {users[i]};
        i := i + 1;
      }
      assert users[..i] == users;
    }

    method RestoreProductState(count: int, available: int, users: seq<UserId>)
      modifies this
      ensures Contents() == C.RestoreProduct(old(Contents()), count, available, users)
    {
      stock := Some(C.Stock(count, available));
      DropFromIndexes();
      FillQueue(users);
      lastScore := |users|;
    }
  }

  function Following(claims: seq<T.Claim>, rest: (T.Timers, seq<T.Claim>)): (T.Timers, seq<T.Claim>) {
    (rest.0, claims + rest.1)
  }

  lemma {:induction false} FollowingMore(claims: seq<T.Claim>, c: T.Claim, rest: (T.Timers, seq<T.Claim>))
    ensures Following(claims, (rest.0, [c] + rest.1)) == Following(claims + [c], rest)
  {
    assert claims + ([c] + rest.1) == claims + [c] + rest.1;
  }

  lemma {:induction false} NothingFollows(claims: seq<T.Claim>, t: T.Timers, now: Time, limit: nat)
    requires limit == 0 || forall v :: v in t.scheduled ==> !T.IsDue(t, v, now)
    ensures Following(claims, T.ClaimDue(t, now, limit)) == (t, claims)
  {
    assert T.NextDue(t, now).Some? ==> T.NextDue(t, now).value in t.scheduled;
    assert claims + [] == claims;
  }

  // The earliest due timer is unique, so the loop takes what the specification takes.
  lemma {:induction false} ClaimStep(t: T.Timers, u: UserId, now: Time, limit: nat)
    requires limit > 0 && T.IsEarliestDue(t, u, now)
    ensures var rest := T.ClaimDue(T.Take(t, u, now + T.LEASE), now, limit - 1);
      T.ClaimDue(t, now, limit) == (rest.0, [T.Claim(u, t.scheduled[u], now + T.LEASE, now)] + rest.1)
  {
    var v := T.NextDue(t, now).value;
    assert T.Before(t, u, v) && T.Before(t, v, u);
  }

  // Some of the stale timers are back in the schedule, those in left are not yet.
  predicate Rescuing(before: T.Timers, now: Time, left: set<UserId>, t: T.Timers) {
    var done := T.Stale(before, now) - left;
    && t.processing == before.processing - done
    && t.deadlines == before.deadlines - done
    && t.scheduled.Keys == before.scheduled.Keys + done
    && (forall u :: u in before.scheduled ==> t.scheduled[u] == before.scheduled[u])
    && (forall u :: u in done && u !in before.scheduled ==>
          t.scheduled[u] == if u in before.deadlines then before.deadlines[u] else Seconds(now))
  }

  lemma {:induction false} RescuedOne(before: T.Timers, now: Time, left: set<UserId>, t: T.Timers, t': T.Timers, u: UserId)
    requires Rescuing(before, now, left, t) && left <= T.Stale(before, now) && u in left
    requires t'.processing == t.processing - {u} && t'.deadlines == t.deadlines - {u}
    requires t'.scheduled == if u in t.scheduled then t.scheduled
      else t.scheduled[u := if u in t.deadlines then t.deadlines[u] else Seconds(now)]
    ensures Rescuing(before, now, left - {u}, t')
  {
    var done := T.Stale(before, now) - left;
    assert T.Stale(before, now) - (left - {u}) == done + {u};
    assert t'.processing == before.processing - (done + {u});
    assert t'.deadlines == before.deadlines - (done + {u});
    assert t'.scheduled.Keys == before.scheduled.Keys + (done + {u});
  }

  lemma {:induction false} RescuedAll(before: T.Timers, now: Time, t: T.Timers)
    requires Rescuing(before, now, {}, t)
    ensures t == T.Reclaim(before, now)
  {
    assert T.Stale(before, now) - {} == T.Stale(before, now);
    assert t.scheduled == T.Reclaim(before, now).scheduled;
  }
}
