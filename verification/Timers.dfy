/** The leased expiry timers of one product: three Redis keys and the scripts over them. */
module Timers {
  import opened Models

  // How long a worker may hold a claimed timer before it counts as abandoned,
  // and how long a failed one is postponed.
  const LEASE: Time := 30_000
  const RETRY_DELAY: Time := 1_000

  // scheduled is scored by deadline, processing by the end of the lease, and
  // deadlines remembers the deadline a processing timer was claimed with.
  datatype Timers = Timers(
    scheduled: map<UserId, Second>,
    processing: map<UserId, Time>,
    deadlines: map<UserId, Second>)
  {
    // A worker, now or later, will look at this user.
    predicate Watches(u: UserId) {
      u in scheduled || u in processing
    }
  }

  const NO_TIMERS: Timers := Timers(map[], map[], map[])

  // What a worker keeps of a claimed timer. pass is the instant its pass began.
  datatype Claim = Claim(user: UserId, deadline: Second, lease: Time, pass: Time)

  function AsSet(claims: seq<Claim>): set<Claim> {
    set c | c in claims
  }

  function Add(t: Timers, u: UserId, deadline: Second): Timers {
    t.(scheduled := t.scheduled[u := deadline])
  }

  function Remove(t: Timers, u: UserId): Timers {
    t.(scheduled := t.scheduled - {u})
  }

  // Moves an existing timer forward and never creates one.
  function Refresh(t: Timers, u: UserId, deadline: Second): Timers {
    if u in t.scheduled && deadline > t.scheduled[u] then Add(t, u, deadline) else t
  }

  predicate IsDue(t: Timers, u: UserId, now: Time) {
    u in t.scheduled && t.scheduled[u] <= Seconds(now)
  }

  // Sorted-set order: by score, then by member.
  predicate Before(t: Timers, a: UserId, b: UserId)
    requires a in t.scheduled && b in t.scheduled
  {
    t.scheduled[a] < t.scheduled[b] || (t.scheduled[a] == t.scheduled[b] && a <= b)
  }

  predicate IsEarliestDue(t: Timers, u: UserId, now: Time) {
    IsDue(t, u, now) && forall v :: v in t.scheduled && IsDue(t, v, now) ==> Before(t, u, v)
  }

  lemma {:induction false} EarliestExists(t: Timers, pool: set<UserId>) returns (u: UserId)
    requires pool != {} && pool <= t.scheduled.Keys
    ensures u in pool && forall v :: v in pool ==> Before(t, u, v)
    decreases |pool|
  {
    u :| u in pool;
    if pool - {u} != {} {
      var w := EarliestExists(t, pool - {u});
      assert forall v :: v in pool ==> v == u || v in pool - {u};
      u := if Before(t, u, w) then u else w;
    } else {
      assert pool == {u};
    }
  }

  // The due timer that comes first, if any is due.
  ghost function NextDue(t: Timers, now: Time): (u: Option<UserId>)
    ensures u.Some? ==> IsEarliestDue(t, u.value, now)
    ensures u.None? ==> forall v :: v in t.scheduled ==> !IsDue(t, v, now)
  {
    if exists v :: IsDue(t, v, now) then
      EarliestDueExists(t, now);
      var u :| IsEarliestDue(t, u, now);
      Some(u)
    else None
  }

  lemma {:induction false} EarliestDueExists(t: Timers, now: Time)
    requires exists v :: IsDue(t, v, now)
    ensures exists u :: IsEarliestDue(t, u, now)
  {
    var pool := set v | v in t.scheduled && IsDue(t, v, now);
    var v :| IsDue(t, v, now);
    assert v in pool;
    var u := EarliestExists(t, pool);
    assert IsEarliestDue(t, u, now);
  }

  function Take(t: Timers, u: UserId, lease: Time): Timers
    requires u in t.scheduled
  {
    Timers(t.scheduled - {u}, t.processing[u := lease], t.deadlines[u := t.scheduled[u]])
  }

  // Moves up to limit due timers, earliest first, under one lease.
  ghost function ClaimDue(t: Timers, now: Time, limit: nat): (Timers, seq<Claim>)
    decreases limit
  {
    var u := NextDue(t, now);
    if limit == 0 || u.None? then (t, []) else
      var rest := ClaimDue(Take(t, u.value, now + LEASE), now, limit - 1);
      (rest.0, [Claim(u.value, t.scheduled[u.value], now + LEASE, now)] + rest.1)
  }

  predicate HoldsLease(t: Timers, c: Claim) {
    c.user in t.processing && t.processing[c.user] == c.lease
  }

  function AckOne(t: Timers, c: Claim): Timers {
    if HoldsLease(t, c)
    then t.(processing := t.processing - {c.user}, deadlines := t.deadlines - {c.user})
    else t
  }

  function Ack(t: Timers, claims: seq<Claim>): Timers
    decreases |claims|
  {
    if claims == [] then t else Ack(AckOne(t, claims[0]), claims[1..])
  }

  // A failed timer goes back to the schedule unless a newer one is already there.
  function NackOne(t: Timers, c: Claim): Timers {
    if HoldsLease(t, c) then
      var t' := AckOne(t, c);
      if c.user in t.scheduled then t' else Add(t', c.user, Seconds(c.pass + RETRY_DELAY))
    else t
  }

  function Nack(t: Timers, claims: seq<Claim>): Timers
    decreases |claims|
  {
    if claims == [] then t else Nack(NackOne(t, claims[0]), claims[1..])
  }

  function Stale(t: Timers, now: Time): set<UserId> {
    set u | u in t.processing && t.processing[u] <= now
  }

  // Puts every abandoned timer back under the deadline it was claimed with.
  function Reclaim(t: Timers, now: Time): Timers {
    var stale := Stale(t, now);
    Timers(
      (map u | u in stale && u !in t.scheduled ::
         if u in t.deadlines then t.deadlines[u] else Seconds(now)) + t.scheduled,
      t.processing - stale,
      t.deadlines - stale)
  }
}
