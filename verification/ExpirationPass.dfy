/** One pass of the expiration worker over a batch of timers. */
module ExpirationPass {
  import opened Models
  import opened CacheScripts
  import opened Service
  import opened Invariants
  import opened Expiry
  import opened System
  import T = Timers
  import L = LeaseProtocol

  // When a claim is handled, and what becomes of the durable calls made for it.
  datatype Moment = Moment(at: Time, faults: Faults)

  datatype Batch = Batch(state: State, handled: seq<T.Claim>, failed: seq<T.Claim>)

  function WithFirst(c: T.Claim, reply: Reply, rest: Batch): Batch {
    if reply.Crashed? then rest
    else if reply.Refused? then rest.(failed := [c] + rest.failed)
    else rest.(handled := [c] + rest.handled)
  }

  // Handles the claims one after the other, each at its own reading of the clock and under
  // its own faults, until the process dies.
  function HandleAll(s: State, claims: seq<T.Claim>, moments: seq<Moment>): Batch
    requires |moments| >= |claims|
    decreases |claims|
  {
    if claims == [] || s.down then Batch(s, [], []) else
      var c := claims[0];
      var a := Armed(s, moments[0].faults);
      WithFirst(c, HandleExpired(a, c, moments[0].at).1,
                HandleAll(HandleClaim(a, c, moments[0].at), claims[1..], moments[1..]))
  }

  function Acknowledge(b: Batch): State {
    if b.state.down then b.state
    else WithTimers(b.state, T.Nack(T.Ack(b.state.cache.timers, b.handled), b.failed))
  }

  // ProcessExpirations: reclaim, claim, handle, acknowledge, return.
  ghost function Pass(s: State, pass: Time, limit: nat, moments: seq<Moment>): State
    requires |moments| >= limit
  {
    var rescued := WithTimers(s, T.Reclaim(s.cache.timers, pass));
    var claims := T.ClaimDue(rescued.cache.timers, pass, limit).1;
    BatchFits(rescued.cache.timers, pass, limit);
    Acknowledge(HandleAll(ClaimTimers(rescued, limit, pass).(clock := pass), claims, moments))
  }

  lemma {:induction false} BatchFits(t: T.Timers, now: Time, limit: nat)
    ensures |T.ClaimDue(t, now, limit).1| <= limit
    ensures forall c :: c in T.ClaimDue(t, now, limit).1 ==> c.pass == now
  {
    var taken := L.BatchIsDue(t, now, limit, T.ClaimDue(t, now, limit).0, T.ClaimDue(t, now, limit).1);
  }

  predicate Ascending(from: Time, moments: seq<Moment>, to: Time) {
    && (forall i :: 0 <= i < |moments| ==> from < moments[i].at <= to)
    && (forall i, j :: 0 <= i < j < |moments| ==> moments[i].at <= moments[j].at)
  }

  predicate Distinct(claims: seq<T.Claim>) {
    forall i, j :: 0 <= i < j < |claims| ==> claims[i] != claims[j]
  }

  lemma {:induction false} LaterStill(s: State, now: Time, later: Time)
    requires InvAt(s, now) && now <= later
    ensures InvAt(s, later)
  {
  }

  lemma {:induction false} ArmedStill(s: State, faults: Faults, now: Time, later: Time)
    requires InvAt(s, now) && now <= later
    ensures InvAt(Armed(s, faults), later)
  {
  }

  // Filing one claim leaves the others where they were.
  lemma {:induction false} FilesOne(s: State, c: T.Claim, now: Time)
    requires InvAt(s, now) && !s.down && now > s.clock && c in s.open
    ensures var s' := HandleClaim(s, c, now);
      && s'.clock == s.clock
      && s.handled <= s'.handled && s.failed <= s'.failed && s.open - {c} <= s'.open
      && (s'.down <==> HandleExpired(s, c, now).1.Crashed?)
      && (!s'.down ==>
            if HandleExpired(s, c, now).1.Refused? then c in s'.failed else c in s'.handled)
  {
    HandleExpiredHandles(s, c, now);
  }

  ghost predicate BatchOk(s: State, b: Batch, end: Time) {
    && InvAt(b.state, end) && b.state.clock == s.clock
    && s.handled <= b.state.handled && s.failed <= b.state.failed
    && (!b.state.down ==>
          && (forall c :: c in b.handled ==> c in b.state.handled)
          && (forall c :: c in b.failed ==> c in b.state.failed))
  }

  lemma {:induction false} BatchUnfolds(s: State, claims: seq<T.Claim>, moments: seq<Moment>)
    requires claims != [] && !s.down && |moments| >= |claims|
    ensures HandleAll(s, claims, moments)
         == (var a := Armed(s, moments[0].faults);
             WithFirst(claims[0], HandleExpired(a, claims[0], moments[0].at).1,
                       HandleAll(HandleClaim(a, claims[0], moments[0].at), claims[1..], moments[1..])))
  {
  }

  lemma {:induction false} FirstThenRest(s: State, s1: State, c: T.Claim, reply: Reply, rest: Batch, end: Time)
    requires BatchOk(s1, rest, end) && s1.clock == s.clock
    requires s.handled <= s1.handled && s.failed <= s1.failed
    requires s1.down ==> rest.state.down
    requires s1.down <==> reply.Crashed?
    requires !s1.down ==> if reply.Refused? then c in s1.failed else c in s1.handled
    ensures BatchOk(s, WithFirst(c, reply, rest), end)
  {
  }

  lemma {:induction false} DeadBatch(s: State, claims: seq<T.Claim>, moments: seq<Moment>)
    requires |moments| >= |claims|
    ensures s.down ==> HandleAll(s, claims, moments).state.down
  {
  }

  lemma {:induction false} RestStaysOpen(claims: seq<T.Claim>, open: set<T.Claim>, open': set<T.Claim>)
    requires claims != [] && Distinct(claims) && (forall c :: c in claims ==> c in open) && open - {claims[0]} <= open'
    ensures Distinct(claims[1..]) && forall c :: c in claims[1..] ==> c in open'
  {
    assert forall c :: c in claims[1..] ==> c in claims && c != claims[0];
  }

  lemma {:induction false} BatchKeepsInv(s: State, claims: seq<T.Claim>, moments: seq<Moment>, now: Time, end: Time)
    requires InvAt(s, now) && s.clock < now <= end && |moments| >= |claims|
    requires Ascending(s.clock, moments, end) && (forall i :: 0 <= i < |moments| ==> now <= moments[i].at)
    requires !s.down ==> Distinct(claims) && forall c :: c in claims ==> c in s.open
    ensures BatchOk(s, HandleAll(s, claims, moments), end)
    decreases |claims|
  {
    if claims == [] || s.down {
      LaterStill(s, now, end);
    } else {
      var c, t, a := claims[0], moments[0].at, Armed(s, moments[0].faults);
      ArmedStill(s, moments[0].faults, now, t);
      HandleKeepsInv(a, c, t);
      FilesOne(a, c, t);
      var s1 := HandleClaim(a, c, t);
      if !s1.down {
        RestStaysOpen(claims, s.open, s1.open);
      }
      BatchKeepsInv(s1, claims[1..], moments[1..], t, end);
      DeadBatch(s1, claims[1..], moments[1..]);
      FirstThenRest(s, s1, c, HandleExpired(a, c, t).1, HandleAll(s1, claims[1..], moments[1..]), end);
      BatchUnfolds(s, claims, moments);
    }
  }

  lemma {:induction false} AcknowledgeKeepsInv(b: Batch, end: Time)
    requires InvAt(b.state, end)
    requires !b.state.down ==>
      (forall c :: c in b.handled ==> c in b.state.handled) && (forall c :: c in b.failed ==> c in b.state.failed)
    ensures Inv(Acknowledge(b).(clock := end, faults := Healthy))
  {
    var s := b.state.(clock := end, faults := Healthy);
    Ticks(b.state, end);
    if !s.down {
      AckKeepsInv(s, b.handled);
      var acked := WithTimers(s, T.Ack(s.cache.timers, b.handled));
      NackKeepsInv(acked, b.failed);
      assert WithTimers(acked, T.Nack(acked.cache.timers, b.failed))
          == Acknowledge(b).(clock := end, faults := Healthy);
    }
  }

  // Whichever claims of the batch fail, and wherever the process dies, a pass keeps every
  // invariant.
  lemma {:induction false} PassKeepsInv(s: State, pass: Time, limit: nat, moments: seq<Moment>, end: Time)
    requires Inv(s) && !s.down && pass > s.clock && |moments| >= limit && Ascending(pass, moments, end) && end > pass
    ensures Inv(Pass(s, pass, limit, moments).(clock := end, faults := Healthy))
  {
    var rescued := WithTimers(s, T.Reclaim(s.cache.timers, pass));
    ReclaimKeepsInv(s, pass);
    var t', claims := T.ClaimDue(rescued.cache.timers, pass, limit).0, T.ClaimDue(rescued.cache.timers, pass, limit).1;
    var taken := L.BatchIsDue(rescued.cache.timers, pass, limit, t', claims);
    ClaimTimersKeepsInv(rescued, limit, pass);
    var claimed := ClaimTimers(rescued, limit, pass).(clock := pass);
    LaterStill(claimed, pass, pass + 1);
    BatchKeepsInv(claimed, claims, moments, pass + 1, end);
    AcknowledgeKeepsInv(HandleAll(claimed, claims, moments), end);
  }
}
