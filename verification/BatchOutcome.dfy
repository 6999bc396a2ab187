/** What a batch of claims comes to for one user, whatever is done for the others meanwhile. */
module BatchOutcome {
  import opened Models
  import opened CacheScripts
  import opened DurableTx
  import opened Service
  import opened Invariants
  import opened Expiry
  import opened System
  import opened Progress
  import opened Absence
  import opened HandleOutcome
  import opened ExpirationPass
  import T = Timers
  import O = Overdue

  // ---- The batch, one claim after the other ----

  predicate Timely(clock: Time, claims: seq<T.Claim>, moments: seq<Moment>, now: Time, end: Time) {
    && clock < now <= end && |moments| >= |claims|
    && Ascending(clock, moments, end) && (forall i :: 0 <= i < |moments| ==> now <= moments[i].at)
  }

  predicate Opened(s: State, claims: seq<T.Claim>) {
    !s.down ==> Distinct(claims) && forall c :: c in claims ==> c in s.open
  }

  ghost predicate Ready(s: State, claims: seq<T.Claim>, moments: seq<Moment>, now: Time, end: Time) {
    InvAt(s, now) && Timely(s.clock, claims, moments, now, end) && Opened(s, claims)
  }

  predicate OnePerUser(claims: seq<T.Claim>) {
    forall i, j :: 0 <= i < j < |claims| ==> claims[i].user != claims[j].user
  }

  function First(s: State, claims: seq<T.Claim>, moments: seq<Moment>): State
    requires claims != [] && moments != []
  {
    HandleClaim(Armed(s, moments[0].faults), claims[0], moments[0].at)
  }

  lemma {:induction false} RestIsTimely(clock: Time, claims: seq<T.Claim>, moments: seq<Moment>, now: Time, end: Time)
    requires Timely(clock, claims, moments, now, end) && claims != []
    ensures Timely(clock, claims[1..], moments[1..], moments[0].at, end)
  {
  }

  lemma {:induction false} FirstKeepsInv(s: State, claims: seq<T.Claim>, moments: seq<Moment>, now: Time, end: Time)
    requires InvAt(s, now) && !s.down && Timely(s.clock, claims, moments, now, end) && claims != [] && claims[0] in s.open
    ensures var (a, s1) := (Armed(s, moments[0].faults), First(s, claims, moments));
      && InvAt(a, moments[0].at) && moments[0].at > a.clock && InvAt(s1, moments[0].at)
      && s1.clock == s.clock && s.open - {claims[0]} <= s1.open
  {
    var c, t, a := claims[0], moments[0].at, Armed(s, moments[0].faults);
    ArmedStill(s, moments[0].faults, now, t);
    HandleKeepsInv(a, c, t);
    FilesOne(a, c, t);
  }

  lemma {:induction false} FirstIsHandled(s: State, claims: seq<T.Claim>, moments: seq<Moment>, now: Time, end: Time)
    requires Ready(s, claims, moments, now, end) && claims != [] && !s.down
    ensures var (a, s1) := (Armed(s, moments[0].faults), First(s, claims, moments));
      && InvAt(a, moments[0].at) && moments[0].at > a.clock
      && Ready(s1, claims[1..], moments[1..], moments[0].at, end)
      && HandleAll(s, claims, moments)
         == WithFirst(claims[0], HandleExpired(a, claims[0], moments[0].at).1, HandleAll(s1, claims[1..], moments[1..]))
  {
    FirstKeepsInv(s, claims, moments, now, end);
    RestIsTimely(s.clock, claims, moments, now, end);
    RestStaysOpen(claims, s.open, First(s, claims, moments).open);
    BatchUnfolds(s, claims, moments);
  }

  // ---- One user, over the whole batch ----

  predicate NotAmong(u: UserId, claims: seq<T.Claim>) {
    forall c :: c in claims ==> c.user != u
  }

  lemma {:induction false} OnlyThat(claims: seq<T.Claim>, c: T.Claim)
    requires OnePerUser(claims) && c in claims
    ensures OnePerUser(claims[1..])
    ensures if claims[0] == c then NotAmong(c.user, claims[1..]) else claims[0].user != c.user && c in claims[1..]
  {
  }

  lemma {:induction false} BatchKeepsOut(s: State, claims: seq<T.Claim>, moments: seq<Moment>, u: UserId, now: Time, end: Time)
    requires Ready(s, claims, moments, now, end)
    ensures KeepsOut(s, HandleAll(s, claims, moments).state, u)
    decreases |claims|
  {
    if claims != [] && !s.down {
      FirstIsHandled(s, claims, moments, now, end);
      ClaimKeepsOut(Armed(s, moments[0].faults), claims[0], u, moments[0].at);
      BatchKeepsOut(First(s, claims, moments), claims[1..], moments[1..], u, moments[0].at, end);
    }
  }

  lemma {:induction false} BatchKeepsRow(s: State, claims: seq<T.Claim>, moments: seq<Moment>, u: UserId, now: Time, end: Time)
    requires Ready(s, claims, moments, now, end) && NotAmong(u, claims)
    ensures KeepsRow(s, HandleAll(s, claims, moments).state, u)
    decreases |claims|
  {
    if claims != [] && !s.down {
      FirstIsHandled(s, claims, moments, now, end);
      ClaimKeepsOthers(Armed(s, moments[0].faults), claims[0], u, moments[0].at);
      BatchKeepsRow(First(s, claims, moments), claims[1..], moments[1..], u, moments[0].at, end);
    }
  }

  lemma {:induction false} TimersCompose(s: State, s1: State, s2: State, u: UserId)
    requires KeepsTimer(s, s1, u) && KeepsTimer(s1, s2, u) && KeepsOut(s, s1, u) && KeepsOut(s1, s2, u)
    requires s1.down ==> s2.down
    ensures KeepsTimer(s, s2, u)
  {
  }

  // Only a claim of its own that succeeds gives somebody who waits on a new timer.
  lemma {:induction false} BatchKeepsTimer(s: State, claims: seq<T.Claim>, moments: seq<Moment>, u: UserId, now: Time, end: Time)
    requires Ready(s, claims, moments, now, end) && NotAmong(u, HandleAll(s, claims, moments).handled)
    ensures KeepsTimer(s, HandleAll(s, claims, moments).state, u)
    decreases |claims|
  {
    if claims != [] && !s.down {
      FirstIsHandled(s, claims, moments, now, end);
      var a, s1 := Armed(s, moments[0].faults), First(s, claims, moments);
      var rest := HandleAll(s1, claims[1..], moments[1..]);
      HandledRest(claims[0], HandleExpired(a, claims[0], moments[0].at).1, rest, u);
      DeadBatch(s1, claims[1..], moments[1..]);
      HandleExpiredHandles(a, claims[0], moments[0].at);
      FilingKeepsTimers(a, claims[0], moments[0].at);
      if !s1.down {
        ClaimKeepsTimer(a, claims[0], u, moments[0].at);
        ClaimKeepsOut(a, claims[0], u, moments[0].at);
        BatchKeepsTimer(s1, claims[1..], moments[1..], u, moments[0].at, end);
        BatchKeepsOut(s1, claims[1..], moments[1..], u, moments[0].at, end);
        TimersCompose(s, s1, rest.state, u);
      }
    }
  }

  lemma {:induction false} HandledRest(c: T.Claim, reply: Reply, rest: Batch, u: UserId)
    requires NotAmong(u, WithFirst(c, reply, rest).handled)
    ensures NotAmong(u, rest.handled) && (c.user == u ==> reply.Refused? || reply.Crashed?)
  {
    if !reply.Crashed? && !reply.Refused? {
      assert WithFirst(c, reply, rest).handled[0] == c;
      assert forall d :: d in rest.handled ==> d in WithFirst(c, reply, rest).handled;
    }
  }

  // Every claim is filed, unless the process dies.
  lemma {:induction false} ClaimsAreFiled(s: State, claims: seq<T.Claim>, moments: seq<Moment>, now: Time, end: Time)
    requires Ready(s, claims, moments, now, end)
    ensures var b := HandleAll(s, claims, moments);
      && (forall c :: c in b.handled || c in b.failed ==> c in claims)
      && (!b.state.down ==> forall c :: c in claims ==> c in b.handled || c in b.failed)
    decreases |claims|
  {
    if claims != [] && !s.down {
      var a, c, s1 := Armed(s, moments[0].faults), claims[0], First(s, claims, moments);
      FirstIsHandled(s, claims, moments, now, end);
      ClaimsAreFiled(s1, claims[1..], moments[1..], moments[0].at, end);
      HandleExpiredHandles(a, c, moments[0].at);
      FilingKeepsTimers(a, c, moments[0].at);
      DeadBatch(s1, claims[1..], moments[1..]);
      FiledRest(claims, HandleExpired(a, c, moments[0].at).1, HandleAll(s1, claims[1..], moments[1..]));
    }
  }

  lemma {:induction false} FiledRest(claims: seq<T.Claim>, reply: Reply, rest: Batch)
    requires claims != [] && (reply.Crashed? ==> rest.state.down)
    requires forall c :: c in rest.handled || c in rest.failed ==> c in claims[1..]
    requires !rest.state.down ==> forall c :: c in claims[1..] ==> c in rest.handled || c in rest.failed
    ensures var b := WithFirst(claims[0], reply, rest);
      && (forall c :: c in b.handled || c in b.failed ==> c in claims)
      && (!b.state.down ==> forall c :: c in claims ==> c in b.handled || c in b.failed)
  {
    assert claims == [claims[0]] + claims[1..];
  }

  lemma {:induction false} NotFiled(s: State, claims: seq<T.Claim>, moments: seq<Moment>, u: UserId, now: Time, end: Time)
    requires Ready(s, claims, moments, now, end) && NotAmong(u, claims)
    ensures NotAmong(u, HandleAll(s, claims, moments).handled)
  {
    ClaimsAreFiled(s, claims, moments, now, end);
  }

  // ---- Without failing writes ----

  predicate NothingFails(moments: seq<Moment>) {
    forall i :: 0 <= i < |moments| ==> moments[i].faults.Healthy?
  }

  lemma {:induction false} HealthyBatch(s: State, claims: seq<T.Claim>, moments: seq<Moment>, now: Time, end: Time)
    requires Ready(s, claims, moments, now, end) && !s.down && NothingFails(moments)
    ensures !HandleAll(s, claims, moments).state.down
    decreases |claims|
  {
    if claims != [] {
      FirstIsHandled(s, claims, moments, now, end);
      HealthyClaim(Armed(s, moments[0].faults), claims[0], moments[0].at);
      HealthyBatch(First(s, claims, moments), claims[1..], moments[1..], moments[0].at, end);
    }
  }

  predicate IsOver(s: State, u: UserId) {
    O.Ended(s.db, u) && (!s.down ==> u !in s.cache.timers.scheduled)
  }

  lemma {:induction false} StaysOver(s: State, claims: seq<T.Claim>, moments: seq<Moment>, u: UserId, now: Time, end: Time)
    requires Ready(s, claims, moments, now, end) && NotAmong(u, claims) && IsOver(s, u)
    ensures IsOver(HandleAll(s, claims, moments).state, u)
  {
    NotFiled(s, claims, moments, u, now, end);
    BatchKeepsRow(s, claims, moments, u, now, end);
    BatchKeepsTimer(s, claims, moments, u, now, end);
    DeadBatch(s, claims, moments);
  }

  predicate HoldsFor(s: State, c: T.Claim) {
    O.Timed(s.db, c.user) && !IsStale(c, s.db.members[c.user]) && c.user !in s.cache.timers.scheduled
  }

  lemma {:induction false} CurrentClaimEnds(s: State, c: T.Claim, now: Time)
    requires InvAt(s, now) && !s.down && now > s.clock && s.faults.Healthy? && HoldsFor(s, c)
    ensures IsOver(HandleClaim(s, c, now), c.user)
  {
    O.HandledEnds(s, c, now);
    KindIsKnown(s, c, now);
    ClaimKeepsTimer(s, c, c.user, now);
  }

  lemma {:induction false} OtherClaimWaits(s: State, c: T.Claim, d: T.Claim, now: Time)
    requires InvAt(s, now) && !s.down && now > s.clock && s.faults.Healthy? && HoldsFor(s, c) && d.user != c.user
    ensures HoldsFor(HandleClaim(s, d, now), c)
  {
    ClaimKeepsOthers(s, d, c.user, now);
    ClaimKeepsTimer(s, d, c.user, now);
    HealthyClaim(s, d, now);
  }

  lemma {:induction false} FirstHolder(s: State, c: T.Claim, d: T.Claim, m: Moment)
    requires InvAt(Armed(s, m.faults), m.at) && !s.down && m.at > s.clock && m.faults.Healthy?
    requires HoldsFor(s, c) && (d.user == c.user ==> d == c)
    ensures var s1 := HandleClaim(Armed(s, m.faults), d, m.at);
      !s1.down && if d == c then IsOver(s1, c.user) else HoldsFor(s1, c)
  {
    var a := Armed(s, m.faults);
    HealthyClaim(a, d, m.at);
    if d == c {
      CurrentClaimEnds(a, c, m.at);
    } else {
      OtherClaimWaits(a, c, d, m.at);
    }
  }

  // The claim is still to be handled, or it has been.
  predicate IsEnding(s: State, claims: seq<T.Claim>, c: T.Claim) {
    if c in claims then HoldsFor(s, c) else IsOver(s, c.user) && NotAmong(c.user, claims)
  }

  lemma {:induction false} HolderIsNext(s: State, claims: seq<T.Claim>, moments: seq<Moment>, c: T.Claim, now: Time, end: Time) returns (s1: State)
    requires Ready(s, claims, moments, now, end) && !s.down && claims != [] && moments[0].faults.Healthy?
    requires HoldsFor(s, c) && (claims[0].user == c.user ==> claims[0] == c)
    ensures Ready(s1, claims[1..], moments[1..], moments[0].at, end)
    ensures !s1.down && if claims[0] == c then IsOver(s1, c.user) else HoldsFor(s1, c)
    ensures HandleAll(s, claims, moments).state == HandleAll(s1, claims[1..], moments[1..]).state
  {
    FirstIsHandled(s, claims, moments, now, end);
    FirstHolder(s, c, claims[0], moments[0]);
    s1 := First(s, claims, moments);
  }

  lemma {:induction false} RestIsEnding(s1: State, claims: seq<T.Claim>, moments: seq<Moment>, c: T.Claim)
    requires OnePerUser(claims) && claims != [] && c in claims && moments != [] && NothingFails(moments)
    requires if claims[0] == c then IsOver(s1, c.user) else HoldsFor(s1, c)
    ensures IsEnding(s1, claims[1..], c) && OnePerUser(claims[1..]) && NothingFails(moments[1..])
  {
    OnlyThat(claims, c);
  }

  lemma {:induction false} EndingGoesOn(s: State, claims: seq<T.Claim>, moments: seq<Moment>, c: T.Claim, now: Time, end: Time) returns (s1: State)
    requires Ready(s, claims, moments, now, end) && !s.down && NothingFails(moments)
    requires OnePerUser(claims) && claims != [] && c in claims && HoldsFor(s, c)
    ensures Ready(s1, claims[1..], moments[1..], moments[0].at, end) && !s1.down && IsEnding(s1, claims[1..], c)
    ensures OnePerUser(claims[1..]) && NothingFails(moments[1..])
    ensures HandleAll(s, claims, moments).state == HandleAll(s1, claims[1..], moments[1..]).state
  {
    OnlyThat(claims, c);
    s1 := HolderIsNext(s, claims, moments, c, now, end);
    RestIsEnding(s1, claims, moments, c);
  }

  lemma {:induction false} HolderEnds(s: State, claims: seq<T.Claim>, moments: seq<Moment>, c: T.Claim, now: Time, end: Time)
    requires Ready(s, claims, moments, now, end) && !s.down && NothingFails(moments)
    requires OnePerUser(claims) && IsEnding(s, claims, c)
    ensures IsOver(HandleAll(s, claims, moments).state, c.user)
    decreases |claims|
  {
    if c !in claims {
      StaysOver(s, claims, moments, c.user, now, end);
    } else {
      var s1 := EndingGoesOn(s, claims, moments, c, now, end);
      HolderEnds(s1, claims[1..], moments[1..], c, moments[0].at, end);
    }
  }

  lemma {:induction false} FirstAbsent(s: State, c: T.Claim, d: T.Claim, m: Moment)
    requires InvAt(Armed(s, m.faults), m.at) && !s.down && m.at > s.clock && m.faults.Healthy?
    requires KindOf(s, c).Absent?
    ensures var s1 := HandleClaim(Armed(s, m.faults), d, m.at);
      !s1.down && if d == c || !Queues(s1.db, c.user) then !Queues(s1.db, c.user) else KindOf(s1, c).Absent?
  {
    var a := Armed(s, m.faults);
    HealthyClaim(a, d, m.at);
    FilingKeepsTimers(a, d, m.at);
    ClaimKeepsOut(a, d, c.user, m.at);
    if d == c {
      AbsentIsDropped(a, c, m.at);
    }
  }

  lemma {:induction false} AbsentIsNext(s: State, claims: seq<T.Claim>, moments: seq<Moment>, c: T.Claim, now: Time, end: Time) returns (s1: State)
    requires Ready(s, claims, moments, now, end) && !s.down && NothingFails(moments)
    requires claims != [] && KindOf(s, c).Absent?
    ensures Ready(s1, claims[1..], moments[1..], moments[0].at, end) && !s1.down && NothingFails(moments[1..])
    ensures if claims[0] == c || !Queues(s1.db, c.user) then !Queues(s1.db, c.user) else KindOf(s1, c).Absent?
    ensures HandleAll(s, claims, moments).state == HandleAll(s1, claims[1..], moments[1..]).state
  {
    FirstIsHandled(s, claims, moments, now, end);
    FirstAbsent(s, c, claims[0], moments[0]);
    s1 := First(s, claims, moments);
  }

  lemma {:induction false} AbsentIsOut(s: State, claims: seq<T.Claim>, moments: seq<Moment>, c: T.Claim, now: Time, end: Time)
    requires Ready(s, claims, moments, now, end) && !s.down && NothingFails(moments)
    requires OnePerUser(claims) && c in claims && KindOf(s, c).Absent?
    ensures !Queues(HandleAll(s, claims, moments).state.db, c.user)
    decreases |claims|
  {
    OnlyThat(claims, c);
    var s1 := AbsentIsNext(s, claims, moments, c, now, end);
    if Queues(s1.db, c.user) {
      AbsentIsOut(s1, claims[1..], moments[1..], c, moments[0].at, end);
    } else {
      BatchKeepsOut(s1, claims[1..], moments[1..], c.user, moments[0].at, end);
    }
  }

  lemma {:induction false} AbsentIsDropped(s: State, c: T.Claim, now: Time)
    requires InvAt(s, now) && !s.down && now > s.clock && s.faults.Healthy? && KindOf(s, c).Absent?
    ensures !Queues(HandleClaim(s, c, now).db, c.user)
  {
    KindIsKnown(s, c, now);
    DroppedIff(s, c, now);
  }

  // A present waiter who waits on is due again when the sign of life ends, not before or after.
  predicate DueAgain(s: State, u: UserId, deadline: Second) {
    s.down || (Queues(s.db, u) ==> u in s.cache.timers.scheduled && s.cache.timers.scheduled[u] == deadline)
  }

  lemma {:induction false} StaysDueAgain(s: State, claims: seq<T.Claim>, moments: seq<Moment>, u: UserId, deadline: Second, now: Time, end: Time)
    requires Ready(s, claims, moments, now, end) && NotAmong(u, claims) && DueAgain(s, u, deadline)
    ensures DueAgain(HandleAll(s, claims, moments).state, u, deadline)
  {
    NotFiled(s, claims, moments, u, now, end);
    BatchKeepsOut(s, claims, moments, u, now, end);
    BatchKeepsTimer(s, claims, moments, u, now, end);
    DeadBatch(s, claims, moments);
  }

  lemma {:induction false} FirstPresent(s: State, c: T.Claim, d: T.Claim, m: Moment)
    requires InvAt(Armed(s, m.faults), m.at) && !s.down && m.at > s.clock && KindOf(s, c).Present?
    ensures var s1 := HandleClaim(Armed(s, m.faults), d, m.at);
      && (d == c ==> DueAgain(s1, c.user, s.cache.presence[c.user]))
      && (!s1.down && Queues(s1.db, c.user) ==> KindOf(s1, c).Present? && s1.cache.presence == s.cache.presence)
  {
    var a := Armed(s, m.faults);
    FilingKeepsTimers(a, d, m.at);
    ClaimKeepsOut(a, d, c.user, m.at);
    if d == c {
      IdleClaims(a, c, m.at);
    }
  }

  lemma {:induction false} PresentIsNext(s: State, claims: seq<T.Claim>, moments: seq<Moment>, c: T.Claim, now: Time, end: Time) returns (s1: State)
    requires Ready(s, claims, moments, now, end) && !s.down && claims != [] && KindOf(s, c).Present?
    ensures Ready(s1, claims[1..], moments[1..], moments[0].at, end)
    ensures claims[0] == c ==> DueAgain(s1, c.user, s.cache.presence[c.user])
    ensures !s1.down && Queues(s1.db, c.user) ==> KindOf(s1, c).Present? && s1.cache.presence == s.cache.presence
    ensures HandleAll(s, claims, moments).state == HandleAll(s1, claims[1..], moments[1..]).state
  {
    FirstIsHandled(s, claims, moments, now, end);
    FirstPresent(s, c, claims[0], moments[0]);
    s1 := First(s, claims, moments);
  }

  lemma {:induction false} PresentIsDueAgain(s: State, claims: seq<T.Claim>, moments: seq<Moment>, c: T.Claim, now: Time, end: Time)
    requires Ready(s, claims, moments, now, end) && !s.down
    requires OnePerUser(claims) && c in claims && KindOf(s, c).Present?
    ensures DueAgain(HandleAll(s, claims, moments).state, c.user, s.cache.presence[c.user])
    decreases |claims|
  {
    OnlyThat(claims, c);
    var s1 := PresentIsNext(s, claims, moments, c, now, end);
    DeadBatch(s1, claims[1..], moments[1..]);
    if claims[0] == c {
      StaysDueAgain(s1, claims[1..], moments[1..], c.user, s.cache.presence[c.user], moments[0].at, end);
    } else if !s1.down && Queues(s1.db, c.user) {
      PresentIsDueAgain(s1, claims[1..], moments[1..], c, moments[0].at, end);
    } else {
      BatchKeepsOut(s1, claims[1..], moments[1..], c.user, moments[0].at, end);
    }
  }
}
