/**
When the worker drops a waiting user before its grace is over: the runs that do, and the
exact condition.
*/
module EarlyDrop {
  import opened Models
  import opened CacheScripts
  import opened Service
  import opened Invariants
  import opened Operations
  import opened Joining
  import opened Expiry
  import opened Restart
  import opened System
  import opened Progress
  import opened Frames
  import opened Absence
  import opened Grace
  import T = Timers
  import L = LeaseProtocol

  // ---- Runs that drop the user early ----

  predicate Unseen(s: State, u: UserId, m: Membership) {
    !s.down && Queues(s.db, u) && s.db.members[u] == m && m.user == u && u !in s.cache.presence
  }

  predicate HasTimer(t: T.Timers, u: UserId, deadline: Second) {
    u in t.scheduled && t.scheduled[u] == deadline
  }

  predicate IsClaimed(t: T.Timers, c: T.Claim) {
    c.user !in t.scheduled && T.HoldsLease(t, c) && c.user in t.deadlines && t.deadlines[c.user] == c.deadline
  }

  // In the queue without a sign of life; deadline is what the schedule has for the user.
  ghost predicate Waits(s: State, u: UserId, m: Membership, deadline: Second) {
    Inv(s) && Unseen(s, u, m) && HasTimer(s.cache.timers, u, deadline)
  }

  // In the queue without a sign of life; a worker has the user's timer.
  ghost predicate InHand(s: State, u: UserId, m: Membership, c: T.Claim) {
    Inv(s) && Unseen(s, u, m) && c.user == u && IsClaimed(s.cache.timers, c)
  }

  lemma {:induction false} CardinalityOfPart(a: set<UserId>, b: set<UserId>)
    requires a <= b
    ensures |a| <= |b|
  {
    assert b == a + (b - a);
  }

  function Everybody(t: T.Timers): nat {
    |t.scheduled.Keys| + 1
  }

  lemma {:induction false} TakenIsClaimed(t: T.Timers, taken: set<UserId>, u: UserId, now: Time)
    requires u in taken && taken <= t.scheduled.Keys
    ensures IsClaimed(L.TakeAll(t, taken, now + T.LEASE), L.ClaimOn(t, u, now))
  {
  }

  // A claim of everything that is due takes the user's timer if that is due.
  lemma {:induction false} DueIsClaimed(t: T.Timers, u: UserId, now: Time)
    requires u in t.scheduled && t.scheduled[u] * MILLIS <= now
    ensures var (t', batch) := T.ClaimDue(t, now, Everybody(t));
      && T.Claim(u, t.scheduled[u], now + T.LEASE, now) in batch
      && IsClaimed(t', T.Claim(u, t.scheduled[u], now + T.LEASE, now))
  {
    var (t', batch) := T.ClaimDue(t, now, Everybody(t));
    var taken := L.BatchIsDue(t, now, Everybody(t), t', batch);
    CardinalityOfPart(taken, t.scheduled.Keys);
    if u !in taken {
      assert u in t'.scheduled && T.IsDue(t', u, now);
    } else {
      TakenIsClaimed(t, taken, u, now);
      assert L.ClaimOn(t, u, now) in batch;
    }
  }

  function ClaimAll(s: State, at: Time): Step {
    Step(ClaimDue(Everybody(s.cache.timers)), at, Healthy)
  }

  lemma {:induction false} ClaimAllTakes(s: State, u: UserId, m: Membership, deadline: Second, at: Time)
    requires Unseen(s, u, m) && HasTimer(s.cache.timers, u, deadline) && deadline * MILLIS <= at
    ensures var s', c := Next(s, ClaimAll(s, at)), T.Claim(u, deadline, at + T.LEASE, at);
      Unseen(s', u, m) && s'.clock == at && c in s'.open && IsClaimed(s'.cache.timers, c)
  {
    DueIsClaimed(s.cache.timers, u, at);
  }

  // A worker claims everything that is due, the user's timer included.
  lemma {:induction false} ClaimsUser(s: State, u: UserId, m: Membership, deadline: Second, at: Time) returns (x: Step, s': State, c: T.Claim)
    requires Waits(s, u, m, deadline) && deadline * MILLIS <= at && at > s.clock
    ensures Possible(s, x) && !x.event.Restart? && s' == Next(s, x)
    ensures c == T.Claim(u, deadline, at + T.LEASE, at)
    ensures InHand(s', u, m, c) && s'.clock == at && c in s'.open
  {
    x, s', c := ClaimAll(s, at), Next(s, ClaimAll(s, at)), T.Claim(u, deadline, at + T.LEASE, at);
    ClaimAllIsPossible(s, at);
    ClaimAllTakes(s, u, m, deadline, at);
  }

  lemma {:induction false} ClaimAllIsPossible(s: State, at: Time)
    requires Inv(s) && !s.down && at > s.clock
    ensures Possible(s, ClaimAll(s, at)) && Inv(Next(s, ClaimAll(s, at)))
  {
    NextKeepsInv(s, ClaimAll(s, at));
  }

  // Handled when it is of the current wait, it drops the user.
  lemma {:induction false} CurrentClaimDrops(s: State, u: UserId, m: Membership, c: T.Claim, at: Time)
    requires InHand(s, u, m, c) && c in s.open && at > s.clock && m.updatedAt <= c.deadline * MILLIS
    ensures Possible(s, Step(Handle(c), at, Healthy)) && Drops(s, Step(Handle(c), at, Healthy), u, c)
  {
    var a := Armed(s, Healthy);
    ArmedInv(s, Healthy);
    LaterKeepsInv(a, at);
    DroppedIff(a, c, at);
  }

  // Given up and returned, it is due again a second after its pass.
  lemma {:induction false} GivenUp(s: State, u: UserId, m: Membership, c: T.Claim, at: Time)
    requires InHand(s, u, m, c) && c in s.open && at > s.clock
    ensures var x := Step(GiveUp(c), at, Healthy);
      Possible(s, x) && InHand(Next(s, x), u, m, c) && c in Next(s, x).failed && Next(s, x).clock == at
  {
    NextKeepsInv(s, Step(GiveUp(c), at, Healthy));
  }

  lemma {:induction false} Returned(s: State, u: UserId, m: Membership, c: T.Claim, at: Time)
    requires InHand(s, u, m, c) && c in s.failed && at > s.clock
    ensures var x := Step(Nack([c]), at, Healthy);
      Possible(s, x) && Waits(Next(s, x), u, m, Seconds(c.pass + T.RETRY_DELAY)) && Next(s, x).clock == at
  {
    NextKeepsInv(s, Step(Nack([c]), at, Healthy));
    ReturnsOne(s.cache.timers, c);
  }

  lemma {:induction false} ReturnsOne(t: T.Timers, c: T.Claim)
    requires IsClaimed(t, c)
    ensures HasTimer(T.Nack(t, [c]), c.user, Seconds(c.pass + T.RETRY_DELAY))
  {
    assert [c][1..] == [];
    assert T.Nack(t, [c]) == T.NackOne(t, c);
  }

  // ---- Runs that drop the user ----

  // Dropped at a pass before grace, with restarts at the given instants only.
  ghost predicate DroppedEarly(s: State, run: seq<Step>, u: UserId, c: T.Claim, grace: Second, restarts: iset<Time>) {
    PossibleRun(s, run) && DroppedAfterWait(s, run, u, c, restarts) && c.pass < grace * MILLIS
  }

  // One more step before a run that drops the user early.
  lemma {:induction false} StepThenDropped(s: State, x: Step, more: seq<Step>, u: UserId, c: T.Claim, grace: Second, restarts: iset<Time>)
    returns (run: seq<Step>)
    requires Possible(s, x) && Queues(s.db, u) && (x.event.Restart? ==> x.at in restarts)
    requires DroppedEarly(Next(s, x), more, u, c, grace, restarts)
    ensures DroppedEarly(s, run, u, c, grace, restarts) && run == [x] + more
  {
    run := [x] + more;
    assert run[1..] == more;
  }

  lemma {:induction false} DroppedAtOnce(s: State, x: Step, u: UserId, c: T.Claim, grace: Second, restarts: iset<Time>)
    requires Possible(s, x) && Drops(s, x, u, c) && c.pass < grace * MILLIS
    ensures DroppedEarly(s, [x], u, c, grace, restarts)
  {
    assert [x][1..] == [];
  }

  lemma {:induction false} HandledDrops(s: State, u: UserId, m: Membership, c: T.Claim, grace: Second, restarts: iset<Time>)
    returns (run: seq<Step>)
    requires InHand(s, u, m, c) && c in s.open && m.updatedAt <= c.deadline * MILLIS && c.pass < grace * MILLIS
    ensures DroppedEarly(s, run, u, c, grace, restarts)
  {
    var x := Step(Handle(c), s.clock + 1, Healthy);
    CurrentClaimDrops(s, u, m, c, s.clock + 1);
    DroppedAtOnce(s, x, u, c, grace, restarts);
    run := [x];
  }

  // A timer of the current wait that is early drops the user when it is due.
  lemma {:induction false} CurrentTimerDrops(s: State, u: UserId, m: Membership, deadline: Second, grace: Second, restarts: iset<Time>)
    returns (run: seq<Step>, c: T.Claim)
    requires Waits(s, u, m, deadline) && Early(deadline, m.updatedAt, grace) && s.clock + 1 < grace * MILLIS
    ensures DroppedEarly(s, run, u, c, grace, restarts)
  {
    var at := if s.clock + 1 > deadline * MILLIS then s.clock + 1 else deadline * MILLIS;
    var x, s1, mine := ClaimsUser(s, u, m, deadline, at);
    c := mine;
    run := HandledDrops(s1, u, m, c, grace, restarts);
    run := StepThenDropped(s, x, run, u, c, grace, restarts);
  }

  lemma {:induction false} ReturnedIsCurrent(at: Time, since: Time, grace: Second)
    requires since <= at && at + T.RETRY_DELAY < grace * MILLIS
    ensures Early(Seconds(at + T.RETRY_DELAY), since, grace)
  {
  }

  lemma {:induction false} ReturnedDrops(s: State, u: UserId, m: Membership, mine: T.Claim, grace: Second, restarts: iset<Time>)
    returns (run: seq<Step>, c: T.Claim)
    requires InHand(s, u, m, mine) && mine in s.failed && m.updatedAt <= mine.pass && s.clock == mine.pass + 1
    requires mine.pass + T.RETRY_DELAY < grace * MILLIS
    ensures DroppedEarly(s, run, u, c, grace, restarts)
  {
    var x := Step(Nack([mine]), s.clock + 1, Healthy);
    Returned(s, u, m, mine, s.clock + 1);
    ReturnedIsCurrent(mine.pass, m.updatedAt, grace);
    run, c := CurrentTimerDrops(Next(s, x), u, m, Seconds(mine.pass + T.RETRY_DELAY), grace, restarts);
    run := StepThenDropped(s, x, run, u, c, grace, restarts);
  }

  lemma {:induction false} GivenUpDrops(s: State, u: UserId, m: Membership, mine: T.Claim, grace: Second, restarts: iset<Time>)
    returns (run: seq<Step>, c: T.Claim)
    requires InHand(s, u, m, mine) && mine in s.open && m.updatedAt <= mine.pass == s.clock
    requires mine.pass + T.RETRY_DELAY < grace * MILLIS
    ensures DroppedEarly(s, run, u, c, grace, restarts)
  {
    var x := Step(GiveUp(mine), s.clock + 1, Healthy);
    GivenUp(s, u, m, mine, s.clock + 1);
    run, c := ReturnedDrops(Next(s, x), u, m, mine, grace, restarts);
    run := StepThenDropped(s, x, run, u, c, grace, restarts);
  }

  // One that counts as older is claimed, given up and returned, and then belongs to the wait.
  lemma {:induction false} StaleTimerDrops(s: State, u: UserId, m: Membership, deadline: Second, grace: Second, restarts: iset<Time>)
    returns (run: seq<Step>, c: T.Claim)
    requires Waits(s, u, m, deadline) && deadline * MILLIS < m.updatedAt <= s.clock
    requires s.clock + 1 + T.RETRY_DELAY < grace * MILLIS
    ensures DroppedEarly(s, run, u, c, grace, restarts)
  {
    var x, s1, stale := ClaimsUser(s, u, m, deadline, s.clock + 1);
    run, c := GivenUpDrops(s1, u, m, stale, grace, restarts);
    run := StepThenDropped(s, x, run, u, c, grace, restarts);
  }

  lemma {:induction false} TimerDrops(s: State, u: UserId, m: Membership, deadline: Second, grace: Second, restarts: iset<Time>)
    returns (run: seq<Step>, c: T.Claim)
    requires Waits(s, u, m, deadline) && deadline < grace && m.updatedAt <= s.clock
    requires (m.updatedAt <= deadline * MILLIS && s.clock + 1 < grace * MILLIS) || s.clock + 1 + T.RETRY_DELAY < grace * MILLIS
    ensures DroppedEarly(s, run, u, c, grace, restarts)
  {
    if m.updatedAt <= deadline * MILLIS {
      run, c := CurrentTimerDrops(s, u, m, deadline, grace, restarts);
    } else {
      run, c := StaleTimerDrops(s, u, m, deadline, grace, restarts);
    }
  }

  // A worker finds its claim stale and counts the timeout from its own pass.
  lemma {:induction false} StaleClaimShortens(s: State, c: T.Claim, now: Time)
    requires InvAt(s, now) && !s.down && Queues(s.db, c.user) && IsStale(c, s.db.members[c.user])
    ensures HandleClaim(s, c, now).cache
         == s.cache.(timers := T.Add(s.cache.timers, c.user, Seconds(c.pass + s.cfg.presenceTimeout)))
    ensures HandleClaim(s, c, now).db == s.db && !HandleClaim(s, c, now).down
  {
    Lookup(s, c.user, now);
    HandleExpiredUnfolds(s, c, now);
  }

  lemma {:induction false} LeftoverDrops(s: State, u: UserId, c0: T.Claim, grace: Second, restarts: iset<Time>)
    returns (run: seq<Step>, c: T.Claim)
    requires JustQueued(s, u) && c0 in s.open && c0.user == u && ClaimHurts(c0, s.clock, s.cfg.presenceTimeout, grace)
    ensures DroppedEarly(s, run, u, c, grace, restarts)
  {
    assert c0 in Claims(s);
    var m := s.db.members[u];
    var x, s' := HandlesStale(s, c0);
    RearmedWaits(s, s', u, m, c0);
    run, c := TimerDrops(s', u, m, Seconds(c0.pass + s.cfg.presenceTimeout), grace, restarts);
    run := StepThenDropped(s, x, run, u, c, grace, restarts);
  }

  // What handling a stale claim does, and nothing else.
  predicate Rearms(s: State, s': State, c: T.Claim) {
    && s'.cache.timers == T.Add(s.cache.timers, c.user, Seconds(c.pass + s.cfg.presenceTimeout))
    && s'.cache.presence == s.cache.presence && s'.db == s.db && !s'.down
  }

  lemma {:induction false} StaleRearms(s: State, c: T.Claim, now: Time)
    requires InvAt(s, now) && !s.down && Queues(s.db, c.user) && IsStale(c, s.db.members[c.user])
    ensures Rearms(s, HandleClaim(s, c, now), c)
  {
    StaleClaimShortens(s, c, now);
  }

  lemma {:induction false} StaleStep(s: State, c: T.Claim, at: Time)
    requires InvAt(Armed(s, Healthy), at) && !s.down && Queues(s.db, c.user) && IsStale(c, s.db.members[c.user])
    ensures Rearms(s, Next(s, Step(Handle(c), at, Healthy)), c)
  {
    StaleRearms(Armed(s, Healthy), c, at);
    NextHandles(s, c, at);
  }

  lemma {:induction false} ArmedAt(s: State, at: Time)
    requires Inv(s) && at > s.clock
    ensures InvAt(Armed(s, Healthy), at)
  {
    ArmedInv(s, Healthy);
    LaterKeepsInv(Armed(s, Healthy), at);
  }

  lemma {:induction false} HandlingKeepsInv(s: State, c: T.Claim)
    requires Inv(s) && !s.down && c in s.open
    ensures var x := Step(Handle(c), s.clock + 1, Healthy);
      Possible(s, x) && Inv(Next(s, x)) && Next(s, x).clock == s.clock + 1
  {
    NextKeepsInv(s, Step(Handle(c), s.clock + 1, Healthy));
  }

  lemma {:induction false} HandlingRearms(s: State, c: T.Claim)
    requires Inv(s) && !s.down && Queues(s.db, c.user) && IsStale(c, s.db.members[c.user])
    ensures Rearms(s, Next(s, Step(Handle(c), s.clock + 1, Healthy)), c)
  {
    ArmedAt(s, s.clock + 1);
    StaleStep(s, c, s.clock + 1);
  }

  lemma {:induction false} HandlesStale(s: State, c: T.Claim) returns (x: Step, s': State)
    requires Inv(s) && !s.down && c in s.open && Queues(s.db, c.user) && IsStale(c, s.db.members[c.user])
    ensures Possible(s, x) && !x.event.Restart? && s' == Next(s, x) && Inv(s') && s'.clock == s.clock + 1 && Rearms(s, s', c)
  {
    x := Step(Handle(c), s.clock + 1, Healthy);
    s' := Next(s, x);
    HandlingKeepsInv(s, c);
    HandlingRearms(s, c);
  }

  lemma {:induction false} RearmedWaits(s: State, s': State, u: UserId, m: Membership, c: T.Claim)
    requires Unseen(s, u, m) && Inv(s') && Rearms(s, s', c) && c.user == u
    ensures Waits(s', u, m, Seconds(c.pass + s.cfg.presenceTimeout))
  {
  }

  // A restart makes the timer of every waiting user due at once.
  lemma {:induction false} RestartMakesDue(s: State, u: UserId, rows: seq<Membership>, at: Time)
    requires Inv(s) && Queues(s.db, u) && u !in s.cache.presence && at > s.clock && IsSnapshot(s.db, s.product, rows)
    ensures var x := Step(Restart(rows), at, Healthy);
      && Possible(s, x) && Next(s, x).clock == at && Next(s, x).cfg == s.cfg
      && Waits(Next(s, x), u, s.db.members[u], Seconds(at))
  {
    var x, a := Step(Restart(rows), at, Healthy), Armed(s, Healthy);
    ArmedInv(s, Healthy);
    NextKeepsInv(s, x);
    NextFrame(s, x);
    RestartedTimer(a, rows, u, at);
    OwnTimer(s, u, at);
  }

  lemma {:induction false} RestartDrops(s: State, u: UserId, at: Time, grace: Second, restarts: iset<Time>)
    returns (run: seq<Step>, c: T.Claim)
    requires JustQueued(s, u) && at in restarts && at > s.clock && RestartHurts(at, s.clock, grace)
    ensures DroppedEarly(s, run, u, c, grace, restarts)
  {
    var rows := SnapshotExists(s);
    var x := Step(Restart(rows), at, Healthy);
    RestartMakesDue(s, u, rows, at);
    run, c := TimerDrops(Next(s, x), u, s.db.members[u], Seconds(at), grace, restarts);
    run := StepThenDropped(s, x, run, u, c, grace, restarts);
  }

  // ---- The exact condition ----

  ghost predicate SomeRestartHurts(s: State, grace: Second, restarts: iset<Time>) {
    exists r :: r in restarts && r > s.clock && RestartHurts(r, s.clock, grace)
  }

  ghost predicate MayBeDroppedEarly(s: State, u: UserId, grace: Second, restarts: iset<Time>) {
    exists run: seq<Step>, c: T.Claim :: DroppedEarly(s, run, u, c, grace, restarts)
  }

  lemma {:induction false} NothingHurts(s: State, run: seq<Step>, u: UserId, c: T.Claim, grace: Second, restarts: iset<Time>)
    requires JustQueued(s, u) && grace <= Seconds(s.clock + s.cfg.presenceTimeout)
    requires !LeftoverHurts(s, u, grace) && !SomeRestartHurts(s, grace, restarts)
    ensures !DroppedEarly(s, run, u, c, grace, restarts)
  {
    JoinGivesGrace(s, u, grace);
    if DroppedEarly(s, run, u, c, grace, restarts) {
      assert forall r :: r in restarts && r > s.clock ==> !RestartHurts(r, s.clock, grace);
      GraceIsRespected(s, run, u, c, grace, restarts);
    }
  }

  // Somebody who has just been queued, if the process restarts at some of the given instants
  // only, can be dropped before grace exactly if a leftover claim or one of the restarts
  // hurts. Without either the whole timeout is kept, down to the second.
  lemma {:induction false} EarlyDropIff(s: State, u: UserId, grace: Second, restarts: iset<Time>)
    requires JustQueued(s, u) && grace <= Seconds(s.clock + s.cfg.presenceTimeout)
    ensures MayBeDroppedEarly(s, u, grace, restarts)
       <==> LeftoverHurts(s, u, grace) || SomeRestartHurts(s, grace, restarts)
  {
    if LeftoverHurts(s, u, grace) {
      var c0 :| c0 in s.open && c0.user == u && ClaimHurts(c0, s.clock, s.cfg.presenceTimeout, grace);
      var run, c := LeftoverDrops(s, u, c0, grace, restarts);
    } else if SomeRestartHurts(s, grace, restarts) {
      var r :| r in restarts && r > s.clock && RestartHurts(r, s.clock, grace);
      var run, c := RestartDrops(s, u, r, grace, restarts);
    } else {
      forall run: seq<Step>, c: T.Claim
        ensures !DroppedEarly(s, run, u, c, grace, restarts)
      {
        NothingHurts(s, run, u, c, grace, restarts);
      }
    }
  }
}
