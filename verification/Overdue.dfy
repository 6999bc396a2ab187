/**
Nobody holds units for ever: from every state the workers can end every offer and every
right that is held in it.
*/
module Overdue {
  import opened Models
  import opened CacheScripts
  import opened DurableTx
  import opened Service
  import opened Invariants
  import opened Operations
  import opened Expiry
  import opened Restart
  import opened System
  import opened Progress
  import opened Greedy
  import opened EarlyDrop
  import T = Timers

  predicate Timed(d: Durable, u: UserId) {
    u in d.members && d.members[u].IsTimed()
  }

  predicate Ended(d: Durable, u: UserId) {
    u in d.members && d.members[u].status.IsTerminal()
  }

  // Nobody but u and those who wait is touched.
  predicate OthersStay(d: Durable, d': Durable, u: UserId) {
    forall v :: v in d.members && v != u && !d.members[v].status.Queued? ==>
      v in d'.members && d'.members[v] == d.members[v]
  }

  // ---- A current claim, handled without a failure, ends the membership ----

  lemma {:induction false} AdvanceLeavesEnded(s: State, u: UserId, now: Time)
    requires InvAt(s, now) && !s.down && now > s.clock && s.faults.Healthy? && Ended(s.db, u)
    ensures var (s', e) := AdvanceQueue(s, now); e.Finished? && !s'.down && Ended(s'.db, u)
  {
    AdvanceLeavesOthers(s, u, now);
    HealthyAdvanceFinishes(s, now);
  }

  lemma {:induction false} RightEnds(s: State, u: UserId, now: Time)
    requires InvAt(s, now) && !s.down && now > s.clock && s.faults.Healthy?
    requires u in s.cache.members && s.cache.members[u].status.RightActive?
    ensures var (s', reply) := ExpireActiveRight(s, s.cache.members[u], now, false, now);
      reply == Ok && !s'.down && Ended(s'.db, u)
  {
    var s1, e := ExpiredHolderIsOut(s, u, now, false, now);
    ExpiryReplies(s, s.cache.members[u], now, now);
    assert e.Finished? && s1.faults.Healthy?;
    AdvanceLeavesEnded(s1, u, now);
  }

  lemma {:induction false} OfferEnds(s: State, u: UserId, pass: Time, now: Time)
    requires InvAt(s, now) && !s.down && now > s.clock && s.faults.Healthy?
    requires u in s.cache.members && s.cache.members[u].status.OfferPending? && s.cache.members[u].available.Some?
    ensures var (s', reply) := EndOffer(s, s.cache.members[u], pass, false, false, now);
      reply == Ok && !s'.down && Ended(s'.db, u)
  {
    var m := s.cache.members[u];
    CloseOfferKeepsInv(s, u, pass, false, now);
    ClosedOfferIsOut(s, u, pass, now);
    OfferReplies(s, m, pass, now);
    var (s1, e) := CloseOffer(s, m, pass, false, now);
    assert e.Finished? && s1.faults.Healthy?;
    AdvanceLeavesEnded(s1, u, now);
  }

  lemma {:induction false} ClaimEnds(s: State, c: T.Claim, now: Time)
    requires InvAt(s, now) && !s.down && now > s.clock && s.faults.Healthy?
    requires Timed(s.db, c.user) && !IsStale(c, s.db.members[c.user])
    ensures var (s', reply) := HandleExpired(s, c, now); reply == Ok && !s'.down && Ended(s'.db, c.user)
  {
    Lookup(s, c.user, now);
    HandleExpiredUnfolds(s, c, now);
    var m := s.cache.members[c.user];
    if m.status.RightActive? {
      RightEnds(s, c.user, now);
    } else {
      OfferEnds(s, c.user, c.pass, now);
    }
  }

  // ---- The steps of a worker ----

  // Up, with u's offer or right under a timer in the schedule.
  ghost predicate Scheduled(s: State, u: UserId, m: Membership, deadline: Second) {
    Inv(s) && !s.down && Timed(s.db, u) && s.db.members[u] == m && HasTimer(s.cache.timers, u, deadline)
  }

  lemma {:induction false} TimerIsCurrent(s: State, u: UserId, m: Membership, deadline: Second)
    requires Scheduled(s, u, m, deadline)
    ensures m.updatedAt <= deadline * MILLIS
  {
    assert MemberShape(m, s.db.rights, s.cfg);
    assert DeadlineOk(s.cache.timers, m);
  }

  lemma {:induction false} ClaimAllTakesTimed(s: State, u: UserId, deadline: Second, at: Time)
    requires HasTimer(s.cache.timers, u, deadline) && deadline * MILLIS <= at
    ensures var s' := Next(s, ClaimAll(s, at));
      s'.db == s.db && s'.down == s.down && s'.clock == at && T.Claim(u, deadline, at + T.LEASE, at) in s'.open
  {
    DueIsClaimed(s.cache.timers, u, at);
  }

  lemma {:induction false} WorkerClaims(s: State, u: UserId, m: Membership, deadline: Second)
    returns (x: Step, s': State, c: T.Claim)
    requires Scheduled(s, u, m, deadline)
    ensures Possible(s, x) && s' == Next(s, x) && Inv(s') && !s'.down && s'.db == s.db
    ensures c in s'.open && c.user == u && !IsStale(c, m)
  {
    var at := if s.clock + 1 > deadline * MILLIS then s.clock + 1 else deadline * MILLIS;
    x := ClaimAll(s, at);
    s' := Next(s, x);
    c := T.Claim(u, deadline, at + T.LEASE, at);
    ClaimAllIsPossible(s, at);
    ClaimAllTakesTimed(s, u, deadline, at);
    TimerIsCurrent(s, u, m, deadline);
  }

  lemma {:induction false} HandledEnds(s: State, c: T.Claim, now: Time)
    requires InvAt(s, now) && !s.down && now > s.clock && s.faults.Healthy?
    requires Timed(s.db, c.user) && !IsStale(c, s.db.members[c.user])
    ensures var s' := HandleClaim(s, c, now); !s'.down && Ended(s'.db, c.user)
  {
    ClaimEnds(s, c, now);
  }

  lemma {:induction false} HandlingEnds(s: State, c: T.Claim, at: Time)
    requires InvAt(Armed(s, Healthy), at) && !s.down && at > s.clock && Timed(s.db, c.user) && !IsStale(c, s.db.members[c.user])
    ensures var s' := Next(s, Step(Handle(c), at, Healthy)); !s'.down && Ended(s'.db, c.user)
  {
    HandledEnds(Armed(s, Healthy), c, at);
    NextHandles(s, c, at);
  }

  lemma {:induction false} OnlyOneIsTouched(s: State, x: Step, c: T.Claim)
    requires Inv(s) && Possible(s, x) && x.event == Handle(c)
    ensures OthersStay(s.db, Next(s, x).db, c.user)
  {
    NextProgresses(s, x);
  }

  lemma {:induction false} WorkerHandles(s: State, c: T.Claim) returns (x: Step, s': State)
    requires Inv(s) && !s.down && c in s.open && Timed(s.db, c.user) && !IsStale(c, s.db.members[c.user])
    ensures Possible(s, x) && s' == Next(s, x) && Inv(s') && !s'.down
    ensures Ended(s'.db, c.user) && OthersStay(s.db, s'.db, c.user)
  {
    x := Step(Handle(c), s.clock + 1, Healthy);
    s' := Next(s, x);
    NextKeepsInv(s, x);
    ArmedAt(s, s.clock + 1);
    HandlingEnds(s, c, s.clock + 1);
    OnlyOneIsTouched(s, x, c);
  }

  // A timer that a worker has claimed and not given back is reclaimed once its lease is over.
  lemma {:induction false} WorkerReclaims(s: State, u: UserId) returns (x: Step, s': State, deadline: Second)
    requires Inv(s) && !s.down && Timed(s.db, u) && u !in s.cache.timers.scheduled
    ensures Possible(s, x) && s' == Next(s, x) && s'.db == s.db && Scheduled(s', u, s.db.members[u], deadline)
  {
    assert s.cache.timers.Watches(u);
    var lease := s.cache.timers.processing[u];
    var at := if s.clock + 1 > lease then s.clock + 1 else lease;
    x := Step(Reclaim, at, Healthy);
    s' := Next(s, x);
    NextKeepsInv(s, x);
    deadline := s.cache.timers.deadlines[u];
  }

  // ---- Runs ----

  lemma {:induction false} EndsScheduled(s: State, u: UserId, m: Membership, deadline: Second) returns (run: seq<Step>, s': State)
    requires Scheduled(s, u, m, deadline)
    ensures PossibleRun(s, run) && s' == Outcome(s, run) && Inv(s') && !s'.down
    ensures Ended(s'.db, u) && OthersStay(s.db, s'.db, u)
  {
    var x, s1, c := WorkerClaims(s, u, m, deadline);
    var y, s2 := WorkerHandles(s1, c);
    StepFirst(s1, y, []);
    StepFirst(s, x, [y] + []);
    run, s' := [x] + ([y] + []), s2;
  }

  lemma {:induction false} EndsOne(s: State, u: UserId) returns (run: seq<Step>, s': State)
    requires Inv(s) && !s.down && Timed(s.db, u)
    ensures PossibleRun(s, run) && s' == Outcome(s, run) && Inv(s') && !s'.down
    ensures Ended(s'.db, u) && OthersStay(s.db, s'.db, u)
  {
    var m := s.db.members[u];
    if u in s.cache.timers.scheduled {
      run, s' := EndsScheduled(s, u, m, s.cache.timers.scheduled[u]);
    } else {
      var x, s1, deadline := WorkerReclaims(s, u);
      var rest, s2 := EndsScheduled(s1, u, m, deadline);
      StepFirst(s, x, rest);
      run, s' := [x] + rest, s2;
    }
  }

  predicate Finite(d: Durable, users: set<UserId>) {
    forall u :: u in users ==> Timed(d, u) || Ended(d, u)
  }

  predicate AllEnded(d: Durable, users: set<UserId>) {
    forall u :: u in users ==> Ended(d, u)
  }

  lemma {:induction false} OneLess(d: Durable, d': Durable, users: set<UserId>, u: UserId)
    requires Finite(d, users) && OthersStay(d, d', u)
    ensures Finite(d', users - {u})
  {
    forall v | v in users - {u}
      ensures Timed(d', v) || Ended(d', v)
    {
      assert Timed(d, v) || Ended(d, v);
    }
  }

  // Of all others, those who do not wait keep their rows.
  predicate RestStays(d: Durable, d': Durable, users: set<UserId>) {
    forall v :: v in d.members && v !in users && !d.members[v].status.Queued? ==>
      v in d'.members && d'.members[v] == d.members[v]
  }

  lemma {:induction false} OneMore(d: Durable, d1: Durable, d2: Durable, users: set<UserId>, u: UserId)
    requires u in users && Ended(d1, u) && OthersStay(d, d1, u)
    requires AllEnded(d2, users - {u}) && RestStays(d1, d2, users - {u})
    ensures AllEnded(d2, users) && RestStays(d, d2, users)
  {
    forall v | v in users
      ensures Ended(d2, v)
    {
      assert v == u || v in users - {u};
    }
  }

  lemma {:induction false} EndsAll(s: State, users: set<UserId>) returns (run: seq<Step>)
    requires Inv(s) && !s.down && Finite(s.db, users)
    ensures PossibleRun(s, run) && Inv(Outcome(s, run)) && !Outcome(s, run).down
    ensures AllEnded(Outcome(s, run).db, users) && RestStays(s.db, Outcome(s, run).db, users)
    decreases |users|
  {
    run := [];
    if users != {} {
      var u :| u in users;
      var s1 := s;
      if Timed(s.db, u) {
        run, s1 := EndsOne(s, u);
      }
      OneLess(s.db, s1.db, users, u);
      var rest := EndsAll(s1, users - {u});
      RunsJoin(s, run, rest);
      OneMore(s.db, s1.db, Outcome(s1, rest).db, users, u);
      run := run + rest;
    }
  }

  function Holders(d: Durable): set<UserId> {
    set u | u in d.members && d.members[u].IsTimed()
  }

  lemma {:induction false} ComesUp(s: State) returns (run: seq<Step>)
    requires Inv(s)
    ensures PossibleRun(s, run) && Inv(Outcome(s, run)) && !Outcome(s, run).down && Outcome(s, run).db == s.db
  {
    run := [];
    if s.down {
      var rows := SnapshotExists(s);
      var x := Step(Restart(rows), s.clock + 1, Healthy);
      ArmedInv(s, Healthy);
      RestartKeepsInv(Armed(s, Healthy), rows, s.clock + 1);
      NextKeepsInv(s, x);
      StepFirst(s, x, []);
      run := [x] + [];
    }
  }

  // No run leads to an offer or a right that is stuck: wherever its timer is, and even if the
  // process has died, workers can go on until everybody who holds one has been through.
  lemma {:induction false} NobodyHoldsForever(product: ProductId, cfg: Config, run: seq<Step>) returns (more: seq<Step>)
    requires cfg.Valid() && product != NO_NAME && PossibleRun(Initial(product, cfg), run)
    ensures var s := Outcome(Initial(product, cfg), run);
      && PossibleRun(s, more)
      && AllEnded(Outcome(s, more).db, Holders(s.db)) && RestStays(s.db, Outcome(s, more).db, Holders(s.db))
  {
    var s := Outcome(Initial(product, cfg), run);
    InitialInv(product, cfg);
    RunKeepsInv(Initial(product, cfg), run);
    var up := ComesUp(s);
    var rest := EndsAll(Outcome(s, up), Holders(s.db));
    RunsJoin(s, up, rest);
    more := up + rest;
  }
}
