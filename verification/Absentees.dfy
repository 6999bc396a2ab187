/**
How long a user who is gone keeps a place in the queue: until the first complete pass after
the last sign of life has ended.
*/
module Absentees {
  import opened Models
  import opened CacheScripts
  import opened DurableTx
  import opened Service
  import opened Invariants
  import opened Joining
  import opened Expiry
  import opened System
  import opened Progress
  import opened Frames
  import opened Absence
  import opened ExpirationPass
  import opened TimerOutcome
  import opened BatchOutcome
  import opened PassOutcome
  import T = Timers
  import L = LeaseProtocol

  // In the schedule alone, and in no worker's hands.
  predicate OnlyScheduled(t: T.Timers, open: set<T.Claim>, u: UserId, d: Second) {
    && u in t.scheduled && t.scheduled[u] == d && u !in t.processing
    && forall c :: c in open ==> c.user != u
  }

  // The user waits with row m, and the timer set for this wait runs out at d, when no sign of
  // life counts any more.
  predicate Awaited(s: State, u: UserId, m: Membership, d: Second) {
    && Queues(s.db, u) && s.db.members[u] == m && m.updatedAt <= d * MILLIS
    && (u in s.cache.presence ==> s.cache.presence[u] <= d)
    && OnlyScheduled(s.cache.timers, s.open, u, d)
  }

  // Before d, no sign of life and no restart.
  predicate IsSilent(x: Step, u: UserId, d: Second) {
    x.at < d * MILLIS && !x.event.Restart? && (x.event.Appear? ==> x.event.user != u)
  }

  // ---- One step ----

  lemma {:induction false} StaysScheduled(s: State, s': State, u: UserId, d: Second)
    requires OnlyScheduled(s.cache.timers, s.open, u, d) && LeavesTimer(s, s', u) && s'.open <= s.open
    ensures s'.down || OnlyScheduled(s'.cache.timers, s'.open, u, d)
  {
  }

  lemma {:induction false} OperationKeepsTimer(s: State, e: Event, u: UserId, now: Time)
    requires Inv(s) && !s.down && Possible(s, Step(e, now, s.faults)) && Queues(s.db, u)
    requires e.Join? || e.Accept? || e.Leave? || e.Pay?
    requires Queues(Effect(s, e, now).db, u)
    ensures LeavesTimer(s, Effect(s, e, now), u) && Effect(s, e, now).open == s.open
  {
    LaterKeepsInv(s, now);
    match e {
      case Join(v, quantity, others, fetched) =>
        JoinLeavesTimer(s, v, quantity, others, fetched, u, now);
        JoinFrame(s, v, quantity, others, fetched, now);
      case Accept(v, accepted) =>
        AcceptLeavesTimer(s, v, accepted, u, now);
        AcceptFrame(s, v, accepted, now);
      case Leave(v, offerOnly) =>
        LeaveLeavesTimer(s, v, offerOnly, u, now);
        LeaveFrame(s, v, offerOnly, now);
      case Pay(token, order) =>
        PayLeavesTimer(s, token, order, u, now);
        PayFrame(s, token, order, now);
    }
  }

  lemma {:induction false} NotDueNotTaken(t: T.Timers, open: set<T.Claim>, u: UserId, d: Second, limit: nat, now: Time)
    requires OnlyScheduled(t, open, u, d) && now < d * MILLIS
    ensures var (t', batch) := T.ClaimDue(t, now, limit); OnlyScheduled(t', open + T.AsSet(batch), u, d)
  {
    var (t', batch) := T.ClaimDue(t, now, limit);
    var taken := L.BatchIsDue(t, now, limit, t', batch);
  }

  lemma {:induction false} AckKeepsScheduled(t: T.Timers, cs: seq<T.Claim>, open: set<T.Claim>, u: UserId, d: Second)
    requires OnlyScheduled(t, open, u, d)
    ensures OnlyScheduled(T.Ack(t, cs), open, u, d) && OnlyScheduled(T.Nack(t, cs), open, u, d)
    decreases |cs|
  {
    if cs != [] {
      AckKeepsScheduled(T.AckOne(t, cs[0]), cs[1..], open, u, d);
      AckKeepsScheduled(T.NackOne(t, cs[0]), cs[1..], open, u, d);
    }
  }

  lemma {:induction false} HandleKeepsScheduled(s: State, c: T.Claim, u: UserId, d: Second, now: Time)
    requires InvAt(s, now) && !s.down && now > s.clock && c in s.open && Queues(s.db, u) && OnlyScheduled(s.cache.timers, s.open, u, d)
    requires Queues(HandleClaim(s, c, now).db, u)
    ensures var s' := HandleClaim(s, c, now); s'.down || OnlyScheduled(s'.cache.timers, s'.open, u, d)
  {
    HandleLeavesTimer(s, c, u, now);
    HandleFrame(s, c, now);
  }

  lemma {:induction false} RefreshKeepsScheduled(s: State, v: UserId, u: UserId, d: Second, now: Time)
    requires OnlyScheduled(s.cache.timers, s.open, u, d) && v != u && InvAt(s, now) && !s.down
    ensures var s' := RefreshPresence(s, v, now); !s'.down && OnlyScheduled(s'.cache.timers, s'.open, u, d)
  {
    PresenceIsTimersOnly(s, v, now);
  }

  lemma {:induction false} EffectKeepsScheduled(s: State, e: Event, u: UserId, d: Second, now: Time)
    requires Inv(s) && !s.down && Possible(s, Step(e, now, s.faults)) && Queues(s.db, u) && Queues(Effect(s, e, now).db, u)
    requires IsSilent(Step(e, now, s.faults), u, d) && OnlyScheduled(s.cache.timers, s.open, u, d)
    ensures var s' := Effect(s, e, now); s'.down || OnlyScheduled(s'.cache.timers, s'.open, u, d)
  {
    if e.Join? || e.Accept? || e.Leave? || e.Pay? {
      OperationKeepsTimer(s, e, u, now);
      StaysScheduled(s, Effect(s, e, now), u, d);
    } else if e.Handle? {
      LaterKeepsInv(s, now);
      HandleKeepsScheduled(s, e.claim, u, d, now);
    } else if e.Appear? {
      LaterKeepsInv(s, now);
      RefreshKeepsScheduled(s, e.user, u, d, now);
    } else {
      WorkerKeepsScheduled(s, e, u, d, now);
    }
  }

  lemma {:induction false} WorkerKeepsScheduled(s: State, e: Event, u: UserId, d: Second, now: Time)
    requires OnlyScheduled(s.cache.timers, s.open, u, d) && now < d * MILLIS
    requires e.ClaimDue? || e.GiveUp? || e.Ack? || e.Nack? || e.Reclaim?
    ensures var s' := Effect(s, e, now); OnlyScheduled(s'.cache.timers, s'.open, u, d)
  {
    match e {
      case ClaimDue(limit) => NotDueNotTaken(s.cache.timers, s.open, u, d, limit, now);
      case Ack(cs) => AckKeepsScheduled(s.cache.timers, cs, s.open, u, d);
      case Nack(cs) => AckKeepsScheduled(s.cache.timers, cs, s.open, u, d);
      case _ =>
    }
  }

  lemma {:induction false} SilenceKeepsAwaited(s: State, x: Step, u: UserId, m: Membership, d: Second)
    requires Inv(s) && !s.down && Possible(s, x) && IsSilent(x, u, d) && Awaited(s, u, m, d)
    ensures Inv(Next(s, x)) && (Next(s, x).down || !Queues(Next(s, x).db, u) || Awaited(Next(s, x), u, m, d))
  {
    NextKeepsInv(s, x);
    NextFrame(s, x);
    NextProgresses(s, x);
    if Queues(Next(s, x).db, u) {
      ArmedInv(s, x.faults);
      EffectKeepsScheduled(Armed(s, x.faults), x.event, u, d, x.at);
    }
  }

  // ---- Where the silence begins ----

  // A heartbeat of somebody whose timer is set lets the wait go on for a whole timeout from it,
  // or until that timer if it is later.
  lemma {:induction false} HeartbeatIsAwaited(s: State, x: Step, u: UserId, m: Membership, d: Second)
    requires Inv(s) && !s.down && Possible(s, x) && x.event == Appear(u) && Awaited(s, u, m, d)
    ensures var d' := Seconds(x.at + s.cfg.presenceTimeout);
      Inv(Next(s, x)) && !Next(s, x).down && Awaited(Next(s, x), u, m, if d' > d then d' else d)
  {
    NextKeepsInv(s, x);
    ArmedInv(s, x.faults);
    HeartbeatIsExact(Armed(s, x.faults), u, x.at);
  }

  // A heartbeat stores the end of the timeout; only who waits has a timer that follows, forward.
  lemma {:induction false} HeartbeatIsExact(s: State, u: UserId, now: Time)
    requires Inv(s) && !s.down
    ensures RefreshPresence(s, u, now)
         == (var d := Seconds(now + s.cfg.presenceTimeout);
             s.(cache := s.cache.(presence := s.cache.presence[u := d],
                                  timers := if Queues(s.db, u) then T.Refresh(s.cache.timers, u, d) else s.cache.timers)))
  {
    if u in s.db.members {
      assert s.cache.members[u].SameUpToStamp(s.db.members[u]);
    }
    assert u in s.cache.index <==> u in QueuedUsers(s.cache.members);
  }

  // So does a pass that finds the user present: it looks again exactly when the last sign of
  // life ends.
  lemma {:induction false} PresentIsAwaited(s: State, u: UserId, pass: Time, limit: nat, moments: seq<Moment>, end: Time)
    requires BeginsAt(s, pass, limit, moments, end) && NothingFails(moments) && limit >= |OverdueUsers(s.cache.timers, pass)|
    requires Queues(s.db, u) && IsCurrent(s, u) && NeedsALook(s.cache.timers, u, pass) && IsPresent(s.cache, u, pass)
    requires Queues(Pass(s, pass, limit, moments).db, u)
    requires forall c :: c in Pass(s, pass, limit, moments).open ==> c.user != u
    ensures var s' := Pass(s, pass, limit, moments).(clock := end, faults := Healthy);
      Inv(s') && !s'.down && Awaited(s', u, s.db.members[u], s.cache.presence[u])
  {
    PassKeepsInv(s, pass, limit, moments, end);
    PassSettlesAll(s, pass, limit, moments, end);
    StampIsPast(s, u);
  }

  lemma {:induction false} StampIsPast(s: State, u: UserId)
    requires Inv(s) && u in s.db.members
    ensures s.db.members[u].updatedAt <= s.clock
  {
  }

  // ---- Runs ----

  ghost predicate WaitsInSilence(s: State, run: seq<Step>, u: UserId, d: Second)
    decreases |run|
  {
    Queues(s.db, u) && (run == [] || (IsSilent(run[0], u, d) && WaitsInSilence(Next(s, run[0]), run[1..], u, d)))
  }

  lemma {:induction false} SilentRun(s: State, run: seq<Step>, u: UserId, m: Membership, d: Second)
    requires Inv(s) && !s.down && PossibleRun(s, run) && Awaited(s, u, m, d) && WaitsInSilence(s, run, u, d)
    requires !Outcome(s, run).down
    ensures Inv(Outcome(s, run)) && Awaited(Outcome(s, run), u, m, d)
    decreases |run|
  {
    if run != [] {
      SilenceKeepsAwaited(s, run[0], u, m, d);
      SilentRun(Next(s, run[0]), run[1..], u, m, d);
    }
  }

  // Whoever is gone waits in silence until d, and is out by the first complete pass after it.
  lemma {:induction false} GoneIsDropped(s: State, run: seq<Step>, u: UserId, m: Membership, d: Second,
    pass: Time, limit: nat, moments: seq<Moment>, end: Time)
    requires Inv(s) && !s.down && PossibleRun(s, run) && Awaited(s, u, m, d) && WaitsInSilence(s, run, u, d)
    requires BeginsAt(Outcome(s, run), pass, limit, moments, end) && NothingFails(moments)
    requires limit >= |OverdueUsers(Outcome(s, run).cache.timers, pass)| && pass >= d * MILLIS
    ensures !Queues(Pass(Outcome(s, run), pass, limit, moments).db, u)
  {
    SilentRun(s, run, u, m, d);
    AwaitedIsOut(Outcome(s, run), u, m, d, pass, limit, moments, end);
  }

  lemma {:induction false} AwaitedIsOut(s: State, u: UserId, m: Membership, d: Second, pass: Time, limit: nat, moments: seq<Moment>, end: Time)
    requires Awaited(s, u, m, d) && BeginsAt(s, pass, limit, moments, end) && NothingFails(moments)
    requires limit >= |OverdueUsers(s.cache.timers, pass)| && pass >= d * MILLIS
    ensures !Queues(Pass(s, pass, limit, moments).db, u)
  {
    PassSettlesAll(s, pass, limit, moments, end);
    assert NeedsALook(s.cache.timers, u, pass);
  }
}
