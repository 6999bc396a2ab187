/**
Who may drop a waiting user: the worker alone, and never while a sign of life counts. And
which timers it leaves alone meanwhile.
*/
module Absence {
  import opened Models
  import opened CacheScripts
  import opened DurableTx
  import opened Service
  import opened Invariants
  import opened Advance
  import opened Operations
  import opened Payment
  import opened Joining
  import opened Expiry
  import opened ExpirationPass
  import opened System
  import opened Progress
  import opened Frames
  import T = Timers

  // ---- Who drops a waiting user ----

  lemma {:induction false} PresentWaiterStays(s: State, c: T.Claim, now: Time)
    requires InvAt(s, now) && !s.down
    requires c.user in s.db.members && s.db.members[c.user].status.Queued?
    requires IsPresent(s.cache, c.user, c.pass)
    ensures HandleClaim(s, c, now).db == s.db
  {
    Lookup(s, c.user, now);
    HandleExpiredUnfolds(s, c, now);
  }

  lemma {:induction false} OnlyActorsDecline(d: Durable, d': Durable, who: Option<UserId>, u: UserId)
    requires OnlyTheActor(d, d', who) && Queues(d, u) && u in d'.members && d'.members[u].status.Declined?
    ensures who == Some(u)
  {
  }

  // A waiting user is out only by leaving, by being served or turned away in turn, or when
  // the worker finds that the last sign of life is too long ago.
  lemma {:induction false} WaitersStay(s: State, x: Step, u: UserId)
    requires Inv(s) && Possible(s, x) && Queues(s.db, u)
    requires u in Next(s, x).db.members && Next(s, x).db.members[u].status.Declined?
    ensures match x.event
      case Leave(v, _) => v == u
      case Handle(c) => c.user == u && !IsPresent(s.cache, u, c.pass)
      case _ => false
  {
    var a := Armed(s, x.faults);
    ArmedInv(s, x.faults);
    LaterKeepsInv(a, x.at);
    NextProgresses(s, x);
    OnlyActorsDecline(s.db, Next(s, x).db, Actor(s, x.event, x.at), u);
    assert s.db.members[u].user == u;
    if x.event.Handle? {
      if IsPresent(s.cache, u, x.event.claim.pass) {
        PresentWaiterStays(a, x.event.claim, x.at);
      }
    } else if x.event.Join? || x.event.Accept? {
      RefusesWaiters(a, x.event, u, x.at);
    }
  }

  lemma {:induction false} RefusesWaiters(s: State, e: Event, u: UserId, now: Time)
    requires InvAt(s, now) && !s.down && Queues(s.db, u)
    requires (e.Join? && e.user == u) || (e.Accept? && e.user == u)
    ensures Effect(s, e, now) == s
  {
    Lookup(s, u, now);
  }

  // The worker drops c.user in step x.
  ghost predicate Drops(s: State, x: Step, u: UserId, c: T.Claim) {
    && x.event == Handle(c) && Queues(s.db, u)
    && u in Next(s, x).db.members && Next(s, x).db.members[u].status.Declined?
  }

  lemma {:induction false} DropIsDue(s: State, x: Step, u: UserId, c: T.Claim)
    requires Inv(s) && Possible(s, x) && Drops(s, x, u, c)
    ensures c in s.open && c.user == u && !IsPresent(s.cache, u, c.pass)
    ensures !IsStale(c, s.db.members[u])
  {
    WaitersStay(s, x, u);
    var a := Armed(s, x.faults);
    ArmedInv(s, x.faults);
    LaterKeepsInv(a, x.at);
    Lookup(a, u, x.at);
    if IsStale(c, a.cache.members[u]) {
      HandleExpiredUnfolds(a, c, x.at);
    }
  }

  // Without a failure, a waiting user is dropped exactly when the claim is of the current
  // wait and the user is absent.
  lemma {:induction false} DroppedIff(s: State, c: T.Claim, now: Time)
    requires InvAt(s, now) && !s.down && s.faults.Healthy? && Queues(s.db, c.user)
    ensures var s' := HandleClaim(s, c, now);
      c.user in s'.db.members
      && (s'.db.members[c.user].status.Declined?
          <==> !IsStale(c, s.db.members[c.user]) && !IsPresent(s.cache, c.user, c.pass))
  {
    Lookup(s, c.user, now);
    HandleExpiredUnfolds(s, c, now);
    QuitIsStep(s, s.cache.members[c.user], c.pass, now);
  }

  // ---- Signs of life ----

  // Somewhere in the run the worker drops the user on claim c.
  ghost predicate DropsDuring(s: State, run: seq<Step>, u: UserId, c: T.Claim)
    decreases |run|
  {
    run != [] && (Drops(s, run[0], u, c) || DropsDuring(Next(s, run[0]), run[1..], u, c))
  }

  // The stored deadline is at least this one, and so is any that may replace it.
  predicate AliveUntil(s: State, u: UserId, deadline: Second) {
    && u in s.cache.presence && s.cache.presence[u] >= deadline
    && deadline <= Seconds(s.clock + s.cfg.presenceTimeout)
  }

  lemma {:induction false} PresenceKept(s: State, x: Step, u: UserId, deadline: Second)
    requires Inv(s) && Possible(s, x) && AliveUntil(s, u, deadline)
    ensures Inv(Next(s, x)) && AliveUntil(Next(s, x), u, deadline)
  {
    NextKeepsInv(s, x);
    NextFrame(s, x);
  }

  lemma {:induction false} PresentIsNotDropped(s: State, x: Step, u: UserId, c: T.Claim, deadline: Second)
    requires Inv(s) && Possible(s, x) && AliveUntil(s, u, deadline) && Drops(s, x, u, c)
    ensures c.pass >= deadline * MILLIS
  {
    DropIsDue(s, x, u, c);
  }

  lemma {:induction false} PresenceHolds(s: State, run: seq<Step>, u: UserId, c: T.Claim, deadline: Second)
    requires Inv(s) && PossibleRun(s, run) && AliveUntil(s, u, deadline) && DropsDuring(s, run, u, c)
    ensures c.pass >= deadline * MILLIS
    decreases |run|
  {
    if Drops(s, run[0], u, c) {
      PresentIsNotDropped(s, run[0], u, c, deadline);
    } else {
      PresenceKept(s, run[0], u, deadline);
      PresenceHolds(Next(s, run[0]), run[1..], u, c, deadline);
    }
  }

  lemma {:induction false} AppearanceCounts(s: State, x: Step, u: UserId)
    requires Inv(s) && Possible(s, x) && x.event == Appear(u)
    ensures Inv(Next(s, x)) && AliveUntil(Next(s, x), u, Seconds(x.at + s.cfg.presenceTimeout))
  {
    NextKeepsInv(s, x);
    NextFrame(s, x);
  }

  // After a heartbeat no pass earlier than the timeout, less a second, drops the user from
  // the queue: through failures, crashes and restarts, and even if the user leaves and comes
  // back meanwhile.
  lemma {:induction false} HeartbeatProtects(s: State, x: Step, run: seq<Step>, u: UserId, c: T.Claim)
    requires Inv(s) && Possible(s, x) && x.event == Appear(u)
    requires PossibleRun(Next(s, x), run) && DropsDuring(Next(s, x), run, u, c)
    ensures c.pass > x.at + s.cfg.presenceTimeout - MILLIS
  {
    AppearanceCounts(s, x, u);
    PresenceHolds(Next(s, x), run, u, c, Seconds(x.at + s.cfg.presenceTimeout));
  }

  // ---- Timers of those who wait on ----

  predicate SameTimer(t: T.Timers, t': T.Timers, u: UserId) {
    && (u in t.scheduled <==> u in t'.scheduled) && (u in t.scheduled ==> t'.scheduled[u] == t.scheduled[u])
    && t'.processing == t.processing && t'.deadlines == t.deadlines
  }

  // Unless the process died, u's timer is where it was.
  predicate LeavesTimer(s: State, s': State, u: UserId) {
    s'.down || SameTimer(s.cache.timers, s'.cache.timers, u)
  }

  lemma {:induction false} StepLeavesTimer(s: State, s': State, e: Ended, m: Membership, c: Membership, r: Option<Right>, u: UserId)
    requires Stepped(s, s', e, m, c, r) && m.user != u
    ensures LeavesTimer(s, s', u)
    ensures Queues(s'.db, u) <==> Queues(s.db, u)
  {
  }

  lemma {:induction false} TurnLeavesTimer(s: State, s1: State, e: Ended, m: Membership, u: UserId, now: Time)
    requires Stepped(s, s1, e, Verdict(s, m, now), Verdict(s, m, now), VerdictRight(s, m, now))
    requires Head(s, m) && (Queues(s1.db, u) || m.user != u)
    ensures LeavesTimer(s, s1, u)
  {
  }

  lemma {:induction false} TurnKeepsPlaces(s: State, s1: State, e: Ended, m: Membership, u: UserId, now: Time)
    requires Stepped(s, s1, e, Verdict(s, m, now), Verdict(s, m, now), VerdictRight(s, m, now))
    requires Head(s, m)
    ensures Queues(s1.db, u) ==> Queues(s.db, u)
  {
  }

  // Nobody gets a place while the queue advances.
  lemma {:induction false} AdvanceKeepsPlaces(s: State, u: UserId, now: Time)
    requires InvAt(s, now) && !s.down && now > s.clock && Queues(AdvanceQueue(s, now).0.db, u)
    ensures Queues(s.db, u)
  {
    AdvanceProgresses(s, now);
  }

  // The advance touches the timers of those it serves or turns away.
  lemma {:induction false} AdvanceLeavesTimer(s: State, u: UserId, now: Time)
    requires InvAt(s, now) && !s.down && now > s.clock
    requires Queues(s.db, u) ==> Queues(AdvanceQueue(s, now).0.db, u)
    ensures LeavesTimer(s, AdvanceQueue(s, now).0, u)
    decreases |s.cache.queue|
  {
    var s1, e, m := OneTurn(s, now);
    if m.Some? {
      if e.Finished? {
        TurnKeepsPlaces(s, s1, e, m.value, u, now);
        if Queues(s.db, u) {
          AdvanceKeepsPlaces(s1, u, now);
        }
        AdvanceLeavesTimer(s1, u, now);
      }
      TurnLeavesTimer(s, s1, e, m.value, u, now);
    }
  }

  lemma {:induction false} ThenAdvanceLeavesTimer(s: State, s1: State, s2: State, u: UserId, now: Time)
    requires InvAt(s1, now) && now > s1.clock && AdvancedOrNot(s1, s2, now) && (Queues(s1.db, u) ==> Queues(s2.db, u))
    requires LeavesTimer(s, s1, u)
    ensures LeavesTimer(s, s2, u)
  {
    if s2 != s1 {
      AdvanceLeavesTimer(s1, u, now);
    }
  }

  lemma {:induction false} AcceptLeavesTimer(s: State, v: UserId, accepted: int, u: UserId, now: Time)
    requires InvAt(s, now) && !s.down && now > s.clock && Queues(s.db, u)
    requires Queues(AcceptOffer(s, v, accepted, now).0.db, u)
    ensures LeavesTimer(s, AcceptOffer(s, v, accepted, now).0, u)
  {
    var s1 := AcceptUnfolds(s, v, accepted, now);
    if s1 != s {
      Lookup(s, v, now);
      var m := s.cache.members[v];
      TakeOfferKeepsInv(s, v, accepted, now);
      AcceptIsStep(s, m, accepted, now);
      var row := AcceptedRow(s, m, accepted, now);
      StepLeavesTimer(s, s1, TakeOffer(s, m, accepted, now).1, row, row, Some(NewRight(s, m, accepted, now)), u);
    }
    ThenAdvanceLeavesTimer(s, s1, AcceptOffer(s, v, accepted, now).0, u, now);
  }

  lemma {:induction false} EndOfferLeavesTimer(s: State, v: UserId, stamp: Time, removeTimer: bool, skip: bool, u: UserId, now: Time)
    requires InvAt(s, now) && !s.down && now > s.clock && (Queues(s.db, u) || u != v)
    requires v in s.cache.members && s.cache.members[v].status.OfferPending? && s.cache.members[v].available.Some?
    requires Queues(s.db, u) ==> Queues(EndOffer(s, s.cache.members[v], stamp, removeTimer, skip, now).0.db, u)
    ensures LeavesTimer(s, EndOffer(s, s.cache.members[v], stamp, removeTimer, skip, now).0, u)
  {
    var m := s.cache.members[v];
    CloseOfferKeepsInv(s, v, stamp, removeTimer, now);
    CloseLeavesTimer(s, v, stamp, removeTimer, u, now);
    EndOfferUnfolds(s, m, stamp, removeTimer, skip, now);
    ThenAdvanceLeavesTimer(s, CloseOffer(s, m, stamp, removeTimer, now).0,
      EndOffer(s, m, stamp, removeTimer, skip, now).0, u, now);
  }

  lemma {:induction false} CloseLeavesTimer(s: State, v: UserId, stamp: Time, removeTimer: bool, u: UserId, now: Time)
    requires InvAt(s, now) && !s.down && (Queues(s.db, u) || u != v)
    requires v in s.cache.members && s.cache.members[v].status.OfferPending? && s.cache.members[v].available.Some?
    ensures LeavesTimer(s, CloseOffer(s, s.cache.members[v], stamp, removeTimer, now).0, u)
    ensures Queues(CloseOffer(s, s.cache.members[v], stamp, removeTimer, now).0.db, u) <==> Queues(s.db, u)
  {
    var m := s.cache.members[v];
    Lookup(s, v, now);
    CloseOfferIsStep(s, m, stamp, removeTimer, now);
    var (s1, e) := CloseOffer(s, m, stamp, removeTimer, now);
    StepLeavesTimer(s, s1, e, m.Settled(Declined, now), m.Settled(Declined, stamp), None, u);
  }

  lemma {:induction false} ExpireLeavesTimer(s: State, v: UserId, stamp: Time, removeTimer: bool, u: UserId, now: Time)
    requires InvAt(s, now) && !s.down && now > s.clock && (Queues(s.db, u) || u != v)
    requires v in s.cache.members && s.cache.members[v].status.RightActive?
    requires Queues(s.db, u) ==> Queues(ExpireActiveRight(s, s.cache.members[v], stamp, removeTimer, now).0.db, u)
    ensures LeavesTimer(s, ExpireActiveRight(s, s.cache.members[v], stamp, removeTimer, now).0, u)
  {
    var m := s.cache.members[v];
    Lookup(s, v, now);
    var s1, e := ExpiredHolderIsOut(s, v, stamp, removeTimer, now);
    ExpireIsStep(s, m, stamp, removeTimer, now);
    StepLeavesTimer(s, s1, e, m.Settled(Declined, now), m.Settled(Declined, stamp), Some(ExpiredRight(s, m)), u);
    ExpireUnfolds(s, m, stamp, removeTimer, now);
    ThenAdvanceLeavesTimer(s, s1, ExpireActiveRight(s, m, stamp, removeTimer, now).0, u, now);
  }

  // Whoever quits without a failure waits no longer.
  lemma {:induction false} QuitLeavesTimer(s: State, v: UserId, stamp: Time, u: UserId, now: Time)
    requires InvAt(s, now) && !s.down && (Queues(s.db, u) || u != v)
    requires v in s.cache.members && s.cache.members[v].status.Queued?
    requires Queues(s.db, u) ==> Queues(QuitQueue(s, s.cache.members[v].Settled(Declined, stamp), now).0.db, u)
    ensures LeavesTimer(s, QuitQueue(s, s.cache.members[v].Settled(Declined, stamp), now).0, u)
  {
    var m := s.cache.members[v];
    Lookup(s, v, now);
    QuitIsStep(s, m, stamp, now);
    var (s1, e) := QuitQueue(s, m.Settled(Declined, stamp), now);
    if u != v {
      StepLeavesTimer(s, s1, e, m.Settled(Declined, now), m.Settled(Declined, stamp), None, u);
    }
  }

  lemma {:induction false} LeaveLeavesTimer(s: State, v: UserId, offerOnly: bool, u: UserId, now: Time)
    requires InvAt(s, now) && !s.down && now > s.clock && Queues(s.db, u)
    requires Queues(LeaveQueue(s, v, offerOnly, now).0.db, u)
    ensures LeavesTimer(s, LeaveQueue(s, v, offerOnly, now).0, u)
  {
    LeaveUnfolds(s, v, offerOnly, now);
    if LeaveQueue(s, v, offerOnly, now).0 != s {
      var m := s.cache.members[v];
      if m.status.Queued? {
        QuitLeavesTimer(s, v, now, u, now);
      } else if m.status.OfferPending? {
        EndOfferLeavesTimer(s, v, now, true, m.available.value <= 0, u, now);
      } else {
        ExpireLeavesTimer(s, v, now, true, u, now);
      }
    }
  }

  lemma {:induction false} PaidLeavesTimer(s: State, m: Membership, token: Token, order: OrderId, u: UserId, now: Time)
    requires Cached(s, m) && m.status.RightActive? && m.token == Some(token) && m.user != u
    requires Sells(s, token, order, now) && s.db.rights[token].token == token
    requires s.db.stock.value.count >= m.quantity
    ensures UseRight(s.db, token, order, now).TxResult?
    ensures LeavesTimer(s, Paid(s, token, order, now).0, u)
  {
    PaymentIsMove(s, m, token, order, now);
  }

  lemma {:induction false} SaleLeavesTimer(s: State, token: Token, order: OrderId, u: UserId, now: Time)
    requires InvAt(s, now) && !s.down && Queues(s.db, u) && Sells(s, token, order, now)
    ensures UseRight(s.db, token, order, now).TxResult?
    ensures LeavesTimer(s, Paid(s, token, order, now).0, u)
  {
    var m := Holder(s, token, now);
    PaidLeavesTimer(s, m, token, order, u, now);
  }

  lemma {:induction false} PayLeavesTimer(s: State, token: Token, order: OrderId, u: UserId, now: Time)
    requires InvAt(s, now) && !s.down && now > s.clock && Queues(s.db, u)
    requires Queues(ProcessPayment(s, token, order, now).0.db, u)
    ensures LeavesTimer(s, ProcessPayment(s, token, order, now).0, u)
  {
    PaymentUnfolds(s, token, order, now);
    var tx := UseRight(s.db, token, order, now);
    if tx.TxResult? {
      var s1 := Paid(s, token, order, now).0;
      if tx.transitioned {
        SaleKeepsInv(s, token, order, now);
        SaleLeavesTimer(s, token, order, u, now);
      } else {
        ReplayRecordsNothing(s, token, order, now);
        FaultsDoNotMatter(s, s1, now);
      }
      ThenAdvanceLeavesTimer(s, s1, ProcessPayment(s, token, order, now).0, u, now);
    }
  }

  lemma {:induction false} TouchLeavesTimer(s: State, total: nat, v: UserId, u: UserId)
    ensures LeavesTimer(s, Touch(s, total).0, u) && LeavesTimer(s, WithSlot(Touch(s, total).0, v), u)
    ensures Touch(s, total).0.cache.timers == s.cache.timers
  {
  }

  lemma {:induction false} EntryLeavesTimer(s: State, v: UserId, quantity: int, u: UserId, now: Time)
    requires InvAt(s, now) && !s.down && s.db.stock.Some? && v != u
    requires Idempotent(s.cache, v).None? && quantity > 0
    ensures var (s2, e) := Admit(WithSlot(s, v), v, quantity, now);
      LeavesTimer(s, if e.StoreFailed? then s2.(cache := ReleaseSlot(s2.cache, v)) else s2, u)
  {
    IsNewcomer(s, v, now);
    AdmitIsStep(s, v, quantity, now);
    var (s2, e) := Admit(WithSlot(s, v), v, quantity, now);
    var row := EntryRow(s, v, quantity, now);
    if !e.StoreFailed? {
      StepLeavesTimer(s, s2, e, row, row, EntryRight(s, v, quantity, now), u);
    }
  }

  lemma {:induction false} JoinLeavesTimer(s: State, v: UserId, quantity: int, others: nat, fetched: Option<nat>, u: UserId, now: Time)
    requires Inv(s) && !s.down && now > s.clock && v != NO_NAME && Queues(s.db, u)
    requires s.db.stock.None? && fetched.Some? ==> fetched.value == s.cfg.initialStock
    ensures LeavesTimer(s, JoinQueue(s, v, quantity, others, fetched, now).0, u)
  {
    LaterKeepsInv(s, now);
    if v == u {
      RefusesWaiters(s, Join(v, quantity, others, fetched), u, now);
    } else {
      if Idempotent(s.cache, v).None? {
        NobodyHasSlot(s, v);
      }
      JoinUnfolds(s, v, quantity, others, fetched, now);
      if JoinQueue(s, v, quantity, others, fetched, now).0 != s {
        var (s1, e1) := Touch(s, fetched.value);
        TouchKeepsInv(s, fetched.value);
        TouchThenSlot(s, v, fetched.value);
        TouchLeavesTimer(s, fetched.value, v, u);
        if e1.Finished? {
          LaterKeepsInv(s1, now);
          EntryLeavesTimer(s1, v, quantity, u, now);
        }
      }
    }
  }

  lemma {:induction false} RestoreLeavesTimer(s: State, m: Membership, pass: Time, u: UserId)
    requires m.user != u
    ensures LeavesTimer(s, RestoreTimer(s, m, pass), u)
  {
  }

  lemma {:induction false} HandleLeavesTimer(s: State, c: T.Claim, u: UserId, now: Time)
    requires InvAt(s, now) && !s.down && now > s.clock && c.user != u
    requires Queues(s.db, u) ==> Queues(HandleExpired(s, c, now).0.db, u)
    ensures LeavesTimer(s, HandleExpired(s, c, now).0, u)
  {
    if c.user in s.cache.members {
      var m := s.cache.members[c.user];
      if m.IsLive() {
        Lookup(s, c.user, now);
        HandleExpiredUnfolds(s, c, now);
        if IsStale(c, m) {
          RestoreLeavesTimer(s, m, c.pass, u);
        } else {
          ExpireNowLeavesTimer(s, c.user, c.pass, u, now);
        }
      } else {
        HandleExpiredUnfolds(s, c, now);
      }
    }
  }

  lemma {:induction false} RightExpiryLeavesTimer(s: State, v: UserId, pass: Time, u: UserId, now: Time)
    requires InvAt(s, now) && !s.down && now > s.clock && v != u
    requires v in s.cache.members && s.cache.members[v].status.RightActive?
    requires Queues(s.db, u) ==> Queues(ExpireNow(s, s.cache.members[v], pass, now).0.db, u)
    ensures LeavesTimer(s, ExpireNow(s, s.cache.members[v], pass, now).0, u)
  {
    ExpireLeavesTimer(s, v, now, false, u, now);
  }

  lemma {:induction false} OfferExpiryLeavesTimer(s: State, v: UserId, pass: Time, u: UserId, now: Time)
    requires InvAt(s, now) && !s.down && now > s.clock && v != u
    requires v in s.cache.members && s.cache.members[v].status.OfferPending? && s.cache.members[v].available.Some?
    requires Queues(s.db, u) ==> Queues(ExpireNow(s, s.cache.members[v], pass, now).0.db, u)
    ensures LeavesTimer(s, ExpireNow(s, s.cache.members[v], pass, now).0, u)
  {
    EndOfferLeavesTimer(s, v, pass, false, false, u, now);
  }

  lemma {:induction false} AbsenceLeavesTimer(s: State, v: UserId, pass: Time, u: UserId, now: Time)
    requires InvAt(s, now) && !s.down && now > s.clock && v != u
    requires v in s.cache.members && s.cache.members[v].status.Queued? && s.cache.members[v].user == v
    requires Queues(s.db, u) ==> Queues(ExpireNow(s, s.cache.members[v], pass, now).0.db, u)
    ensures LeavesTimer(s, ExpireNow(s, s.cache.members[v], pass, now).0, u)
  {
    if !IsPresent(s.cache, v, pass) {
      Lookup(s, v, now);
      QuitIsStep(s, s.cache.members[v], pass, now);
      QuitLeavesTimer(s, v, pass, u, now);
    }
  }

  lemma {:induction false} ExpireNowLeavesTimer(s: State, v: UserId, pass: Time, u: UserId, now: Time)
    requires InvAt(s, now) && !s.down && now > s.clock && v != u
    requires v in s.cache.members && s.cache.members[v].IsLive()
    requires Queues(s.db, u) ==> Queues(ExpireNow(s, s.cache.members[v], pass, now).0.db, u)
    ensures LeavesTimer(s, ExpireNow(s, s.cache.members[v], pass, now).0, u)
  {
    Lookup(s, v, now);
    if s.cache.members[v].status.RightActive? {
      RightExpiryLeavesTimer(s, v, pass, u, now);
    } else if s.cache.members[v].status.OfferPending? {
      OfferExpiryLeavesTimer(s, v, pass, u, now);
    } else {
      AbsenceLeavesTimer(s, v, pass, u, now);
    }
  }
}
