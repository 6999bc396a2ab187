/**
The window between popping the head of the queue and winning its membership claim.

AdvanceQueue does not look at the membership again, neither before it issues what the pop
decided nor before it puts the user back. Everywhere else in this model pop and claim are
one step; here they are not.
*/
module Gap {
  import opened Models
  import opened CacheScripts
  import opened DurableTx
  import opened Service
  import opened Invariants
  import opened Moves
  import opened Advance

  // ---- What is at stake ----

  // The units add up if those in flight are counted.
  ghost predicate AddsUp(s: State, inFlight: int) {
    && s.cache.stock.Some? && s.db.stock.Some?
    && Counters(s.cache).available + Held(s.db.members) + inFlight == Counters(s.cache).count == s.db.stock.value.count
  }

  // The same rows in both stores; queue iff QUEUED, in the order of the stamps; index iff
  // queue; slots iff live.
  predicate Agreement(s: State) {
    RowsAgree(s.cache, s.db) && QueueAgrees(s.cache)
  }

  predicate RightsAreHeld(d: Durable) {
    forall t :: t in d.rights && d.rights[t].status.Active? ==>
      d.rights[t].user in d.members && d.members[d.rights[t].user].token == Some(t)
  }

  // What a pop decides, by status.
  predicate IsDecided(p: Popped) {
    && p.Popped?
    && ((p.status == Some(RightActive) && p.granted > 0 && p.offered == 0)
        || (p.status == Some(OfferPending) && p.granted == 0 && p.offered > 0)
        || (p.status == Some(SoldOut) && p.granted == 0 && p.offered == 0))
  }

  // The queue without the popped user, who may have joined it again at its end.
  predicate RestOfQueue(c: Cache, e: Entry, m: Membership) {
    && Scored(c.queue, c.lastScore) && e.score <= c.lastScore
    && (forall i :: 0 <= i < |c.queue| ==> e.score < c.queue[i].score)
    && Users(c.queue) <= c.members.Keys && InStampOrder(c.queue, c.members)
    && Users(c.queue) - {m.user} == QueuedUsers(c.members) - {m.user}
    && (m.user in Users(c.queue) ==> m.status.Queued?)
    && (m.status.Queued? && m.user !in Users(c.queue) ==>
          forall i :: 0 <= i < |c.queue| ==> m.updatedAt < c.members[c.queue[i].user].updatedAt)
    && c.index == Users(c.queue) && c.slots == LiveUsers(c.members)
  }

  // The popped user has a membership m by now, and everything agrees but for the pop: its
  // units are in flight, and a user who has waited since is in no queue.
  ghost predicate InFlight(s: State, p: Popped, m: Membership) {
    && IsDecided(p) && !s.down && AddsUp(s, p.granted + p.offered) && Counters(s.cache).available >= 0
    && p.entry.user == m.user && m.user in s.cache.members && s.cache.members[m.user] == m
    && RowsAgree(s.cache, s.db) && MemberShape(s.db.members[m.user], s.db.rights, s.cfg)
    && RestOfQueue(s.cache, p.entry, m)
    && RightsAreHeld(s.db) && s.nextToken !in s.db.rights
  }

  // All of it agrees afterwards, the row is well-formed, and nobody takes part who did not.
  ghost predicate Sound(s: State, s': State, u: UserId) {
    && AddsUp(s', 0) && Agreement(s') && SoundRows(s, s', u)
  }

  ghost predicate SoundRows(s: State, s': State, u: UserId) {
    && RightsAreHeld(s'.db)
    && u in s'.db.members && MemberShape(s'.db.members[u], s'.db.rights, s'.cfg)
    && LiveUsers(s'.db.members) <= LiveUsers(s.db.members)
  }

  // Of a process that has died only the rows remain; recovery must not have to close the pool.
  ghost predicate Recoverable(s: State, s': State, u: UserId) {
    && SoundRows(s, s', u) && s'.db.stock.Some? && Held(s'.db.members) <= s'.db.stock.value.count
  }

  // ---- The checks that the step leaves out ----

  // Before the write: somebody who is to be served still waits, outside the queue, for what
  // was decided; somebody who is to be turned away at least holds nothing and is in no queue.
  predicate StillStands(c: Cache, p: Popped, m: Membership)
    requires p.Popped?
  {
    && m.user !in Users(c.queue)
    && match p.status
       case Some(RightActive) => m.status.Queued? && m.quantity == p.granted
       case Some(OfferPending) => m.status.Queued? && m.quantity > p.offered
       case _ => m.Units() == 0
  }

  // Before the rollback: the user still waits, and nobody in the queue is ahead of it.
  predicate MayReturn(c: Cache, m: Membership) {
    m.status.Queued? && (m.user in Users(c.queue) ==> c.queue[0].user == m.user)
  }

  // Before a write that the process does not survive.
  predicate RowStands(p: Popped, m: Membership)
    requires p.Popped?
  {
    match p.status
    case Some(RightActive) => m.status.Queued? && m.quantity == p.granted
    case Some(OfferPending) => (m.status.Queued? || m.status.OfferPending?) && m.quantity > p.offered
    case _ => m.Units() == 0
  }

  // ---- What the step does ----

  // The row that the step writes, and the right with it.
  function Applied(s: State, p: Popped, m: Membership, now: Time): Membership
    requires p.Popped?
  {
    match p.status
    case Some(RightActive) => Holding(m.(updatedAt := now), NewRight(s, m, p.granted, now))
    case Some(OfferPending) => Offered(m.(updatedAt := now), p.offered, now + s.cfg.offerTtl)
    case _ => m.(status := SoldOut, updatedAt := now)
  }

  function RightsAfter(s: State, p: Popped, m: Membership, now: Time): map<Token, Right>
    requires p.Popped?
  {
    if p.status == Some(RightActive) then s.db.rights[s.nextToken := NewRight(s, m, p.granted, now)] else s.db.rights
  }

  predicate Found(s: State, p: Popped, m: Membership) {
    && IsDecided(p) && p.entry.user == m.user && m.user in s.db.members
    && m.user in s.cache.members && s.cache.members[m.user] == m && s.cache.rights == s.db.rights
  }

  // A write that commits, and what is cached after it.
  predicate Wrote(s: State, s': State, p: Popped, m: Membership, row: Membership, now: Time)
    requires p.Popped?
  {
    && s'.db.members == s.db.members[m.user := row] && s'.cache.members == s.cache.members[m.user := row]
    && s'.db.stock == s.db.stock && s'.cache.stock == s.cache.stock && s'.cfg == s.cfg
    && s'.cache.queue == s.cache.queue && s'.cache.index == s.cache.index && s'.cache.lastScore == s.cache.lastScore
    && s'.cache.slots == (if row.IsLive() then s.cache.slots + {m.user} else s.cache.slots - {m.user})
    && s'.db.rights == RightsAfter(s, p, m, now) && s'.cache.rights == s'.db.rights
  }

  lemma {:induction false} GrantWrites(s: State, p: Popped, m: Membership, now: Time)
    requires Found(s, p, m) && p.status == Some(RightActive) && ApplyAdvanceStep(s, p, now).1.Finished?
    ensures Wrote(s, ApplyAdvanceStep(s, p, now).0, p, m, Applied(s, p, m, now), now)
  {
  }

  lemma {:induction false} OfferWrites(s: State, p: Popped, m: Membership, now: Time)
    requires Found(s, p, m) && p.status == Some(OfferPending) && ApplyAdvanceStep(s, p, now).1.Finished?
    ensures Wrote(s, ApplyAdvanceStep(s, p, now).0, p, m, Applied(s, p, m, now), now)
  {
  }

  lemma {:induction false} TurnAwayWrites(s: State, p: Popped, m: Membership, now: Time)
    requires Found(s, p, m) && p.status == Some(SoldOut) && ApplyAdvanceStep(s, p, now).1.Finished?
    ensures Wrote(s, ApplyAdvanceStep(s, p, now).0, p, m, Applied(s, p, m, now), now)
  {
  }

  lemma {:induction false} StepWrites(s: State, p: Popped, m: Membership, now: Time)
    requires Found(s, p, m) && ApplyAdvanceStep(s, p, now).1.Finished?
    ensures Wrote(s, ApplyAdvanceStep(s, p, now).0, p, m, Applied(s, p, m, now), now)
  {
    if p.status == Some(RightActive) {
      GrantWrites(s, p, m, now);
    } else if p.status == Some(OfferPending) {
      OfferWrites(s, p, m, now);
    } else {
      TurnAwayWrites(s, p, m, now);
    }
  }

  lemma {:induction false} StepRollsBack(s: State, p: Popped, m: Membership, now: Time)
    requires Found(s, p, m) && ApplyAdvanceStep(s, p, now).1.StoreFailed?
    ensures var s' := ApplyAdvanceStep(s, p, now).0;
      s' == Rollback(s, p.entry, p.granted + p.offered).(nextToken := s'.nextToken)
  {
  }

  lemma {:induction false} StepDies(s: State, p: Popped, m: Membership, now: Time)
    requires Found(s, p, m) && ApplyAdvanceStep(s, p, now).1.Died?
    ensures var s' := ApplyAdvanceStep(s, p, now).0;
      && s'.down && s'.db.stock == s.db.stock && s'.cfg == s.cfg
      && s'.db.members == s.db.members[m.user := Applied(s, p, m, now)] && s'.db.rights == RightsAfter(s, p, m, now)
  {
  }

  // ---- A write that commits ----

  // The sum alone: the membership must hold what the new row takes beyond the units in flight.
  lemma {:induction false} SumIff(s: State, p: Popped, m: Membership, now: Time)
    requires InFlight(s, p, m) && ApplyAdvanceStep(s, p, now).1.Finished?
    ensures AddsUp(ApplyAdvanceStep(s, p, now).0, 0)
       <==> Applied(s, p, m, now).Units() - m.Units() == p.granted + p.offered
  {
    StepWrites(s, p, m, now);
    HeldAfter(s.db.members, m.user, Applied(s, p, m, now));
  }

  lemma {:induction false} QueueIff(c: Cache, c': Cache, e: Entry, m: Membership, row: Membership)
    requires RestOfQueue(c, e, m) && row.user == m.user && !row.status.Queued?
    requires c'.members == c.members[m.user := row] && c'.queue == c.queue && c'.lastScore == c.lastScore
    requires c'.index == c.index && c'.slots == (if row.IsLive() then c.slots + {m.user} else c.slots - {m.user})
    ensures QueueAgrees(c') <==> m.user !in Users(c.queue)
  {
    StatusSetsMoved(c.members, row);
    assert forall i :: 0 <= i < |c.queue| ==> c.queue[i].user in Users(c.queue);
  }

  lemma {:induction false} RowsIff(s: State, s': State, p: Popped, m: Membership, row: Membership, now: Time)
    requires InFlight(s, p, m) && row == Applied(s, p, m, now)
    requires s'.db.members == s.db.members[m.user := row] && s'.db.rights == RightsAfter(s, p, m, now) && s'.cfg == s.cfg
    ensures SoundRows(s, s', m.user) <==> RowStands(p, m)
  {
    StatusSetsMoved(s.db.members, row);
    assert m.user in LiveUsers(s.db.members) <==> m.IsLive();
    ShapeIff(s, s', p, m, row, now);
    if RowStands(p, m) {
      RightsStayHeld(s, s', p, m, row, now);
    }
  }

  lemma {:induction false} RightsStayHeld(s: State, s': State, p: Popped, m: Membership, row: Membership, now: Time)
    requires InFlight(s, p, m) && row == Applied(s, p, m, now) && RowStands(p, m)
    requires s'.db.members == s.db.members[m.user := row] && s'.db.rights == RightsAfter(s, p, m, now)
    ensures RightsAreHeld(s'.db)
  {
  }

  lemma {:induction false} ShapeIff(s: State, s': State, p: Popped, m: Membership, row: Membership, now: Time)
    requires InFlight(s, p, m) && row == Applied(s, p, m, now) && s'.db.rights == RightsAfter(s, p, m, now)
    ensures MemberShape(row, s'.db.rights, s.cfg) && p.status == Some(RightActive) ==> m.quantity == p.granted
    ensures MemberShape(row, s'.db.rights, s.cfg) && p.status == Some(OfferPending) ==>
      m.quantity > p.offered && !m.status.RightActive?
    ensures MemberShape(row, s'.db.rights, s.cfg) && p.status == Some(SoldOut) ==> m.Units() == 0
    ensures RowStands(p, m) ==> MemberShape(row, s'.db.rights, s.cfg)
  {
  }

  lemma {:induction false} CommitIff(s: State, p: Popped, m: Membership, now: Time)
    requires InFlight(s, p, m) && ApplyAdvanceStep(s, p, now).1.Finished?
    ensures Sound(s, ApplyAdvanceStep(s, p, now).0, m.user) <==> StillStands(s.cache, p, m)
  {
    var s', row := ApplyAdvanceStep(s, p, now).0, Applied(s, p, m, now);
    StepWrites(s, p, m, now);
    SumIff(s, p, m, now);
    QueueIff(s.cache, s'.cache, p.entry, m, row);
    RowsIff(s, s', p, m, row, now);
    RowsStillAgree(s, s', p, m, row, now);
    StandsIff(s.cache, p, m, row, s, now);
  }

  lemma {:induction false} RowsStillAgree(s: State, s': State, p: Popped, m: Membership, row: Membership, now: Time)
    requires p.Popped? && RowsAgree(s.cache, s.db) && Wrote(s, s', p, m, row, now)
    ensures RowsAgree(s'.cache, s'.db)
  {
  }

  // The three conditions together are the check before the write.
  lemma {:induction false} StandsIff(c: Cache, p: Popped, m: Membership, row: Membership, s: State, now: Time)
    requires IsDecided(p) && row == Applied(s, p, m, now) && m.quantity > 0
    requires m.status.OfferPending? ==> m.available.Some? && m.available.value > 0
    ensures StillStands(c, p, m)
       <==> (row.Units() - m.Units() == p.granted + p.offered && m.user !in Users(c.queue) && RowStands(p, m))
  {
  }

  // ---- A write that fails, or a claim that is lost ----

  lemma {:induction false} PlaceFirst(q: seq<Entry>, e: Entry)
    requires forall i :: 0 <= i < |q| ==> e.score < q[i].score
    requires forall i, j :: 0 <= i < j < |q| ==> q[i].user != q[j].user
    ensures Place(q, e) == [e] + Without(q, e.user)
  {
    WithoutMember(q, e.user);
  }

  lemma {:induction false} RestIsDistinct(c: Cache, e: Entry, m: Membership)
    requires RestOfQueue(c, e, m)
    ensures forall i, j :: 0 <= i < j < |c.queue| ==> c.queue[i].user != c.queue[j].user
    ensures forall i :: 0 <= i < |c.queue| ==> c.queue[i].user in Users(c.queue)
  {
  }

  // The user comes first, whether or not it has queued again meanwhile.
  lemma {:induction false} RequeuesFirst(c: Cache, e: Entry, m: Membership)
    requires RestOfQueue(c, e, m) && e.user == m.user
    ensures Requeue(c, e).queue == [e] + Without(c.queue, m.user)
    ensures Users(Without(c.queue, m.user)) == Users(c.queue) - {m.user}
    ensures Users(Requeue(c, e).queue) == Users(c.queue) + {m.user}
  {
    RestIsDistinct(c, e, m);
    PlaceFirst(c.queue, e);
    WithoutMember(c.queue, m.user);
    var q := Requeue(c, e).queue;
    assert q[0] == e && q[1..] == Without(c.queue, m.user);
    assert Users(q) == {e.user} + Users(q[1..]);
  }

  lemma {:induction false} ReturnsInOrder(c: Cache, e: Entry, m: Membership)
    requires RestOfQueue(c, e, m) && e.user == m.user && m.user in c.members && c.members[m.user] == m
    requires MayReturn(c, m) && Users(Without(c.queue, m.user)) == Users(c.queue) - {m.user}
    requires Users([e] + Without(c.queue, m.user)) <= c.members.Keys
    ensures InStampOrder([e] + Without(c.queue, m.user), c.members)
  {
    var q := [e] + Without(c.queue, m.user);
    forall i, j | 0 <= i < j < |q|
      ensures StampedBefore(c.members, q[i].user, q[j].user)
    {
      if i > 0 {
        StampsKept(c.queue, m.user, c.members, i - 1, j - 1);
      } else {
        IsAheadOfRest(c, e, m, j - 1);
      }
    }
  }

  lemma {:induction false} ReturnsScored(q: seq<Entry>, e: Entry, u: UserId, lastScore: nat)
    requires Scored(q, lastScore) && e.score <= lastScore && forall i :: 0 <= i < |q| ==> e.score < q[i].score
    ensures Scored([e] + Without(q, u), lastScore)
  {
    ScoresKept(q, u, lastScore);
    forall i | 0 <= i < |Without(q, u)|
      ensures e.score < Without(q, u)[i].score
    {
      var k := WithoutPlace(q, u, i);
    }
  }

  lemma {:induction false} BackIn(queue: set<UserId>, waiting: set<UserId>, u: UserId)
    requires queue - {u} == waiting - {u} && u in waiting
    ensures queue + {u} == waiting
  {
    assert queue + {u} == (queue - {u}) + {u};
    assert waiting == (waiting - {u}) + {u};
  }

  lemma {:induction false} MayReturnAgrees(c: Cache, e: Entry, m: Membership)
    requires RestOfQueue(c, e, m) && e.user == m.user && m.user in c.members && c.members[m.user] == m
    requires MayReturn(c, m)
    ensures QueueAgrees(Requeue(c, e))
  {
    RequeuesFirst(c, e, m);
    ReturnsScored(c.queue, e, m.user, c.lastScore);
    BackIn(Users(c.queue), QueuedUsers(c.members), m.user);
    ReturnsInOrder(c, e, m);
  }

  lemma {:induction false} IsAheadOfRest(c: Cache, e: Entry, m: Membership, j: nat)
    requires RestOfQueue(c, e, m) && e.user == m.user && m.user in c.members && c.members[m.user] == m
    requires MayReturn(c, m) && j < |Without(c.queue, m.user)|
    ensures var v := Without(c.queue, m.user)[j].user; v in c.members && m.updatedAt < c.members[v].updatedAt
  {
    RestIsDistinct(c, e, m);
    WithoutMember(c.queue, m.user);
    var x := Without(c.queue, m.user)[j];
    assert x in c.queue && x.user in Users(Without(c.queue, m.user));
    var k :| 0 <= k < |c.queue| && c.queue[k] == x;
    assert c.queue[k].user != m.user;
  }

  // Whoever is ahead of it in the queue has the older stamp, and would now come second.
  lemma {:induction false} OvertakesFirst(c: Cache, e: Entry, m: Membership)
    requires RestOfQueue(c, e, m) && e.user == m.user && m.user in c.members && c.members[m.user] == m
    requires m.user in Users(c.queue) && c.queue[0].user != m.user
    ensures var q := Requeue(c, e).queue;
      |q| > 1 && q[0].user == m.user && q[1].user == c.queue[0].user
      && StampedBefore(c.members, q[1].user, q[0].user)
  {
    RequeuesFirst(c, e, m);
    StaysSecond(c.queue, m.user);
    var x :| x in c.queue && x.user == m.user;
    var i :| 0 <= i < |c.queue| && c.queue[i] == x;
    assert i > 0 && StampedBefore(c.members, c.queue[0].user, c.queue[i].user);
  }

  lemma {:induction false} OutOfOrder(q: seq<Entry>, ms: map<UserId, Membership>)
    requires |q| > 1 && Users(q) <= ms.Keys && StampedBefore(ms, q[1].user, q[0].user)
    ensures !InStampOrder(q, ms)
  {
    assert !StampedBefore(ms, q[0].user, q[1].user);
  }

  lemma {:induction false} MayNotReturn(c: Cache, e: Entry, m: Membership)
    requires RestOfQueue(c, e, m) && e.user == m.user && m.user in c.members && c.members[m.user] == m
    requires !MayReturn(c, m)
    ensures !QueueAgrees(Requeue(c, e))
  {
    RequeuesFirst(c, e, m);
    var q := Requeue(c, e).queue;
    assert m.user in Users(q);
    if m.status.Queued? {
      OvertakesFirst(c, e, m);
      if Users(q) <= c.members.Keys {
        OutOfOrder(q, c.members);
      }
    } else {
      assert m.user !in QueuedUsers(c.members);
    }
  }

  lemma {:induction false} StaysSecond(q: seq<Entry>, u: UserId)
    requires q != [] && q[0].user != u
    ensures Without(q, u) != [] && Without(q, u)[0] == q[0]
  {
  }

  // The rollback gives the units back in any case. It is sound exactly when the user still
  // waits with nobody ahead of it.
  lemma {:induction false} RollbackIff(s: State, p: Popped, m: Membership, now: Time)
    requires InFlight(s, p, m) && ApplyAdvanceStep(s, p, now).1.StoreFailed?
    ensures AddsUp(ApplyAdvanceStep(s, p, now).0, 0)
    ensures Sound(s, ApplyAdvanceStep(s, p, now).0, m.user) <==> MayReturn(s.cache, m)
  {
    var s' := ApplyAdvanceStep(s, p, now).0;
    StepRollsBack(s, p, m, now);
    ReturnIff(s.cache, s'.cache, p.entry, m);
    assert RowsAgree(s'.cache, s'.db);
  }

  lemma {:induction false} ReturnIff(c: Cache, c': Cache, e: Entry, m: Membership)
    requires RestOfQueue(c, e, m) && e.user == m.user && m.user in c.members && c.members[m.user] == m
    requires c' == Requeue(c, e).(stock := c'.stock)
    ensures QueueAgrees(c') <==> MayReturn(c, m)
  {
    assert QueueAgrees(c') <==> QueueAgrees(Requeue(c, e));
    if MayReturn(c, m) {
      MayReturnAgrees(c, e, m);
    } else {
      MayNotReturn(c, e, m);
    }
  }

  // ---- A process that dies ----

  lemma {:induction false} DeathIff(s: State, p: Popped, m: Membership, now: Time)
    requires InFlight(s, p, m) && ApplyAdvanceStep(s, p, now).1.Died?
    ensures Recoverable(s, ApplyAdvanceStep(s, p, now).0, m.user) <==> RowStands(p, m)
  {
    var s', row := ApplyAdvanceStep(s, p, now).0, Applied(s, p, m, now);
    StepDies(s, p, m, now);
    RowsIff(s, s', p, m, row, now);
    HeldAfter(s.db.members, m.user, row);
  }

  // ---- All outcomes ----

  // Whatever becomes of the write, the step is sound exactly when the membership found
  // passes the check for that outcome.
  lemma {:induction false} SoundIff(s: State, p: Popped, m: Membership, now: Time)
    requires InFlight(s, p, m)
    ensures var (s', e) := ApplyAdvanceStep(s, p, now);
      match e
      case Finished => Sound(s, s', m.user) <==> StillStands(s.cache, p, m)
      case StoreFailed => Sound(s, s', m.user) <==> MayReturn(s.cache, m)
      case Died => Recoverable(s, s', m.user) <==> RowStands(p, m)
  {
    match ApplyAdvanceStep(s, p, now).1
    case Finished => CommitIff(s, p, m, now);
    case StoreFailed => RollbackIff(s, p, m, now);
    case Died => DeathIff(s, p, m, now);
  }

  // Right after the pop all three checks are passed.
  lemma {:induction false} PopStands(s: State, now: Time) returns (m: Membership)
    requires InvAt(s, now) && !s.down && !Idle(s)
    ensures var (c, p) := PopAndAllocate(s.cache);
      InFlight(s.(cache := c), p, m) && StillStands(c, p, m) && MayReturn(c, m) && RowStands(p, m)
  {
    m := HeadIsQueued(s, now);
    PopTakes(s, m);
    PopLeavesRest(s, PopAndAllocate(s.cache).0, m);
    assert AddsUp(s, 0);
  }

  lemma {:induction false} TailOfQueue(c: Cache)
    requires QueueAgrees(c) && c.queue != []
    ensures Without(c.queue, c.queue[0].user) == c.queue[1..]
    ensures Users(c.queue[1..]) == Users(c.queue) - {c.queue[0].user}
    ensures Scored(c.queue[1..], c.lastScore) && c.queue[0].score <= c.lastScore
    ensures forall i :: 0 <= i < |c.queue[1..]| ==> c.queue[0].score < c.queue[1..][i].score
    ensures forall i :: 0 <= i < |c.queue[1..]| ==> StampedBefore(c.members, c.queue[0].user, c.queue[1..][i].user)
  {
    UsersDistinct(c);
    WithoutMember(c.queue, c.queue[0].user);
    forall i | 0 <= i < |c.queue[1..]|
      ensures StampedBefore(c.members, c.queue[0].user, c.queue[1..][i].user)
    {
      assert c.queue[1..][i] == c.queue[i + 1];
    }
  }

  lemma {:induction false} TailInOrder(q: seq<Entry>, ms: map<UserId, Membership>)
    requires q != [] && Users(q) <= ms.Keys && Users(q[1..]) <= ms.Keys && InStampOrder(q, ms)
    ensures InStampOrder(q[1..], ms)
  {
    forall i, j | 0 <= i < j < |q[1..]|
      ensures StampedBefore(ms, q[1..][i].user, q[1..][j].user)
    {
      assert q[1..][i] == q[i + 1] && q[1..][j] == q[j + 1];
    }
  }

  lemma {:induction false} PopLeavesRest(s: State, c: Cache, m: Membership)
    requires QueueAgrees(s.cache) && Head(s, m)
    requires c == s.cache.(stock := c.stock, queue := Without(s.cache.queue, m.user), index := s.cache.index - {m.user})
    ensures RestOfQueue(c, s.cache.queue[0], m) && m.user !in Users(c.queue)
  {
    TailOfQueue(s.cache);
    TailInOrder(s.cache.queue, s.cache.members);
  }

  lemma {:induction false} PopTakes(s: State, m: Membership)
    requires Head(s, m) && !Idle(s) && 0 <= Counters(s.cache).available <= Counters(s.cache).count
    ensures var (c, p) := PopAndAllocate(s.cache);
      && IsDecided(p) && p.entry == s.cache.queue[0] && p.entry.user == m.user
      && RowStands(p, m) && StillStands(c.(queue := []), p, m)
      && c == s.cache.(stock := c.stock, queue := Without(s.cache.queue, m.user), index := s.cache.index - {m.user})
      && c.stock == Some(Stock(Counters(s.cache).count, Counters(s.cache).available - p.granted - p.offered))
      && Counters(s.cache).available - p.granted - p.offered >= 0
  {
  }

  // ---- What goes wrong ----

  // The sum is not enough: a user who has queued again with the same quantity ends up with a
  // right while in the queue, and one who has left is brought back without a look at the limit.
  lemma {:induction false} SumIsNotEnough(s: State, p: Popped, m: Membership, now: Time)
    requires InFlight(s, p, m) && ApplyAdvanceStep(s, p, now).1.Finished?
    requires (p.status == Some(RightActive) && m.status.Queued? && m.quantity == p.granted && m.user in Users(s.cache.queue))
      || (p.status == Some(OfferPending) && m.status.Declined?)
    ensures var s' := ApplyAdvanceStep(s, p, now).0;
      && AddsUp(s', 0) && !Sound(s, s', m.user)
      && (m.status.Queued? ==> s'.cache.members[m.user].status.RightActive? && m.user in Users(s'.cache.queue))
      && (m.status.Declined? ==> m.user in s'.cache.slots && m.user !in s.cache.slots)
  {
    StepWrites(s, p, m, now);
    SumIff(s, p, m, now);
    CommitIff(s, p, m, now);
  }

  // The rollback puts a user who has left, for good or with a right in hand, back into the
  // queue, whatever the pop had decided.
  lemma {:induction false} RollbackRequeuesLeaver(s: State, p: Popped, m: Membership, now: Time)
    requires InFlight(s, p, m) && ApplyAdvanceStep(s, p, now).1.StoreFailed? && !m.status.Queued?
    ensures var s' := ApplyAdvanceStep(s, p, now).0;
      && !Agreement(s') && s'.cache.queue[0].user == m.user && s'.cache.members[m.user] == m
      && PopAndAllocate(s'.cache).1 == Popped(p.entry, 0, 0, Some(m.status))
  {
    StepRollsBack(s, p, m, now);
    ReturnIff(s.cache, ApplyAdvanceStep(s, p, now).0.cache, p.entry, m);
    RequeuesFirst(s.cache, p.entry, m);
  }

  // And it takes a user who has queued again out of its new place and puts it ahead of all
  // who have waited longer.
  lemma {:induction false} RollbackOvertakes(s: State, p: Popped, m: Membership, now: Time)
    requires InFlight(s, p, m) && ApplyAdvanceStep(s, p, now).1.StoreFailed?
    requires m.user in Users(s.cache.queue) && s.cache.queue[0].user != m.user
    ensures var s' := ApplyAdvanceStep(s, p, now).0;
      && !Agreement(s') && |s'.cache.queue| > 1
      && s'.cache.queue[0].user == m.user && s'.cache.queue[1].user == s.cache.queue[0].user
      && StampedBefore(s'.cache.members, s'.cache.queue[1].user, m.user)
  {
    StepRollsBack(s, p, m, now);
    ReturnIff(s.cache, ApplyAdvanceStep(s, p, now).0.cache, p.entry, m);
    OvertakesFirst(s.cache, p.entry, m);
  }
}
