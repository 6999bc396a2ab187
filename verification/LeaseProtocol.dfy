/**
The timer scripts under any interleaving: services set, postpone and drop timers while any
number of workers claim, acknowledge, return and reclaim them, in any order and repeatedly.
*/
module LeaseProtocol {
  import opened Models
  import opened Timers

  datatype Action =
    | Set(user: UserId, deadline: Second)
    | Postpone(user: UserId, deadline: Second)
    | Drop(user: UserId)
    | ClaimBatch(limit: nat)
    | Confirm(claims: seq<Claim>)
    | Return(claims: seq<Claim>)
    | Rescue

  // issued are all claims any worker was ever given.
  datatype Pool = Pool(timers: Timers, issued: set<Claim>, clock: Time)

  datatype Turn = Turn(action: Action, at: Time)

  // A worker only ever acknowledges or returns what it was given.
  predicate Fair(p: Pool, x: Turn) {
    && x.at > p.clock
    && match x.action
       case Confirm(cs) => forall c :: c in cs ==> c in p.issued
       case Return(cs) => forall c :: c in cs ==> c in p.issued
       case _ => true
  }

  ghost function Next(p: Pool, x: Turn): Pool {
    var t := p.timers;
    match x.action
    case Set(u, d) => Pool(Add(t, u, d), p.issued, x.at)
    case Postpone(u, d) => Pool(Refresh(t, u, d), p.issued, x.at)
    case Drop(u) => Pool(Remove(t, u), p.issued, x.at)
    case ClaimBatch(limit) =>
      var (t', batch) := ClaimDue(t, x.at, limit);
      Pool(t', p.issued + AsSet(batch), x.at)
    case Confirm(cs) => Pool(Ack(t, cs), p.issued, x.at)
    case Return(cs) => Pool(Nack(t, cs), p.issued, x.at)
    case Rescue => Pool(Reclaim(t, x.at), p.issued, x.at)
  }

  // ---- What holds at all times ----

  predicate ClaimsOk(issued: set<Claim>, clock: Time) {
    && (forall c :: c in issued ==> c.pass <= clock && c.lease == c.pass + LEASE && c.deadline * MILLIS <= c.pass)
    && (forall c, d :: c in issued && d in issued && c.user == d.user && c.lease == d.lease ==> c == d)
  }

  // Every timer in processing is in the hands of exactly one worker, who knows the deadline
  // that it will get back if that worker disappears.
  ghost predicate Leased(t: Timers, issued: set<Claim>) {
    && t.deadlines.Keys == t.processing.Keys
    && forall u :: u in t.processing ==>
         exists c :: c in issued && c.user == u && HoldsLease(t, c) && t.deadlines[u] == c.deadline
  }

  ghost predicate PoolInv(p: Pool) {
    ClaimsOk(p.issued, p.clock) && Leased(p.timers, p.issued)
  }

  lemma {:induction false} OneHolder(p: Pool, c: Claim, d: Claim)
    requires PoolInv(p) && c in p.issued && d in p.issued && c.user == d.user
    requires HoldsLease(p.timers, c) && HoldsLease(p.timers, d)
    ensures c == d && p.timers.deadlines[c.user] == c.deadline
  {
  }

  // ---- Claiming ----

  function TakeAll(t: Timers, taken: set<UserId>, lease: Time): Timers
    requires taken <= t.scheduled.Keys
  {
    Timers(
      map u | u in t.scheduled.Keys - taken :: t.scheduled[u],
      map u | u in t.processing.Keys + taken :: if u in taken then lease else t.processing[u],
      map u | u in t.deadlines.Keys + taken :: if u in taken then t.scheduled[u] else t.deadlines[u])
  }

  function ClaimOn(t: Timers, u: UserId, now: Time): Claim
    requires u in t.scheduled
  {
    Claim(u, t.scheduled[u], now + LEASE, now)
  }

  lemma {:induction false} TakeOneMore(t: Timers, u: UserId, taken: set<UserId>, lease: Time)
    requires u in t.scheduled && taken <= Take(t, u, lease).scheduled.Keys
    ensures {u} + taken <= t.scheduled.Keys
    ensures TakeAll(Take(t, u, lease), taken, lease) == TakeAll(t, {u} + taken, lease)
  {
    var a, b := TakeAll(Take(t, u, lease), taken, lease), TakeAll(t, {u} + taken, lease);
    assert a.scheduled == b.scheduled;
    assert a.processing == b.processing;
    assert a.deadlines == b.deadlines;
  }

  predicate NothingDue(t: Timers, now: Time) {
    forall u :: u in t.scheduled ==> !IsDue(t, u, now)
  }

  predicate AreClaims(t: Timers, taken: set<UserId>, batch: seq<Claim>, now: Time) {
    && (forall c :: c in batch ==> c.user in taken && c.user in t.scheduled && c == ClaimOn(t, c.user, now))
    && (forall u :: u in taken ==> u in t.scheduled && ClaimOn(t, u, now) in batch)
  }

  predicate InClaimOrder(batch: seq<Claim>) {
    forall i, j :: 0 <= i < j < |batch| ==> batch[i].deadline <= batch[j].deadline && batch[i].user != batch[j].user
  }

  // A batch moves due timers as they are, each under its own deadline and all under one
  // lease; it is cut short only when nothing due is left.
  predicate IsBatch(t: Timers, taken: set<UserId>, t': Timers, batch: seq<Claim>, now: Time, limit: nat) {
    && taken <= t.scheduled.Keys && (forall u :: u in taken ==> IsDue(t, u, now))
    && t' == TakeAll(t, taken, now + LEASE)
    && AreClaims(t, taken, batch, now)
    && |taken| == |batch| <= limit
    && (|batch| < limit ==> NothingDue(t', now))
  }

  // The earliest come first, and none that is left is earlier.
  predicate Earliest(batch: seq<Claim>, t': Timers) {
    && InClaimOrder(batch)
    && forall c, v :: c in batch && v in t'.scheduled ==> c.deadline <= t'.scheduled[v]
  }

  lemma {:induction false} ClaimsGrow(t: Timers, u: UserId, taken: set<UserId>, rest: seq<Claim>, now: Time)
    requires u in t.scheduled && u !in taken && AreClaims(Take(t, u, now + LEASE), taken, rest, now)
    ensures AreClaims(t, {u} + taken, [ClaimOn(t, u, now)] + rest, now)
  {
    var batch := [ClaimOn(t, u, now)] + rest;
    assert batch[0] in batch;
    forall v | v in taken
      ensures ClaimOn(t, v, now) in batch
    {
      assert ClaimOn(Take(t, u, now + LEASE), v, now) in rest;
    }
  }

  lemma {:induction false} OrderGrows(c: Claim, rest: seq<Claim>)
    requires InClaimOrder(rest) && forall d :: d in rest ==> c.deadline <= d.deadline && c.user != d.user
    ensures InClaimOrder([c] + rest)
  {
    var batch := [c] + rest;
    forall i, j | 0 <= i < j < |batch|
      ensures batch[i].deadline <= batch[j].deadline && batch[i].user != batch[j].user
    {
      assert batch[j] == rest[j - 1] && batch[j] in rest;
    }
  }

  lemma {:induction false} EarliestIsLeast(t: Timers, u: UserId, now: Time)
    requires IsEarliestDue(t, u, now)
    ensures forall v :: v in t.scheduled ==> t.scheduled[u] <= t.scheduled[v]
  {
    forall v | v in t.scheduled
      ensures t.scheduled[u] <= t.scheduled[v]
    {
      if IsDue(t, v, now) {
        assert Before(t, u, v);
      }
    }
  }

  lemma {:induction false} BatchGrows(t: Timers, u: UserId, taken: set<UserId>, t': Timers, rest: seq<Claim>, now: Time, limit: nat)
    requires IsDue(t, u, now) && IsBatch(Take(t, u, now + LEASE), taken, t', rest, now, limit)
    ensures IsBatch(t, {u} + taken, t', [ClaimOn(t, u, now)] + rest, now, limit + 1)
    ensures forall v :: v in t'.scheduled ==> v in t.scheduled && t'.scheduled[v] == t.scheduled[v]
    ensures AreClaims(Take(t, u, now + LEASE), taken, rest, now)
  {
    var t1 := Take(t, u, now + LEASE);
    assert u !in taken && taken <= t.scheduled.Keys - {u};
    TakeOneMore(t, u, taken, now + LEASE);
    ClaimsGrow(t, u, taken, rest, now);
    assert |{u} + taken| == 1 + |taken|;
    assert forall v :: v in taken ==> IsDue(t1, v, now) && IsDue(t, v, now);
  }

  lemma {:induction false} EarliestGrows(t: Timers, u: UserId, taken: set<UserId>, t': Timers, rest: seq<Claim>, now: Time)
    requires IsEarliestDue(t, u, now) && Earliest(rest, t') && AreClaims(Take(t, u, now + LEASE), taken, rest, now)
    requires forall v :: v in t'.scheduled ==> v in t.scheduled && t'.scheduled[v] == t.scheduled[v]
    ensures Earliest([ClaimOn(t, u, now)] + rest, t')
  {
    EarliestIsLeast(t, u, now);
    assert forall c :: c in rest ==> t.scheduled[u] <= c.deadline && c.user != u;
    OrderGrows(ClaimOn(t, u, now), rest);
  }

  lemma {:induction false} TakeNothing(t: Timers, lease: Time)
    ensures TakeAll(t, {}, lease) == t
  {
    var t' := TakeAll(t, {}, lease);
    assert t'.scheduled == t.scheduled;
    assert t'.processing == t.processing;
    assert t'.deadlines == t.deadlines;
  }

  lemma {:induction false} NoBatch(t: Timers, now: Time, limit: nat)
    requires limit == 0 || forall v :: v in t.scheduled ==> !IsDue(t, v, now)
    ensures IsBatch(t, {}, t, [], now, limit)
  {
    TakeNothing(t, now + LEASE);
  }

  lemma {:induction false} ClaimsFirst(t: Timers, now: Time, limit: nat, t': Timers, batch: seq<Claim>) returns (u: Option<UserId>)
    requires (t', batch) == ClaimDue(t, now, limit)
    ensures u.None? ==> (limit == 0 || forall v :: v in t.scheduled ==> !IsDue(t, v, now)) && t' == t && batch == []
    ensures u.Some? ==>
      (limit > 0 && IsEarliestDue(t, u.value, now) && batch != [] && batch[0] == ClaimOn(t, u.value, now)
       && (t', batch[1..]) == ClaimDue(Take(t, u.value, now + LEASE), now, limit - 1))
  {
    u := if limit == 0 then None else NextDue(t, now);
  }

  lemma {:induction false} BatchIsDue(t: Timers, now: Time, limit: nat, t': Timers, batch: seq<Claim>) returns (taken: set<UserId>)
    requires (t', batch) == ClaimDue(t, now, limit)
    ensures IsBatch(t, taken, t', batch, now, limit) && Earliest(batch, t')
    decreases limit
  {
    var u := ClaimsFirst(t, now, limit, t', batch);
    if u.None? {
      taken := {};
      NoBatch(t, now, limit);
    } else {
      var rest := BatchIsDue(Take(t, u.value, now + LEASE), now, limit - 1, t', batch[1..]);
      taken := {u.value} + rest;
      assert batch == [ClaimOn(t, u.value, now)] + batch[1..];
      BatchGrows(t, u.value, rest, t', batch[1..], now, limit - 1);
      EarliestGrows(t, u.value, rest, t', batch[1..], now);
    }
  }

  // ---- The invariant survives every action ----

  lemma {:induction false} ClaimingKeepsLeased(t: Timers, taken: set<UserId>, now: Time, issued: set<Claim>, issued': set<Claim>)
    requires Leased(t, issued) && issued <= issued' && taken <= t.scheduled.Keys
    requires forall u :: u in taken ==> ClaimOn(t, u, now) in issued'
    ensures Leased(TakeAll(t, taken, now + LEASE), issued')
  {
    var t' := TakeAll(t, taken, now + LEASE);
    forall u | u in t'.processing
      ensures exists c :: c in issued' && c.user == u && HoldsLease(t', c) && t'.deadlines[u] == c.deadline
    {
      if u in taken {
        assert HoldsLease(t', ClaimOn(t, u, now));
      } else {
        var c :| c in issued && c.user == u && HoldsLease(t, c) && t.deadlines[u] == c.deadline;
        assert HoldsLease(t', c);
      }
    }
  }

  lemma {:induction false} BatchKeepsPool(t: Timers, t': Timers, taken: set<UserId>, batch: seq<Claim>, issued: set<Claim>,
    clock: Time, now: Time, limit: nat)
    requires IsBatch(t, taken, t', batch, now, limit) && clock < now
    requires ClaimsOk(issued, clock) && Leased(t, issued)
    ensures ClaimsOk(issued + AsSet(batch), now) && Leased(t', issued + AsSet(batch))
  {
    var issued' := issued + AsSet(batch);
    assert forall u :: u in taken ==> ClaimOn(t, u, now) in issued';
    ClaimingKeepsLeased(t, taken, now, issued, issued');
    ClaimsStayOk(t, issued, batch, now);
  }

  lemma {:induction false} ClaimingKeepsInv(p: Pool, limit: nat, now: Time)
    requires PoolInv(p) && now > p.clock
    ensures PoolInv(Next(p, Turn(ClaimBatch(limit), now)))
  {
    var (t', batch) := ClaimDue(p.timers, now, limit);
    ClaimedPool(p, t', batch, limit, now);
  }

  lemma {:induction false} ClaimedPool(p: Pool, t': Timers, batch: seq<Claim>, limit: nat, now: Time)
    requires PoolInv(p) && now > p.clock && (t', batch) == ClaimDue(p.timers, now, limit)
    ensures PoolInv(Pool(t', p.issued + AsSet(batch), now))
  {
    var taken := BatchIsDue(p.timers, now, limit, t', batch);
    BatchKeepsPool(p.timers, t', taken, batch, p.issued, p.clock, now, limit);
  }

  lemma {:induction false} ClaimsStayOk(t: Timers, issued: set<Claim>, batch: seq<Claim>, now: Time)
    requires forall c :: c in issued ==> c.lease < now + LEASE
    requires ClaimsOk(issued, now)
    requires forall c :: c in batch ==> c.user in t.scheduled && IsDue(t, c.user, now) && c == ClaimOn(t, c.user, now)
    ensures ClaimsOk(issued + AsSet(batch), now)
  {
  }

  lemma {:induction false} AckOneKeepsLeased(t: Timers, c: Claim, issued: set<Claim>)
    requires Leased(t, issued)
    ensures Leased(AckOne(t, c), issued) && Leased(NackOne(t, c), issued)
  {
    forall t', u | (t' == AckOne(t, c) || t' == NackOne(t, c)) && u in t'.processing
      ensures exists d :: d in issued && d.user == u && HoldsLease(t', d) && t'.deadlines[u] == d.deadline
    {
      var d :| d in issued && d.user == u && HoldsLease(t, d) && t.deadlines[u] == d.deadline;
      assert HoldsLease(t', d);
    }
  }

  lemma {:induction false} AckKeepsLeased(t: Timers, cs: seq<Claim>, issued: set<Claim>)
    requires Leased(t, issued)
    ensures Leased(Ack(t, cs), issued)
    decreases |cs|
  {
    if cs != [] {
      AckOneKeepsLeased(t, cs[0], issued);
      AckKeepsLeased(AckOne(t, cs[0]), cs[1..], issued);
    }
  }

  lemma {:induction false} NackKeepsLeased(t: Timers, cs: seq<Claim>, issued: set<Claim>)
    requires Leased(t, issued)
    ensures Leased(Nack(t, cs), issued)
    decreases |cs|
  {
    if cs != [] {
      AckOneKeepsLeased(t, cs[0], issued);
      NackKeepsLeased(NackOne(t, cs[0]), cs[1..], issued);
    }
  }

  lemma {:induction false} ReclaimKeepsLeased(t: Timers, now: Time, issued: set<Claim>)
    requires Leased(t, issued)
    ensures Leased(Reclaim(t, now), issued)
  {
    var t' := Reclaim(t, now);
    forall u | u in t'.processing
      ensures exists d :: d in issued && d.user == u && HoldsLease(t', d) && t'.deadlines[u] == d.deadline
    {
      var d :| d in issued && d.user == u && HoldsLease(t, d) && t.deadlines[u] == d.deadline;
      assert HoldsLease(t', d);
    }
  }

  lemma {:induction false} ScheduleDoesNotMatter(t: Timers, t': Timers, issued: set<Claim>)
    requires Leased(t, issued) && t' == t.(scheduled := t'.scheduled)
    ensures Leased(t', issued)
  {
    forall u | u in t'.processing
      ensures exists d :: d in issued && d.user == u && HoldsLease(t', d) && t'.deadlines[u] == d.deadline
    {
      var d :| d in issued && d.user == u && HoldsLease(t, d) && t.deadlines[u] == d.deadline;
      assert HoldsLease(t', d);
    }
  }

  lemma {:induction false} NextKeepsPool(p: Pool, x: Turn)
    requires PoolInv(p) && Fair(p, x)
    ensures PoolInv(Next(p, x))
  {
    match x.action
    case ClaimBatch(limit) => ClaimingKeepsInv(p, limit, x.at);
    case Confirm(cs) => AckKeepsLeased(p.timers, cs, p.issued);
    case Return(cs) => NackKeepsLeased(p.timers, cs, p.issued);
    case Rescue => ReclaimKeepsLeased(p.timers, x.at, p.issued);
    case _ => ScheduleDoesNotMatter(p.timers, Next(p, x).timers, p.issued);
  }

  // ---- How a timer leaves ----

  // A worker that still holds the lease on u acknowledges it.
  predicate Settles(t: Timers, x: Turn, u: UserId) {
    match x.action
    case Confirm(cs) => exists c :: c in cs && c.user == u && HoldsLease(t, c)
    case Drop(v) => v == u
    case _ => false
  }

  lemma {:induction false} AckRemovesOnlyHeld(t: Timers, cs: seq<Claim>, u: UserId)
    requires t.Watches(u) && forall c :: c in cs && c.user == u ==> !HoldsLease(t, c)
    ensures Ack(t, cs).Watches(u)
    decreases |cs|
  {
    if cs != [] {
      AckRemovesOnlyHeld(AckOne(t, cs[0]), cs[1..], u);
    }
  }

  lemma {:induction false} NackKeepsWatch(t: Timers, cs: seq<Claim>, u: UserId)
    requires t.Watches(u)
    ensures Nack(t, cs).Watches(u)
    decreases |cs|
  {
    if cs != [] {
      NackKeepsWatch(NackOne(t, cs[0]), cs[1..], u);
    }
  }

  lemma {:induction false} LeavesOnlyWhenSettled(p: Pool, x: Turn, u: UserId)
    requires p.timers.Watches(u) && !Settles(p.timers, x, u)
    ensures Next(p, x).timers.Watches(u)
  {
    match x.action
    case ClaimBatch(limit) => var taken := BatchIsDue(p.timers, x.at, limit, ClaimDue(p.timers, x.at, limit).0, ClaimDue(p.timers, x.at, limit).1);
    case Confirm(cs) => AckRemovesOnlyHeld(p.timers, cs, u);
    case Return(cs) => NackKeepsWatch(p.timers, cs, u);
    case _ =>
  }

  // ---- Runs ----

  ghost predicate FairRun(p: Pool, run: seq<Turn>)
    decreases |run|
  {
    run == [] || (Fair(p, run[0]) && FairRun(Next(p, run[0]), run[1..]))
  }

  ghost function Outcome(p: Pool, run: seq<Turn>): Pool
    decreases |run|
  {
    if run == [] then p else Outcome(Next(p, run[0]), run[1..])
  }

  ghost predicate SettledDuring(p: Pool, run: seq<Turn>, u: UserId)
    decreases |run|
  {
    run != [] && (Settles(p.timers, run[0], u) || SettledDuring(Next(p, run[0]), run[1..], u))
  }

  // However often it is claimed, returned and reclaimed, a timer stays in the schedule or in
  // processing until it is dropped or acknowledged under its current lease.
  lemma {:induction false} TimersAreNotLost(p: Pool, run: seq<Turn>, u: UserId)
    requires p.timers.Watches(u) && FairRun(p, run) && !SettledDuring(p, run, u)
    ensures Outcome(p, run).timers.Watches(u)
    decreases |run|
  {
    if run != [] {
      LeavesOnlyWhenSettled(p, run[0], u);
      TimersAreNotLost(Next(p, run[0]), run[1..], u);
    }
  }

  lemma {:induction false} AckTakesLeasesAway(t: Timers, cs: seq<Claim>, c: Claim)
    requires !HoldsLease(t, c)
    ensures !HoldsLease(Ack(t, cs), c) && !HoldsLease(Nack(t, cs), c)
    decreases |cs|
  {
    if cs != [] {
      AckTakesLeasesAway(AckOne(t, cs[0]), cs[1..], c);
      AckTakesLeasesAway(NackOne(t, cs[0]), cs[1..], c);
    }
  }

  lemma {:induction false} LostStaysLost(p: Pool, x: Turn, c: Claim)
    requires PoolInv(p) && Fair(p, x) && c in p.issued && !HoldsLease(p.timers, c)
    ensures !HoldsLease(Next(p, x).timers, c)
  {
    match x.action
    case ClaimBatch(limit) =>
      var taken := BatchIsDue(p.timers, x.at, limit, ClaimDue(p.timers, x.at, limit).0, ClaimDue(p.timers, x.at, limit).1);
      assert c.lease < x.at + LEASE;
    case Confirm(cs) => AckTakesLeasesAway(p.timers, cs, c);
    case Return(cs) => AckTakesLeasesAway(p.timers, cs, c);
    case _ =>
  }

  // A claim made now outlives every claim made before.
  lemma {:induction false} NewLeasesAreLater(p: Pool, limit: nat, now: Time)
    requires PoolInv(p) && now > p.clock
    ensures forall c, d :: c in p.issued && d in ClaimDue(p.timers, now, limit).1 ==> c.lease < d.lease
  {
    var t', batch := ClaimDue(p.timers, now, limit).0, ClaimDue(p.timers, now, limit).1;
    var taken := BatchIsDue(p.timers, now, limit, t', batch);
  }

  // A lease once lost is lost for good, so a late acknowledgement or return does nothing.
  lemma {:induction false} LateClaimsDoNothing(p: Pool, run: seq<Turn>, c: Claim)
    requires PoolInv(p) && FairRun(p, run) && c in p.issued && !HoldsLease(p.timers, c)
    ensures var t := Outcome(p, run).timers;
      !HoldsLease(t, c) && Ack(t, [c]) == t && Nack(t, [c]) == t
    decreases |run|
  {
    if run != [] {
      NextKeepsPool(p, run[0]);
      LostStaysLost(p, run[0], c);
      LateClaimsDoNothing(Next(p, run[0]), run[1..], c);
    } else {
      var t := p.timers;
      assert [c][1..] == [];
      assert Ack(AckOne(t, c), []) == t && Nack(NackOne(t, c), []) == t;
    }
  }

  // ---- Reclaiming ----

  // An abandoned timer comes back under the deadline it was claimed with, unless it has been
  // set again meanwhile; then the newer deadline stands.
  lemma {:induction false} RescueRestores(p: Pool, c: Claim, at: Time)
    requires PoolInv(p) && at > p.clock && c in p.issued && HoldsLease(p.timers, c)
    ensures var t' := Next(p, Turn(Rescue, at)).timers;
      && (c.lease <= at ==>
            c.user in t'.scheduled && c.user !in t'.processing && c.user !in t'.deadlines
            && t'.scheduled[c.user] == (if c.user in p.timers.scheduled then p.timers.scheduled[c.user] else c.deadline))
      && (c.lease > at ==>
            HoldsLease(t', c) && c.user in t'.deadlines && t'.deadlines[c.user] == c.deadline
            && (c.user in t'.scheduled <==> c.user in p.timers.scheduled))
  {
    var d :| d in p.issued && d.user == c.user && HoldsLease(p.timers, d) && p.timers.deadlines[c.user] == d.deadline;
    OneHolder(p, c, d);
  }

  lemma {:induction false} BatchTakes(t: Timers, now: Time, limit: nat, t': Timers, batch: seq<Claim>) returns (taken: set<UserId>)
    requires (t', batch) == ClaimDue(t, now, limit)
    ensures taken <= t.scheduled.Keys && t' == TakeAll(t, taken, now + LEASE)
  {
    taken := BatchIsDue(t, now, limit, t', batch);
  }

  lemma {:induction false} ClaimTakes(p: Pool, limit: nat, at: Time) returns (taken: set<UserId>)
    ensures taken <= p.timers.scheduled.Keys
    ensures Next(p, Turn(ClaimBatch(limit), at)).timers == TakeAll(p.timers, taken, at + LEASE)
  {
    var (t', batch) := ClaimDue(p.timers, at, limit);
    taken := BatchTakes(p.timers, at, limit, t', batch);
  }

  // Claiming a batch and losing the worker is undone by reclaiming.
  lemma {:induction false} RescueUndoesClaim(p: Pool, limit: nat, at: Time, later: Time)
    requires PoolInv(p) && at > p.clock && later >= at + LEASE && p.timers.processing == map[]
    ensures Next(Next(p, Turn(ClaimBatch(limit), at)), Turn(Rescue, later)).timers == p.timers
  {
    var taken := ClaimTakes(p, limit, at);
    RescueAll(p.timers, Next(p, Turn(ClaimBatch(limit), at)), taken, at, later);
  }

  lemma {:induction false} RescueAll(t: Timers, p: Pool, taken: set<UserId>, at: Time, later: Time)
    requires taken <= t.scheduled.Keys && t.processing == map[] && t.deadlines.Keys == {} && later >= at + LEASE
    requires p.timers == TakeAll(t, taken, at + LEASE)
    ensures Next(p, Turn(Rescue, later)).timers == t
  {
    AllAbandoned(t, taken, at, later);
  }

  lemma {:induction false} AllAbandoned(t: Timers, taken: set<UserId>, at: Time, later: Time)
    requires taken <= t.scheduled.Keys && t.processing == map[] && t.deadlines == map[] && later >= at + LEASE
    ensures Reclaim(TakeAll(t, taken, at + LEASE), later) == t
  {
    var t1 := TakeAll(t, taken, at + LEASE);
    assert Stale(t1, later) == taken;
    assert Reclaim(t1, later).scheduled == t.scheduled;
  }
}
