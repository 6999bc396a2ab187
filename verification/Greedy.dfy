/** AdvanceQueue hands the pool out greedily, in queue order, to a prefix of the queue. */
module Greedy {
  import opened Models
  import opened CacheScripts
  import opened DurableTx
  import opened Service
  import opened Invariants
  import opened Moves
  import opened Advance
  import opened Expiry

  // ---- The specification ----

  function Total(xs: seq<int>): int {
    if xs == [] then 0 else xs[0] + Total(xs[1..])
  }

  function Min(a: int, b: int): int {
    if a <= b then a else b
  }

  // Everybody in turn takes what is wanted or what is left.
  function Shares(wants: seq<int>, available: int): (g: seq<int>)
    ensures |g| == |wants|
  {
    if wants == [] then [] else
      var n := Min(wants[0], available);
      [n] + Shares(wants[1..], available - n)
  }

  predicate Positive(wants: seq<int>) {
    forall i :: 0 <= i < |wants| ==> wants[i] > 0
  }

  lemma {:induction false} SharesHandOutAll(wants: seq<int>, available: int)
    requires Positive(wants) && available >= 0
    ensures Total(Shares(wants, available)) == Min(available, Total(wants))
    ensures Total(wants) >= 0
  {
    if wants != [] {
      SharesHandOutAll(wants[1..], available - Min(wants[0], available));
    }
  }

  // A prefix is served in full, at most one user in part, and nobody after that one.
  lemma {:induction false} SharesServePrefix(wants: seq<int>, available: int) returns (k: nat)
    requires Positive(wants) && available >= 0
    ensures k <= |wants|
    ensures forall i :: 0 <= i < k ==> Shares(wants, available)[i] == wants[i]
    ensures k < |wants| ==> 0 <= Shares(wants, available)[k] < wants[k]
    ensures forall i :: k < i < |wants| ==> Shares(wants, available)[i] == 0
  {
    if wants == [] {
      k := 0;
    } else if available >= wants[0] {
      var rest := SharesServePrefix(wants[1..], available - wants[0]);
      k := rest + 1;
    } else {
      k := 0;
      NothingLeft(wants[1..]);
    }
  }

  lemma {:induction false} NothingLeft(wants: seq<int>)
    requires Positive(wants)
    ensures forall i :: 0 <= i < |wants| ==> Shares(wants, 0)[i] == 0
    ensures Total(Shares(wants, 0)) == 0
  {
    if wants != [] {
      NothingLeft(wants[1..]);
    }
  }

  // ---- AdvanceQueue refines it ----

  function Wants(q: seq<Entry>, ms: map<UserId, Membership>): seq<int> {
    seq(|q|, i requires 0 <= i < |q| => if q[i].user in ms then ms[q[i].user].quantity else 0)
  }

  function SharesOf(s: State): (g: seq<int>)
    ensures |g| == |s.cache.queue|
  {
    Shares(Wants(s.cache.queue, s.cache.members), Counters(s.cache).available)
  }

  // How a user who wanted so much and was given so much leaves the queue.
  predicate Treated(before: Membership, after: Membership, given: int, count: int) {
    if count == 0 then after.status.SoldOut? && given == 0
    else if given == before.quantity then after.status.RightActive? && after.quantity == before.quantity
    else 0 < given < before.quantity && after.status.OfferPending? && after.available == Some(given)
         && after.quantity == before.quantity
  }

  predicate Serves(d: Durable, d': Durable, q: seq<Entry>, g: seq<int>, count: int, k: nat)
    requires k <= |q| == |g|
  {
    forall i :: 0 <= i < |q| ==>
      q[i].user in d.members && q[i].user in d'.members
      && if i < k then Treated(d.members[q[i].user], d'.members[q[i].user], g[i], count)
         else d'.members[q[i].user] == d.members[q[i].user]
  }

  lemma {:induction false} WaitersWant(s: State, now: Time)
    requires InvAt(s, now) && !s.down
    ensures Positive(Wants(s.cache.queue, s.cache.members))
    ensures Counters(s.cache).available >= 0
    ensures forall i :: 0 <= i < |s.cache.queue| ==>
      s.cache.queue[i].user in s.db.members && s.db.members[s.cache.queue[i].user].status.Queued?
  {
    HeldBounds(s.db, s.product, s.cfg, now, 0);
    forall i | 0 <= i < |s.cache.queue|
      ensures s.cache.queue[i].user in s.db.members && s.db.members[s.cache.queue[i].user].status.Queued?
      ensures Wants(s.cache.queue, s.cache.members)[i] > 0
    {
      var u := s.cache.queue[i].user;
      assert u in Users(s.cache.queue) && u in QueuedUsers(s.cache.members);
      assert MemberShape(s.db.members[u], s.db.rights, s.cfg);
    }
  }

  // One turn takes the first share off the front.
  lemma {:induction false} WantsTail(q: seq<Entry>, ms: map<UserId, Membership>, row: Membership)
    requires q != [] && row.user == q[0].user
    requires forall i :: 0 < i < |q| ==> q[i].user != q[0].user
    ensures Wants(q[1..], ms[row.user := row]) == Wants(q, ms)[1..]
  {
  }

  // The share of the head is what its verdict says.
  lemma {:induction false} HeadShare(s: State, m: Membership, now: Time)
    requires s.cache.queue != [] && Counters(s.cache).count >= Counters(s.cache).available >= 0
    requires m.quantity > 0 && m.available.None?
    requires Counters(s.cache).count > 0 ==> Counters(s.cache).available > 0
    ensures Verdict(s, m, now).Units() == Min(m.quantity, Counters(s.cache).available)
    ensures Treated(m, Verdict(s, m, now), Verdict(s, m, now).Units(), Counters(s.cache).count)
  {
  }

  lemma {:induction false} TurnShares(s: State, s1: State, m: Membership, now: Time)
    requires Head(s, m) && !Idle(s)
    requires forall i :: 0 < i < |s.cache.queue| ==> s.cache.queue[i].user != s.cache.queue[0].user
    requires s1.cache.queue == s.cache.queue[1..]
    requires s1.cache.members == s.cache.members[m.user := Verdict(s, m, now)]
    requires s1.cache.stock == Some(Stock(Counters(s.cache).count, Counters(s.cache).available - Verdict(s, m, now).Units()))
    requires 0 <= Counters(s.cache).available <= Counters(s.cache).count
    ensures SharesOf(s) == [Verdict(s, m, now).Units()] + SharesOf(s1)
    ensures Treated(m, Verdict(s, m, now), SharesOf(s)[0], Counters(s.cache).count)
  {
    WantsTail(s.cache.queue, s.cache.members, Verdict(s, m, now));
    HeadShare(s, m, now);
    assert Wants(s.cache.queue, s.cache.members)[0] == m.quantity;
  }

  // The outcome of one finished turn, as far as shares are concerned.
  lemma {:induction false} TurnFacts(s: State, s1: State, m: Membership, now: Time)
    requires Head(s, m) && HeldBy(s.db.members, m.user) == 0
    requires Stepped(s, s1, Finished, Verdict(s, m, now), Verdict(s, m, now), VerdictRight(s, m, now))
    ensures s1.cache.members == s.cache.members[m.user := Verdict(s, m, now)]
    ensures s1.db.members == s.db.members[m.user := Verdict(s, m, now)]
    ensures s1.cache.stock == Some(Stock(Counters(s.cache).count, Counters(s.cache).available - Verdict(s, m, now).Units()))
  {
  }

  lemma {:induction false} TurnOutcome(s: State, s1: State, m: Membership, now: Time)
    requires InvAt(s, now) && !s.down && Head(s, m) && !Idle(s)
    requires Stepped(s, s1, Finished, Verdict(s, m, now), Verdict(s, m, now), VerdictRight(s, m, now))
    requires s1.cache.queue == s.cache.queue[1..]
    ensures SharesOf(s) == [Verdict(s, m, now).Units()] + SharesOf(s1)
    ensures Treated(m, Verdict(s, m, now), SharesOf(s)[0], Counters(s.cache).count)
    ensures Counters(s1.cache) == Stock(Counters(s.cache).count, Counters(s.cache).available - SharesOf(s)[0])
    ensures s1.db.members == s.db.members[m.user := Verdict(s, m, now)]
  {
    var h := HeadIsQueued(s, now);
    UsersDistinct(s.cache);
    TurnFacts(s, s1, m, now);
    TurnShares(s, s1, m, now);
  }

  lemma {:induction false} IdleServesNobody(s: State, now: Time)
    requires InvAt(s, now) && !s.down && Idle(s)
    ensures Serves(s.db, s.db, s.cache.queue, SharesOf(s), Counters(s.cache).count, 0)
    ensures s.cache.queue == [] || (Counters(s.cache).count > 0 && Total(SharesOf(s)) == 0 && SharesOf(s)[0] == 0)
  {
    WaitersWant(s, now);
    if s.cache.queue != [] {
      NothingLeft(Wants(s.cache.queue, s.cache.members));
    }
  }

  // What the rest of the loop does after a first turn, put together with that turn.
  lemma {:induction false} ServesMore(d: Durable, d1: Durable, d2: Durable, q: seq<Entry>, g: seq<int>, count: int, m: Membership, rest: nat)
    requires q != [] && |g| == |q| && rest < |q|
    requires forall i :: 0 < i < |q| ==> q[i].user != q[0].user
    requires q[0].user == m.user && m.user in d.members && d1.members == d.members[m.user := m]
    requires Treated(d.members[m.user], m, g[0], count)
    requires Serves(d1, d2, q[1..], g[1..], count, rest)
    requires m.user in d2.members && d2.members[m.user] == m
    ensures Serves(d, d2, q, g, count, rest + 1)
  {
    forall i | 0 <= i < |q|
      ensures q[i].user in d.members && q[i].user in d2.members
      ensures if i < rest + 1 then Treated(d.members[q[i].user], d2.members[q[i].user], g[i], count)
              else d2.members[q[i].user] == d.members[q[i].user]
    {
      if i > 0 {
        assert q[1..][i - 1] == q[i] && g[1..][i - 1] == g[i];
      }
    }
  }

  lemma {:induction false} HeadIsAlone(s: State, m: Membership, now: Time)
    requires InvAt(s, now) && !s.down && Head(s, m)
    ensures forall i :: 0 < i < |s.cache.queue| ==> s.cache.queue[i].user != s.cache.queue[0].user
    ensures |SharesOf(s)| == |s.cache.queue|
  {
    UsersDistinct(s.cache);
  }

  lemma {:induction false} TurnThenRest(s: State, s1: State, d2: Durable, m: Membership, v: Membership, rest: nat)
    requires Head(s, m) && v.user == m.user && s1.db.members == s.db.members[m.user := v] && |SharesOf(s)| == |s.cache.queue|
    requires forall i :: 0 < i < |s.cache.queue| ==> s.cache.queue[i].user != s.cache.queue[0].user
    requires s1.cache.queue == s.cache.queue[1..] && rest <= |s1.cache.queue|
    requires SharesOf(s) == [v.Units()] + SharesOf(s1) && Counters(s1.cache).count == Counters(s.cache).count
    requires Treated(m, v, SharesOf(s)[0], Counters(s.cache).count)
    requires Serves(s1.db, d2, s1.cache.queue, SharesOf(s1), Counters(s1.cache).count, rest)
    requires m.user in d2.members && d2.members[m.user] == s1.db.members[m.user]
    ensures Serves(s.db, d2, s.cache.queue, SharesOf(s), Counters(s.cache).count, rest + 1)
  {
    assert SharesOf(s)[1..] == SharesOf(s1);
    ServesMore(s.db, s1.db, d2, s.cache.queue, SharesOf(s), Counters(s.cache).count, v, rest);
  }

  lemma {:induction false} TotalOfMore(g: seq<int>, k: nat)
    requires g != [] && k <= |g| - 1
    ensures Total(g[..k + 1]) == g[0] + Total(g[1..][..k])
    ensures Total(g) == g[0] + Total(g[1..])
  {
    assert g[..k + 1] == [g[0]] + g[1..][..k];
  }

  // How a run of the loop from s may end in s2, k users further.
  predicate ServedSome(s: State, s2: State, e: Ended, k: nat) {
    && k <= |s.cache.queue|
    && Serves(s.db, s2.db, s.cache.queue, SharesOf(s), Counters(s.cache).count, k)
    && (!e.Died? ==>
          s2.cache.queue == s.cache.queue[k..] && Counters(s2.cache).count == Counters(s.cache).count
          && Counters(s2.cache).available == Counters(s.cache).available - Total(SharesOf(s)[..k]))
    && (e.Finished? && k < |s.cache.queue| ==> Counters(s.cache).count > 0 && SharesOf(s)[k] == 0)
    && (e.Finished? ==> Idle(s2) && Total(SharesOf(s)[..k]) == Total(SharesOf(s)))
  }

  lemma {:induction false} ServedOneMore(s: State, s1: State, s2: State, e: Ended, rest: nat)
    requires s.cache.queue != [] && s1.cache.queue == s.cache.queue[1..]
    requires ServedSome(s1, s2, e, rest)
    requires SharesOf(s)[1..] == SharesOf(s1)
    requires Counters(s1.cache) == Stock(Counters(s.cache).count, Counters(s.cache).available - SharesOf(s)[0])
    requires Serves(s.db, s2.db, s.cache.queue, SharesOf(s), Counters(s.cache).count, rest + 1)
    ensures ServedSome(s, s2, e, rest + 1)
  {
    TotalOfMore(SharesOf(s), rest);
    assert s.cache.queue[rest + 1..] == s1.cache.queue[rest..];
  }

  lemma {:induction false} ThenServed(s: State, s1: State, s2: State, e2: Ended, m: Membership, rest: nat, now: Time)
    requires InvAt(s, now) && !s.down && Head(s, m) && !Idle(s)
    requires Stepped(s, s1, Finished, Verdict(s, m, now), Verdict(s, m, now), VerdictRight(s, m, now))
    requires s1.cache.queue == s.cache.queue[1..] && ServedSome(s1, s2, e2, rest)
    requires m.user in s2.db.members && s2.db.members[m.user] == s1.db.members[m.user]
    ensures ServedSome(s, s2, e2, rest + 1)
  {
    TurnOutcome(s, s1, m, now);
    HeadIsAlone(s, m, now);
    assert SharesOf(s)[1..] == SharesOf(s1);
    TurnThenRest(s, s1, s2.db, m, Verdict(s, m, now), rest);
    ServedOneMore(s, s1, s2, e2, rest);
  }

  lemma {:induction false} ServedIsOut(s: State, s1: State, m: Membership, now: Time)
    requires Stepped(s, s1, Finished, Verdict(s, m, now), Verdict(s, m, now), VerdictRight(s, m, now))
    ensures Verdict(s, m, now).user == m.user
    ensures m.user in s1.db.members && !s1.db.members[m.user].status.Queued?
  {
  }

  lemma {:induction false} FirstThenRest(s: State, s1: State, m: Membership, rest: nat, now: Time)
    requires InvAt(s, now) && !s.down && Head(s, m) && !Idle(s)
    requires Stepped(s, s1, Finished, Verdict(s, m, now), Verdict(s, m, now), VerdictRight(s, m, now))
    requires InvAt(s1, now) && !s1.down && now > s1.clock && s1.cache.queue == s.cache.queue[1..]
    requires ServedSome(s1, AdvanceQueue(s1, now).0, AdvanceQueue(s1, now).1, rest)
    ensures ServedSome(s, AdvanceQueue(s1, now).0, AdvanceQueue(s1, now).1, rest + 1)
  {
    ServedIsOut(s, s1, m, now);
    AdvanceLeavesOthers(s1, m.user, now);
    ThenServed(s, s1, AdvanceQueue(s1, now).0, AdvanceQueue(s1, now).1, m, rest, now);
  }

  lemma {:induction false} NobodyServed(s: State, now: Time)
    requires InvAt(s, now) && !s.down && Idle(s)
    ensures ServedSome(s, s, Finished, 0)
  {
    IdleServesNobody(s, now);
  }

  predicate ServedBy(s: State, r: (State, Ended), k: nat) {
    ServedSome(s, r.0, r.1, k)
  }

  lemma {:induction false} LoopServes(s: State, now: Time) returns (k: nat)
    requires InvAt(s, now) && !s.down && now > s.clock
    ensures ServedBy(s, AdvanceQueue(s, now), k)
    decreases |s.cache.queue|
  {
    var s1, e, m := OneTurn(s, now);
    if m.None? {
      k := 0;
      NobodyServed(s, now);
      assert ServedBy(s, (s, Finished), k);
    } else if e.Finished? {
      var rest := LoopServes(s1, now);
      FirstThenRest(s, s1, m.value, rest, now);
      k := rest + 1;
      assert ServedBy(s, AdvanceQueue(s1, now), k);
    } else {
      k := FailedTurn(s, s1, e, m.value, now);
      assert ServedBy(s, (s1, e), k);
    }
  }

  // Whatever fails, the loop serves some prefix of the queue by its shares and leaves the
  // rest alone; when nothing fails it goes on until the next share is empty.
  lemma {:induction false} AdvanceIsGreedy(s: State, now: Time) returns (k: nat)
    requires InvAt(s, now) && !s.down && now > s.clock
    ensures ServedSome(s, AdvanceQueue(s, now).0, AdvanceQueue(s, now).1, k)
  {
    k := LoopServes(s, now);
    assert ServedBy(s, AdvanceQueue(s, now), k);
  }

  lemma {:induction false} DiedTurnServes(d: Durable, d': Durable, q: seq<Entry>, g: seq<int>, count: int, row: Membership)
    requires q != [] && |g| == |q| && row.user == q[0].user
    requires forall i :: 0 < i < |q| ==> q[i].user != q[0].user
    requires forall i :: 0 <= i < |q| ==> q[i].user in d.members
    requires d'.members == d.members[row.user := row] && Treated(d.members[q[0].user], row, g[0], count)
    ensures Serves(d, d', q, g, count, 1)
  {
  }

  lemma {:induction false} FirstShare(s: State, m: Membership)
    requires s.cache.queue != [] && m.user == s.cache.queue[0].user
    requires m.user in s.cache.members && s.cache.members[m.user] == m
    ensures SharesOf(s)[0] == Min(m.quantity, Counters(s.cache).available)
  {
  }

  lemma {:induction false} FailedTurn(s: State, s1: State, e: Ended, m: Membership, now: Time) returns (k: nat)
    requires InvAt(s, now) && !s.down && Head(s, m) && !Idle(s) && !e.Finished?
    requires Stepped(s, s1, e, Verdict(s, m, now), Verdict(s, m, now), VerdictRight(s, m, now))
    ensures ServedSome(s, s1, e, k)
  {
    WaitersWant(s, now);
    if e.Died? {
      UsersDistinct(s.cache);
      var h := HeadIsQueued(s, now);
      HeadShare(s, m, now);
      FirstShare(s, m);
      DiedTurnServes(s.db, s1.db, s.cache.queue, SharesOf(s), Counters(s.cache).count, Verdict(s, m, now));
      k := 1;
    } else {
      k := 0;
    }
  }

  // Without failures: exactly min(available, sum of requests) units change hands, and a
  // product with nothing left turns everybody away.
  lemma {:induction false} AdvanceHandsOutAll(s: State, now: Time)
    requires InvAt(s, now) && !s.down && now > s.clock
    requires AdvanceQueue(s, now).1.Finished?
    ensures var s' := AdvanceQueue(s, now).0;
      && Counters(s.cache).available - Counters(s'.cache).available
         == Min(Counters(s.cache).available, Total(Wants(s.cache.queue, s.cache.members)))
      && (Counters(s.cache).count == 0 ==>
            s'.cache.queue == []
            && forall e :: e in s.cache.queue ==> e.user in s'.db.members && s'.db.members[e.user].status.SoldOut?)
  {
    var k := AdvanceIsGreedy(s, now);
    WaitersWant(s, now);
    SharesHandOutAll(Wants(s.cache.queue, s.cache.members), Counters(s.cache).available);
  }

  lemma {:induction false} HealthyAdvanceFinishes(s: State, now: Time)
    requires InvAt(s, now) && !s.down && now > s.clock && s.faults.Healthy?
    ensures AdvanceQueue(s, now).1.Finished? && AdvanceQueue(s, now).0.faults.Healthy?
    decreases |s.cache.queue|
  {
    if !Idle(s) {
      var s1 := HealthyTurn(s, now);
      HealthyAdvanceFinishes(s1, now);
    } else {
      var s1, e, m := OneTurn(s, now);
    }
  }

  lemma {:induction false} HealthyTurn(s: State, now: Time) returns (s1: State)
    requires InvAt(s, now) && !s.down && now > s.clock && s.faults.Healthy? && !Idle(s)
    ensures InvAt(s1, now) && !s1.down && s1.clock == s.clock && s1.faults.Healthy?
    ensures |s1.cache.queue| < |s.cache.queue| && AdvanceQueue(s, now) == AdvanceQueue(s1, now)
  {
    var e, m;
    s1, e, m := OneTurn(s, now);
    HealthyIterate(s, m.value, now);
  }

  lemma {:induction false} HealthyIterate(s: State, m: Membership, now: Time)
    requires Head(s, m) && s.faults.Healthy? && Decides(PopAndAllocate(s.cache).1)
    ensures Iterate(s, now).1.Finished? && Iterate(s, now).0.faults.Healthy?
  {
  }
}
