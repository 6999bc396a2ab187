/**
Every transition of the state machine changes one user's membership, at most one right,
the pool and the user's place in the queue. What such a move must respect for the
invariants to survive it is proved here once.
*/
module Moves {
  import opened Models
  import opened MapSums
  import opened CacheScripts
  import opened DurableTx
  import opened Service
  import opened Invariants
  import T = Timers

  // ---- Sums ----

  lemma {:induction false} HeldAfter(ms: map<UserId, Membership>, u: UserId, m: Membership)
    ensures Held(ms[u := m]) == Held(ms) - HeldBy(ms, u) + m.Units()
  {
    SumUpdate(UnitsOf(ms), u, m.Units());
    assert UnitsOf(ms)[u := m.Units()] == UnitsOf(ms[u := m]);
  }

  lemma {:induction false} SoldAfter(rights: map<Token, Right>, r: Right)
    ensures Sold(rights[r.token := r])
         == Sold(rights) - (if r.token in rights then rights[r.token].UsedUnits() else 0) + r.UsedUnits()
  {
    SumUpdate(UsedUnitsOf(rights), r.token, r.UsedUnits());
    assert UsedUnitsOf(rights)[r.token := r.UsedUnits()] == UsedUnitsOf(rights[r.token := r]);
  }

  lemma {:induction false} HeldBounds(d: Durable, product: ProductId, cfg: Config, clock: Time, u: UserId)
    requires MemberRows(d, product, cfg, clock)
    ensures 0 <= HeldBy(d.members, u) <= Held(d.members)
  {
    SumNonNegative(UnitsOf(d.members));
    if u in d.members {
      TermBounded(UnitsOf(d.members), u);
    }
  }

  // ---- The queue as a sorted set ----

  lemma {:induction false} WithoutMember(q: seq<Entry>, u: UserId)
    requires forall i, j :: 0 <= i < j < |q| ==> q[i].user != q[j].user
    ensures Users(Without(q, u)) == Users(q) - {u}
    ensures forall e :: e in Without(q, u) ==> e in q
    ensures u !in Users(q) ==> Without(q, u) == q
  {
    if q != [] {
      if q[0].user == u {
        assert q == [q[0]] + q[1..];
      } else {
        WithoutMember(q[1..], u);
        assert q == [q[0]] + q[1..];
        assert Users(Without(q, u)) == {q[0].user} + Users(Without(q[1..], u));
        assert Users(q) == {q[0].user} + Users(q[1..]);
      }
    }
  }

  // Removing a member keeps the order of the others.
  lemma {:induction false} WithoutOrder(q: seq<Entry>, u: UserId, i: nat, j: nat)
    returns (k: nat, l: nat)
    requires i < j < |Without(q, u)|
    ensures k < l < |q| && q[k] == Without(q, u)[i] && q[l] == Without(q, u)[j]
  {
    if q[0].user == u {
      k, l := i + 1, j + 1;
    } else if i > 0 {
      k, l := WithoutOrder(q[1..], u, i - 1, j - 1);
      k, l := k + 1, l + 1;
    } else {
      k := 0;
      l := WithoutPlace(q[1..], u, j - 1);
      l := l + 1;
    }
  }

  lemma {:induction false} WithoutPlace(q: seq<Entry>, u: UserId, i: nat) returns (k: nat)
    requires i < |Without(q, u)|
    ensures k < |q| && q[k] == Without(q, u)[i]
  {
    if q[0].user == u {
      k := i + 1;
    } else if i > 0 {
      k := WithoutPlace(q[1..], u, i - 1);
      k := k + 1;
    } else {
      k := 0;
    }
  }

  lemma {:induction false} InsertAtEnd(q: seq<Entry>, e: Entry)
    requires forall i :: 0 <= i < |q| ==> q[i].score < e.score
    ensures Insert(q, e) == q + [e]
  {
    if q != [] {
      InsertAtEnd(q[1..], e);
    }
  }

  // Whoever heads the queue has a membership.
  lemma {:induction false} HeadHasMembership(c: Cache)
    requires QueueAgrees(c) && c.queue != []
    ensures c.queue[0].user in c.members && c.members[c.queue[0].user].status.Queued?
  {
    assert c.queue[0].user in Users(c.queue);
    assert c.queue[0].user in QueuedUsers(c.members);
  }

  lemma {:induction false} WaiterIsQueued(c: Cache, u: UserId)
    requires QueueAgrees(c) && u in c.members && c.members[u].status.Queued?
    ensures c.queue != []
  {
    assert u in QueuedUsers(c.members);
    assert u in Users(c.queue);
  }

  lemma {:induction false} UsersDistinct(c: Cache)
    requires QueueAgrees(c)
    ensures forall i, j :: 0 <= i < j < |c.queue| ==> c.queue[i].user != c.queue[j].user
  {
  }

  // ZADD with a fresh score appends.
  lemma {:induction false} EnqueueAppends(c: Cache, u: UserId)
    requires QueueAgrees(c) && u !in QueuedUsers(c.members)
    ensures Enqueue(c, u).queue == c.queue + [Entry(c.lastScore + 1, u)]
  {
    UsersDistinct(c);
    WithoutMember(c.queue, u);
    InsertAtEnd(c.queue, Entry(c.lastScore + 1, u));
  }

  // ZADD with the score of a popped head puts it back in front.
  lemma {:induction false} RequeueUndoesPop(c: Cache)
    requires QueueAgrees(c) && c.queue != []
    ensures Place(Without(c.queue, c.queue[0].user), c.queue[0]) == c.queue
  {
    UsersDistinct(c);
    var rest := c.queue[1..];
    WithoutMember(rest, c.queue[0].user);
    assert rest == [] || Precedes(c.queue[0], rest[0]);
    assert c.queue == [c.queue[0]] + rest;
  }

  // ---- One move ----

  // The columns that the move of one user may touch in the durable rows.
  predicate RowsMoved(d: Durable, d': Durable, m: Membership, r: Option<Right>) {
    && d'.members == d.members[m.user := m]
    && d'.rights == (if r.Some? then d.rights[r.value.token := r.value] else d.rights)
    && (r.Some? ==> r.value.user == m.user)
    && (r.Some? && r.value.token in d.rights ==> d.rights[r.value.token].user == m.user)
  }

  lemma {:induction false} MemberRowsMoved(d: Durable, d': Durable, m: Membership, r: Option<Right>, product: ProductId, cfg: Config, clock: Time, now: Time)
    requires MemberRows(d, product, cfg, clock) && clock <= now
    requires RowsMoved(d, d', m, r)
    requires m.user != NO_NAME && m.product == product && m.updatedAt <= now && MemberShape(m, d'.rights, cfg)
    ensures MemberRows(d', product, cfg, now)
  {
    forall u | u in d'.members && u != m.user
      ensures MemberShape(d'.members[u], d'.rights, cfg)
    {
      assert d'.members[u] == d.members[u] && MemberShape(d.members[u], d.rights, cfg);
      if d.members[u].status.RightActive? {
        var t := d.members[u].token.value;
        assert t in d.rights && d.rights[t].user == u;
      }
    }
  }

  lemma {:induction false} RightRowsMoved(d: Durable, d': Durable, m: Membership, r: Option<Right>, product: ProductId, nextToken: Token, nextToken': Token)
    requires RightRows(d, product, nextToken) && nextToken <= nextToken'
    requires RowsMoved(d, d', m, r)
    requires r.Some? ==> r.value.token != NO_NAME && r.value.token < nextToken' && RightShape(r.value, product)
    requires forall t :: t in d'.rights && d'.rights[t].user == m.user && d'.rights[t].status.Active? ==>
               m.token == Some(t)
    ensures RightRows(d', product, nextToken')
  {
  }

  lemma {:induction false} QueueStampsMoved(ms: map<UserId, Membership>, m: Membership)
    requires QueueStamps(ms)
    requires m.status.Queued? ==>
               forall u :: u in ms && ms[u].status.Queued? ==> ms[u].updatedAt < m.updatedAt
    ensures QueueStamps(ms[m.user := m])
  {
  }

  // ---- The queue under one move ----

  predicate QueueMoved(c: Cache, c': Cache, m: Membership) {
    && c'.members == c.members[m.user := m]
    && c'.slots == (if m.status.IsTerminal() then c.slots - {m.user} else c.slots + {m.user})
    && if m.status.Queued? then
         c'.queue == c.queue + [Entry(c.lastScore + 1, m.user)] && c'.lastScore == c.lastScore + 1
         && c'.index == c.index + {m.user}
       else
         c'.queue == Without(c.queue, m.user) && c'.lastScore == c.lastScore
         && c'.index == c.index - {m.user}
  }

  lemma {:induction false} StatusSetsMoved(ms: map<UserId, Membership>, m: Membership)
    ensures LiveUsers(ms[m.user := m])
         == if m.IsLive() then LiveUsers(ms) + {m.user} else LiveUsers(ms) - {m.user}
    ensures QueuedUsers(ms[m.user := m])
         == if m.status.Queued? then QueuedUsers(ms) + {m.user} else QueuedUsers(ms) - {m.user}
  {
  }

  lemma {:induction false} QueueAppended(c: Cache, c': Cache, m: Membership)
    requires QueueAgrees(c) && QueueMoved(c, c', m) && m.status.Queued?
    requires m.user !in QueuedUsers(c.members)
    requires forall u :: u in QueuedUsers(c.members) ==> c.members[u].updatedAt < m.updatedAt
    ensures QueueAgrees(c')
  {
    assert Users(c'.queue) == Users(c.queue) + {m.user};
    StatusSetsMoved(c.members, m);
    StampsAppended(c.queue, Entry(c.lastScore + 1, m.user), c.members, m);
  }

  lemma {:induction false} StampsAppended(q: seq<Entry>, e: Entry, ms: map<UserId, Membership>, m: Membership)
    requires Users(q) <= ms.Keys && InStampOrder(q, ms) && e.user == m.user && m.user !in Users(q)
    requires forall u :: u in Users(q) ==> ms[u].updatedAt < m.updatedAt
    requires Users(q + [e]) <= ms[m.user := m].Keys
    ensures InStampOrder(q + [e], ms[m.user := m])
  {
    forall i, j | 0 <= i < j < |q + [e]|
      ensures StampedBefore(ms[m.user := m], (q + [e])[i].user, (q + [e])[j].user)
    {
      assert q[i].user in Users(q);
      if j < |q| {
        assert q[j].user in Users(q);
      }
    }
  }

  lemma {:induction false} StampOrderKept(q: seq<Entry>, u: UserId, ms: map<UserId, Membership>, m: Membership)
    requires Users(q) <= ms.Keys && InStampOrder(q, ms) && m.user == u
    requires Users(Without(q, u)) == Users(q) - {u}
    ensures InStampOrder(Without(q, u), ms[u := m])
  {
    var q' := Without(q, u);
    forall i, j | 0 <= i < j < |q'|
      ensures StampedBefore(ms[u := m], q'[i].user, q'[j].user)
    {
      StampsKept(q, u, ms, i, j);
    }
  }

  lemma {:induction false} StampsKept(q: seq<Entry>, u: UserId, ms: map<UserId, Membership>, i: nat, j: nat)
    requires Users(q) <= ms.Keys && InStampOrder(q, ms)
    requires Users(Without(q, u)) == Users(q) - {u} && i < j < |Without(q, u)|
    ensures var (a, b) := (Without(q, u)[i].user, Without(q, u)[j].user);
      a != u && b != u && StampedBefore(ms, a, b)
  {
    var q' := Without(q, u);
    var k, l := WithoutOrder(q, u, i, j);
    assert q'[i].user in Users(q') && q'[j].user in Users(q');
    assert q[k] == q'[i] && q[l] == q'[j];
  }

  lemma {:induction false} ScoresKept(q: seq<Entry>, u: UserId, lastScore: nat)
    requires Scored(q, lastScore)
    ensures Scored(Without(q, u), lastScore)
  {
    var q' := Without(q, u);
    forall i, j | 0 <= i < j < |q'|
      ensures q'[i].score < q'[j].score
    {
      var k, l := WithoutOrder(q, u, i, j);
    }
    forall i | 0 <= i < |q'|
      ensures q'[i].score <= lastScore
    {
      var k := WithoutPlace(q, u, i);
    }
  }

  lemma {:induction false} QueueDropped(c: Cache, c': Cache, m: Membership)
    requires QueueAgrees(c) && QueueMoved(c, c', m) && !m.status.Queued?
    ensures QueueAgrees(c')
  {
    UsersDistinct(c);
    WithoutMember(c.queue, m.user);
    StatusSetsMoved(c.members, m);
    StampOrderKept(c.queue, m.user, c.members, m);
    ScoresKept(c.queue, m.user, c.lastScore);
  }

  // ---- Timers under one move ----

  predicate TimersMoved(t: T.Timers, t': T.Timers, m: Membership) {
    && t'.processing == t.processing && t'.deadlines == t.deadlines
    && if m.IsTimed() then
         m.expiresAt.Some? && t'.scheduled == t.scheduled[m.user := Seconds(m.expiresAt.value)]
       else if m.status.Queued? then
         m.user in t'.scheduled && t'.scheduled == t.scheduled[m.user := t'.scheduled[m.user]]
       else
         t'.scheduled == t.scheduled || t'.scheduled == t.scheduled - {m.user}
  }

  // A move stamps a live membership later than every claim that exists.
  lemma {:induction false} TimerInvMoved(s: State, s': State, m: Membership)
    requires TimerInv(s) && s'.clock == s.clock
    requires TimersMoved(s.cache.timers, s'.cache.timers, m)
    requires s'.db.members == s.db.members[m.user := m]
    requires m.IsLive() ==> m.updatedAt > s.clock && !m.status.UnknownMembershipStatus?
    requires s'.open == s.open && s'.handled == s.handled && s'.failed == s.failed
    ensures TimerInv(s')
  {
    var t, t' := s.cache.timers, s'.cache.timers;
    assert LeasesOk(t', Claims(s'), s'.clock);
    assert NobodyForgotten(t', s'.db.members, s'.handled);
    forall u | u in s'.db.members && s'.db.members[u].IsTimed()
      ensures s'.db.members[u].user == u && s'.db.members[u].expiresAt.Some? && DeadlineOk(t', s'.db.members[u])
    {
      if u != m.user {
        assert s'.db.members[u] == s.db.members[u] && DeadlineOk(t, s.db.members[u]);
      }
    }
  }

  // ---- All of it ----

  // m is the row, c the cached copy, r the right written with them.
  predicate Moved(s: State, s': State, m: Membership, c: Membership, r: Option<Right>) {
    && s'.product == s.product && s'.cfg == s.cfg && s'.clock == s.clock && s'.down == s.down
    && s'.open == s.open && s'.handled == s.handled && s'.failed == s.failed
    && s'.nextToken >= s.nextToken
    && RowsMoved(s.db, s'.db, m, r)
    && c.SameUpToStamp(m) && (m.IsLive() ==> c == m)
    && QueueMoved(s.cache, s'.cache, c)
    && TimersMoved(s.cache.timers, s'.cache.timers, m)
    && s'.cache.rights == s'.db.rights
  }

  predicate FitsRows(s: State, s': State, m: Membership, r: Option<Right>, now: Time) {
    && m.user != NO_NAME && m.product == s.product && m.updatedAt <= now && MemberShape(m, s'.db.rights, s.cfg)
    && (m.IsLive() ==> m.updatedAt > s.clock)
    && (m.status.Queued? ==>
          forall u :: u in s.db.members && s.db.members[u].status.Queued? ==>
            u != m.user && s.db.members[u].updatedAt < m.updatedAt)
    && (r.Some? ==> r.value.token != NO_NAME && r.value.token < s'.nextToken && RightShape(r.value, s.product))
    && (forall t :: t in s'.db.rights && s'.db.rights[t].user == m.user && s'.db.rights[t].status.Active? ==>
          m.token == Some(t))
  }

  ghost predicate Balanced(s: State) {
    && OutboxRows(s.db)
    && StockRows(s.db, s.product, s.cfg.initialStock)
    && StockAgrees(s.cache, s.db, s.cfg.initialStock)
  }

  lemma {:induction false} RowsAgreeMoved(s: State, s': State, m: Membership, c: Membership, r: Option<Right>)
    requires RowsAgree(s.cache, s.db) && Moved(s, s', m, c, r)
    ensures RowsAgree(s'.cache, s'.db)
  {
  }

  lemma {:induction false} MoveKeepsInv(s: State, s': State, m: Membership, c: Membership, r: Option<Right>, now: Time)
    requires InvAt(s, now) && !s.down
    requires Moved(s, s', m, c, r) && FitsRows(s, s', m, r, now)
    requires Balanced(s')
    ensures InvAt(s', now)
  {
    MemberRowsMoved(s.db, s'.db, m, r, s.product, s.cfg, now, now);
    RightRowsMoved(s.db, s'.db, m, r, s.product, s.nextToken, s'.nextToken);
    QueueStampsMoved(s.db.members, m);
    RowsAgreeMoved(s, s', m, c, r);
    if m.status.Queued? {
      QueueAppended(s.cache, s'.cache, c);
    } else {
      QueueDropped(s.cache, s'.cache, c);
    }
    TimerInvMoved(s, s', m);
  }
}
