/** The last part of crash recovery: repairs go to the rows, the rows go to the cache. */
module RecoveryReplay {
  import opened Models
  import C = CacheScripts
  import T = Timers
  import D = DurableTx
  import opened Service
  import opened Invariants
  import opened Recovery
  import opened Restart
  import opened RecoveryLoops
  import opened RedisCache
  import opened DurableStore

  // ---- Lists of rows as maps ----

  predicate IsList(rows: seq<Membership>, ms: map<UserId, Membership>) {
    && (forall i :: 0 <= i < |rows| ==> rows[i].user in ms && ms[rows[i].user] == rows[i])
    && (forall u :: u in ms ==> exists i :: 0 <= i < |rows| && rows[i].user == u)
  }

  predicate IsRightList(rights: seq<Right>, rs: map<Token, Right>) {
    && (forall i :: 0 <= i < |rights| ==> rights[i].token in rs && rs[rights[i].token] == rights[i])
    && (forall x :: x in rs ==> exists i :: 0 <= i < |rights| && rights[i].token == x)
  }

  predicate IsTimerList(timers: seq<Timer>, sched: map<UserId, Second>) {
    && (forall i :: 0 <= i < |timers| ==> timers[i].user in sched && sched[timers[i].user] == Seconds(timers[i].deadline))
    && (forall u :: u in sched ==> exists i :: 0 <= i < |timers| && timers[i].user == u)
  }

  lemma {:induction false} RepairedIsList(d: D.Durable, p: ProductId, rows: seq<Membership>, now: Time)
    requires IsSnapshot(d, p, rows) && TablesOf(d, p).WellKeyed()
    ensures IsList(RepairedAlong(rows, TablesOf(d, p), now), RepairedRows(d, p, now).members)
  {
    var list := RepairedAlong(rows, TablesOf(d, p), now);
    forall i | 0 <= i < |list|
      ensures list[i].user in d.members && RepairedRows(d, p, now).members[list[i].user] == list[i]
    {
      RowIsRepaired(d, p, rows, now, i);
    }
    forall u | u in d.members
      ensures exists i :: 0 <= i < |list| && list[i].user == u
    {
      var i := RowIsListed(d, p, rows, u);
      assert list[i].user == u;
    }
  }

  lemma {:induction false} RowIsRepaired(d: D.Durable, p: ProductId, rows: seq<Membership>, now: Time, i: nat)
    requires IsSnapshot(d, p, rows) && TablesOf(d, p).WellKeyed() && i < |rows|
    ensures var row := RepairedAlong(rows, TablesOf(d, p), now)[i];
      row.user in d.members && RepairedRows(d, p, now).members[row.user] == row
  {
    assert TablesOf(d, p).Has(rows[i].product, rows[i].user);
  }

  lemma {:induction false} RowIsListed(d: D.Durable, p: ProductId, rows: seq<Membership>, u: UserId) returns (i: nat)
    requires IsSnapshot(d, p, rows) && u in d.members
    ensures i < |rows| && rows[i].user == u
  {
    assert TablesOf(d, p).Has(p, u);
    i :| 0 <= i < |rows| && rows[i].product == p && rows[i].user == u;
  }

  lemma {:induction false} TimerPlace(rows: seq<Membership>, t: Tables, now: Time, i: nat) returns (k: nat)
    requires i < |TimersAlong(rows, t, now)|
    ensures k < |rows|
    ensures TimerOf(rows[k], Known(t), t.rights, now).Some?
      && TimersAlong(rows, t, now)[i]
         == Timer(rows[k].product, rows[k].user, TimerOf(rows[k], Known(t), t.rights, now).value)
  {
    var n := |rows| - 1;
    if i < |TimersAlong(rows[..n], t, now)| {
      k := TimerPlace(rows[..n], t, now, i);
    } else {
      k := n;
    }
  }

  lemma {:induction false} TimerFound(rows: seq<Membership>, t: Tables, now: Time, k: nat) returns (i: nat)
    requires k < |rows| && TimerOf(rows[k], Known(t), t.rights, now).Some?
    ensures i < |TimersAlong(rows, t, now)| && TimersAlong(rows, t, now)[i].user == rows[k].user
  {
    var n := |rows| - 1;
    if k < n {
      i := TimerFound(rows[..n], t, now, k);
    } else {
      i := |TimersAlong(rows[..n], t, now)|;
    }
  }

  lemma {:induction false} TimersAreSchedule(d: D.Durable, p: ProductId, rows: seq<Membership>, now: Time)
    requires IsSnapshot(d, p, rows) && TablesOf(d, p).WellKeyed()
    ensures IsTimerList(TimersAlong(rows, TablesOf(d, p), now), RestoredSchedule(d, p, now))
  {
    var t := TablesOf(d, p);
    var timers, sched := TimersAlong(rows, t, now), RestoredSchedule(d, p, now);
    forall i | 0 <= i < |timers|
      ensures timers[i].user in sched && sched[timers[i].user] == Seconds(timers[i].deadline)
    {
      var k := TimerPlace(rows, t, now, i);
      assert t.Has(rows[k].product, rows[k].user);
    }
    forall u | u in sched
      ensures exists i :: 0 <= i < |timers| && timers[i].user == u
    {
      assert t.Has(p, u);
      var k :| 0 <= k < |rows| && rows[k].product == p && rows[k].user == u;
      var i := TimerFound(rows, t, now, k);
    }
  }

  function StockList(d: D.Durable): seq<StockRow> {
    if d.stock.Some? then [d.stock.value] else []
  }

  lemma {:induction false} StockIsListed(d: D.Durable, p: ProductId)
    requires TablesOf(d, p).WellKeyed()
    ensures ListsStocks(StockList(d), TablesOf(d, p))
  {
    var t, stocks := TablesOf(d, p), StockList(d);
    if d.stock.Some? {
      assert stocks[0] == t.stocks[p] && p in t.stocks;
      assert stocks[0].product == p;
    }
  }

  // ---- Into the cache ----

  method CacheMemberships(cache: CacheRepo, rows: seq<Membership>, ghost ms: map<UserId, Membership>)
    requires IsList(rows, ms)
    modifies cache
    ensures cache.Contents() == old(cache.Contents()).(
      members := old(cache.members) + ms, slots := (old(cache.slots) - ms.Keys) + LiveUsers(ms))
  {
    var i := 0;
    while i < |rows|
      invariant 0 <= i <= |rows|
      invariant cache.Contents() == old(cache.Contents()).(members := cache.members, slots := cache.slots)
      invariant cache.members.Keys <= old(cache.members).Keys + ms.Keys && old(cache.members).Keys <= cache.members.Keys
      invariant forall u :: u in cache.members ==>
        (u in old(cache.members) && cache.members[u] == old(cache.members)[u]) || (u in ms && cache.members[u] == ms[u])
      invariant forall k :: 0 <= k < i ==> rows[k].user in cache.members && cache.members[rows[k].user] == rows[k]
      invariant forall k :: 0 <= k < i ==> (rows[k].user in cache.slots <==> rows[k].IsLive())
      invariant forall u :: u !in ms ==> (u in cache.slots <==> u in old(cache.slots))
    {
      cache.SetMembership(rows[i]);
      i := i + 1;
    }
    RowsCached(old(cache.members), cache.members, rows, ms);
    SlotsCached(old(cache.slots), cache.slots, rows, ms);
  }

  lemma {:induction false} RowsCached(before: map<UserId, Membership>, after: map<UserId, Membership>, rows: seq<Membership>, ms: map<UserId, Membership>)
    requires IsList(rows, ms) && after.Keys <= before.Keys + ms.Keys && before.Keys <= after.Keys
    requires forall u :: u in after ==> (u in before && after[u] == before[u]) || (u in ms && after[u] == ms[u])
    requires forall k :: 0 <= k < |rows| ==> rows[k].user in after && after[rows[k].user] == rows[k]
    ensures after == before + ms
  {
  }

  lemma {:induction false} SlotsCached(before: set<UserId>, after: set<UserId>, rows: seq<Membership>, ms: map<UserId, Membership>)
    requires IsList(rows, ms)
    requires forall k :: 0 <= k < |rows| ==> (rows[k].user in after <==> rows[k].IsLive())
    requires forall u :: u !in ms ==> (u in after <==> u in before)
    ensures after == (before - ms.Keys) + LiveUsers(ms)
  {
  }

  method CacheRights(cache: CacheRepo, rights: seq<Right>, ghost rs: map<Token, Right>)
    requires IsRightList(rights, rs)
    modifies cache
    ensures cache.Contents() == old(cache.Contents()).(rights := old(cache.rights) + rs)
  {
    var i := 0;
    while i < |rights|
      invariant 0 <= i <= |rights|
      invariant cache.Contents() == old(cache.Contents()).(rights := cache.rights)
      invariant cache.rights.Keys <= old(cache.rights).Keys + rs.Keys && old(cache.rights).Keys <= cache.rights.Keys
      invariant forall x :: x in cache.rights ==>
        (x in old(cache.rights) && cache.rights[x] == old(cache.rights)[x]) || (x in rs && cache.rights[x] == rs[x])
      invariant forall k :: 0 <= k < i ==> rights[k].token in cache.rights && cache.rights[rights[k].token] == rights[k]
    {
      cache.SetRight(rights[i]);
      i := i + 1;
    }
    assert cache.rights == old(cache.rights) + rs;
  }

  method CacheTimers(cache: CacheRepo, timers: seq<Timer>, ghost sched: map<UserId, Second>)
    requires IsTimerList(timers, sched) && cache.scheduled == map[]
    modifies cache
    ensures cache.Contents() == old(cache.Contents()).(timers := old(cache.Timers()).(scheduled := sched))
  {
    var i := 0;
    while i < |timers|
      invariant 0 <= i <= |timers|
      invariant cache.Contents() == old(cache.Contents()).(timers := old(cache.Timers()).(scheduled := cache.scheduled))
      invariant forall u :: u in cache.scheduled ==> u in sched && cache.scheduled[u] == sched[u]
      invariant forall k :: 0 <= k < i ==> timers[k].user in cache.scheduled
    {
      cache.AddToExpiryTimer(timers[i].user, timers[i].deadline);
      i := i + 1;
    }
    assert cache.scheduled == sched;
  }

  // Stock and queue of the product, when its stock row is valid.
  method RestoreStock(cache: CacheRepo, row: Option<StockRow>, state: RecoveryState, product: ProductId,
    ghost t: Tables, ghost rows: seq<Membership>)
    requires product in Known(t) ==> row.Some? && row.value == t.stocks[product]
    requires state.queued.Keys == state.reserved.Keys == Known(t)
    requires forall p :: p in Known(t) ==>
      state.queued[p] == Waiting(rows, Known(t), p) && state.reserved[p] == Reserved(t, p)
    modifies cache
    ensures cache.Contents() == RestoredStock(C.ResetSlots(C.ResetTimers(old(cache.Contents()))), t, product, rows)
  {
    cache.ResetExpiryTimers();
    cache.ResetQueueSlots();
    if row.Some? && product in state.queued {
      var available := row.value.count - state.reserved[product];
      if available < 0 {
        available := 0;
      }
      cache.RestoreProductState(row.value.count, available, state.queued[product]);
    }
  }

  method ReplayRows(cache: CacheRepo, rows: seq<Membership>, rights: seq<Right>, timers: seq<Timer>,
    ghost d: D.Durable, ghost sched: map<UserId, Second>)
    requires IsList(rows, d.members) && IsRightList(rights, d.rights) && IsTimerList(timers, sched)
    requires cache.slots == {} && cache.Timers() == T.NO_TIMERS
    modifies cache
    ensures cache.Contents() == old(cache.Contents()).(
      members := old(cache.members) + d.members, rights := old(cache.rights) + d.rights,
      slots := LiveUsers(d.members), timers := T.Timers(sched, map[], map[]))
  {
    CacheMemberships(cache, rows, d.members);
    assert {} - d.members.Keys + LiveUsers(d.members) == LiveUsers(d.members);
    CacheRights(cache, rights, d.rights);
    CacheTimers(cache, timers, sched);
  }

  // ---- Into the rows ----

  lemma {:induction false} DeclinedPlace(rows: seq<Membership>, t: Tables, now: Time, i: nat) returns (k: nat)
    requires i < |DeclinedAlong(rows, t, now)|
    ensures k < |rows| && MustDecline(rows[k], Known(t), t.rights)
    ensures DeclinedAlong(rows, t, now)[i] == rows[k].Settled(Declined, now)
  {
    var n := |rows| - 1;
    if i < |DeclinedAlong(rows[..n], t, now)| {
      k := DeclinedPlace(rows[..n], t, now, i);
    } else {
      k := n;
    }
  }

  lemma {:induction false} DeclinedFound(rows: seq<Membership>, t: Tables, now: Time, k: nat) returns (i: nat)
    requires k < |rows| && MustDecline(rows[k], Known(t), t.rights)
    ensures i < |DeclinedAlong(rows, t, now)| && DeclinedAlong(rows, t, now)[i] == rows[k].Settled(Declined, now)
  {
    var n := |rows| - 1;
    if k < n {
      i := DeclinedFound(rows[..n], t, now, k);
    } else {
      i := |DeclinedAlong(rows[..n], t, now)|;
    }
  }

  // Repairs for rows that exist, each with the row it settles.
  predicate AreRepairs(declined: seq<Membership>, ms: map<UserId, Membership>, ms': map<UserId, Membership>, now: Time) {
    && ms'.Keys == ms.Keys
    && (forall i :: 0 <= i < |declined| ==>
          declined[i].user in ms && ms'[declined[i].user] == declined[i] && declined[i].updatedAt == now)
    && (forall u :: u in ms && ms'[u] != ms[u] ==> exists i :: 0 <= i < |declined| && declined[i].user == u)
  }

  lemma {:induction false} DeclinedAreRepairs(d: D.Durable, p: ProductId, rows: seq<Membership>, now: Time)
    requires IsSnapshot(d, p, rows) && TablesOf(d, p).WellKeyed()
    ensures AreRepairs(DeclinedAlong(rows, TablesOf(d, p), now), d.members, RepairedRows(d, p, now).members, now)
  {
    var t := TablesOf(d, p);
    var declined, ms' := DeclinedAlong(rows, t, now), RepairedRows(d, p, now).members;
    forall i | 0 <= i < |declined|
      ensures declined[i].user in d.members && ms'[declined[i].user] == declined[i] && declined[i].updatedAt == now
    {
      var k := DeclinedPlace(rows, t, now, i);
      assert t.Has(rows[k].product, rows[k].user);
    }
    forall u | u in d.members && ms'[u] != d.members[u]
      ensures exists i :: 0 <= i < |declined| && declined[i].user == u
    {
      assert t.Has(p, u);
      var k :| 0 <= k < |rows| && rows[k].product == p && rows[k].user == u;
      var i := DeclinedFound(rows, t, now, k);
    }
  }

  // applyRecoveryRepairs
  method ApplyRepairs(durable: DurableRepo, expired: set<Token>, declined: seq<Membership>, now: Time,
    ghost ms': map<UserId, Membership>)
    requires durable.faults.Healthy? && AreRepairs(declined, durable.members, ms', now)
    modifies durable
    ensures durable.Contents() == old(durable.Contents()).(members := ms', rights := durable.rights)
    ensures durable.rights == map x | x in old(durable.rights) ::
      if x in expired && old(durable.rights)[x].status.Active? then old(durable.rights)[x].(status := Expired)
      else old(durable.rights)[x]
    ensures durable.faults == old(durable.faults) && durable.down == old(durable.down)
  {
    durable.ExpireRights(expired);
    var i := 0;
    while i < |declined|
      invariant 0 <= i <= |declined|
      invariant durable.Contents() == old(durable.Contents()).(members := durable.members, rights := durable.rights)
      invariant durable.rights == map x | x in old(durable.rights) ::
        if x in expired && old(durable.rights)[x].status.Active? then old(durable.rights)[x].(status := Expired)
        else old(durable.rights)[x]
      invariant durable.faults.Healthy? && durable.down == old(durable.down)
      invariant durable.members.Keys == ms'.Keys
      invariant forall u :: u in ms' ==> durable.members[u] == old(durable.members)[u] || durable.members[u] == ms'[u]
      invariant forall k :: 0 <= k < i ==> durable.members[declined[k].user] == declined[k]
    {
      var e := durable.UpsertMembership(declined[i], now);
      i := i + 1;
    }
    assert durable.members == ms';
  }

  // The rights of the snapshot after the loops have marked the orphans among them.
  function MarkedRights(rights: seq<Right>, expired: set<Token>): seq<Right> {
    seq(|rights|, i requires 0 <= i < |rights| =>
      if rights[i].token in expired then rights[i].(status := Expired) else rights[i])
  }

  lemma {:induction false} RepairedIsMarked(d: D.Durable, p: ProductId, expired: set<Token>, now: Time)
    requires forall x :: x in expired <==> x in d.rights && MustExpire(TablesOf(d, p), x)
    ensures RepairedRows(d, p, now).rights
         == map x | x in d.rights :: if x in expired && d.rights[x].status.Active? then d.rights[x].(status := Expired) else d.rights[x]
  {
  }

  lemma {:induction false} MarkedIsList(d: D.Durable, p: ProductId, rights: seq<Right>, expired: set<Token>, now: Time)
    requires ListsRights(rights, TablesOf(d, p)) && TablesOf(d, p).WellKeyed()
    requires forall x :: x in expired <==> x in d.rights && MustExpire(TablesOf(d, p), x)
    ensures IsRightList(MarkedRights(rights, expired), RepairedRows(d, p, now).rights)
    ensures RepairedRows(d, p, now).rights
         == map x | x in d.rights :: if x in expired && d.rights[x].status.Active? then d.rights[x].(status := Expired) else d.rights[x]
  {
    RepairedIsMarked(d, p, expired, now);
    var list, rs := MarkedRights(rights, expired), RepairedRows(d, p, now).rights;
    forall i | 0 <= i < |list|
      ensures list[i].token in rs && rs[list[i].token] == list[i]
    {
      RightIsKeyed(d, p, rights, i);
    }
    forall x | x in rs
      ensures exists i :: 0 <= i < |list| && list[i].token == x
    {
      var i := RightIsListed(d, p, rights, x);
      assert list[i].token == x;
    }
  }

  lemma {:induction false} RightIsKeyed(d: D.Durable, p: ProductId, rights: seq<Right>, i: nat)
    requires ListsRights(rights, TablesOf(d, p)) && TablesOf(d, p).WellKeyed() && i < |rights|
    ensures rights[i].token in d.rights && d.rights[rights[i].token] == rights[i]
  {
  }

  lemma {:induction false} RightIsListed(d: D.Durable, p: ProductId, rights: seq<Right>, x: Token) returns (i: nat)
    requires ListsRights(rights, TablesOf(d, p)) && TablesOf(d, p).WellKeyed() && x in d.rights
    ensures i < |rights| && rights[i] == d.rights[x] && rights[i].token == x
  {
    i :| 0 <= i < |rights| && rights[i] == d.rights[x];
  }
}
