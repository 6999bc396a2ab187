/** RecoverCache on the rows the service itself wrote: it rebuilds the cache that was lost. */
module Restart {
  import opened Models
  import opened MapSums
  import opened CacheScripts
  import opened DurableTx
  import opened Service
  import opened Invariants
  import opened Moves
  import opened Recovery
  import T = Timers

  function TablesOf(d: Durable, p: ProductId): Tables {
    Tables(if d.stock.Some? then map[p := d.stock.value] else map[], map[p := d.members], d.rights)
  }

  function RepairedRows(d: Durable, p: ProductId, now: Time): Durable {
    var t := TablesOf(d, p);
    d.(members := RepairedMembers(t, p, now), rights := RepairedRights(t))
  }

  function RestoredSchedule(d: Durable, p: ProductId, now: Time): map<UserId, Second> {
    var known := Known(TablesOf(d, p));
    map u | u in d.members && TimerOf(d.members[u], known, d.rights, now).Some? ::
      Seconds(TimerOf(d.members[u], known, d.rights, now).value)
  }

  ghost function RestoredStock(c: Cache, t: Tables, p: ProductId, rows: seq<Membership>): Cache {
    if p in Known(t) then
      RestoreProduct(c, t.stocks[p].count, RecoveredAvailable(t, p), Waiting(rows, Known(t), p))
    else c
  }

  // rows is the membership table in the order the snapshot lists it.
  ghost function Rebuilt(s: State, rows: seq<Membership>, now: Time): Cache {
    var d := RepairedRows(s.db, s.product, now);
    var c := RestoredStock(ResetSlots(ResetTimers(s.cache)), TablesOf(s.db, s.product), s.product, rows);
    c.(members := c.members + d.members,
       rights := c.rights + d.rights,
       slots := LiveUsers(d.members),
       timers := T.Timers(RestoredSchedule(s.db, s.product, now), map[], map[]))
  }

  // The claims of the workers die with the process.
  ghost function Restarted(s: State, rows: seq<Membership>, now: Time): State {
    s.(db := RepairedRows(s.db, s.product, now), cache := Rebuilt(s, rows, now),
       clock := now, faults := Healthy, down := false, open := {}, handled := {}, failed := {})
  }

  ghost predicate IsSnapshot(d: Durable, p: ProductId, rows: seq<Membership>) {
    Lists(rows, TablesOf(d, p)) && exists id: UserId -> nat :: ById(rows, p, id)
  }

  // ---- The service's own rows need no repair ----

  lemma {:induction false} OwnTables(s: State, now: Time)
    requires StoreInv(s, now) && s.product != NO_NAME
    ensures var t := TablesOf(s.db, s.product);
      t.WellKeyed() && Known(t) == if s.db.stock.Some? then {s.product} else {}
  {
    SumNonNegative(UsedUnitsOf(s.db.rights));
    HeldBounds(s.db, s.product, s.cfg, now, 0);
    var t := TablesOf(s.db, s.product);
    assert s.db.stock.Some? ==> s.product in Known(t);
  }

  lemma {:induction false} OwnMemberIsFine(s: State, u: UserId, now: Time)
    requires StoreInv(s, now) && s.product != NO_NAME && u in s.db.members
    ensures Participates(s.db.members[u], {s.product})
    ensures !MustDecline(s.db.members[u], {s.product}, s.db.rights)
  {
    var m := s.db.members[u];
    assert MemberShape(m, s.db.rights, s.cfg);
    if m.status.RightActive? {
      assert RightShape(s.db.rights[m.token.value], s.product);
      assert Usable(m, s.db.rights);
    }
  }

  lemma {:induction false} OwnRightIsFine(s: State, x: Token, now: Time)
    requires StoreInv(s, now) && s.product != NO_NAME && x in s.db.rights
    ensures s.db.stock.Some? && !MustExpire(TablesOf(s.db, s.product), x)
  {
    OwnTables(s, now);
    var r := s.db.rights[x];
    if r.status.Active? {
      OwnMemberIsFine(s, r.user, now);
      assert MemberShape(s.db.members[r.user], s.db.rights, s.cfg);
    }
  }

  lemma {:induction false} NoRepairs(s: State, now: Time)
    requires StoreInv(s, now) && s.product != NO_NAME
    ensures RepairedRows(s.db, s.product, now) == s.db
  {
    var t := TablesOf(s.db, s.product);
    OwnTables(s, now);
    forall u | u in s.db.members
      ensures RepairedMember(s.db.members[u], Known(t), t.rights, now) == s.db.members[u]
    {
      OwnMemberIsFine(s, u, now);
    }
    forall x | x in s.db.rights
      ensures RepairedRight(t, x) == s.db.rights[x]
    {
      OwnRightIsFine(s, x, now);
    }
    assert RepairedRights(t) == s.db.rights;
    assert RepairedMembers(t, s.product, now) == s.db.members;
  }

  lemma {:induction false} NoClamp(s: State, now: Time)
    requires StoreInv(s, now) && s.product != NO_NAME && s.db.stock.Some?
    ensures var t := TablesOf(s.db, s.product);
      s.product in t.stocks && Reserved(t, s.product) == Held(s.db.members)
      && RecoveredAvailable(t, s.product) == s.db.stock.value.count - Held(s.db.members)
  {
    var t := TablesOf(s.db, s.product);
    OwnTables(s, now);
    forall u | u in s.db.members
      ensures Reserves(s.db.members[u], Known(t), t.rights) == s.db.members[u].Units()
    {
      OwnMemberIsFine(s, u, now);
    }
    assert Reservations(t, s.product) == UnitsOf(s.db.members);
  }

  // ---- What the restart restores ----

  lemma {:induction false} QueueIsWaiting(s: State, rows: seq<Membership>, now: Time) returns (id: UserId -> nat)
    requires StoreInv(s, now) && s.product != NO_NAME && s.db.stock.Some? && IsSnapshot(s.db, s.product, rows)
    ensures InOrder(Waiting(rows, {s.product}, s.product), s.db.members, id)
    ensures SetOf(Waiting(rows, {s.product}, s.product)) == QueuedUsers(s.db.members)
  {
    var t := TablesOf(s.db, s.product);
    OwnTables(s, now);
    assert t.members[s.product] == s.db.members;
    id :| ById(rows, s.product, id);
    WaitingIsOrdered(rows, t, {s.product}, s.product, id);
    forall u | u in s.db.members
      ensures Participates(s.db.members[u], {s.product})
    {
      OwnMemberIsFine(s, u, now);
    }
    assert Waiters(s.db.members, {s.product}, s.product) == QueuedUsers(s.db.members);
  }

  // The service's own waiting rows never tie.
  lemma {:induction false} NumberedAgrees(users: seq<UserId>, ms: map<UserId, Membership>, id: UserId -> nat)
    requires QueueStamps(ms) && InOrder(users, ms, id) && SetOf(users) == QueuedUsers(ms)
    ensures var q := Numbered(users);
      Scored(q, |users|) && Users(q) == QueuedUsers(ms) && InStampOrder(q, ms)
  {
    var q := Numbered(users);
    NumberedUsers(users);
    forall i, j | 0 <= i < j < |q|
      ensures q[i].user in ms && q[j].user in ms && ms[q[i].user].updatedAt < ms[q[j].user].updatedAt
    {
      assert q[i].user == users[i] && q[j].user == users[j];
      assert Earlier(ms, id, users[i], users[j]);
      assert users[i] in SetOf(users) && users[j] in SetOf(users);
    }
    assert Users(q) <= ms.Keys;
    assert InStampOrder(q, ms);
  }

  lemma {:induction false} RebuiltRows(s: State, rows: seq<Membership>, now: Time)
    requires StoreInv(s, now) && s.product != NO_NAME
    requires s.cache.members.Keys <= s.db.members.Keys && s.cache.rights.Keys <= s.db.rights.Keys
    ensures var c := Rebuilt(s, rows, now);
      c.members == s.db.members && c.rights == s.db.rights && c.slots == LiveUsers(s.db.members)
  {
    NoRepairs(s, now);
    assert s.cache.members + s.db.members == s.db.members;
    assert s.cache.rights + s.db.rights == s.db.rights;
  }

  lemma {:induction false} StockOfReset(c: Cache, t: Tables, p: ProductId, rows: seq<Membership>, n: int)
    requires Known(t) == {p} && p in t.stocks && RecoveredAvailable(t, p) == n
    ensures var (r, w) := (RestoredStock(ResetSlots(ResetTimers(c)), t, p, rows), Waiting(rows, {p}, p));
      && r.stock == Some(Stock(t.stocks[p].count, n))
      && r.queue == Numbered(w) && r.lastScore == |w| && r.index == SetOf(w)
  {
    assert p in Known(t);
  }

  lemma {:induction false} RebuiltPool(s: State, rows: seq<Membership>, now: Time)
    ensures var t := TablesOf(s.db, s.product);
      var (c, r) := (Rebuilt(s, rows, now), RestoredStock(ResetSlots(ResetTimers(s.cache)), t, s.product, rows));
      c.stock == r.stock && c.queue == r.queue && c.lastScore == r.lastScore && c.index == r.index
  {
  }

  // The rows say that n units are free.
  ghost predicate HasPool(s: State, n: int) {
    var t := TablesOf(s.db, s.product);
    && Known(t) == {s.product} && s.db.stock.Some? && s.product in t.stocks
    && RecoveredAvailable(t, s.product) == n
  }

  predicate PoolIs(c: Cache, count: int, available: int, w: seq<UserId>) {
    && c.stock == Some(Stock(count, available))
    && c.queue == Numbered(w) && c.lastScore == |w| && c.index == SetOf(w)
  }

  lemma {:induction false} RebuiltStock(s: State, rows: seq<Membership>, now: Time)
    requires StoreInv(s, now) && s.product != NO_NAME && s.db.stock.Some?
    ensures PoolIs(Rebuilt(s, rows, now), s.db.stock.value.count, s.db.stock.value.count - Held(s.db.members),
      Waiting(rows, {s.product}, s.product))
  {
    OwnPool(s, now);
    PoolIsRebuilt(s, rows, now, s.db.stock.value.count - Held(s.db.members));
  }

  lemma {:induction false} OwnPool(s: State, now: Time)
    requires StoreInv(s, now) && s.product != NO_NAME && s.db.stock.Some?
    ensures HasPool(s, s.db.stock.value.count - Held(s.db.members))
  {
    OwnTables(s, now);
    NoClamp(s, now);
  }

  lemma {:induction false} PoolIsRebuilt(s: State, rows: seq<Membership>, now: Time, n: int)
    requires HasPool(s, n)
    ensures PoolIs(Rebuilt(s, rows, now), s.db.stock.value.count, n, Waiting(rows, {s.product}, s.product))
  {
    RebuiltPool(s, rows, now);
    StockOfReset(s.cache, TablesOf(s.db, s.product), s.product, rows, n);
  }

  lemma {:induction false} OwnTimer(s: State, u: UserId, now: Time)
    requires StoreInv(s, now) && s.product != NO_NAME && u in s.db.members
    ensures var (m, known) := (s.db.members[u], Known(TablesOf(s.db, s.product)));
      && m.user == u && !m.status.UnknownMembershipStatus? && (m.IsTimed() ==> m.expiresAt.Some?)
      && TimerOf(m, known, s.db.rights, now)
         == if m.status.Queued? then Some(now) else if m.IsTimed() then m.expiresAt else None
  {
    OwnTables(s, now);
    OwnMemberIsFine(s, u, now);
    assert MemberShape(s.db.members[u], s.db.rights, s.cfg);
  }

  // A schedule that covers everybody live and nobody timed too early.
  predicate Covers(sched: map<UserId, Second>, ms: map<UserId, Membership>) {
    forall u :: u in ms && ms[u].IsLive() ==>
      u in sched && ms[u].user == u
      && (ms[u].IsTimed() ==> ms[u].expiresAt.Some? && sched[u] == Seconds(ms[u].expiresAt.value))
  }

  lemma {:induction false} ScheduleCovers(s: State, now: Time)
    requires StoreInv(s, now) && s.product != NO_NAME
    ensures Covers(RestoredSchedule(s.db, s.product, now), s.db.members)
  {
    forall u | u in s.db.members && s.db.members[u].IsLive()
      ensures s.db.members[u].user == u && u in RestoredSchedule(s.db, s.product, now)
      ensures s.db.members[u].IsTimed() ==>
        (s.db.members[u].expiresAt.Some?
         && RestoredSchedule(s.db, s.product, now)[u] == Seconds(s.db.members[u].expiresAt.value))
    {
      OwnTimer(s, u, now);
    }
  }

  lemma {:induction false} RebuiltTimers(sched: map<UserId, Second>, ms: map<UserId, Membership>, now: Time)
    requires Covers(sched, ms)
    ensures TimerFacts(T.Timers(sched, map[], map[]), ms, {}, {}, now)
  {
  }

  lemma {:induction false} EmptyQueueUnlessStocked(s: State)
    requires Inv(s) && s.db.stock.None?
    ensures s.cache.queue == []
  {
    if !s.down && s.cache.queue != [] {
      HeadHasMembership(s.cache);
    }
  }

  lemma {:induction false} RestartedCacheInv(s: State, s': State, now: Time)
    requires StoreInv(s, now) && s'.db == s.db && s'.product == s.product && s'.cfg == s.cfg
    requires s'.cache.members == s.db.members && s'.cache.rights == s.db.rights
    requires s'.cache.slots == LiveUsers(s.db.members) && s'.cache.index == Users(s'.cache.queue)
    requires Scored(s'.cache.queue, s'.cache.lastScore)
    requires Users(s'.cache.queue) == QueuedUsers(s.db.members) && InStampOrder(s'.cache.queue, s.db.members)
    requires match s.db.stock
      case None => s'.cache.stock.None? || s'.cache.stock == Some(Stock(s.cfg.initialStock, s.cfg.initialStock))
      case Some(row) => s'.cache.stock == Some(Stock(row.count, row.count - Held(s.db.members)))
    ensures CacheInv(s')
  {
  }

  // Whatever the crash left in Redis, the restart ends in a state that satisfies everything.
  lemma {:induction false} RestartKeepsInv(s: State, rows: seq<Membership>, now: Time)
    requires Inv(s) && now > s.clock && IsSnapshot(s.db, s.product, rows)
    ensures Inv(Restarted(s, rows, now)) && !Restarted(s, rows, now).down
    ensures Restarted(s, rows, now).db == s.db
  {
    var s' := Restarted(s, rows, now);
    assert StoreInv(s, now);
    NoRepairs(s, now);
    RebuiltRows(s, rows, now);
    ScheduleCovers(s, now);
    RebuiltTimers(RestoredSchedule(s.db, s.product, now), s.db.members, now);
    if s.db.stock.Some? {
      RebuiltStock(s, rows, now);
      var id := QueueIsWaiting(s, rows, now);
      NumberedAgrees(Waiting(rows, {s.product}, s.product), s.db.members, id);
      NumberedUsers(Waiting(rows, {s.product}, s.product));
    } else {
      EmptyQueueUnlessStocked(s);
      OwnTables(s, now);
    }
    RestartedCacheInv(s, s', now);
    assert StoreInv(s', now);
  }

  lemma {:induction false} NumberedUsers(users: seq<UserId>)
    ensures Users(Numbered(users)) == SetOf(users)
  {
    var q := Numbered(users);
    forall u | u in SetOf(users)
      ensures u in Users(q)
    {
      var i :| 0 <= i < |users| && users[i] == u;
      assert q[i] in q;
    }
    forall u | u in Users(q)
      ensures u in SetOf(users)
    {
      var e :| e in q && e.user == u;
      var i :| 0 <= i < |q| && q[i] == e;
    }
  }

  // ---- Refinement: restarting a healthy process changes nothing that matters ----

  function UsersInOrder(q: seq<Entry>): seq<UserId> {
    seq(|q|, i requires 0 <= i < |q| => q[i].user)
  }

  lemma {:induction false} OrderedUsers(q: seq<Entry>)
    ensures SetOf(UsersInOrder(q)) == Users(q)
  {
    var w := UsersInOrder(q);
    forall u | u in Users(q)
      ensures u in SetOf(w)
    {
      var e :| e in q && e.user == u;
      var i :| 0 <= i < |q| && q[i] == e;
      assert w[i] == u;
    }
  }

  lemma {:induction false} LiveQueueById(c: Cache, d: Durable, id: UserId -> nat)
    requires RowsAgree(c, d) && QueueAgrees(c)
    ensures InOrder(UsersInOrder(c.queue), d.members, id)
  {
    var w := UsersInOrder(c.queue);
    forall i, j | 0 <= i < j < |w|
      ensures Earlier(d.members, id, w[i], w[j])
    {
      assert c.queue[i].user in Users(c.queue) && c.queue[j].user in Users(c.queue);
    }
  }

  lemma {:induction false} SameStatusSets(c: Cache, d: Durable)
    requires RowsAgree(c, d) && QueueAgrees(c)
    ensures SetOf(UsersInOrder(c.queue)) == QueuedUsers(d.members)
    ensures QueuedUsers(c.members) == QueuedUsers(d.members) && LiveUsers(c.members) == LiveUsers(d.members)
  {
    OrderedUsers(c.queue);
    assert QueuedUsers(c.members) == QueuedUsers(d.members);
  }

  // Stock, pool, FIFO order, memberships, rights, slots and indexes come back as they were;
  // scores are renumbered and every offer or right gets its own deadline back.
  predicate SameBusiness(c: Cache, c': Cache) {
    && c'.stock == c.stock
    && UsersInOrder(c'.queue) == UsersInOrder(c.queue)
    && c'.rights == c.rights && c'.slots == c.slots && c'.index == c.index
    && c'.members.Keys == c.members.Keys
    && (forall u :: u in c.members ==>
          c'.members[u].SameUpToStamp(c.members[u]) && (c.members[u].IsLive() ==> c'.members[u] == c.members[u]))
    && (forall u :: u in c.members && c.members[u].IsTimed() ==>
          c.members[u].expiresAt.Some? && u in c'.timers.scheduled
          && c'.timers.scheduled[u] == Seconds(c.members[u].expiresAt.value))
  }

  lemma {:induction false} RestartRestoresQueue(s: State, rows: seq<Membership>, now: Time)
    requires Inv(s) && !s.down && now > s.clock && IsSnapshot(s.db, s.product, rows)
    ensures UsersInOrder(Rebuilt(s, rows, now).queue) == UsersInOrder(s.cache.queue)
    ensures Rebuilt(s, rows, now).index == s.cache.index
  {
    assert StoreInv(s, now);
    var w := UsersInOrder(s.cache.queue);
    SameStatusSets(s.cache, s.db);
    if s.db.stock.Some? {
      RebuiltStock(s, rows, now);
      var id := QueueIsWaiting(s, rows, now);
      LiveQueueById(s.cache, s.db, id);
      OrderIsUnique(w, Waiting(rows, {s.product}, s.product), s.db.members, id);
      assert UsersInOrder(Numbered(w)) == w;
    } else {
      EmptyQueueUnlessStocked(s);
      OwnTables(s, now);
    }
  }

  lemma {:induction false} RebuiltIsSame(c: Cache, c': Cache, d: Durable)
    requires RowsAgree(c, d) && QueueAgrees(c)
    requires c'.stock == c.stock && UsersInOrder(c'.queue) == UsersInOrder(c.queue) && c'.index == c.index
    requires c'.members == d.members && c'.rights == d.rights && c'.slots == LiveUsers(d.members)
    requires Covers(c'.timers.scheduled, d.members)
    ensures SameBusiness(c, c')
  {
    SameStatusSets(c, d);
  }

  lemma {:induction false} RestartRestoresStock(s: State, rows: seq<Membership>, now: Time)
    requires StoreInv(s, now) && s.product != NO_NAME && StockAgrees(s.cache, s.db, s.cfg.initialStock)
    ensures Rebuilt(s, rows, now).stock == s.cache.stock
  {
    if s.db.stock.Some? {
      RebuiltStock(s, rows, now);
    } else {
      OwnTables(s, now);
    }
  }

  lemma {:induction false} RestartRestoresDeadlines(s: State, rows: seq<Membership>, now: Time)
    requires StoreInv(s, now) && s.product != NO_NAME
    ensures Covers(Rebuilt(s, rows, now).timers.scheduled, s.db.members)
  {
    ScheduleCovers(s, now);
  }

  lemma {:induction false} RestartRefines(s: State, rows: seq<Membership>, now: Time)
    requires Inv(s) && !s.down && now > s.clock && IsSnapshot(s.db, s.product, rows)
    ensures SameBusiness(s.cache, Restarted(s, rows, now).cache)
    ensures Restarted(s, rows, now).db == s.db
  {
    assert StoreInv(s, now);
    NoRepairs(s, now);
    RebuiltRows(s, rows, now);
    RestartRestoresQueue(s, rows, now);
    RestartRestoresDeadlines(s, rows, now);
    RestartRestoresStock(s, rows, now);
    RebuiltIsSame(s.cache, Rebuilt(s, rows, now), s.db);
  }

  // ---- There is always a snapshot to restart from ----

  predicate NotAfter(a: Membership, b: Membership) {
    a.updatedAt < b.updatedAt || (a.updatedAt == b.updatedAt && a.user <= b.user)
  }

  lemma {:induction false} LatestExists(ms: map<UserId, Membership>) returns (u: UserId)
    requires ms != map[]
    ensures u in ms && forall v :: v in ms ==> NotAfter(ms[v], ms[u])
    decreases |ms|
  {
    u :| u in ms;
    if ms - {u} != map[] {
      var w := LatestExists(ms - {u});
      assert forall v :: v in ms && v != u ==> NotAfter((ms - {u})[v], ms[w]);
      u := if NotAfter(ms[w], ms[u]) then u else w;
    } else {
      assert forall v :: v in ms && v != u ==> v in ms - {u};
    }
  }

  predicate IsListing(rows: seq<Membership>, ms: map<UserId, Membership>) {
    && (forall i :: 0 <= i < |rows| ==> rows[i].user in ms && ms[rows[i].user] == rows[i])
    && (forall u :: u in ms ==> ms[u] in rows)
    && (forall i, j :: 0 <= i < j < |rows| ==> rows[i].user != rows[j].user && NotAfter(rows[i], rows[j]))
  }

  lemma {:induction false} ListingExists(ms: map<UserId, Membership>) returns (rows: seq<Membership>)
    requires forall u :: u in ms ==> ms[u].user == u
    ensures IsListing(rows, ms)
    decreases |ms|
  {
    if ms == map[] {
      rows := [];
    } else {
      var u := LatestExists(ms);
      var earlier := ListingExists(ms - {u});
      rows := earlier + [ms[u]];
      assert rows[|earlier|] == ms[u];
      forall v | v in ms
        ensures ms[v] in rows
      {
        assert v == u || (ms - {u})[v] in earlier;
      }
    }
  }

  lemma {:induction false} ListingIsSnapshot(d: Durable, p: ProductId, rows: seq<Membership>)
    requires IsListing(rows, d.members) && forall u :: u in d.members ==> d.members[u].product == p && d.members[u].user == u
    ensures IsSnapshot(d, p, rows)
  {
    forall q, u | TablesOf(d, p).Has(q, u)
      ensures exists i :: 0 <= i < |rows| && rows[i].product == q && rows[i].user == u
    {
      assert d.members[u] in rows;
      var i :| 0 <= i < |rows| && rows[i] == d.members[u];
    }
    assert ById(rows, p, (u: UserId) => u);
  }

  lemma {:induction false} SnapshotExists(s: State) returns (rows: seq<Membership>)
    requires Inv(s)
    ensures IsSnapshot(s.db, s.product, rows)
  {
    rows := ListingExists(s.db.members);
    ListingIsSnapshot(s.db, s.product, rows);
  }
}
