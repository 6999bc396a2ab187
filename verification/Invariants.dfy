/** What every state between two operations satisfies. */
module Invariants {
  import opened Models
  import opened MapSums
  import opened CacheScripts
  import opened DurableTx
  import opened Service
  import T = Timers

  // ---- Sums ----

  // Units held by active rights and pending offers.
  function UnitsOf(ms: map<UserId, Membership>): map<UserId, int> {
    map u | u in ms :: ms[u].Units()
  }

  ghost function Held(ms: map<UserId, Membership>): int {
    Sum(UnitsOf(ms))
  }

  // Units sold.
  function UsedUnitsOf(rights: map<Token, Right>): map<Token, int> {
    map t | t in rights :: rights[t].UsedUnits()
  }

  ghost function Sold(rights: map<Token, Right>): int {
    Sum(UsedUnitsOf(rights))
  }

  function QuantitiesOf(outbox: map<Token, OutboxRow>): map<Token, int> {
    map t | t in outbox :: outbox[t].quantity
  }

  ghost function Ordered(outbox: map<Token, OutboxRow>): int {
    Sum(QuantitiesOf(outbox))
  }

  function HeldBy(ms: map<UserId, Membership>, u: UserId): int {
    if u in ms then ms[u].Units() else 0
  }

  // ---- Durable rows ----

  // Which columns are set in which status, and to which deadline.
  predicate MemberShape(m: Membership, rights: map<Token, Right>, cfg: Config) {
    m.quantity > 0
    && match m.status
       case Queued => m.available.None? && m.token.None? && m.expiresAt.None?
       case OfferPending =>
         m.available.Some? && 0 < m.available.value < m.quantity && m.token.None?
         && m.expiresAt == Some(m.updatedAt + cfg.offerTtl)
       case RightActive =>
         m.available.None? && m.token.Some? && m.expiresAt == Some(m.updatedAt + cfg.paymentTtl)
         && m.token.value in rights
         && var r := rights[m.token.value];
            r.status.Active? && r.user == m.user && r.quantity == m.quantity && r.expiresAt == m.expiresAt.value
       case UnknownMembershipStatus => false
       case _ => m.available.None? && m.token.None? && m.expiresAt.None?
  }

  predicate MemberRows(d: Durable, product: ProductId, cfg: Config, clock: Time) {
    forall u :: u in d.members ==>
      u != NO_NAME && d.members[u].user == u && d.members[u].product == product && d.members[u].updatedAt <= clock
      && MemberShape(d.members[u], d.rights, cfg)
  }

  predicate RightShape(r: Right, product: ProductId) {
    r.product == product && r.user != NO_NAME && r.quantity > 0 && !r.status.UnknownRightStatus? && (r.status.Used? <==> r.order.Some?)
  }

  // With MemberShape this pairs the ACTIVE rights with the RIGHT_ACTIVE memberships.
  predicate RightRows(d: Durable, product: ProductId, nextToken: Token) {
    forall t :: t in d.rights ==>
      t != NO_NAME && d.rights[t].token == t && t < nextToken && RightShape(d.rights[t], product)
      && (d.rights[t].status.Active? ==>
            d.rights[t].user in d.members && d.members[d.rights[t].user].token == Some(t))
  }

  predicate OutboxRows(d: Durable) {
    && (forall t :: t in d.outbox ==> t in d.rights && d.rights[t].status.Used?)
    && (forall t :: t in d.rights && d.rights[t].status.Used? ==>
          d.rights[t].order.Some? && t in d.outbox
          && d.outbox[t] == OutboxRow(t, d.rights[t].order.value, d.rights[t].product, d.rights[t].quantity))
  }

  ghost predicate StockRows(d: Durable, product: ProductId, initial: nat) {
    match d.stock
    case None => d.members == map[] && d.rights == map[]
    case Some(row) =>
      row.product == product && row.total == initial
      && Held(d.members) <= row.count
      && row.count + Sold(d.rights) == row.total
  }

  // Recovery orders the queue by the stamps of the rows, so those must not tie.
  predicate QueueStamps(ms: map<UserId, Membership>) {
    forall u, v :: u in ms && v in ms && u != v && ms[u].status.Queued? && ms[v].status.Queued? ==>
      ms[u].updatedAt != ms[v].updatedAt
  }

  ghost predicate StoreInv(s: State, now: Time) {
    && MemberRows(s.db, s.product, s.cfg, now)
    && RightRows(s.db, s.product, s.nextToken)
    && OutboxRows(s.db)
    && StockRows(s.db, s.product, s.cfg.initialStock)
    && QueueStamps(s.db.members)
  }

  // ---- Cache ----

  // available_units + RIGHT_ACTIVE quantities + offered quantities = product_count
  ghost predicate StockAgrees(c: Cache, d: Durable, initial: nat) {
    match d.stock
    case None => c.stock.None? || c.stock == Some(Stock(initial, initial))
    case Some(row) => c.stock == Some(Stock(row.count, row.count - Held(d.members)))
  }

  predicate RowsAgree(c: Cache, d: Durable) {
    && c.rights == d.rights
    && c.members.Keys == d.members.Keys
    && forall u :: u in d.members ==>
         c.members[u].SameUpToStamp(d.members[u])
         && (d.members[u].IsLive() ==> c.members[u] == d.members[u])
  }

  function Users(q: seq<Entry>): set<UserId> {
    set e | e in q :: e.user
  }

  function QueuedUsers(ms: map<UserId, Membership>): set<UserId> {
    set u | u in ms && ms[u].status.Queued?
  }

  function LiveUsers(ms: map<UserId, Membership>): set<UserId> {
    set u | u in ms && ms[u].IsLive()
  }

  predicate Scored(q: seq<Entry>, lastScore: nat) {
    && (forall i, j :: 0 <= i < j < |q| ==> q[i].score < q[j].score)
    && (forall i :: 0 <= i < |q| ==> q[i].score <= lastScore)
  }

  // The queue is in the order in which its rows were stamped; hence no user is in it twice.
  predicate InStampOrder(q: seq<Entry>, ms: map<UserId, Membership>)
    requires Users(q) <= ms.Keys
  {
    forall i, j {:trigger q[i], q[j]} :: 0 <= i < j < |q| ==> StampedBefore(ms, q[i].user, q[j].user)
  }

  predicate StampedBefore(ms: map<UserId, Membership>, a: UserId, b: UserId) {
    a in ms && b in ms && ms[a].updatedAt < ms[b].updatedAt
  }

  predicate QueueAgrees(c: Cache) {
    && Scored(c.queue, c.lastScore)
    && Users(c.queue) == QueuedUsers(c.members)
    && InStampOrder(c.queue, c.members)
    && c.index == Users(c.queue)
    && c.slots == LiveUsers(c.members)
  }

  // ---- Timers ----

  // A deadline in the hands of the timer machinery either belongs to an older
  // lifecycle of the user or does not run out before the current one.
  predicate Harmless(deadline: Second, m: Membership)
    requires m.expiresAt.Some?
  {
    deadline * MILLIS < m.updatedAt || deadline >= Seconds(m.expiresAt.value)
  }

  predicate LeasesOk(t: T.Timers, claims: set<T.Claim>, clock: Time) {
    && t.deadlines.Keys == t.processing.Keys
    && (forall u :: u in t.processing ==>
          T.LEASE <= t.processing[u] <= clock + T.LEASE
          && t.deadlines[u] * MILLIS <= t.processing[u] - T.LEASE)
    && (forall c :: c in claims ==>
          c.pass <= clock && c.lease == c.pass + T.LEASE && c.deadline * MILLIS <= c.pass
          && (T.HoldsLease(t, c) ==> c.user in t.deadlines && t.deadlines[c.user] == c.deadline))
  }

  // Nobody live is forgotten, not even once the worker acknowledges.
  predicate NobodyForgotten(t: T.Timers, ms: map<UserId, Membership>, handled: set<T.Claim>) {
    && (forall u :: u in ms && ms[u].IsLive() ==> t.Watches(u))
    && (forall c :: c in handled && c.user in ms && ms[c.user].IsLive() && T.HoldsLease(t, c) ==>
          c.user in t.scheduled)
  }

  predicate DeadlineOk(t: T.Timers, m: Membership)
    requires m.expiresAt.Some?
  {
    && (m.user in t.scheduled ==> t.scheduled[m.user] >= Seconds(m.expiresAt.value))
    && (m.user in t.deadlines ==> Harmless(t.deadlines[m.user], m))
    && (m.user !in t.scheduled ==>
          m.user in t.deadlines && t.deadlines[m.user] >= Seconds(m.expiresAt.value))
  }

  predicate DeadlinesOk(t: T.Timers, ms: map<UserId, Membership>, claims: set<T.Claim>) {
    && (forall u :: u in ms && ms[u].IsTimed() ==>
          ms[u].user == u && ms[u].expiresAt.Some? && DeadlineOk(t, ms[u]))
    && (forall c :: c in claims && c.user in ms && ms[c.user].IsTimed() ==>
          ms[c.user].expiresAt.Some? && Harmless(c.deadline, ms[c.user]))
  }

  function Claims(s: State): set<T.Claim> {
    s.open + s.handled + s.failed
  }

  predicate TimerFacts(t: T.Timers, ms: map<UserId, Membership>, handled: set<T.Claim>, claims: set<T.Claim>, clock: Time) {
    && LeasesOk(t, claims, clock)
    && NobodyForgotten(t, ms, handled)
    && DeadlinesOk(t, ms, claims)
  }

  predicate TimerInv(s: State) {
    TimerFacts(s.cache.timers, s.db.members, s.handled, Claims(s), s.clock)
  }

  ghost predicate CacheInv(s: State) {
    && StockAgrees(s.cache, s.db, s.cfg.initialStock)
    && RowsAgree(s.cache, s.db)
    && QueueAgrees(s.cache)
  }

  // What a crash may leave in Redis: nothing that the durable rows do not override.
  predicate Leftover(s: State) {
    && s.cache.members.Keys <= s.db.members.Keys
    && s.cache.rights.Keys <= s.db.rights.Keys
    && (s.db.stock.None? ==>
          s.cache.queue == [] && (s.cache.stock.None? || s.cache.stock == Some(Stock(s.cfg.initialStock, s.cfg.initialStock))))
  }

  // In the middle of an operation at instant now, memberships may already be stamped now
  // while every claim is older.
  ghost predicate InvAt(s: State, now: Time) {
    && s.cfg.Valid() && s.product != NO_NAME && s.nextToken != NO_NAME
    && s.clock <= now
    && StoreInv(s, now)
    && if s.down then Leftover(s) else CacheInv(s) && TimerInv(s)
  }

  ghost predicate Inv(s: State) {
    InvAt(s, s.clock)
  }
}
