/** What recovery makes of any rows: which it repairs, and which pool it opens with. */
module RecoveryOutcome {
  import opened Models
  import opened MapSums
  import opened CacheScripts
  import opened DurableTx
  import opened Service
  import opened Joining
  import opened Recovery
  import opened Restart
  import opened SecondAnswer

  // ---- The repairs ----

  // A right and its holder that agree, with a deadline.
  ghost predicate IsPair(t: Tables, p: ProductId, u: UserId) {
    t.Has(p, u) && t.members[p][u].expiresAt.Some? && exists x :: Paired(t, x, p, u)
  }

  predicate IsGoodOffer(m: Membership) {
    m.available.Some? && m.expiresAt.Some? && 0 < m.available.value <= m.quantity
  }

  // A holder without its right and an offer that makes no sense are declined, and nobody else.
  lemma {:induction false} OnlyBrokenRowsAreDeclined(t: Tables, now: Time, p: ProductId, u: UserId)
    requires t.WellKeyed() && t.Has(p, u)
    ensures var (m, r) := (t.members[p][u], Repaired(t, now).members[p][u]);
      var legible := Participates(m, Known(t));
      if legible && m.status.RightActive? && !IsPair(t, p, u) then r == m.Settled(Declined, now)
      else if legible && m.status.OfferPending? && !IsGoodOffer(m) then r == m.Settled(Declined, now)
      else r == m
  {
    var m := t.members[p][u];
    if Participates(m, Known(t)) && m.status.RightActive? {
      if Usable(m, t.rights) {
        assert Paired(t, m.token.value, p, u);
      }
    }
  }

  // An active right without its holder is expired, and no other right.
  lemma {:induction false} OnlyOrphansAreExpired(t: Tables, now: Time, x: Token)
    requires t.WellKeyed() && x in t.rights
    ensures var (r, r') := (t.rights[x], Repaired(t, now).rights[x]);
      if IsActiveRight(t, x) && !(Paired(t, x, r.product, r.user) && IsPair(t, r.product, r.user))
      then r' == r.(status := Expired) else r' == r
  {
    var r := t.rights[x];
    if Paired(t, x, r.product, r.user) && IsPair(t, r.product, r.user) {
      assert Usable(t.members[r.product][r.user], t.rights);
    } else if IsActiveRight(t, x) && r.product in Known(t) && Honoured(t, x) {
      assert Paired(t, x, r.product, r.user);
    }
  }

  // ---- The pool ----

  // The units that the readable rows hold once they are repaired.
  function HeldUnits(ms: map<UserId, Membership>, known: set<ProductId>): map<UserId, int> {
    map u | u in ms :: if Participates(ms[u], known) then ms[u].Units() else 0
  }

  ghost function HeldAfterRepair(t: Tables, p: ProductId, now: Time): int {
    if p in t.members then Sum(HeldUnits(Repaired(t, now).members[p], Known(t))) else 0
  }

  lemma {:induction false} ReservedIsHeld(t: Tables, p: ProductId, now: Time)
    ensures Reserved(t, p) == HeldAfterRepair(t, p, now)
  {
    if p in t.members {
      var ms := Repaired(t, now).members[p];
      assert Reservations(t, p) == HeldUnits(ms, Known(t));
    } else {
      assert Reservations(t, p) == map[];
    }
  }

  // For any rows: a known product opens with what its stock row has beyond the units held, and
  // closed if it has less. An unknown one keeps what the cache says.
  lemma {:induction false} PoolIsRest(s: State, rows: seq<Membership>, now: Time)
    ensures var (t, c) := (TablesOf(s.db, s.product), Rebuilt(s, rows, now));
      if s.product in Known(t) then
        var rest := s.db.stock.value.count - HeldAfterRepair(t, s.product, now);
        s.db.stock.Some? && c.stock == Some(Stock(s.db.stock.value.count, if rest > 0 then rest else 0))
      else c.stock == s.cache.stock
  {
    var t := TablesOf(s.db, s.product);
    ReservedIsHeld(t, s.product, now);
    RebuiltPool(s, rows, now);
  }

  // ---- After a second answer ----

  // The newcomer's row is the only one, and its right is with it.
  lemma {:induction false} OnlyRowIsHeld(d: Durable, p: ProductId, u: UserId, now: Time)
    requires p != NO_NAME && u != NO_NAME && d.members.Keys == {u}
    requires d.stock.Some? && d.stock.value.product == p && ValidStock(d.stock.value)
    requires var m := d.members[u];
      && m.user == u && m.product == p && m.quantity > 0 && m.status.RightActive? && Usable(m, d.rights)
    ensures p in Known(TablesOf(d, p)) && HeldAfterRepair(TablesOf(d, p), p, now) == d.members[u].quantity
  {
    var t, m := TablesOf(d, p), d.members[u];
    assert p in Known(t);
    var held := HeldUnits(Repaired(t, now).members[p], Known(t));
    assert held == map[u := m.quantity];
    SumOfOne(held, u);
  }

  lemma {:induction false} SumOfOne(m: map<UserId, int>, u: UserId)
    requires m.Keys == {u}
    ensures Sum(m) == m[u]
  {
    SumUpdate(map[], u, m[u]);
    assert map[][u := m[u]] == m;
  }

  lemma {:induction false} GrantedRow(s: State, u: UserId, quantity: int, second: nat, now: Time)
    requires Unrecorded(s) && 0 < quantity <= s.cfg.initialStock
    ensures var row := EntryRow(Touch(s, second).0, u, quantity, now);
      && row.status.RightActive? && row.user == u && row.product == s.product && row.quantity == quantity
      && row.token == Some(s.nextToken) && row.expiresAt.Some?
  {
    UnrecordedIsEmpty(s, u, s.clock);
    EmptyQueue(s);
  }

  // A restart closes the pool as far as the second answer falls short of the right.
  lemma {:induction false} SecondAnswerIsClosed(s: State, u: UserId, quantity: int, others: nat, second: nat, now: Time,
    rows: seq<Membership>, at: Time)
    requires Unrecorded(s) && u != NO_NAME && 0 < quantity <= s.cfg.initialStock && others < s.cfg.slotLimit
    ensures var s' := JoinQueue(s, u, quantity, others, Some(second), now).0;
      Rebuilt(s', rows, at).stock == Some(Stock(second, if second > quantity then second - quantity else 0))
  {
    var s' := JoinQueue(s, u, quantity, others, Some(second), now).0;
    SecondJoinAdmits(s, u, quantity, others, second, now);
    GrantedRow(s, u, quantity, second, now);
    AdmittedIsClosed(s, s', EntryRow(Touch(s, second).0, u, quantity, now), quantity, second, now, rows, at);
  }

  lemma {:induction false} AdmittedIsClosed(s: State, s': State, row: Membership, quantity: int, second: nat, now: Time,
    rows: seq<Membership>, at: Time)
    requires Admitted(s, s', row, quantity, second, now) && s'.product == s.product != NO_NAME && s.nextToken != NO_NAME
    requires row.user != NO_NAME && row.status.RightActive? && row.product == s.product && row.quantity == quantity
    requires 0 < quantity <= s.cfg.initialStock && row.token == Some(s.nextToken) && row.expiresAt.Some?
    ensures Rebuilt(s', rows, at).stock == Some(Stock(second, if second > quantity then second - quantity else 0))
  {
    OnlyRowIsHeld(s'.db, s'.product, row.user, at);
    PoolIsRest(s', rows, at);
  }
}
