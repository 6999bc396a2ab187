/** The loops of crash recovery over the rows of a snapshot, and what they compute. */
module RecoveryLoops {
  import opened Models
  import opened MapSums
  import opened Recovery

  datatype Timer = Timer(product: ProductId, user: UserId, deadline: Time)

  // Rows as LoadRecoverySnapshot lists them; the keys make each one unique.
  ghost predicate ListsStocks(stocks: seq<StockRow>, t: Tables) {
    && (forall i :: 0 <= i < |stocks| ==> stocks[i].product in t.stocks && t.stocks[stocks[i].product] == stocks[i])
    && (forall p :: p in t.stocks ==> t.stocks[p] in stocks)
    && (forall i, j :: 0 <= i < j < |stocks| ==> stocks[i].product != stocks[j].product)
  }

  ghost predicate ListsRights(rights: seq<Right>, t: Tables) {
    && (forall i :: 0 <= i < |rights| ==> rights[i].token in t.rights && t.rights[rights[i].token] == rights[i])
    && (forall x :: x in t.rights ==> t.rights[x] in rights)
    && (forall i, j :: 0 <= i < j < |rights| ==> rights[i].token != rights[j].token)
  }

  // ---- Sums along the rows ----

  function ReservedAlong(rows: seq<Membership>, known: set<ProductId>, rights: map<Token, Right>, p: ProductId): int {
    if rows == [] then 0 else
      var m := rows[|rows| - 1];
      ReservedAlong(rows[..|rows| - 1], known, rights, p) + (if m.product == p then Reserves(m, known, rights) else 0)
  }

  function AlongAsMap(rows: seq<Membership>, known: set<ProductId>, rights: map<Token, Right>, p: ProductId): map<UserId, int> {
    if rows == [] then map[] else
      var m := rows[|rows| - 1];
      var rest := AlongAsMap(rows[..|rows| - 1], known, rights, p);
      if m.product == p then rest[m.user := Reserves(m, known, rights)] else rest
  }

  predicate DistinctRows(rows: seq<Membership>) {
    forall i, j :: 0 <= i < j < |rows| && rows[i].product == rows[j].product ==> rows[i].user != rows[j].user
  }

  predicate HasRow(rows: seq<Membership>, p: ProductId, u: UserId) {
    exists i :: 0 <= i < |rows| && rows[i].product == p && rows[i].user == u
  }

  lemma {:induction false} HasRowMore(rows: seq<Membership>, m: Membership, p: ProductId, u: UserId)
    ensures HasRow(rows + [m], p, u) <==> HasRow(rows, p, u) || (m.product == p && m.user == u)
  {
    var more := rows + [m];
    if HasRow(rows, p, u) {
      var i :| 0 <= i < |rows| && rows[i].product == p && rows[i].user == u;
      assert more[i] == rows[i];
    }
    assert more[|rows|] == m;
  }

  lemma {:induction false} AlongHas(rows: seq<Membership>, known: set<ProductId>, rights: map<Token, Right>, p: ProductId)
    requires DistinctRows(rows)
    ensures forall u :: u in AlongAsMap(rows, known, rights, p) <==> HasRow(rows, p, u)
    ensures forall i :: 0 <= i < |rows| && rows[i].product == p ==>
      (HasRow(rows, p, rows[i].user)
       && AlongAsMap(rows, known, rights, p)[rows[i].user] == Reserves(rows[i], known, rights))
  {
    if rows != [] {
      var n := |rows| - 1;
      AlongHas(rows[..n], known, rights, p);
      assert rows == rows[..n] + [rows[n]];
      forall u
        ensures HasRow(rows, p, u) <==> HasRow(rows[..n], p, u) || (rows[n].product == p && rows[n].user == u)
      {
        HasRowMore(rows[..n], rows[n], p, u);
      }
      forall i | 0 <= i < n && rows[i].product == p
        ensures AlongAsMap(rows, known, rights, p)[rows[i].user] == Reserves(rows[i], known, rights)
      {
        assert rows[..n][i] == rows[i];
      }
    }
  }

  lemma {:induction false} AlongSums(rows: seq<Membership>, known: set<ProductId>, rights: map<Token, Right>, p: ProductId)
    requires DistinctRows(rows)
    ensures Sum(AlongAsMap(rows, known, rights, p)) == ReservedAlong(rows, known, rights, p)
  {
    if rows != [] {
      var n := |rows| - 1;
      AlongSums(rows[..n], known, rights, p);
      AlongHas(rows[..n], known, rights, p);
      assert forall k :: 0 <= k < n ==> rows[..n][k] == rows[k];
      if rows[n].product == p {
        SumUpdate(AlongAsMap(rows[..n], known, rights, p), rows[n].user, Reserves(rows[n], known, rights));
      }
    }
  }

  lemma {:induction false} RowsHaveAll(rows: seq<Membership>, t: Tables, p: ProductId, u: UserId)
    requires Lists(rows, t)
    ensures HasRow(rows, p, u) <==> t.Has(p, u)
  {
    if HasRow(rows, p, u) {
      var i :| 0 <= i < |rows| && rows[i].product == p && rows[i].user == u;
      assert t.Has(rows[i].product, rows[i].user);
    }
  }

  lemma {:induction false} AlongIsReservations(rows: seq<Membership>, t: Tables, p: ProductId)
    requires Lists(rows, t)
    ensures AlongAsMap(rows, Known(t), t.rights, p) == Reservations(t, p)
  {
    AlongHas(rows, Known(t), t.rights, p);
    var a := AlongAsMap(rows, Known(t), t.rights, p);
    forall u
      ensures u in a <==> u in Reservations(t, p)
    {
      RowsHaveAll(rows, t, p, u);
    }
    forall u | u in a
      ensures a[u] == Reservations(t, p)[u]
    {
      var i :| 0 <= i < |rows| && rows[i].product == p && rows[i].user == u;
      assert t.Has(rows[i].product, rows[i].user);
    }
  }

  // Adding up along the rows is adding up over the table.
  lemma {:induction false} AlongIsReserved(rows: seq<Membership>, t: Tables, p: ProductId)
    requires Lists(rows, t)
    ensures ReservedAlong(rows, Known(t), t.rights, p) == Reserved(t, p)
  {
    AlongSums(rows, Known(t), t.rights, p);
    AlongIsReservations(rows, t, p);
  }

  function DeclinedAlong(rows: seq<Membership>, t: Tables, now: Time): seq<Membership> {
    if rows == [] then [] else
      var m := rows[|rows| - 1];
      DeclinedAlong(rows[..|rows| - 1], t, now)
      + (if MustDecline(m, Known(t), t.rights) then [m.Settled(Declined, now)] else [])
  }

  function TimersAlong(rows: seq<Membership>, t: Tables, now: Time): seq<Timer> {
    if rows == [] then [] else
      var m := rows[|rows| - 1];
      var at := TimerOf(m, Known(t), t.rights, now);
      TimersAlong(rows[..|rows| - 1], t, now) + (if at.Some? then [Timer(m.product, m.user, at.value)] else [])
  }

  function RepairedAlong(rows: seq<Membership>, t: Tables, now: Time): seq<Membership> {
    seq(|rows|, i requires 0 <= i < |rows| => RepairedMember(rows[i], Known(t), t.rights, now))
  }

  predicate ClaimedAlong(rows: seq<Membership>, t: Tables, x: Token) {
    exists k :: 0 <= k < |rows| && Honours(rows[k], Known(t), t.rights, x)
  }

  // A right is claimed along the rows exactly when its own holder's row honours it.
  lemma {:induction false} ClaimedIsHonoured(rows: seq<Membership>, t: Tables, x: Token)
    requires t.WellKeyed() && Lists(rows, t) && x in t.rights
    ensures ClaimedAlong(rows, t, x) <==> Honoured(t, x)
  {
    var p, u := t.rights[x].product, t.rights[x].user;
    if ClaimedAlong(rows, t, x) {
      var k :| 0 <= k < |rows| && Honours(rows[k], Known(t), t.rights, x);
      assert t.Has(rows[k].product, rows[k].user);
    }
    if Honoured(t, x) {
      assert t.Has(p, u);
      var k :| 0 <= k < |rows| && rows[k].product == p && rows[k].user == u;
      assert Honours(rows[k], Known(t), t.rights, x);
    }
  }

  // What the loop over the memberships has made of the rows so far.
  datatype Findings = Findings(
    queued: map<ProductId, seq<UserId>>,
    reserved: map<ProductId, int>,
    activeRights: map<Token, bool>,
    declined: seq<Membership>,
    timers: seq<Timer>)

  predicate FoundAlong(f: Findings, rows: seq<Membership>, t: Tables, now: Time) {
    && f.queued.Keys == f.reserved.Keys == Known(t)
    && (forall p :: p in Known(t) ==>
          f.queued[p] == Waiting(rows, Known(t), p) && f.reserved[p] == ReservedAlong(rows, Known(t), t.rights, p))
    && (forall x :: x in f.activeRights ==> (f.activeRights[x] <==> ClaimedAlong(rows, t, x)))
    && f.declined == DeclinedAlong(rows, t, now) && f.timers == TimersAlong(rows, t, now)
  }

  lemma {:induction false} NothingFound(f: Findings, t: Tables, now: Time)
    requires f.queued.Keys == f.reserved.Keys == Known(t) && f.declined == [] && f.timers == []
    requires forall p :: p in Known(t) ==> f.queued[p] == [] && f.reserved[p] == 0
    requires forall x :: x in f.activeRights ==> !f.activeRights[x]
    ensures FoundAlong(f, [], t, now)
  {
    assert forall x :: !ClaimedAlong([], t, x);
  }

  // What one more live row adds.
  predicate FoundMore(f: Findings, f': Findings, m: Membership, t: Tables, now: Time)
    requires m.product in f.queued && m.product in f.reserved
  {
    && f'.queued == (if m.status.Queued? then f.queued[m.product := f.queued[m.product] + [m.user]] else f.queued)
    && f'.reserved == f.reserved[m.product := f.reserved[m.product] + Reserves(m, Known(t), t.rights)]
    && f'.activeRights.Keys == f.activeRights.Keys
    && (forall x :: x in f'.activeRights ==>
          (f'.activeRights[x] <==> f.activeRights[x] || Honours(m, Known(t), t.rights, x)))
    && f'.declined == f.declined + (if MustDecline(m, Known(t), t.rights) then [m.Settled(Declined, now)] else [])
    && var at := TimerOf(m, Known(t), t.rights, now);
       f'.timers == f.timers + (if at.Some? then [Timer(m.product, m.user, at.value)] else [])
  }

  lemma {:induction false} ClaimedMore(rows: seq<Membership>, m: Membership, t: Tables, x: Token)
    ensures ClaimedAlong(rows + [m], t, x) <==> ClaimedAlong(rows, t, x) || Honours(m, Known(t), t.rights, x)
  {
    var more := rows + [m];
    if ClaimedAlong(rows, t, x) {
      var k :| 0 <= k < |rows| && Honours(rows[k], Known(t), t.rights, x);
      assert more[k] == rows[k];
    }
    assert more[|rows|] == m;
  }

  lemma {:induction false} LiveRowFound(f: Findings, f': Findings, rows: seq<Membership>, m: Membership, t: Tables, now: Time)
    requires FoundAlong(f, rows, t, now) && Participates(m, Known(t)) && FoundMore(f, f', m, t, now)
    ensures FoundAlong(f', rows + [m], t, now)
  {
    var more := rows + [m];
    assert more[..|more| - 1] == rows;
    forall x | x in f'.activeRights
      ensures f'.activeRights[x] <==> ClaimedAlong(more, t, x)
    {
      ClaimedMore(rows, m, t, x);
    }
    assert f'.queued.Keys == Known(t) && f'.reserved.Keys == Known(t);
  }

  lemma {:induction false} OtherRowFound(f: Findings, rows: seq<Membership>, m: Membership, t: Tables, now: Time)
    requires FoundAlong(f, rows, t, now) && !Participates(m, Known(t))
    ensures FoundAlong(f, rows + [m], t, now)
    ensures RepairedMember(m, Known(t), t.rights, now) == m
  {
    var more := rows + [m];
    assert more[..|more| - 1] == rows;
    forall x | x in f.activeRights
      ensures f.activeRights[x] <==> ClaimedAlong(more, t, x)
    {
      ClaimedMore(rows, m, t, x);
    }
  }

  // ---- The state that the loops fill ----

  class RecoveryState {
    var queued: map<ProductId, seq<UserId>>
    var reserved: map<ProductId, int>
    var rightsByToken: map<Token, Right>
    var activeRights: map<Token, bool>   // has a membership claimed it?
    var expired: set<Token>
    var declined: seq<Membership>
    var timers: seq<Timer>

    constructor ()
      ensures queued == map[] && reserved == map[] && rightsByToken == map[] && activeRights == map[]
      ensures expired == {} && declined == [] && timers == []
    {
      queued, reserved, rightsByToken, activeRights := map[], map[], map[], map[];
      expired, declined, timers := {}, [], [];
    }

    // recoveryProducts
    method IndexProducts(stocks: seq<StockRow>, ghost t: Tables)
      requires t.WellKeyed() && ListsStocks(stocks, t)
      modifies this`queued, this`reserved
      ensures queued.Keys == reserved.Keys == Known(t)
      ensures forall p :: p in Known(t) ==> queued[p] == [] && reserved[p] == 0
    {
      queued, reserved := map[], map[];
      var i := 0;
      while i < |stocks|
        invariant 0 <= i <= |stocks|
        invariant queued.Keys == reserved.Keys
        invariant forall p :: p in queued <==> exists k :: 0 <= k < i && stocks[k].product == p && ValidStock(stocks[k])
        invariant forall p :: p in queued ==> queued[p] == [] && reserved[p] == 0
      {
        var row := stocks[i];
        if row.product != NO_NAME && 0 <= row.count <= row.total && row.product !in queued {
          queued := queued[row.product := []];
          reserved := reserved[row.product := 0];
        }
        i := i + 1;
      }
      forall p | p in Known(t)
        ensures p in queued
      {
        var k :| 0 <= k < |stocks| && stocks[k] == t.stocks[p];
      }
      assert queued.Keys == Known(t);
    }

    // What the loop over the rights has made of those it has seen.
    ghost predicate PartlyIndexed(t: Tables)
      reads this
    {
      && (forall x :: x in rightsByToken ==>
            (x in t.rights && WellFormedRight(t.rights[x])
             && rightsByToken[x] == if t.rights[x].status.Active? && t.rights[x].product !in Known(t)
                                    then t.rights[x].(status := Expired) else t.rights[x]))
      && (forall x :: x in activeRights <==>
            x in rightsByToken && t.rights[x].status.Active? && t.rights[x].product in Known(t))
    }

    ghost predicate Indexed(t: Tables)
      reads this
    {
      PartlyIndexed(t) && forall x :: x in t.rights && WellFormedRight(t.rights[x]) ==> x in rightsByToken
    }

    // Active rights of products without a valid stock row.
    ghost predicate Stockless(t: Tables)
      reads this
    {
      forall x :: x in expired <==>
        x in rightsByToken && x in t.rights && t.rights[x].status.Active? && t.rights[x].product !in Known(t)
    }

    method IndexRight(r: Right, ghost t: Tables)
      requires PartlyIndexed(t) && Stockless(t) && queued.Keys == Known(t)
      requires forall x :: x in activeRights ==> !activeRights[x]
      requires r.token in t.rights && t.rights[r.token] == r
      modifies this`rightsByToken, this`activeRights, this`expired
      ensures PartlyIndexed(t) && Stockless(t) && forall x :: x in activeRights ==> !activeRights[x]
      ensures rightsByToken.Keys == old(rightsByToken).Keys + (if WellFormedRight(r) then {r.token} else {})
    {
      if WellFormedRight(r) && r.token !in rightsByToken {
        if !r.status.Active? {
          rightsByToken := rightsByToken[r.token := r];
        } else if r.product !in queued {
          expired := expired + {r.token};
          rightsByToken := rightsByToken[r.token := r.(status := Expired)];
        } else {
          rightsByToken := rightsByToken[r.token := r];
          activeRights := activeRights[r.token := false];
        }
      }
    }

    // recoveryRights
    method IndexRights(rights: seq<Right>, ghost t: Tables)
      requires t.WellKeyed() && ListsRights(rights, t) && queued.Keys == Known(t)
      modifies this`rightsByToken, this`activeRights, this`expired
      ensures Indexed(t) && Stockless(t) && forall x :: x in activeRights ==> !activeRights[x]
    {
      rightsByToken, activeRights, expired := map[], map[], {};
      var i := 0;
      while i < |rights|
        invariant 0 <= i <= |rights|
        invariant PartlyIndexed(t) && Stockless(t) && forall x :: x in activeRights ==> !activeRights[x]
        invariant forall k :: 0 <= k < i && WellFormedRight(rights[k]) ==> rights[k].token in rightsByToken
      {
        IndexRight(rights[i], t);
        i := i + 1;
      }
      forall x | x in t.rights && WellFormedRight(t.rights[x])
        ensures x in rightsByToken
      {
        var k :| 0 <= k < |rights| && rights[k] == t.rights[x];
      }
    }

    function Found(): Findings
      reads this
    {
      Findings(queued, reserved, activeRights, declined, timers)
    }

    // The lookup by token finds a right that backs the membership exactly when one does.
    lemma LooksUp(m: Membership, t: Tables)
      requires Indexed(t) && m.product in Known(t)
      ensures (m.token.Some? && m.token.value in rightsByToken && m.expiresAt.Some?
               && rightsByToken[m.token.value].status.Active? && rightsByToken[m.token.value].user == m.user
               && rightsByToken[m.token.value].product == m.product
               && rightsByToken[m.token.value].quantity == m.quantity)
              <==> Usable(m, t.rights)
      ensures Usable(m, t.rights) ==> m.token.value in activeRights
    {
    }

    // applyRecoveredActiveRight
    method ApplyActiveRight(m: Membership, now: Time, ghost t: Tables) returns (m': Membership)
      requires Indexed(t) && m.product in Known(t) && m.product in queued && m.product in reserved
      requires Participates(m, Known(t)) && m.status.RightActive?
      modifies this`reserved, this`activeRights, this`declined, this`timers
      ensures m' == RepairedMember(m, Known(t), t.rights, now)
      ensures Indexed(t) && FoundMore(old(Found()), Found(), m, t, now)
    {
      LooksUp(m, t);
      m' := m;
      if m.token.Some? && m.token.value in rightsByToken && m.expiresAt.Some?
         && rightsByToken[m.token.value].status.Active? && rightsByToken[m.token.value].user == m.user
         && rightsByToken[m.token.value].product == m.product
         && rightsByToken[m.token.value].quantity == m.quantity {
        reserved := reserved[m.product := reserved[m.product] + m.quantity];
        activeRights := activeRights[m.token.value := true];
        timers := timers + [Timer(m.product, m.user, m.expiresAt.value)];
      } else {
        assert reserved[m.product := reserved[m.product] + 0] == reserved;
        m' := m.Settled(Declined, now);
        declined := declined + [m'];
      }
    }

    // applyRecoveredPendingOffer
    method ApplyPendingOffer(m: Membership, now: Time, ghost t: Tables) returns (m': Membership)
      requires m.product in Known(t) && m.product in queued && m.product in reserved
      requires Participates(m, Known(t)) && m.status.OfferPending?
      modifies this`reserved, this`declined, this`timers
      ensures m' == RepairedMember(m, Known(t), t.rights, now)
      ensures FoundMore(old(Found()), Found(), m, t, now)
    {
      m' := m;
      if m.available.None? || m.expiresAt.None? || m.available.value <= 0 || m.available.value > m.quantity {
        assert reserved[m.product := reserved[m.product] + 0] == reserved;
        m' := m.Settled(Declined, now);
        declined := declined + [m'];
      } else {
        reserved := reserved[m.product := reserved[m.product] + m.available.value];
        timers := timers + [Timer(m.product, m.user, m.expiresAt.value)];
      }
    }

    // applyRecoveryMembership, for a readable row of a known product.
    method ApplyLive(m: Membership, now: Time, ghost t: Tables) returns (m': Membership)
      requires Indexed(t) && m.product in queued && queued.Keys == reserved.Keys == Known(t)
      requires Participates(m, Known(t))
      modifies this`queued, this`reserved, this`activeRights, this`declined, this`timers
      ensures m' == RepairedMember(m, Known(t), t.rights, now)
      ensures Indexed(t) && FoundMore(old(Found()), Found(), m, t, now)
    {
      m' := m;
      if m.status.RightActive? {
        m' := ApplyActiveRight(m, now, t);
      } else if m.status.OfferPending? {
        m' := ApplyPendingOffer(m, now, t);
      } else {
        assert reserved[m.product := reserved[m.product] + 0] == reserved;
        if m.status.Queued? {
          queued := queued[m.product := queued[m.product] + [m.user]];
          timers := timers + [Timer(m.product, m.user, now)];
        }
      }
    }

    method ApplyOne(m: Membership, now: Time, ghost t: Tables, ghost rows: seq<Membership>) returns (m': Membership)
      requires Indexed(t) && FoundAlong(Found(), rows, t, now)
      modifies this`queued, this`reserved, this`activeRights, this`declined, this`timers
      ensures Indexed(t) && FoundAlong(Found(), rows + [m], t, now)
      ensures m' == RepairedMember(m, Known(t), t.rights, now)
    {
      ghost var before := Found();
      m' := m;
      if m.user != NO_NAME && m.quantity > 0 && !m.status.UnknownMembershipStatus? && m.product in queued {
        m' := ApplyLive(m, now, t);
        LiveRowFound(before, Found(), rows, m, t, now);
      } else {
        OtherRowFound(before, rows, m, t, now);
      }
    }

    method ApplyMemberships(rows: seq<Membership>, now: Time, ghost t: Tables) returns (repaired: seq<Membership>)
      requires Indexed(t) && FoundAlong(Found(), [], t, now)
      modifies this`queued, this`reserved, this`activeRights, this`declined, this`timers
      ensures Indexed(t) && FoundAlong(Found(), rows, t, now) && repaired == RepairedAlong(rows, t, now)
    {
      repaired := [];
      var i := 0;
      while i < |rows|
        invariant 0 <= i <= |rows|
        invariant Indexed(t) && FoundAlong(Found(), rows[..i], t, now)
        invariant repaired == RepairedAlong(rows[..i], t, now)
      {
        assert rows[..i + 1] == rows[..i] + [rows[i]];
        var m := ApplyOne(rows[i], now, t, rows[..i]);
        repaired := repaired + [m];
        i := i + 1;
      }
      assert rows[..i] == rows;
    }

    // Rights that nobody claimed are orphans.
    method ExpireOrphans(ghost rows: seq<Membership>, ghost t: Tables)
      requires t.WellKeyed() && Lists(rows, t) && Indexed(t) && Stockless(t)
      requires forall x :: x in activeRights ==> (activeRights[x] <==> ClaimedAlong(rows, t, x))
      modifies this`expired
      ensures forall x :: x in expired <==> x in t.rights && MustExpire(t, x)
    {
      var todo := activeRights.Keys;
      while todo != {}
        invariant todo <= activeRights.Keys
        invariant forall x :: x in expired <==>
          x in old(expired) || (x in activeRights && x !in todo && !activeRights[x])
        decreases todo
      {
        var x :| x in todo;
        if !activeRights[x] {
          expired := expired + {x};
        }
        todo := todo - {x};
      }
      forall x | x in t.rights
        ensures x in expired <==> MustExpire(t, x)
      {
        ClaimedIsHonoured(rows, t, x);
      }
    }

    // buildRecoveryState
    method Build(stocks: seq<StockRow>, rows: seq<Membership>, rights: seq<Right>, now: Time, ghost t: Tables)
      returns (repaired: seq<Membership>)
      requires t.WellKeyed() && ListsStocks(stocks, t) && Lists(rows, t) && ListsRights(rights, t)
      modifies this
      ensures queued.Keys == reserved.Keys == Known(t)
      ensures forall p :: p in Known(t) ==> queued[p] == Waiting(rows, Known(t), p) && reserved[p] == Reserved(t, p)
      ensures forall x :: x in expired <==> x in t.rights && MustExpire(t, x)
      ensures repaired == RepairedAlong(rows, t, now)
      ensures declined == DeclinedAlong(rows, t, now) && timers == TimersAlong(rows, t, now)
    {
      IndexProducts(stocks, t);
      IndexRights(rights, t);
      declined, timers := [], [];
      NothingFound(Found(), t, now);
      repaired := ApplyMemberships(rows, now, t);
      ExpireOrphans(rows, t);
      forall p | p in Known(t)
        ensures reserved[p] == Reserved(t, p)
      {
        AlongIsReserved(rows, t, p);
      }
    }
  }
}
