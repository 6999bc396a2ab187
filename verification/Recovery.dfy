/**
Crash recovery: which durable rows RecoverCache repairs, and what it makes of the rest.

The three tables are maps over their primary and unique keys. A snapshot lists them; only
the order of the memberships matters, because it becomes the order of the queues.
*/
module Recovery {
  import opened Models
  import opened MapSums

  datatype Tables = Tables(
    stocks: map<ProductId, StockRow>,
    members: map<ProductId, map<UserId, Membership>>,
    rights: map<Token, Right>)
  {
    predicate Has(p: ProductId, u: UserId) {
      p in members && u in members[p]
    }

    // What the primary and unique keys of the schema guarantee.
    ghost predicate WellKeyed() {
      && (forall p :: p in stocks ==> stocks[p].product == p)
      && (forall p, u :: Has(p, u) ==> members[p][u].product == p && members[p][u].user == u)
      && (forall t :: t in rights ==> rights[t].token == t)
    }
  }

  // ---- Which rows count ----

  predicate ValidStock(r: StockRow) {
    r.product != NO_NAME && 0 <= r.count <= r.total
  }

  function Known(t: Tables): set<ProductId> {
    set p | p in t.stocks && ValidStock(t.stocks[p])
  }

  predicate WellFormedRight(r: Right) {
    r.token != NO_NAME && r.user != NO_NAME && r.product != NO_NAME && r.quantity > 0
    && !r.status.UnknownRightStatus?
  }

  // A readable membership of a product that recovery knows.
  predicate Participates(m: Membership, known: set<ProductId>) {
    m.user != NO_NAME && m.quantity > 0 && !m.status.UnknownMembershipStatus? && m.product in known
  }

  predicate Usable(m: Membership, rights: map<Token, Right>) {
    m.token.Some? && m.expiresAt.Some? && m.token.value in rights
    && var r := rights[m.token.value];
       WellFormedRight(r) && r.status.Active? && r.user == m.user && r.product == m.product
       && r.quantity == m.quantity
  }

  predicate ValidOffer(m: Membership) {
    m.available.Some? && m.expiresAt.Some? && 0 < m.available.value <= m.quantity
  }

  predicate MustDecline(m: Membership, known: set<ProductId>, rights: map<Token, Right>) {
    Participates(m, known)
    && ((m.status.RightActive? && !Usable(m, rights)) || (m.status.OfferPending? && !ValidOffer(m)))
  }

  // The membership honours the right.
  predicate Honours(m: Membership, known: set<ProductId>, rights: map<Token, Right>, x: Token) {
    Participates(m, known) && m.status.RightActive? && Usable(m, rights) && m.token == Some(x)
  }

  // Only the right's own user and product can honour it.
  predicate Honoured(t: Tables, x: Token)
    requires x in t.rights
  {
    t.Has(t.rights[x].product, t.rights[x].user)
    && Honours(t.members[t.rights[x].product][t.rights[x].user], Known(t), t.rights, x)
  }

  predicate MustExpire(t: Tables, x: Token)
    requires x in t.rights
  {
    WellFormedRight(t.rights[x]) && t.rights[x].status.Active?
    && (t.rights[x].product !in Known(t) || !Honoured(t, x))
  }

  // ---- The repairs ----

  function RepairedMember(m: Membership, known: set<ProductId>, rights: map<Token, Right>, now: Time): Membership {
    if MustDecline(m, known, rights) then m.Settled(Declined, now) else m
  }

  function RepairedRight(t: Tables, x: Token): Right
    requires x in t.rights
  {
    if MustExpire(t, x) then t.rights[x].(status := Expired) else t.rights[x]
  }

  function RepairedMembers(t: Tables, p: ProductId, now: Time): map<UserId, Membership>
    requires p in t.members
  {
    map u | u in t.members[p] :: RepairedMember(t.members[p][u], Known(t), t.rights, now)
  }

  function RepairedRights(t: Tables): map<Token, Right> {
    map x | x in t.rights :: RepairedRight(t, x)
  }

  function Repaired(t: Tables, now: Time): Tables {
    Tables(t.stocks, map p | p in t.members :: RepairedMembers(t, p, now), RepairedRights(t))
  }

  // ---- What recovery computes from the rows ----

  // Units that an unrepaired membership goes on holding.
  function Reserves(m: Membership, known: set<ProductId>, rights: map<Token, Right>): int {
    if Participates(m, known) && !MustDecline(m, known, rights) then m.Units() else 0
  }

  function Reservations(t: Tables, p: ProductId): map<UserId, int> {
    if p in t.members then map u | u in t.members[p] :: Reserves(t.members[p][u], Known(t), t.rights)
    else map[]
  }

  ghost function Reserved(t: Tables, p: ProductId): int {
    Sum(Reservations(t, p))
  }

  ghost function RecoveredAvailable(t: Tables, p: ProductId): int
    requires p in t.stocks
  {
    if t.stocks[p].count >= Reserved(t, p) then t.stocks[p].count - Reserved(t, p) else 0
  }

  predicate Waits(m: Membership, known: set<ProductId>, p: ProductId) {
    Participates(m, known) && m.product == p && m.status.Queued?
  }

  // The queue of a product, in the order of the snapshot's rows.
  function Waiting(rows: seq<Membership>, known: set<ProductId>, p: ProductId): seq<UserId> {
    if rows == [] then []
    else
      var m := rows[|rows| - 1];
      Waiting(rows[..|rows| - 1], known, p) + (if Waits(m, known, p) then [m.user] else [])
  }

  // The instant at which a timer is set for a membership.
  function TimerOf(m: Membership, known: set<ProductId>, rights: map<Token, Right>, now: Time): Option<Time> {
    if !Participates(m, known) || MustDecline(m, known, rights) then None
    else if m.status.Queued? then Some(now)
    else if m.IsTimed() then m.expiresAt
    else None
  }

  // Rows as LoadRecoverySnapshot lists them, by product and stamp.
  ghost predicate Lists(rows: seq<Membership>, t: Tables) {
    && (forall i :: 0 <= i < |rows| ==>
          t.Has(rows[i].product, rows[i].user) && t.members[rows[i].product][rows[i].user] == rows[i])
    && (forall p, u :: t.Has(p, u) ==> exists i :: 0 <= i < |rows| && rows[i].product == p && rows[i].user == u)
    && (forall i, j :: 0 <= i < j < |rows| && rows[i].product == rows[j].product ==>
          rows[i].user != rows[j].user && rows[i].updatedAt <= rows[j].updatedAt)
  }

  // Rows of one product with the same stamp are listed by their row ids, which never change.
  predicate ById(rows: seq<Membership>, p: ProductId, id: UserId -> nat) {
    forall i, j :: 0 <= i < j < |rows| && rows[i].product == p && rows[j].product == p
                   && rows[i].updatedAt == rows[j].updatedAt ==>
      id(rows[i].user) < id(rows[j].user)
  }

  // ---- Any tables can be repaired ----

  // After the repairs, active rights and right-holding memberships pair off exactly.
  lemma {:induction false} RepairedRightsAreHonoured(t: Tables, now: Time, x: Token)
    requires t.WellKeyed()
    requires var r := Repaired(t, now);
      x in r.rights && WellFormedRight(r.rights[x]) && r.rights[x].status.Active?
    ensures var r := Repaired(t, now);
      r.rights[x].product in Known(r) && Honoured(r, x)
  {
    assert Known(Repaired(t, now)) == Known(t);
    assert !MustExpire(t, x);
    var m := t.members[t.rights[x].product][t.rights[x].user];
    assert RepairedMember(m, Known(t), t.rights, now) == m;
  }

  lemma {:induction false} RepairedHoldersHaveRights(t: Tables, now: Time, p: ProductId, u: UserId)
    requires t.WellKeyed() && t.Has(p, u)
    requires var r := Repaired(t, now);
      Participates(r.members[p][u], Known(r)) && r.members[p][u].status.RightActive?
    ensures var r := Repaired(t, now);
      Usable(r.members[p][u], r.rights) && Honoured(r, r.members[p][u].token.value)
      && r.rights[r.members[p][u].token.value].product == p && r.rights[r.members[p][u].token.value].user == u
  {
    assert Known(Repaired(t, now)) == Known(t);
    assert !MustDecline(t.members[p][u], Known(t), t.rights);
    var x := t.members[p][u].token.value;
    assert Honoured(t, x);
    assert RepairedRight(t, x) == t.rights[x];
  }

  predicate IsActiveRight(t: Tables, x: Token) {
    x in t.rights && WellFormedRight(t.rights[x]) && t.rights[x].status.Active?
  }

  predicate IsHolder(t: Tables, p: ProductId, u: UserId) {
    t.Has(p, u) && Participates(t.members[p][u], Known(t)) && t.members[p][u].status.RightActive?
  }

  // The right points at the membership, the membership at the right, and they agree.
  predicate Paired(t: Tables, x: Token, p: ProductId, u: UserId) {
    && IsActiveRight(t, x) && IsHolder(t, p, u)
    && t.rights[x].product == p && t.rights[x].user == u
    && t.members[p][u].token == Some(x) && t.members[p][u].quantity == t.rights[x].quantity
  }

  // A bijection: each side has its partner, and nobody has two.
  lemma {:induction false} RightsAndHoldersPairOff(t: Tables, now: Time)
    requires t.WellKeyed()
    ensures var r := Repaired(t, now);
      && (forall x :: IsActiveRight(r, x) ==> exists p, u :: Paired(r, x, p, u))
      && (forall p, u :: IsHolder(r, p, u) ==> exists x :: Paired(r, x, p, u))
      && (forall x, p, u, y, q, v :: Paired(r, x, p, u) && Paired(r, y, q, v) ==> (x == y <==> p == q && u == v))
  {
    var r := Repaired(t, now);
    assert Known(r) == Known(t);
    forall x | IsActiveRight(r, x)
      ensures exists p, u :: Paired(r, x, p, u)
    {
      RepairedRightsAreHonoured(t, now, x);
      assert Paired(r, x, r.rights[x].product, r.rights[x].user);
    }
    forall p, u | IsHolder(r, p, u)
      ensures exists x :: Paired(r, x, p, u)
    {
      RepairedHoldersHaveRights(t, now, p, u);
      assert Paired(r, r.members[p][u].token.value, p, u);
    }
  }

  // Tables after a crash that some of the repairs survived, in any combination.
  ghost predicate PartlyRepaired(t: Tables, part: Tables) {
    && part.stocks == t.stocks
    && part.members.Keys == t.members.Keys && part.rights.Keys == t.rights.Keys
    && (forall p :: p in t.members ==> part.members[p].Keys == t.members[p].Keys)
    && (forall x :: x in t.rights ==> part.rights[x] == t.rights[x] || part.rights[x] == RepairedRight(t, x))
    && (forall p, u :: t.Has(p, u) ==>
          part.members[p][u] == t.members[p][u]
          || (MustDecline(t.members[p][u], Known(t), t.rights)
              && part.members[p][u].SameUpToStamp(t.members[p][u].Settled(Declined, 0))))
  }

  // Expiring an orphan never makes or breaks a membership's claim to its right.
  lemma {:induction false} PartKeepsUsable(t: Tables, part: Tables, p: ProductId, u: UserId)
    requires t.WellKeyed() && PartlyRepaired(t, part) && t.Has(p, u)
    requires Participates(t.members[p][u], Known(t)) && t.members[p][u].status.RightActive?
    ensures Usable(t.members[p][u], part.rights) <==> Usable(t.members[p][u], t.rights)
  {
    var m := t.members[p][u];
    if Usable(m, t.rights) {
      assert Honoured(t, m.token.value);
    }
  }

  lemma {:induction false} PartKeepsDecline(t: Tables, part: Tables, p: ProductId, u: UserId)
    requires t.WellKeyed() && PartlyRepaired(t, part) && t.Has(p, u)
    ensures Known(part) == Known(t)
    ensures part.members[p][u] == t.members[p][u] ==>
      (MustDecline(part.members[p][u], Known(part), part.rights) <==> MustDecline(t.members[p][u], Known(t), t.rights))
    ensures part.members[p][u] != t.members[p][u] ==> !MustDecline(part.members[p][u], Known(part), part.rights)
  {
    if Participates(t.members[p][u], Known(t)) && t.members[p][u].status.RightActive? {
      PartKeepsUsable(t, part, p, u);
    }
  }

  lemma {:induction false} PartKeepsExpire(t: Tables, part: Tables, x: Token)
    requires t.WellKeyed() && PartlyRepaired(t, part) && x in t.rights
    ensures part.rights[x] == t.rights[x] ==> (MustExpire(part, x) <==> MustExpire(t, x))
    ensures part.rights[x] != t.rights[x] ==> !MustExpire(part, x)
  {
    assert Known(part) == Known(t);
    if part.rights[x] == t.rights[x] {
      var p, u := t.rights[x].product, t.rights[x].user;
      if t.Has(p, u) {
        PartKeepsDecline(t, part, p, u);
        if Participates(t.members[p][u], Known(t)) && t.members[p][u].status.RightActive? {
          PartKeepsUsable(t, part, p, u);
        }
      }
    }
  }

  lemma {:induction false} PartKeepsMember(t: Tables, part: Tables, p: ProductId, u: UserId, now: Time, later: Time)
    requires t.WellKeyed() && PartlyRepaired(t, part) && t.Has(p, u)
    ensures RepairedMember(part.members[p][u], Known(part), part.rights, later)
            .SameUpToStamp(RepairedMember(t.members[p][u], Known(t), t.rights, now))
    ensures !MustDecline(t.members[p][u], Known(t), t.rights) ==>
              RepairedMember(part.members[p][u], Known(part), part.rights, later) == t.members[p][u]
    ensures Reserves(part.members[p][u], Known(part), part.rights) == Reserves(t.members[p][u], Known(t), t.rights)
  {
    PartKeepsDecline(t, part, p, u);
  }

  // Whatever subset of the repairs reached the store before a crash, the next full recovery
  // ends with the same rows, up to the stamps of the declined ones, the same reservations and
  // the same timers.
  lemma {:induction false} InterruptedRepairConverges(t: Tables, part: Tables, now: Time, later: Time)
    requires t.WellKeyed() && PartlyRepaired(t, part)
    ensures part.WellKeyed() && Known(part) == Known(t)
    ensures RepairedRights(part) == RepairedRights(t)
    ensures forall p, u :: t.Has(p, u) ==>
      Repaired(part, later).members[p][u].SameUpToStamp(Repaired(t, now).members[p][u])
      && (!MustDecline(t.members[p][u], Known(t), t.rights) ==>
            Repaired(part, later).members[p][u] == t.members[p][u])
    ensures forall p :: Reserved(part, p) == Reserved(t, p)
    ensures forall p, u, at: Time :: t.Has(p, u) ==>
      TimerOf(part.members[p][u], Known(part), part.rights, at) == TimerOf(t.members[p][u], Known(t), t.rights, at)
  {
    forall x | x in t.rights
      ensures RepairedRight(part, x) == RepairedRight(t, x)
    {
      PartKeepsExpire(t, part, x);
    }
    forall p, u | t.Has(p, u)
      ensures Repaired(part, later).members[p][u].SameUpToStamp(Repaired(t, now).members[p][u])
      ensures !MustDecline(t.members[p][u], Known(t), t.rights) ==>
                Repaired(part, later).members[p][u] == t.members[p][u]
    {
      PartKeepsMember(t, part, p, u, now, later);
    }
    forall p
      ensures Reserved(part, p) == Reserved(t, p)
    {
      PartKeepsReserved(t, part, p);
    }
    forall p, u, at: Time | t.Has(p, u)
      ensures TimerOf(part.members[p][u], Known(part), part.rights, at) == TimerOf(t.members[p][u], Known(t), t.rights, at)
    {
      PartKeepsTimer(t, part, p, u, at);
    }
  }

  lemma {:induction false} PartKeepsTimer(t: Tables, part: Tables, p: ProductId, u: UserId, at: Time)
    requires t.WellKeyed() && PartlyRepaired(t, part) && t.Has(p, u)
    ensures TimerOf(part.members[p][u], Known(part), part.rights, at) == TimerOf(t.members[p][u], Known(t), t.rights, at)
  {
    PartKeepsDecline(t, part, p, u);
  }

  lemma {:induction false} PartKeepsReserved(t: Tables, part: Tables, p: ProductId)
    requires t.WellKeyed() && PartlyRepaired(t, part)
    ensures Reserved(part, p) == Reserved(t, p)
  {
    if p in t.members {
      forall u | u in t.members[p]
        ensures Reserves(part.members[p][u], Known(part), part.rights)
             == Reserves(t.members[p][u], Known(t), t.rights)
      {
        PartKeepsMember(t, part, p, u, 0, 0);
      }
    }
    assert Reservations(part, p) == Reservations(t, p);
  }

  lemma {:induction false} RepairedRightsStay(t: Tables, r: Tables)
    requires t.WellKeyed() && PartlyRepaired(t, r) && r.rights == RepairedRights(t)
    ensures RepairedRights(r) == r.rights
  {
    forall x | x in t.rights
      ensures !MustExpire(r, x)
    {
      PartKeepsExpire(t, r, x);
    }
  }

  lemma {:induction false} RepairedMembersStay(t: Tables, now: Time, later: Time, p: ProductId)
    requires t.WellKeyed() && p in t.members && PartlyRepaired(t, Repaired(t, now))
    ensures RepairedMembers(Repaired(t, now), p, later) == Repaired(t, now).members[p]
  {
    var r := Repaired(t, now);
    forall u | u in t.members[p]
      ensures !MustDecline(r.members[p][u], Known(r), r.rights)
    {
      PartKeepsDecline(t, r, p, u);
    }
  }

  // A second pass finds nothing to repair.
  lemma {:induction false} RepairIsIdempotent(t: Tables, now: Time, later: Time)
    requires t.WellKeyed()
    ensures Repaired(Repaired(t, now), later) == Repaired(t, now)
  {
    var r := Repaired(t, now);
    assert PartlyRepaired(t, r);
    RepairedRightsStay(t, r);
    forall p | p in t.members
      ensures RepairedMembers(r, p, later) == r.members[p]
    {
      RepairedMembersStay(t, now, later, p);
    }
    assert Repaired(r, later).members == r.members;
  }

  // ---- The recovered queue ----

  lemma {:induction false} WaitingPlace(rows: seq<Membership>, known: set<ProductId>, p: ProductId, i: nat) returns (k: nat)
    requires i < |Waiting(rows, known, p)|
    ensures k < |rows| && Waits(rows[k], known, p) && rows[k].user == Waiting(rows, known, p)[i]
  {
    var n := |rows| - 1;
    if i < |Waiting(rows[..n], known, p)| {
      k := WaitingPlace(rows[..n], known, p, i);
    } else {
      k := n;
    }
  }

  lemma {:induction false} WaitingOrder(rows: seq<Membership>, known: set<ProductId>, p: ProductId, i: nat, j: nat)
    returns (k: nat, l: nat)
    requires i < j < |Waiting(rows, known, p)|
    ensures k < l < |rows| && Waits(rows[k], known, p) && Waits(rows[l], known, p)
    ensures rows[k].user == Waiting(rows, known, p)[i] && rows[l].user == Waiting(rows, known, p)[j]
  {
    var n := |rows| - 1;
    if j < |Waiting(rows[..n], known, p)| {
      k, l := WaitingOrder(rows[..n], known, p, i, j);
    } else {
      k := WaitingPlace(rows[..n], known, p, i);
      l := n;
    }
  }

  lemma {:induction false} WaitingHas(rows: seq<Membership>, known: set<ProductId>, p: ProductId, k: nat)
    requires k < |rows| && Waits(rows[k], known, p)
    ensures rows[k].user in Waiting(rows, known, p)
  {
    var n := |rows| - 1;
    if k < n {
      WaitingHas(rows[..n], known, p, k);
    }
  }

  // ORDER BY updated_at, id
  predicate Earlier(ms: map<UserId, Membership>, id: UserId -> nat, u: UserId, v: UserId) {
    u in ms && v in ms
    && (ms[u].updatedAt < ms[v].updatedAt || (ms[u].updatedAt == ms[v].updatedAt && id(u) < id(v)))
  }

  predicate InOrder(users: seq<UserId>, ms: map<UserId, Membership>, id: UserId -> nat) {
    forall i, j {:trigger users[i], users[j]} :: 0 <= i < j < |users| ==> Earlier(ms, id, users[i], users[j])
  }

  function SetOf(users: seq<UserId>): set<UserId> {
    set u | u in users
  }

  function Waiters(ms: map<UserId, Membership>, known: set<ProductId>, p: ProductId): set<UserId> {
    set u | u in ms && Waits(ms[u], known, p)
  }

  lemma {:induction false} WaitingIsOrdered(rows: seq<Membership>, t: Tables, known: set<ProductId>, p: ProductId, id: UserId -> nat)
    requires t.WellKeyed() && Lists(rows, t) && ById(rows, p, id) && p in t.members
    ensures InOrder(Waiting(rows, known, p), t.members[p], id)
    ensures SetOf(Waiting(rows, known, p)) == Waiters(t.members[p], known, p)
  {
    var w, ms := Waiting(rows, known, p), t.members[p];
    forall i, j | 0 <= i < j < |w|
      ensures Earlier(ms, id, w[i], w[j])
    {
      var k, l := WaitingOrder(rows, known, p, i, j);
      assert t.Has(p, rows[k].user) && t.Has(p, rows[l].user);
      assert ms[w[i]] == rows[k] && ms[w[j]] == rows[l];
    }
    forall u | u in w
      ensures u in Waiters(ms, known, p)
    {
      var i :| 0 <= i < |w| && w[i] == u;
      var k := WaitingPlace(rows, known, p, i);
    }
    forall u | u in Waiters(ms, known, p)
      ensures u in w
    {
      assert t.Has(p, u);
      var k :| 0 <= k < |rows| && rows[k].product == p && rows[k].user == u;
      WaitingHas(rows, known, p, k);
    }
  }

  lemma {:induction false} LastOfOrder(a: seq<UserId>, ms: map<UserId, Membership>, id: UserId -> nat)
    requires a != [] && InOrder(a, ms, id)
    ensures SetOf(a[..|a| - 1]) == SetOf(a) - {a[|a| - 1]}
    ensures InOrder(a[..|a| - 1], ms, id)
  {
    var n := |a| - 1;
    assert a == a[..n] + [a[n]];
    assert forall i :: 0 <= i < n ==> a[i] != a[n];
  }

  lemma {:induction false} SameLast(a: seq<UserId>, b: seq<UserId>, ms: map<UserId, Membership>, id: UserId -> nat)
    requires InOrder(a, ms, id) && InOrder(b, ms, id)
    requires SetOf(a) == SetOf(b) && a != []
    ensures b != [] && a[|a| - 1] == b[|b| - 1]
  {
    var la := a[|a| - 1];
    assert la in SetOf(b);
    var i :| 0 <= i < |b| && b[i] == la;
    var lb := b[|b| - 1];
    assert lb in SetOf(a);
    var j :| 0 <= j < |a| && a[j] == lb;
  }

  // Two lists of the same users in this order are the same list.
  lemma {:induction false} OrderIsUnique(a: seq<UserId>, b: seq<UserId>, ms: map<UserId, Membership>, id: UserId -> nat)
    requires InOrder(a, ms, id) && InOrder(b, ms, id)
    requires SetOf(a) == SetOf(b)
    ensures a == b
    decreases |a|
  {
    if a == [] {
      if b != [] {
        SameLast(b, a, ms, id);
      }
    } else {
      SameLast(a, b, ms, id);
      LastOfOrder(a, ms, id);
      LastOfOrder(b, ms, id);
      OrderIsUnique(a[..|a| - 1], b[..|b| - 1], ms, id);
      assert a == a[..|a| - 1] + [a[|a| - 1]];
      assert b == b[..|b| - 1] + [b[|b| - 1]];
    }
  }

  lemma {:induction false} PartKeepsWaiters(t: Tables, part: Tables, p: ProductId)
    requires t.WellKeyed() && PartlyRepaired(t, part) && p in t.members
    ensures Known(part) == Known(t) && part.WellKeyed()
    ensures Waiters(part.members[p], Known(t), p) == Waiters(t.members[p], Known(t), p)
    ensures forall u :: u in Waiters(t.members[p], Known(t), p) ==> part.members[p][u] == t.members[p][u]
  {
    forall u | u in t.members[p] && (part.members[p][u].status.Queued? || t.members[p][u].status.Queued?)
      ensures part.members[p][u] == t.members[p][u]
    {
      assert t.Has(p, u);
    }
  }

  // The interrupted and the uninterrupted recovery build the same queues, ties included.
  lemma {:induction false} InterruptedRepairKeepsQueues(t: Tables, part: Tables, rows: seq<Membership>, rows': seq<Membership>, p: ProductId, id: UserId -> nat)
    requires t.WellKeyed() && PartlyRepaired(t, part) && p in t.members
    requires Lists(rows, t) && ById(rows, p, id) && Lists(rows', part) && ById(rows', p, id)
    ensures Waiting(rows', Known(part), p) == Waiting(rows, Known(t), p)
  {
    PartKeepsWaiters(t, part, p);
    WaitingIsOrdered(rows, t, Known(t), p, id);
    WaitingIsOrdered(rows', part, Known(t), p, id);
    var w, w' := Waiting(rows, Known(t), p), Waiting(rows', Known(t), p);
    forall i, j | 0 <= i < j < |w'|
      ensures Earlier(t.members[p], id, w'[i], w'[j])
    {
      assert w'[i] in SetOf(w') && w'[j] in SetOf(w');
      assert Earlier(part.members[p], id, w'[i], w'[j]);
    }
    OrderIsUnique(w', w, t.members[p], id);
  }
}
