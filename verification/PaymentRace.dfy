/**
One purchase right under fire: any number of payment webhooks, expiration workers, leave
requests and rejoins of its holder, interleaved between every transaction and script.

All of them but the webhooks hold the user's membership claim. Whoever wins the row lock on
the right decides; the cached copies follow in later steps.
*/
module PaymentRace {
  import opened Models

  datatype Verdict = Pending | Sold(order: OrderId) | Lapsed

  // The membership of the holder: with this right, ended, or of a later lifecycle.
  datatype Seat = Holding | Bought | Left | Rejoined(life: nat)

  // Leavers and workers run the same code once they hold the claim.
  datatype Kind = Payer(order: OrderId) | Expirer | Joiner

  datatype Pc =
    | Ready
    | Claimed      // holds the membership claim, next reads the cached membership
    | Read         // next runs its transaction
    | ToCount      // next CommitPurchase
    | ToRight      // next SetRight
    | ToSeat       // next writes the cached membership
    | ToRestore    // next RestoreAvailableUnits
    | Releasing    // next gives the claim back
    | Done

  datatype Proc = Proc(kind: Kind, pc: Pc, won: bool, row: Verdict)

  datatype Race = Race(
    quantity: nat,
    // PostgreSQL
    right: Verdict, seat: Seat, count: int,
    // Redis
    cachedRight: Verdict, cachedSeat: Seat, cachedCount: int, available: int,
    claim: Option<nat>,
    procs: map<nat, Proc>)

  predicate Live(r: Race, i: nat) {
    i in r.procs && !r.procs[i].pc.Done?
  }

  function To(r: Race, i: nat, pc: Pc): Race
    requires i in r.procs
  {
    r.(procs := r.procs[i := r.procs[i].(pc := pc)])
  }

  // ---- The transactions ----

  // UseRightTx; late says that the right has run out by the clock.
  function UseRight(r: Race, i: nat, order: OrderId, late: bool): Race
    requires i in r.procs
  {
    match r.right
    case Sold(o) =>
      if o != order then To(r, i, Done)
      else r.(procs := r.procs[i := r.procs[i].(pc := ToRight, row := r.right)])
    case Lapsed => To(r, i, Done)
    case Pending =>
      if late || r.count < r.quantity then To(r, i, Done)
      else
        r.(right := Sold(order), count := r.count - r.quantity,
           seat := if r.seat.Holding? then Bought else r.seat,
           procs := r.procs[i := r.procs[i].(pc := ToCount, won := true, row := Sold(order))])
  }

  // ExpireRightAndUpsertMembershipTx
  function Expire(r: Race, i: nat): Race
    requires i in r.procs
  {
    if r.right.Pending? then
      r.(right := Lapsed, seat := Left,
         procs := r.procs[i := r.procs[i].(pc := ToRight, won := true, row := Lapsed)])
    else r.(procs := r.procs[i := r.procs[i].(pc := ToRight, row := r.right)])
  }

  // ---- One step of one process ----

  function Act(r: Race, i: nat, late: bool): Race
    requires Live(r, i)
  {
    var p := r.procs[i];
    match p.kind
    case Payer(order) => ActPayer(r, i, order, late)
    case Expirer => ActExpirer(r, i)
    case Joiner => ActJoiner(r, i)
  }

  function ActPayer(r: Race, i: nat, order: OrderId, late: bool): Race
    requires Live(r, i)
  {
    match r.procs[i].pc
    case Ready => UseRight(r, i, order, late)
    case ToCount => To(r, i, ToRight).(cachedCount := r.cachedCount - r.quantity)
    case ToRight => To(r, i, ToSeat).(cachedRight := r.procs[i].row)
    case ToSeat => To(r, i, Done).(cachedSeat := if r.cachedSeat.Holding? then Bought else r.cachedSeat)
    case _ => To(r, i, Done)
  }

  function Enter(r: Race, i: nat): Race
    requires i in r.procs
  {
    if r.claim.Some? then To(r, i, Done) else To(r, i, Claimed).(claim := Some(i))
  }

  function ActExpirer(r: Race, i: nat): Race
    requires Live(r, i)
  {
    match r.procs[i].pc
    case Ready => Enter(r, i)
    case Claimed => To(r, i, if r.cachedSeat.Holding? then Read else Releasing)
    case Read => Expire(r, i)
    case ToRight => To(r, i, if r.procs[i].row.Lapsed? then ToSeat else Releasing).(cachedRight := r.procs[i].row)
    case ToSeat => To(r, i, if r.procs[i].won then ToRestore else Releasing).(cachedSeat := Left)
    case ToRestore => To(r, i, Releasing).(available := r.available + r.quantity)
    case _ => To(r, i, Done).(claim := None)
  }

  // The new lifecycle is written to PostgreSQL first, then cached.
  function ActJoiner(r: Race, i: nat): Race
    requires Live(r, i)
  {
    match r.procs[i].pc
    case Ready => Enter(r, i)
    case Claimed => To(r, i, if r.cachedSeat.Holding? then Releasing else Read)
    case Read => To(r, i, ToSeat).(seat := Rejoined(i))
    case ToSeat => To(r, i, Releasing).(cachedSeat := Rejoined(i))
    case _ => To(r, i, Done).(claim := None)
  }

  // ---- The invariant ----

  predicate Owns(p: Proc) {
    !p.kind.Payer? && !p.pc.Ready? && !p.pc.Done?
  }

  predicate PcOk(p: Proc) {
    match p.kind
    case Payer(_) => p.pc in {Ready, ToCount, ToRight, ToSeat, Done} && (p.pc.ToCount? ==> p.won)
    case Expirer => p.pc in {Ready, Claimed, Read, ToRight, ToSeat, ToRestore, Releasing, Done}
      && (p.pc.ToSeat? || p.pc.ToRestore? ==> p.won)
    case Joiner => p.pc in {Ready, Claimed, Read, ToSeat, Releasing, Done}
  }

  // What a process knows about the right after its transaction.
  predicate Informed(r: Race, i: nat, p: Proc) {
    && (p.won ==>
          match p.kind
          case Payer(order) => r.right == Sold(order) && !p.pc.Ready?
          case Expirer => r.right.Lapsed? && (p.pc in {ToRight, ToSeat, ToRestore, Releasing, Done})
          case Joiner => false)
    && (p.kind.Payer? && p.pc in {ToCount, ToRight, ToSeat} ==> p.row == r.right && r.right == Sold(p.kind.order))
    && (p.kind.Expirer? && p.pc in {ToRight, ToSeat} ==> p.row == r.right && !r.right.Pending?)
    && (p.kind.Expirer? && p.pc.ToRight? && !p.won ==> r.right.Sold?)
    && (p.kind.Expirer? && p.pc.Read? ==> !r.right.Lapsed?)
    && (p.kind.Expirer? && p.won && p.pc in {ToRight, ToSeat} ==> r.seat.Left? && r.cachedSeat.Holding?)
    && (p.kind.Joiner? && p.pc in {Read, ToSeat} ==> !r.right.Pending? && !r.cachedSeat.Holding?)
    && (p.kind.Joiner? && p.pc.Read? ==> r.seat == r.cachedSeat)
    && (p.kind.Joiner? && p.pc.ToSeat? ==> r.seat == Rejoined(i))
  }

  predicate ClaimOk(r: Race) {
    && (forall i :: i in r.procs && Owns(r.procs[i]) ==> r.claim == Some(i))
    && (r.claim.Some? ==> r.claim.value in r.procs && Owns(r.procs[r.claim.value]))
  }

  // w is the one process that decided, if any has.
  predicate OneWinner(r: Race, w: Option<nat>) {
    && (w.Some? <==> !r.right.Pending?)
    && (w.Some? ==> w.value in r.procs)
    && forall i :: i in r.procs ==> (r.procs[i].won <==> w == Some(i))
  }

  predicate WinnerAt(r: Race, w: Option<nat>, pcs: set<Pc>) {
    w.Some? && w.value in r.procs && r.procs[w.value].pc in pcs
  }

  // The cached copies lag behind only as long as the one who owes them is at work.
  predicate SeatOk(r: Race, w: Option<nat>) {
    || r.cachedSeat == r.seat
    || (r.cachedSeat.Holding? && r.seat.Bought? && r.right.Sold? && WinnerAt(r, w, {ToCount, ToRight, ToSeat}))
    || (r.cachedSeat.Holding? && r.seat.Left? && r.right.Lapsed? && WinnerAt(r, w, {ToRight, ToSeat}))
    || (!r.cachedSeat.Holding?
        && r.claim.Some? && r.claim.value in r.procs && r.procs[r.claim.value].kind.Joiner?
        && r.procs[r.claim.value].pc.ToSeat? && r.seat == Rejoined(r.claim.value))
  }

  predicate RightOk(r: Race, w: Option<nat>) {
    || r.cachedRight == r.right
    || (r.cachedRight.Pending? && WinnerAt(r, w, {ToCount, ToRight}))
  }

  // Before anybody acted there were count units in all, available of them free.
  predicate NumbersOk(r: Race, w: Option<nat>, count: int, available: int) {
    && r.count == count - (if r.right.Sold? then r.quantity else 0)
    && r.cachedCount == r.count + (if WinnerAt(r, w, {ToCount}) then r.quantity else 0)
    && r.available == available
         + (if r.right.Lapsed? && !WinnerAt(r, w, {ToRight, ToSeat, ToRestore}) then r.quantity else 0)
  }

  predicate RaceInv(r: Race, w: Option<nat>, count: int, available: int) {
    && (forall i :: i in r.procs ==> PcOk(r.procs[i]) && Informed(r, i, r.procs[i]))
    && ClaimOk(r) && OneWinner(r, w) && SeatOk(r, w) && RightOk(r, w) && NumbersOk(r, w, count, available)
    && (r.seat.Holding? <==> r.right.Pending?)
    && (r.cachedSeat.Holding? || !r.right.Pending?)
  }

  // Every process is about to start and both stores show the active right.
  predicate Start(r: Race) {
    && r.right.Pending? && r.cachedRight.Pending? && r.seat.Holding? && r.cachedSeat.Holding?
    && r.cachedCount == r.count && r.claim.None?
    && forall i :: i in r.procs ==> r.procs[i].pc.Ready? && !r.procs[i].won
  }

  lemma {:induction false} StartInv(r: Race)
    requires Start(r)
    ensures RaceInv(r, None, r.count, r.available)
  {
  }

  // ---- Every step keeps it ----

  // Who has decided after process i has acted.
  function Decider(r: Race, w: Option<nat>, i: nat, late: bool): Option<nat>
    requires Live(r, i)
  {
    if w.None? && !Act(r, i, late).right.Pending? then Some(i) else w
  }

  ghost predicate StepKeeps(r: Race, w: Option<nat>, i: nat, late: bool, count: int, available: int)
    requires Live(r, i)
  {
    RaceInv(Act(r, i, late), Decider(r, w, i, late), count, available)
  }

  lemma {:induction false} WebhookDecides(r: Race, w: Option<nat>, i: nat, late: bool, count: int, available: int)
    requires RaceInv(r, w, count, available) && Live(r, i) && r.procs[i].kind.Payer? && r.procs[i].pc.Ready?
    requires r.right.Pending?
    ensures StepKeeps(r, w, i, late, count, available)
  {
  }

  // A step that changes nothing but how far one process has come.
  predicate OnlyMoves(r: Race, r': Race, i: nat) {
    i in r.procs && i in r'.procs && r' == r.(procs := r.procs[i := r'.procs[i]], claim := r'.claim)
    && r'.procs[i].won == r.procs[i].won && r'.procs[i].kind == r.procs[i].kind
  }

  lemma {:induction false} MoveKeepsOthers(r: Race, r': Race, i: nat)
    requires (forall j :: j in r.procs ==> PcOk(r.procs[j]) && Informed(r, j, r.procs[j])) && OnlyMoves(r, r', i)
    requires PcOk(r'.procs[i]) && Informed(r', i, r'.procs[i])
    requires r'.claim == r.claim || r.claim == Some(i) || r.claim.None?
    ensures forall j :: j in r'.procs ==> PcOk(r'.procs[j]) && Informed(r', j, r'.procs[j])
  {
    assert forall j :: j in r.procs && j != i ==> r'.procs[j] == r.procs[j];
    assert forall j :: j in r.procs && j != i ==> Informed(r', j, r'.procs[j]);
  }

  lemma {:induction false} MoveKeepsRest(r: Race, r': Race, w: Option<nat>, i: nat, count: int, available: int)
    requires OnlyMoves(r, r', i) && OneWinner(r, w) && SeatOk(r, w) && RightOk(r, w) && NumbersOk(r, w, count, available)
    requires w == Some(i) ==> r'.procs[i].pc == r.procs[i].pc || (r.procs[i].pc.Releasing? && r'.procs[i].pc.Done?)
    requires r.claim == Some(i) ==> !r.procs[i].pc.ToSeat?
    requires r'.claim == r.claim || r.claim == Some(i) || r.claim.None?
    ensures OneWinner(r', w) && SeatOk(r', w) && RightOk(r', w) && NumbersOk(r', w, count, available)
  {
    assert forall j :: j in r.procs && j != i ==> r'.procs[j] == r.procs[j];
  }

  lemma {:induction false} MoveKeepsInv(r: Race, r': Race, w: Option<nat>, i: nat, count: int, available: int)
    requires RaceInv(r, w, count, available) && OnlyMoves(r, r', i)
    requires PcOk(r'.procs[i]) && Informed(r', i, r'.procs[i]) && ClaimOk(r')
    requires w == Some(i) ==> r'.procs[i].pc == r.procs[i].pc || (r.procs[i].pc.Releasing? && r'.procs[i].pc.Done?)
    requires r.claim == Some(i) ==> !r.procs[i].pc.ToSeat?
    requires r'.claim == r.claim || r.claim == Some(i) || r.claim.None?
    ensures RaceInv(r', w, count, available)
  {
    MoveKeepsOthers(r, r', i);
    MoveKeepsRest(r, r', w, i, count, available);
  }

  lemma {:induction false} WebhookLoses(r: Race, w: Option<nat>, i: nat, late: bool, count: int, available: int)
    requires RaceInv(r, w, count, available) && Live(r, i) && r.procs[i].kind.Payer? && r.procs[i].pc.Ready?
    requires !r.right.Pending?
    ensures StepKeeps(r, w, i, late, count, available)
  {
    assert Informed(r, i, r.procs[i]);
    MoveKeepsInv(r, Act(r, i, late), w, i, count, available);
  }

  lemma {:induction false} WebhookCaches(r: Race, w: Option<nat>, i: nat, late: bool, count: int, available: int)
    requires RaceInv(r, w, count, available) && Live(r, i) && r.procs[i].kind.Payer?
    requires r.procs[i].pc.ToCount? || r.procs[i].pc.ToRight?
    ensures StepKeeps(r, w, i, late, count, available)
  {
    if r.procs[i].pc.ToCount? {
      WebhookCounts(r, w, i, late, count, available);
    }
  }

  lemma {:induction false} WebhookCounts(r: Race, w: Option<nat>, i: nat, late: bool, count: int, available: int)
    requires RaceInv(r, w, count, available) && Live(r, i) && r.procs[i].kind.Payer? && r.procs[i].pc.ToCount?
    ensures StepKeeps(r, w, i, late, count, available)
  {
  }

  lemma {:induction false} WebhookMarks(r: Race, w: Option<nat>, i: nat, late: bool, count: int, available: int)
    requires RaceInv(r, w, count, available) && Live(r, i) && r.procs[i].kind.Payer?
    requires r.procs[i].pc.ToSeat?
    ensures StepKeeps(r, w, i, late, count, available)
  {
  }

  lemma {:induction false} Enters(r: Race, w: Option<nat>, i: nat, late: bool, count: int, available: int)
    requires RaceInv(r, w, count, available) && Live(r, i) && !r.procs[i].kind.Payer?
    requires r.procs[i].pc.Ready? || r.procs[i].pc.Claimed? || r.procs[i].pc.Releasing?
    ensures StepKeeps(r, w, i, late, count, available)
  {
    assert Informed(r, i, r.procs[i]) && PcOk(r.procs[i]);
    MoveKeepsInv(r, Act(r, i, late), w, i, count, available);
  }

  lemma {:induction false} ExpirerDecides(r: Race, w: Option<nat>, i: nat, late: bool, count: int, available: int)
    requires RaceInv(r, w, count, available) && Live(r, i) && r.procs[i].kind.Expirer? && r.procs[i].pc.Read?
    ensures StepKeeps(r, w, i, late, count, available)
  {
  }

  lemma {:induction false} ExpirerCaches(r: Race, w: Option<nat>, i: nat, late: bool, count: int, available: int)
    requires RaceInv(r, w, count, available) && Live(r, i) && r.procs[i].kind.Expirer?
    requires r.procs[i].pc.ToRight? || r.procs[i].pc.ToSeat?
    ensures StepKeeps(r, w, i, late, count, available)
  {
    if r.procs[i].pc.ToRight? {
      ExpirerCachesRight(r, w, i, late, count, available);
    }
  }

  lemma {:induction false} ExpirerCachesRight(r: Race, w: Option<nat>, i: nat, late: bool, count: int, available: int)
    requires RaceInv(r, w, count, available) && Live(r, i) && r.procs[i].kind.Expirer? && r.procs[i].pc.ToRight?
    ensures StepKeeps(r, w, i, late, count, available)
  {
  }

  lemma {:induction false} ExpirerRestores(r: Race, w: Option<nat>, i: nat, late: bool, count: int, available: int)
    requires RaceInv(r, w, count, available) && Live(r, i) && r.procs[i].kind.Expirer? && r.procs[i].pc.ToRestore?
    ensures StepKeeps(r, w, i, late, count, available)
  {
  }

  lemma {:induction false} JoinerActs(r: Race, w: Option<nat>, i: nat, late: bool, count: int, available: int)
    requires RaceInv(r, w, count, available) && Live(r, i) && r.procs[i].kind.Joiner?
    requires r.procs[i].pc in {Read, ToSeat}
    ensures StepKeeps(r, w, i, late, count, available)
  {
  }

  lemma {:induction false} ActKeepsInv(r: Race, w: Option<nat>, i: nat, late: bool, count: int, available: int)
    requires RaceInv(r, w, count, available) && Live(r, i)
    ensures StepKeeps(r, w, i, late, count, available)
  {
    var p := r.procs[i];
    assert PcOk(p);
    match p.pc
    case Ready =>
      if !p.kind.Payer? {
        Enters(r, w, i, late, count, available);
      } else if r.right.Pending? {
        WebhookDecides(r, w, i, late, count, available);
      } else {
        WebhookLoses(r, w, i, late, count, available);
      }
    case ToCount => WebhookCaches(r, w, i, late, count, available);
    case _ =>
      if p.pc.Claimed? || p.pc.Releasing? {
        Enters(r, w, i, late, count, available);
      } else if p.kind.Expirer? {
        if p.pc.Read? {
          ExpirerDecides(r, w, i, late, count, available);
        } else if p.pc.ToRestore? {
          ExpirerRestores(r, w, i, late, count, available);
        } else {
          ExpirerCaches(r, w, i, late, count, available);
        }
      } else if p.kind.Joiner? {
        JoinerActs(r, w, i, late, count, available);
      } else if p.pc.ToRight? {
        WebhookCaches(r, w, i, late, count, available);
      } else {
        WebhookMarks(r, w, i, late, count, available);
      }
  }

  // ---- Any interleaving ----

  datatype Turn = Turn(proc: nat, late: bool)

  predicate Schedule(r: Race, run: seq<Turn>)
    decreases |run|
  {
    run == [] || (Live(r, run[0].proc) && Schedule(Act(r, run[0].proc, run[0].late), run[1..]))
  }

  function Outcome(r: Race, run: seq<Turn>): Race
    requires Schedule(r, run)
    decreases |run|
  {
    if run == [] then r else Outcome(Act(r, run[0].proc, run[0].late), run[1..])
  }

  lemma {:induction false} RunKeepsInv(r: Race, w: Option<nat>, run: seq<Turn>, count: int, available: int) returns (w': Option<nat>)
    requires RaceInv(r, w, count, available) && Schedule(r, run)
    ensures RaceInv(Outcome(r, run), w', count, available)
    ensures !r.right.Pending? ==> Outcome(r, run).right == r.right && w' == w
    decreases |run|
  {
    w' := w;
    if run != [] {
      var i, late := run[0].proc, run[0].late;
      ActKeepsInv(r, w, i, late, count, available);
      if !r.right.Pending? {
        DecidedOnce(r, i, late);
      }
      w' := RunKeepsInv(Act(r, i, late), Decider(r, w, i, late), run[1..], count, available);
    }
  }

  lemma {:induction false} DecidedOnce(r: Race, i: nat, late: bool)
    requires Live(r, i) && !r.right.Pending?
    ensures Act(r, i, late).right == r.right
  {
  }

  predicate Quiet(r: Race) {
    forall i :: i in r.procs ==> r.procs[i].pc.Done?
  }

  // The right is decided at most once and by one process; a payment takes its units out of
  // the product's count, an expiry gives them back to the pool, never both; and once all
  // processes are done Redis shows what PostgreSQL does, even if the holder has rejoined.
  lemma {:induction false} RaceIsDecidedOnce(r: Race, run: seq<Turn>)
    requires Start(r) && Schedule(r, run)
    ensures var r' := Outcome(r, run);
      && (forall i, j :: i in r'.procs && j in r'.procs && r'.procs[i].won && r'.procs[j].won ==> i == j)
      && (!r'.right.Pending? <==> exists i :: i in r'.procs && r'.procs[i].won)
      && r'.count == r.count - (if r'.right.Sold? then r.quantity else 0)
      && (Quiet(r') ==>
            && r'.cachedRight == r'.right && r'.cachedSeat == r'.seat && r'.cachedCount == r'.count
            && r'.available == r.available + (if r'.right.Lapsed? then r.quantity else 0)
            && r'.claim.None?)
  {
    StartInv(r);
    var w := RunKeepsInv(r, None, run, r.count, r.available);
    QuantityStays(r, run);
  }

  lemma {:induction false} QuantityStays(r: Race, run: seq<Turn>)
    requires Schedule(r, run)
    ensures Outcome(r, run).quantity == r.quantity
    decreases |run|
  {
    if run != [] {
      QuantityStays(Act(r, run[0].proc, run[0].late), run[1..]);
    }
  }

  // Nobody waits for anybody: every process finishes within eight of its own steps.
  function StepsLeft(pc: Pc): nat {
    match pc
    case Ready => 8
    case Claimed => 7
    case Read => 6
    case ToCount => 5
    case ToRight => 4
    case ToSeat => 3
    case ToRestore => 2
    case Releasing => 1
    case Done => 0
  }

  lemma {:induction false} EveryStepIsProgress(r: Race, w: Option<nat>, i: nat, late: bool, count: int, available: int)
    requires RaceInv(r, w, count, available) && Live(r, i)
    ensures var r' := Act(r, i, late);
      StepsLeft(r'.procs[i].pc) < StepsLeft(r.procs[i].pc)
      && forall j :: j in r.procs && j != i ==> r'.procs[j] == r.procs[j]
  {
    assert PcOk(r.procs[i]);
  }
}
