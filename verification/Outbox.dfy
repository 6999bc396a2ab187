/**
The transactional outbox and the idempotent receiver, for all products at once.

Any number of workers claim events under a lease and deliver them at least once. A request
may get lost, its answer may get lost, and a worker may die between any two steps.
*/
module Outbox {
  import opened Models
  import opened MapSums

  type EventId = nat

  // ---- AvitoBackend's stock ----

  datatype Operation = Operation(product: ProductId, quantity: int, left: int)

  // A product nobody has asked for yet has the default stock.
  datatype Receiver = Receiver(counts: map<ProductId, int>, processed: map<EventId, Operation>, defaultStock: nat) {
    function Count(p: ProductId): int {
      if p in counts then counts[p] else defaultStock
    }

    function Get(p: ProductId): (Receiver, int) {
      (if p in counts then this else this.(counts := counts[p := defaultStock]), Count(p))
    }

    function Take(p: ProductId, quantity: int, key: EventId): (Receiver, TakeReply) {
      if key in processed then
        (this, if processed[key].product != p || processed[key].quantity != quantity then Conflict(processed[key].left)
               else Replay(processed[key].left))
      else
        var left := if Count(p) - quantity < 0 then 0 else Count(p) - quantity;
        (this.(counts := counts[p := left], processed := processed[key := Operation(p, quantity, left)]), Taken(left))
    }
  }

  datatype TakeReply = Taken(left: int) | Replay(left: int) | Conflict(left: int)

  // ---- The outbox ----

  datatype Event = Event(
    product: ProductId,
    quantity: int,
    attempts: nat,
    nextAttempt: Time,
    lockedUntil: Option<Time>,
    delivered: bool,
    createdAt: Time)
  {
    predicate IsDue(now: Time) {
      !delivered && nextAttempt <= now && (lockedUntil.None? || lockedUntil.value <= now)
    }
  }

  // What a worker is doing with its copy of an event.
  datatype Phase = Sending | Accepted | Rejected

  datatype Job = Job(id: EventId, event: Event, phase: Phase)

  datatype Exchange = Exchange(
    local: map<ProductId, int>,   // product_count
    events: map<EventId, Event>,
    receiver: Receiver,
    jobs: map<nat, Job>)

  // What becomes of one request to AvitoBackend.
  datatype Network = Answered | RequestLost | AnswerLost

  datatype Action =
    | FirstContact(product: ProductId)
    | Pay(id: EventId, product: ProductId, quantity: int, at: Time)
    | Claim(job: nat, id: EventId, at: Time, lease: Time)
    | Send(job: nat, network: Network)
    | MarkDelivered(job: nat)
    | Reschedule(job: nat, next: Time)
    | Die(job: nat)

  predicate Possible(x: Exchange, a: Action) {
    match a
    case FirstContact(p) => p !in x.local
    case Pay(id, p, q, _) => id !in x.events && p in x.local && 0 < q <= x.local[p]
    case Claim(j, id, at, _) => j !in x.jobs && id in x.events && x.events[id].IsDue(at)
    case Send(j, _) => j in x.jobs && x.jobs[j].phase.Sending?
    case MarkDelivered(j) => j in x.jobs && x.jobs[j].phase.Accepted?
    case Reschedule(j, _) => j in x.jobs && x.jobs[j].phase.Rejected?
    case Die(j) => j in x.jobs
  }

  function Leased(e: Event, until: Time): Event {
    e.(attempts := e.attempts + 1, lockedUntil := Some(until))
  }

  // Rows already acknowledged are left alone.
  function Updated(x: Exchange, id: EventId, e: Event): map<EventId, Event> {
    if id in x.events && !x.events[id].delivered then x.events[id := e] else x.events
  }

  function Next(x: Exchange, a: Action): Exchange
    requires Possible(x, a)
  {
    match a
    case FirstContact(p) =>
      var (receiver, total) := x.receiver.Get(p);
      x.(receiver := receiver, local := x.local[p := total])
    case Pay(id, p, q, at) =>
      x.(local := x.local[p := x.local[p] - q], events := x.events[id := Event(p, q, 0, at, None, false, at)])
    case Claim(j, id, at, lease) =>
      var e := Leased(x.events[id], at + lease);
      x.(events := x.events[id := e], jobs := x.jobs[j := Job(id, e, Sending)])
    case Send(j, network) =>
      var job := x.jobs[j];
      var (receiver, reply) := x.receiver.Take(job.event.product, job.event.quantity, job.id);
      x.(receiver := if network.RequestLost? then x.receiver else receiver,
         jobs := x.jobs[j := job.(phase := if network.Answered? && !reply.Conflict? then Accepted else Rejected)])
    case MarkDelivered(j) =>
      var id := x.jobs[j].id;
      x.(events := if id in x.events then Updated(x, id, x.events[id].(delivered := true, lockedUntil := None)) else x.events,
         jobs := x.jobs - {j})
    case Reschedule(j, next) =>
      var id := x.jobs[j].id;
      x.(events := if id in x.events then Updated(x, id, x.events[id].(nextAttempt := next, lockedUntil := None)) else x.events,
         jobs := x.jobs - {j})
    case Die(j) => x.(jobs := x.jobs - {j})
  }

  // ---- What the receiver still has to learn ----

  function UnappliedOf(events: map<EventId, Event>, processed: map<EventId, Operation>, p: ProductId): map<EventId, int> {
    map id | id in events :: if events[id].product == p && id !in processed then events[id].quantity else 0
  }

  ghost function Unapplied(x: Exchange, p: ProductId): int {
    Sum(UnappliedOf(x.events, x.receiver.processed, p))
  }

  predicate SameOrder(e: Event, product: ProductId, quantity: int) {
    e.product == product && e.quantity == quantity
  }

  ghost predicate Balanced(x: Exchange) {
    forall p :: p in x.local ==> x.receiver.Count(p) == x.local[p] + Unapplied(x, p)
  }

  predicate NonNegative(counts: map<ProductId, int>) {
    forall p :: p in counts ==> counts[p] >= 0
  }

  predicate EventsOk(events: map<EventId, Event>, products: set<ProductId>, processed: map<EventId, Operation>) {
    && (forall id :: id in events ==> events[id].quantity > 0 && events[id].product in products)
    && (forall id :: id in events && events[id].delivered ==> id in processed)
    && (forall id :: id in processed ==>
          id in events && SameOrder(events[id], processed[id].product, processed[id].quantity))
  }

  predicate JobOk(j: Job, events: map<EventId, Event>, processed: map<EventId, Operation>) {
    && j.id in events && SameOrder(events[j.id], j.event.product, j.event.quantity)
    && (j.phase.Accepted? ==> j.id in processed)
  }

  predicate JobsOk(jobs: map<nat, Job>, events: map<EventId, Event>, processed: map<EventId, Operation>) {
    forall j :: j in jobs ==> JobOk(jobs[j], events, processed)
  }

  ghost predicate ExchangeInv(x: Exchange) {
    && Balanced(x) && NonNegative(x.local) && NonNegative(x.receiver.counts)
    && EventsOk(x.events, x.local.Keys, x.receiver.processed)
    && JobsOk(x.jobs, x.events, x.receiver.processed)
  }

  lemma {:induction false} UnappliedBounds(x: Exchange, id: EventId)
    requires id in x.events && id !in x.receiver.processed && forall i :: i in x.events ==> x.events[i].quantity > 0
    ensures 0 < x.events[id].quantity <= Unapplied(x, x.events[id].product)
  {
    TermBounded(UnappliedOf(x.events, x.receiver.processed, x.events[id].product), id);
  }

  // What changes when one event is added, or when the receiver applies it.
  lemma {:induction false} UnappliedAfter(events: map<EventId, Event>, processed: map<EventId, Operation>,
    events': map<EventId, Event>, processed': map<EventId, Operation>, id: EventId, p: ProductId)
    requires id in events' && events'.Keys == events.Keys + {id}
    requires processed'.Keys - {id} == processed.Keys - {id}
    requires forall i :: i in events && i != id ==> SameOrder(events'[i], events[i].product, events[i].quantity)
    ensures Sum(UnappliedOf(events', processed', p))
         == Sum(UnappliedOf(events, processed, p))
            - (if id in events then UnappliedOf(events, processed, p)[id] else 0)
            + UnappliedOf(events', processed', p)[id]
  {
    var before: map<EventId, int>, after: map<EventId, int> := UnappliedOf(events, processed, p), UnappliedOf(events', processed', p);
    forall i | i in events' && i != id
      ensures after[i] == before[i]
    {
      assert i in processed'.Keys - {id} <==> i in processed.Keys - {id};
    }
    assert after == before[id := after[id]];
    SumUpdate(before, id, after[id]);
    assert id in before <==> id in events;
  }

  // Nothing was ordered of a product before the first contact.
  lemma {:induction false} ContactKeepsInv(x: Exchange, p: ProductId)
    requires ExchangeInv(x) && p !in x.local
    ensures ExchangeInv(Next(x, FirstContact(p)))
  {
    var x' := Next(x, FirstContact(p));
    NothingUnapplied(x, p);
    forall q | q in x'.local
      ensures x'.local[q] >= 0 && x'.receiver.Count(q) == x'.local[q] + Unapplied(x', q)
    {
      assert x'.receiver.Count(q) == x.receiver.Count(q);
      assert Unapplied(x', q) == Unapplied(x, q);
    }
  }

  lemma {:induction false} NothingUnapplied(x: Exchange, p: ProductId)
    requires forall id :: id in x.events && x.events[id].product == p ==> id in x.receiver.processed
    ensures Unapplied(x, p) == 0
  {
    SumAllZero(UnappliedOf(x.events, x.receiver.processed, p));
  }

  lemma {:induction false} PayKeepsBalance(x: Exchange, x': Exchange, id: EventId, p: ProductId, q: int)
    requires Balanced(x) && id !in x.events && id !in x.receiver.processed && p in x.local
    requires x'.local == x.local[p := x.local[p] - q] && x'.receiver == x.receiver
    requires id in x'.events && SameOrder(x'.events[id], p, q) && x'.events == x.events[id := x'.events[id]]
    ensures Balanced(x')
  {
    forall r | r in x'.local
      ensures x'.receiver.Count(r) == x'.local[r] + Unapplied(x', r)
    {
      UnappliedAfter(x.events, x.receiver.processed, x'.events, x'.receiver.processed, id, r);
    }
  }

  lemma {:induction false} PayKeepsRows(events: map<EventId, Event>, id: EventId, e: Event, products: set<ProductId>,
    processed: map<EventId, Operation>, jobs: map<nat, Job>)
    requires EventsOk(events, products, processed) && JobsOk(jobs, events, processed)
    requires id !in events && e.quantity > 0 && e.product in products && !e.delivered
    ensures EventsOk(events[id := e], products, processed) && JobsOk(jobs, events[id := e], processed)
    ensures id !in processed
  {
    forall j | j in jobs
      ensures JobOk(jobs[j], events[id := e], processed)
    {
      assert JobOk(jobs[j], events, processed);
    }
  }

  lemma {:induction false} SpendKeepsNonNegative(local: map<ProductId, int>, p: ProductId, q: int)
    requires NonNegative(local) && p in local && q <= local[p]
    ensures NonNegative(local[p := local[p] - q]) && local[p := local[p] - q].Keys == local.Keys
  {
  }

  lemma {:induction false} OrderKeepsInv(x: Exchange, x': Exchange, id: EventId, e: Event)
    requires ExchangeInv(x) && id !in x.events && e.product in x.local && 0 < e.quantity <= x.local[e.product] && !e.delivered
    requires x' == x.(local := x.local[e.product := x.local[e.product] - e.quantity], events := x.events[id := e])
    ensures ExchangeInv(x')
  {
    PayKeepsRows(x.events, id, e, x.local.Keys, x.receiver.processed, x.jobs);
    SpendKeepsNonNegative(x.local, e.product, e.quantity);
    PayKeepsBalance(x, x', id, e.product, e.quantity);
  }

  lemma {:induction false} PayKeepsInv(x: Exchange, id: EventId, p: ProductId, q: int, at: Time)
    requires ExchangeInv(x) && Possible(x, Pay(id, p, q, at))
    ensures ExchangeInv(Next(x, Pay(id, p, q, at)))
  {
    OrderKeepsInv(x, Next(x, Pay(id, p, q, at)), id, Event(p, q, 0, at, None, false, at));
  }

  // A row that only changes its bookkeeping.
  lemma {:induction false} RowKeepsBalance(x: Exchange, x': Exchange, id: EventId)
    requires Balanced(x) && id in x.events && id in x'.events
    requires x'.local == x.local && x'.receiver == x.receiver
    requires x'.events == x.events[id := x'.events[id]]
    requires SameOrder(x'.events[id], x.events[id].product, x.events[id].quantity)
    ensures Balanced(x')
  {
    forall p | p in x'.local
      ensures Unapplied(x', p) == Unapplied(x, p)
    {
      UnappliedAfter(x.events, x.receiver.processed, x'.events, x'.receiver.processed, id, p);
    }
  }

  lemma {:induction false} RowKeepsRows(events: map<EventId, Event>, id: EventId, e: Event, products: set<ProductId>,
    processed: map<EventId, Operation>, jobs: map<nat, Job>)
    requires EventsOk(events, products, processed) && JobsOk(jobs, events, processed)
    requires id in events && SameOrder(e, events[id].product, events[id].quantity)
    requires e.delivered ==> id in processed
    ensures EventsOk(events[id := e], products, processed) && JobsOk(jobs, events[id := e], processed)
  {
    forall j | j in jobs
      ensures JobOk(jobs[j], events[id := e], processed)
    {
      assert JobOk(jobs[j], events, processed);
    }
  }

  lemma {:induction false} RowKeepsInv(x: Exchange, x': Exchange, id: EventId, e: Event)
    requires ExchangeInv(x) && id in x.events && x' == x.(events := x.events[id := e], jobs := x'.jobs)
    requires SameOrder(e, x.events[id].product, x.events[id].quantity)
    requires e.delivered ==> id in x.receiver.processed
    requires JobsOk(x'.jobs, x.events, x.receiver.processed)
    ensures ExchangeInv(x')
  {
    RowKeepsBalance(x, x', id);
    RowKeepsRows(x.events, id, e, x.local.Keys, x.receiver.processed, x'.jobs);
  }

  lemma {:induction false} ClaimKeepsJobs(jobs: map<nat, Job>, j: nat, job: Job, events: map<EventId, Event>, processed: map<EventId, Operation>)
    requires JobsOk(jobs, events, processed) && JobOk(job, events, processed)
    ensures JobsOk(jobs[j := job], events, processed)
  {
  }

  lemma {:induction false} ClaimKeepsInv(x: Exchange, j: nat, id: EventId, at: Time, lease: Time)
    requires ExchangeInv(x) && Possible(x, Claim(j, id, at, lease))
    ensures ExchangeInv(Next(x, Claim(j, id, at, lease)))
  {
    var x' := Next(x, Claim(j, id, at, lease));
    ClaimKeepsJobs(x.jobs, j, x'.jobs[j], x.events, x.receiver.processed);
    RowKeepsInv(x, x', id, x'.events[id]);
  }

  // Acknowledging or postponing an event that is already acknowledged changes nothing.
  lemma {:induction false} SettleKeepsInv(x: Exchange, x': Exchange, j: nat, e: Event)
    requires ExchangeInv(x) && j in x.jobs && JobOk(x.jobs[j], x.events, x.receiver.processed)
    requires SameOrder(e, x.events[x.jobs[j].id].product, x.events[x.jobs[j].id].quantity)
    requires e.delivered ==> x.jobs[j].id in x.receiver.processed
    requires x' == x.(events := Updated(x, x.jobs[j].id, e), jobs := x.jobs - {j})
    ensures ExchangeInv(x')
  {
    var id := x.jobs[j].id;
    if x.events[id].delivered {
      JobKeepsInv(x, x', j);
    } else {
      RowKeepsInv(x, x', id, e);
    }
  }

  lemma {:induction false} MarkKeepsInv(x: Exchange, j: nat)
    requires ExchangeInv(x) && Possible(x, MarkDelivered(j))
    ensures ExchangeInv(Next(x, MarkDelivered(j)))
  {
    var id := x.jobs[j].id;
    assert JobOk(x.jobs[j], x.events, x.receiver.processed);
    SettleKeepsInv(x, Next(x, MarkDelivered(j)), j, x.events[id].(delivered := true, lockedUntil := None));
  }

  lemma {:induction false} RescheduleKeepsInv(x: Exchange, j: nat, next: Time)
    requires ExchangeInv(x) && Possible(x, Reschedule(j, next))
    ensures ExchangeInv(Next(x, Reschedule(j, next)))
  {
    var id := x.jobs[j].id;
    assert JobOk(x.jobs[j], x.events, x.receiver.processed);
    SettleKeepsInv(x, Next(x, Reschedule(j, next)), j, x.events[id].(nextAttempt := next, lockedUntil := None));
  }

  function TakeFor(x: Exchange, j: nat): (Receiver, TakeReply)
    requires j in x.jobs
  {
    x.receiver.Take(x.jobs[j].event.product, x.jobs[j].event.quantity, x.jobs[j].id)
  }

  // What is still owed to the receiver is there to be taken.
  lemma {:induction false} Owed(x: Exchange, j: nat)
    requires ExchangeInv(x) && j in x.jobs && x.jobs[j].id !in x.receiver.processed
    ensures JobOk(x.jobs[j], x.events, x.receiver.processed)
    ensures 0 < x.jobs[j].event.quantity <= x.receiver.Count(x.jobs[j].event.product)
  {
    var p := x.jobs[j].event.product;
    assert JobOk(x.jobs[j], x.events, x.receiver.processed);
    UnappliedBounds(x, x.jobs[j].id);
    assert x.receiver.Count(p) == x.local[p] + Unapplied(x, p);
  }

  lemma {:induction false} TakesExactly(r: Receiver, p: ProductId, q: int, key: EventId)
    requires key !in r.processed && 0 < q <= r.Count(p)
    ensures var (r', reply) := r.Take(p, q, key);
      && reply == Taken(r.Count(p) - q) && r'.Count(p) == r.Count(p) - q
      && r'.processed == r.processed[key := Operation(p, q, r.Count(p) - q)]
      && forall other :: other != p ==> r'.Count(other) == r.Count(other)
  {
  }

  // A delivery that arrives for the first time takes exactly its quantity: the clamp at
  // zero is never hit.
  lemma {:induction false} FirstArrival(x: Exchange, j: nat)
    requires ExchangeInv(x) && j in x.jobs && x.jobs[j].id !in x.receiver.processed
    ensures var p, q := x.jobs[j].event.product, x.jobs[j].event.quantity;
      && x.receiver.Count(p) - q >= 0
      && TakeFor(x, j).1 == Taken(x.receiver.Count(p) - q)
      && TakeFor(x, j).0.Count(p) == x.receiver.Count(p) - q
      && TakeFor(x, j).0.processed == x.receiver.processed[x.jobs[j].id := Operation(p, q, x.receiver.Count(p) - q)]
      && forall r :: r != p ==> TakeFor(x, j).0.Count(r) == x.receiver.Count(r)
  {
    Owed(x, j);
    TakesExactly(x.receiver, x.jobs[j].event.product, x.jobs[j].event.quantity, x.jobs[j].id);
  }

  lemma {:induction false} TakeKeepsBalance(x: Exchange, x': Exchange, id: EventId)
    requires Balanced(x) && id in x.events && id !in x.receiver.processed
    requires x' == x.(receiver := x'.receiver) && x'.receiver.processed.Keys == x.receiver.processed.Keys + {id}
    requires x'.receiver.Count(x.events[id].product) == x.receiver.Count(x.events[id].product) - x.events[id].quantity
    requires forall p :: p != x.events[id].product ==> x'.receiver.Count(p) == x.receiver.Count(p)
    ensures Balanced(x')
  {
    forall p | p in x'.local
      ensures x'.receiver.Count(p) == x'.local[p] + Unapplied(x', p)
    {
      UnappliedAfter(x.events, x.receiver.processed, x'.events, x'.receiver.processed, id, p);
      assert x.receiver.Count(p) == x.local[p] + Unapplied(x, p);
    }
  }

  lemma {:induction false} TakeKeepsRows(events: map<EventId, Event>, products: set<ProductId>, jobs: map<nat, Job>,
    processed: map<EventId, Operation>, id: EventId, op: Operation)
    requires EventsOk(events, products, processed) && JobsOk(jobs, events, processed)
    requires id in events && SameOrder(events[id], op.product, op.quantity)
    ensures EventsOk(events, products, processed[id := op]) && JobsOk(jobs, events, processed[id := op])
  {
    forall j | j in jobs
      ensures JobOk(jobs[j], events, processed[id := op])
    {
      assert JobOk(jobs[j], events, processed);
    }
  }

  lemma {:induction false} TakesToNonNegative(r: Receiver, p: ProductId, q: int, key: EventId)
    requires NonNegative(r.counts)
    ensures NonNegative(r.Take(p, q, key).0.counts)
  {
  }

  lemma {:induction false} FirstTakeKeepsInv(x: Exchange, x': Exchange, id: EventId, op: Operation)
    requires ExchangeInv(x) && id in x.events && id !in x.receiver.processed
    requires SameOrder(x.events[id], op.product, op.quantity) && NonNegative(x'.receiver.counts)
    requires x' == x.(receiver := x'.receiver) && x'.receiver.processed == x.receiver.processed[id := op]
    requires x'.receiver.Count(op.product) == x.receiver.Count(op.product) - op.quantity
    requires forall p :: p != op.product ==> x'.receiver.Count(p) == x.receiver.Count(p)
    ensures ExchangeInv(x')
  {
    TakeKeepsBalance(x, x', id);
    TakeKeepsRows(x.events, x.local.Keys, x.jobs, x.receiver.processed, id, op);
  }

  lemma {:induction false} TakeKeepsInv(x: Exchange, x': Exchange, j: nat)
    requires ExchangeInv(x) && j in x.jobs && x.jobs[j].id !in x.receiver.processed
    requires x' == x.(receiver := TakeFor(x, j).0)
    ensures ExchangeInv(x')
  {
    var job := x.jobs[j];
    var p, q := job.event.product, job.event.quantity;
    assert JobOk(job, x.events, x.receiver.processed);
    FirstArrival(x, j);
    TakesToNonNegative(x.receiver, p, q, job.id);
    FirstTakeKeepsInv(x, x', job.id, Operation(p, q, x.receiver.Count(p) - q));
  }

  lemma {:induction false} JobKeepsInv(x: Exchange, x': Exchange, j: nat)
    requires ExchangeInv(x) && j in x.jobs && x' == x.(jobs := x'.jobs)
    requires x'.jobs == x.jobs - {j}
      || (j in x'.jobs && x'.jobs == x.jobs[j := x.jobs[j].(phase := x'.jobs[j].phase)]
          && (x'.jobs[j].phase.Accepted? ==> x.jobs[j].id in x.receiver.processed))
    ensures ExchangeInv(x')
  {
    assert forall p :: Unapplied(x', p) == Unapplied(x, p);
  }

  lemma {:induction false} SendKeepsInv(x: Exchange, j: nat, network: Network)
    requires ExchangeInv(x) && Possible(x, Send(j, network))
    ensures ExchangeInv(Next(x, Send(j, network)))
  {
    var x' := Next(x, Send(j, network));
    var x1 := x.(receiver := x'.receiver);
    if x.jobs[j].id !in x.receiver.processed && !network.RequestLost? {
      TakeKeepsInv(x, x1, j);
    }
    JobKeepsInv(x1, x', j);
  }

  lemma {:induction false} NextKeepsExchange(x: Exchange, a: Action)
    requires ExchangeInv(x) && Possible(x, a)
    ensures ExchangeInv(Next(x, a))
  {
    match a
    case FirstContact(p) => ContactKeepsInv(x, p);
    case Pay(id, p, q, at) => PayKeepsInv(x, id, p, q, at);
    case Claim(j, id, at, lease) => ClaimKeepsInv(x, j, id, at, lease);
    case Send(j, network) => SendKeepsInv(x, j, network);
    case MarkDelivered(j) => MarkKeepsInv(x, j);
    case Reschedule(j, next) => RescheduleKeepsInv(x, j, next);
    case Die(j) => JobKeepsInv(x, Next(x, a), j);
  }

  // A request that arrives again is recognised: it neither conflicts nor takes anything.
  lemma {:induction false} DuplicatesAreReplays(x: Exchange, j: nat)
    requires ExchangeInv(x) && j in x.jobs && x.jobs[j].id in x.receiver.processed
    ensures var (r, reply) := x.receiver.Take(x.jobs[j].event.product, x.jobs[j].event.quantity, x.jobs[j].id);
      r == x.receiver && reply == Replay(x.receiver.processed[x.jobs[j].id].left)
  {
  }

  // ---- Runs ----

  predicate PossibleRun(x: Exchange, run: seq<Action>)
    decreases |run|
  {
    run == [] || (Possible(x, run[0]) && PossibleRun(Next(x, run[0]), run[1..]))
  }

  function Outcome(x: Exchange, run: seq<Action>): Exchange
    requires PossibleRun(x, run)
    decreases |run|
  {
    if run == [] then x else Outcome(Next(x, run[0]), run[1..])
  }

  function Opening(defaultStock: nat): Exchange {
    Exchange(map[], map[], Receiver(map[], map[], defaultStock), map[])
  }

  lemma {:induction false} RunKeepsExchange(x: Exchange, run: seq<Action>)
    requires ExchangeInv(x) && PossibleRun(x, run)
    ensures ExchangeInv(Outcome(x, run))
    decreases |run|
  {
    if run != [] {
      NextKeepsExchange(x, run[0]);
      RunKeepsExchange(Next(x, run[0]), run[1..]);
    }
  }

  // Through duplicates, lost requests, lost answers and dead workers the external stock is
  // product_count plus what it has not been told yet; once everything is acknowledged the
  // two are equal.
  lemma {:induction false} StocksAgree(defaultStock: nat, run: seq<Action>, p: ProductId)
    requires PossibleRun(Opening(defaultStock), run)
    requires p in Outcome(Opening(defaultStock), run).local
    ensures var x := Outcome(Opening(defaultStock), run);
      && x.receiver.Count(p) == x.local[p] + Unapplied(x, p) >= 0
      && ((forall id :: id in x.events && x.events[id].product == p ==> x.events[id].delivered) ==>
            x.receiver.Count(p) == x.local[p])
  {
    RunKeepsExchange(Opening(defaultStock), run);
    var x := Outcome(Opening(defaultStock), run);
    SumNonNegative(UnappliedOf(x.events, x.receiver.processed, p));
    if forall id :: id in x.events && x.events[id].product == p ==> x.events[id].delivered {
      SumAllZero(UnappliedOf(x.events, x.receiver.processed, p));
    }
  }

  predicate KeepsEvent(x: Exchange, x': Exchange, id: EventId) {
    && id in x.events && id in x'.events
    && SameOrder(x'.events[id], x.events[id].product, x.events[id].quantity)
    && (x.events[id].delivered ==> x'.events[id].delivered)
    && (id in x.receiver.processed ==>
          id in x'.receiver.processed && x'.receiver.processed[id] == x.receiver.processed[id])
  }

  lemma {:induction false} NextKeepsEvent(x: Exchange, a: Action, id: EventId)
    requires Possible(x, a) && id in x.events
    requires forall j :: j in x.jobs ==> x.jobs[j].id in x.events
    ensures KeepsEvent(x, Next(x, a), id)
  {
  }

  // An order is never lost, an acknowledgement never taken back and never premature, and
  // the receiver's ledger remembers what it did.
  lemma {:induction false} EventsAreKept(x: Exchange, run: seq<Action>, id: EventId)
    requires ExchangeInv(x) && PossibleRun(x, run) && id in x.events
    ensures KeepsEvent(x, Outcome(x, run), id)
    ensures Outcome(x, run).events[id].delivered ==> id in Outcome(x, run).receiver.processed
    decreases |run|
  {
    if run != [] {
      var x1 := Next(x, run[0]);
      NextKeepsExchange(x, run[0]);
      assert forall j :: j in x.jobs ==> JobOk(x.jobs[j], x.events, x.receiver.processed);
      NextKeepsEvent(x, run[0], id);
      EventsAreKept(x1, run[1..], id);
    }
  }

  lemma {:induction false} RunExtends(x: Exchange, run: seq<Action>, a: Action)
    requires PossibleRun(x, run) && Possible(Outcome(x, run), a)
    ensures PossibleRun(x, run + [a]) && Outcome(x, run + [a]) == Next(Outcome(x, run), a)
    decreases |run|
  {
    var longer := run + [a];
    if run == [] {
      assert longer[1..] == [];
    } else {
      assert longer[0] == run[0] && longer[1..] == run[1..] + [a];
      RunExtends(Next(x, run[0]), run[1..], a);
    }
  }
}
