/** What one pass of the outbox worker comes to, and how long it postpones what fails. */
module OutboxBatch {
  import opened Models
  import opened Outbox

  // ---- Backoff ----

  function Power(n: nat): (r: nat)
    ensures r >= 1
  {
    if n == 0 then 1 else 2 * Power(n - 1)
  }

  // One second, doubled with every further attempt up to a maximum.
  function Backoff(attempts: nat, maximum: Time): (delay: Time)
    ensures attempts > 1 ==> delay <= maximum
    ensures maximum > 0 ==> delay > 0
  {
    if attempts <= 1 then MILLIS
    else if MILLIS * Power(attempts - 1) > maximum then maximum
    else MILLIS * Power(attempts - 1)
  }

  // After the first second, every pause is twice the one before it, or the maximum.
  lemma {:induction false} BackoffDoubles(attempts: nat, maximum: Time)
    requires attempts >= 1
    ensures Backoff(1, maximum) == MILLIS
    ensures attempts > 1 || maximum >= MILLIS ==>
      Backoff(attempts + 1, maximum) == if 2 * Backoff(attempts, maximum) < maximum then 2 * Backoff(attempts, maximum) else maximum
    ensures attempts == 1 && maximum < MILLIS ==> Backoff(attempts + 1, maximum) == maximum
  {
    assert Power(attempts) == 2 * Power(attempts - 1);
  }

  lemma {:induction false} PowerGrows(m: nat, n: nat)
    requires m <= n
    ensures Power(m) <= Power(n)
    decreases n - m
  {
    if m < n {
      PowerGrows(m, n - 1);
    }
  }

  // A later retry waits at least as long as an earlier one, except that the first pause is a
  // whole second even where the maximum is less.
  lemma {:induction false} BackoffGrowsIff(attempts: nat, more: nat, maximum: Time)
    requires attempts <= more
    ensures Backoff(attempts, maximum) <= Backoff(more, maximum)
       <==> attempts > 1 || more <= 1 || maximum >= MILLIS
  {
    if attempts > 1 {
      PowerGrows(attempts - 1, more - 1);
    } else if more > 1 {
      PowerGrows(0, more - 1);
    }
  }

  ghost predicate NeverShrinks(maximum: Time) {
    forall attempts: nat, more: nat :: attempts <= more ==> Backoff(attempts, maximum) <= Backoff(more, maximum)
  }

  lemma {:induction false} NeverShrinksIff(maximum: Time)
    ensures NeverShrinks(maximum) <==> maximum >= MILLIS
  {
    BackoffGrowsIff(1, 2, maximum);
    forall attempts: nat, more: nat | attempts <= more && maximum >= MILLIS
      ensures Backoff(attempts, maximum) <= Backoff(more, maximum)
    {
      BackoffGrowsIff(attempts, more, maximum);
    }
  }

  // With half a second as the maximum the second pause is shorter than the first.
  lemma {:induction false} BackoffCanShrink()
    ensures Backoff(1, 500) == 1_000 && Backoff(2, 500) == 500
  {
    assert Power(1) == 2;
  }

  // ---- The query ----

  // ORDER BY next_attempt_at, created_at
  predicate NotAfter(e: Event, f: Event) {
    e.nextAttempt < f.nextAttempt || (e.nextAttempt == f.nextAttempt && e.createdAt <= f.createdAt)
  }

  // ---- What a pass comes to ----

  function Ids(batch: seq<(EventId, Event)>): set<EventId> {
    set b | b in batch :: b.0
  }

  predicate OnePerEvent(batch: seq<(EventId, Event)>) {
    forall k, l :: 0 <= k < l < |batch| ==> batch[k].0 != batch[l].0
  }

  // Copies of different due events, each one attempt and one lease further.
  predicate AreDue(before: map<EventId, Event>, batch: seq<(EventId, Event)>, now: Time, until: Time) {
    && OnePerEvent(batch)
    && forall b :: b in batch ==>
         b.0 in before && before[b.0].IsDue(now)
         && b.1 == before[b.0].(attempts := before[b.0].attempts + 1, lockedUntil := Some(until))
  }

  // As many as the limit allows, and in the order of the query: whatever else is due comes later.
  predicate FirstDue(before: map<EventId, Event>, batch: seq<(EventId, Event)>, now: Time, until: Time, limit: nat) {
    && AreDue(before, batch, now, until) && InQueryOrder(batch)
    && |batch| <= limit && (|batch| < limit ==> forall i :: i in before && before[i].IsDue(now) ==> i in Ids(batch))
    && forall k, i :: 0 <= k < |batch| && i in before && before[i].IsDue(now) && i !in Ids(batch) ==>
         NotAfter(batch[k].1, before[i])
  }

  // Only the events of the batch have changed, into the copies.
  predicate Claimed(before: map<EventId, Event>, events: map<EventId, Event>, batch: seq<(EventId, Event)>) {
    && events.Keys == before.Keys
    && (forall b :: b in batch ==> b.0 in events && events[b.0] == b.1)
    && forall i :: i in before && i !in Ids(batch) ==> events[i] == before[i]
  }

  // While the batch is being claimed.
  predicate SoFar(before: map<EventId, Event>, events: map<EventId, Event>, batch: seq<(EventId, Event)>, now: Time, until: Time) {
    && AreDue(before, batch, now, until) && Claimed(before, events, batch)
    && InQueryOrder(batch) && ComeFirst(batch, events, now)
  }

  lemma {:induction false} NothingClaimed(events: map<EventId, Event>, now: Time, until: Time)
    ensures SoFar(events, events, [], now, until)
  {
  }

  lemma {:induction false} ClaimsNext(before: map<EventId, Event>, events: map<EventId, Event>, batch: seq<(EventId, Event)>,
    id: EventId, e: Event, now: Time, until: Time)
    requires SoFar(before, events, batch, now, until) && until > now
    requires IsNextDue(events, Some(id), now) && e == Leased(events[id], until)
    ensures SoFar(before, events[id := e], batch + [(id, e)], now, until)
  {
    OrderGoesOn(batch, events, id, now, until);
    ClaimsOne(before, events, batch, id, e, now, until);
  }

  lemma {:induction false} IdsGrow(batch: seq<(EventId, Event)>, id: EventId, e: Event)
    ensures Ids(batch + [(id, e)]) == Ids(batch) + {id}
    ensures forall b :: b in batch + [(id, e)] <==> b in batch || b == (id, e)
  {
    assert (batch + [(id, e)])[|batch|] == (id, e);
    assert forall b :: b in batch + [(id, e)] <==> b in batch || b == (id, e);
  }

  // A due event is not in the batch yet: its lease would not be over.
  lemma {:induction false} ClaimsOne(before: map<EventId, Event>, events: map<EventId, Event>, batch: seq<(EventId, Event)>,
    id: EventId, e: Event, now: Time, until: Time)
    requires AreDue(before, batch, now, until) && Claimed(before, events, batch) && until > now
    requires id in events && events[id].IsDue(now) && e == Leased(events[id], until)
    ensures AreDue(before, batch + [(id, e)], now, until) && Claimed(before, events[id := e], batch + [(id, e)])
  {
    IdsGrow(batch, id, e);
    assert id !in Ids(batch) && events[id] == before[id];
    IsOnePerEvent(batch, id, e);
    assert forall b :: b in batch ==> b.0 in Ids(batch);
  }

  lemma {:induction false} IsOnePerEvent(batch: seq<(EventId, Event)>, id: EventId, e: Event)
    requires OnePerEvent(batch) && id !in Ids(batch)
    ensures OnePerEvent(batch + [(id, e)])
  {
    assert forall k :: 0 <= k < |batch| ==> batch[k] in batch && batch[k].0 in Ids(batch);
  }

  lemma {:induction false} BatchIsFirst(before: map<EventId, Event>, events: map<EventId, Event>, batch: seq<(EventId, Event)>,
    now: Time, until: Time, limit: nat)
    requires SoFar(before, events, batch, now, until) && |batch| <= limit
    requires |batch| < limit ==> forall i :: i in events ==> !events[i].IsDue(now)
    ensures FirstDue(before, batch, now, until, limit) && InHand(events, batch)
  {
    RestIsLater(before, events, batch, now, until);
  }

  lemma {:induction false} RestIsLater(before: map<EventId, Event>, events: map<EventId, Event>, batch: seq<(EventId, Event)>, now: Time, until: Time)
    requires AreDue(before, batch, now, until) && Claimed(before, events, batch) && ComeFirst(batch, events, now)
    ensures forall k, i :: 0 <= k < |batch| && i in before && before[i].IsDue(now) && i !in Ids(batch) ==>
      NotAfter(batch[k].1, before[i])
    ensures (forall i :: i in events ==> !events[i].IsDue(now)) ==>
      forall i :: i in before && before[i].IsDue(now) ==> i in Ids(batch)
  {
    forall k, i | 0 <= k < |batch| && i in before && before[i].IsDue(now) && i !in Ids(batch)
      ensures NotAfter(batch[k].1, before[i])
    {
      assert events[i].IsDue(now);
    }
  }

  // AvitoBackend's answer arrives, and it is not that the operation was a different one.
  predicate Accepts(r: Receiver, id: EventId, e: Event, network: Network) {
    network.Answered? && (id in r.processed ==> r.processed[id].product == e.product && r.processed[id].quantity == e.quantity)
  }

  // An accepted event is done; any other is free again after a pause.
  function Settle(e: Event, ok: bool, now: Time, maximum: Time): Event {
    if ok then e.(delivered := true, lockedUntil := None)
    else e.(nextAttempt := now + Backoff(e.attempts, maximum), lockedUntil := None)
  }

  // The first n events of the batch are answered by what AvitoBackend knew before the pass, and
  // nothing else is touched.
  predicate Settled(before: map<EventId, Event>, after: map<EventId, Event>, r: Receiver, batch: seq<(EventId, Event)>,
    networks: seq<Network>, times: seq<Time>, maximum: Time, n: nat)
    requires n <= |batch| && |networks| >= |batch| && |times| >= |batch|
  {
    && after.Keys == before.Keys
    && (forall k :: 0 <= k < n ==>
          batch[k].0 in after
          && after[batch[k].0] == Settle(batch[k].1, Accepts(r, batch[k].0, batch[k].1, networks[k]), times[k], maximum))
    && forall i :: i in before && i !in Ids(batch[..n]) ==> after[i] == before[i]
  }

  function Failures(r: Receiver, batch: seq<(EventId, Event)>, networks: seq<Network>, n: nat): set<nat>
    requires n <= |batch| && |networks| >= |batch|
  {
    set k: nat | 0 <= k < n && !Accepts(r, batch[k].0, batch[k].1, networks[k])
  }

  lemma {:induction false} FailuresNext(r: Receiver, batch: seq<(EventId, Event)>, networks: seq<Network>, n: nat)
    requires n < |batch| && |networks| >= |batch|
    ensures |Failures(r, batch, networks, n + 1)|
         == |Failures(r, batch, networks, n)| + if Accepts(r, batch[n].0, batch[n].1, networks[n]) then 0 else 1
  {
    var (f, f') := (Failures(r, batch, networks, n), Failures(r, batch, networks, n + 1));
    assert f' == if Accepts(r, batch[n].0, batch[n].1, networks[n]) then f else f + {n};
  }

  // What AvitoBackend makes of one request and of the first n.
  function Sent(r: Receiver, id: EventId, e: Event, network: Network): Receiver {
    if network.RequestLost? then r else r.Take(e.product, e.quantity, id).0
  }

  function Received(r: Receiver, batch: seq<(EventId, Event)>, networks: seq<Network>, n: nat): Receiver
    requires n <= |batch| && |networks| >= |batch|
  {
    if n == 0 then r else Sent(Received(r, batch, networks, n - 1), batch[n - 1].0, batch[n - 1].1, networks[n - 1])
  }

  // After the first n deliveries: the events, AvitoBackend, and how many deliveries failed.
  predicate Worked(before: map<EventId, Event>, after: map<EventId, Event>, r: Receiver, r': Receiver, batch: seq<(EventId, Event)>,
    networks: seq<Network>, times: seq<Time>, maximum: Time, n: nat, errors: nat)
    requires n <= |batch| && |networks| >= |batch| && |times| >= |batch|
  {
    && Settled(before, after, r, batch, networks, times, maximum, n)
    && r' == Received(r, batch, networks, n)
    && errors == |Failures(r, batch, networks, n)|
  }

  // Arrives with an operation that AvitoBackend has not seen.
  predicate IsNews(r: Receiver, b: (EventId, Event), network: Network) {
    !network.RequestLost? && b.0 !in r.processed
  }

  // Every request that arrives is in the ledger, and nothing that was in it changes.
  predicate Learned(r: Receiver, r': Receiver, batch: seq<(EventId, Event)>, networks: seq<Network>)
    requires |networks| >= |batch|
  {
    && (forall id :: id in r.processed ==> id in r'.processed && r'.processed[id] == r.processed[id])
    && (forall k :: 0 <= k < |batch| && IsNews(r, batch[k], networks[k]) ==>
          batch[k].0 in r'.processed && SameOrder(batch[k].1, r'.processed[batch[k].0].product, r'.processed[batch[k].0].quantity))
    && (forall id :: id in r'.processed && id !in r.processed ==>
          exists k :: 0 <= k < |batch| && batch[k].0 == id && IsNews(r, batch[k], networks[k]))
  }

  lemma {:induction false} ReceivedIsLearned(r: Receiver, batch: seq<(EventId, Event)>, networks: seq<Network>, n: nat)
    requires n <= |batch| && |networks| >= |batch| && OnePerEvent(batch)
    ensures Learned(r, Received(r, batch, networks, n), batch[..n], networks)
    ensures batch[..|batch|] == batch
    decreases n
  {
    assert batch[..|batch|] == batch;
    if n > 0 {
      ReceivedIsLearned(r, batch, networks, n - 1);
      LearnsNext(r, Received(r, batch, networks, n - 1), batch[..n - 1], batch[n - 1], networks);
      assert batch[..n] == batch[..n - 1] + [batch[n - 1]];
    }
  }

  lemma {:induction false} LearnsNext(r: Receiver, r1: Receiver, batch: seq<(EventId, Event)>, b: (EventId, Event), networks: seq<Network>)
    requires |networks| > |batch| && OnePerEvent(batch + [b]) && Learned(r, r1, batch, networks)
    ensures Learned(r, Sent(r1, b.0, b.1, networks[|batch|]), batch + [b], networks)
  {
    var r', more := Sent(r1, b.0, b.1, networks[|batch|]), batch + [b];
    assert forall k :: 0 <= k < |batch| ==> more[k] == batch[k];
    assert forall k :: 0 <= k < |batch| ==> more[k].0 != more[|batch|].0;
    forall id | id in r'.processed && id !in r.processed
      ensures exists k :: 0 <= k < |more| && more[k].0 == id && IsNews(r, more[k], networks[k])
    {
      if id in r1.processed {
        var k :| 0 <= k < |batch| && batch[k].0 == id && IsNews(r, batch[k], networks[k]);
        assert more[k].0 == id;
      } else {
        assert more[|batch|].0 == id;
      }
    }
  }

  // Units of a product that arrive for the first time.
  function NewUnits(r: Receiver, batch: seq<(EventId, Event)>, networks: seq<Network>, n: nat, p: ProductId): int
    requires n <= |batch| && |networks| >= |batch|
  {
    if n == 0 then 0 else
      NewUnits(r, batch, networks, n - 1, p)
      + if IsNews(r, batch[n - 1], networks[n - 1]) && batch[n - 1].1.product == p then batch[n - 1].1.quantity else 0
  }

  // AvitoBackend's stock falls by the units that are new to it, and not below zero.
  lemma {:induction false} ReceivedUnits(r: Receiver, batch: seq<(EventId, Event)>, networks: seq<Network>, n: nat, p: ProductId)
    requires n <= |batch| && |networks| >= |batch| && OnePerEvent(batch) && r.Count(p) >= 0
    requires forall b :: b in batch ==> b.1.quantity >= 0
    ensures var left := r.Count(p) - NewUnits(r, batch, networks, n, p);
      Received(r, batch, networks, n).Count(p) == (if left < 0 then 0 else left) && NewUnits(r, batch, networks, n, p) >= 0
    decreases n
  {
    if n > 0 {
      ReceivedUnits(r, batch, networks, n - 1, p);
      NotLearnedBefore(r, batch, networks, n - 1);
      assert batch[n - 1] in batch;
    }
  }

  // An event of the batch is new when its turn comes if it was new before the pass.
  lemma {:induction false} NotLearnedBefore(r: Receiver, batch: seq<(EventId, Event)>, networks: seq<Network>, n: nat)
    requires n < |batch| && |networks| >= |batch| && OnePerEvent(batch)
    ensures var r1 := Received(r, batch, networks, n);
      && (batch[n].0 in r1.processed <==> batch[n].0 in r.processed)
      && (batch[n].0 in r.processed ==> r1.processed[batch[n].0] == r.processed[batch[n].0])
  {
    ReceivedIsLearned(r, batch, networks, n);
  }

  // The events of the batch are still as they were claimed.
  predicate InHand(events: map<EventId, Event>, batch: seq<(EventId, Event)>) {
    OnePerEvent(batch) && forall b :: b in batch ==> b.0 in events && events[b.0] == b.1 && !b.1.delivered
  }

  lemma {:induction false} NothingDone(events: map<EventId, Event>, r: Receiver, batch: seq<(EventId, Event)>,
    networks: seq<Network>, times: seq<Time>, maximum: Time)
    requires |networks| >= |batch| && |times| >= |batch|
    ensures Worked(events, events, r, r, batch, networks, times, maximum, 0, 0)
  {
  }

  lemma {:induction false} NotYetSettled(batch: seq<(EventId, Event)>, n: nat)
    requires n < |batch| && OnePerEvent(batch)
    ensures batch[n].0 !in Ids(batch[..n]) && Ids(batch[..n + 1]) == Ids(batch[..n]) + {batch[n].0}
  {
    assert batch[..n + 1] == batch[..n] + [batch[n]];
  }

  lemma {:induction false} NextInHand(claimed: map<EventId, Event>, events: map<EventId, Event>, r: Receiver, r1: Receiver,
    batch: seq<(EventId, Event)>, networks: seq<Network>, times: seq<Time>, maximum: Time, n: nat, errors: nat)
    requires n < |batch| && |networks| >= |batch| && |times| >= |batch| && InHand(claimed, batch)
    requires Worked(claimed, events, r, r1, batch, networks, times, maximum, n, errors)
    ensures batch[n].0 in events && events[batch[n].0] == batch[n].1 && !batch[n].1.delivered
  {
    assert batch[n] in batch;
    NotYetSettled(batch, n);
  }

  lemma {:induction false} SettlesNext(claimed: map<EventId, Event>, was: map<EventId, Event>, r: Receiver, batch: seq<(EventId, Event)>,
    networks: seq<Network>, times: seq<Time>, maximum: Time, n: nat)
    requires n < |batch| && |networks| >= |batch| && |times| >= |batch| && OnePerEvent(batch) && batch[n].0 in claimed
    requires Settled(claimed, was, r, batch, networks, times, maximum, n)
    ensures var (id, e) := batch[n];
      Settled(claimed, was[id := Settle(e, Accepts(r, id, e, networks[n]), times[n], maximum)], r, batch, networks, times, maximum, n + 1)
  {
    NotYetSettled(batch, n);
  }

  lemma {:induction false} WorksNext(claimed: map<EventId, Event>, was: map<EventId, Event>, r: Receiver, r1: Receiver,
    batch: seq<(EventId, Event)>, networks: seq<Network>, times: seq<Time>, maximum: Time, n: nat, errors: nat, ok: bool)
    requires n < |batch| && |networks| >= |batch| && |times| >= |batch| && InHand(claimed, batch)
    requires Worked(claimed, was, r, r1, batch, networks, times, maximum, n, errors)
    requires ok <==> Accepts(r1, batch[n].0, batch[n].1, networks[n])
    ensures var (id, e) := batch[n];
      Worked(claimed, was[id := Settle(e, ok, times[n], maximum)], r, Sent(r1, id, e, networks[n]),
        batch, networks, times, maximum, n + 1, if ok then errors else errors + 1)
  {
    assert batch[n] in batch;
    NotLearnedBefore(r, batch, networks, n);
    SettlesNext(claimed, was, r, batch, networks, times, maximum, n);
    FailuresNext(r, batch, networks, n);
  }

  lemma {:induction false} WorkedFromBefore(before: map<EventId, Event>, claimed: map<EventId, Event>, after: map<EventId, Event>,
    r: Receiver, r': Receiver, batch: seq<(EventId, Event)>, networks: seq<Network>, times: seq<Time>, maximum: Time, errors: nat)
    requires |networks| >= |batch| && |times| >= |batch| && Claimed(before, claimed, batch)
    requires Worked(claimed, after, r, r', batch, networks, times, maximum, |batch|, errors)
    ensures Worked(before, after, r, r', batch, networks, times, maximum, |batch|, errors)
  {
    assert batch[..|batch|] == batch;
  }

  // The jobs from number first on are those of the batch, from its i-th element on.
  function JobFor(batch: seq<(EventId, Event)>, first: nat, j: nat): Job
    requires first <= j < first + |batch|
  {
    Job(batch[j - first].0, batch[j - first].1, Sending)
  }

  function Staff(batch: seq<(EventId, Event)>, first: nat, i: nat): map<nat, Job> {
    map j: nat | first + i <= j < first + |batch| :: JobFor(batch, first, j)
  }

  predicate Hired(before: map<nat, Job>, jobs: map<nat, Job>, batch: seq<(EventId, Event)>, first: nat, i: nat) {
    jobs == before + Staff(batch, first, i)
  }

  lemma {:induction false} HiredMore(before: map<nat, Job>, jobs: map<nat, Job>, batch: seq<(EventId, Event)>, first: nat, id: EventId, e: Event)
    requires Hired(before, jobs, batch, first, 0) && forall j :: j in before ==> j < first
    ensures Hired(before, jobs[first + |batch| := Job(id, e, Sending)], batch + [(id, e)], first, 0)
    ensures first + |batch| !in jobs
  {
  }

  lemma {:induction false} HiredLess(before: map<nat, Job>, jobs: map<nat, Job>, batch: seq<(EventId, Event)>, first: nat, i: nat)
    requires Hired(before, jobs, batch, first, i) && i < |batch| && forall j :: j in before ==> j < first
    ensures first + i in jobs && jobs[first + i] == Job(batch[i].0, batch[i].1, Sending)
    ensures Hired(before, jobs - {first + i}, batch, first, i + 1)
  {
  }

  lemma {:induction false} HiredNone(before: map<nat, Job>, jobs: map<nat, Job>, batch: seq<(EventId, Event)>, first: nat)
    requires Hired(before, jobs, batch, first, |batch|)
    ensures jobs == before
  {
  }

  predicate IsNextDue(events: map<EventId, Event>, id: Option<EventId>, now: Time) {
    match id
    case None => forall i :: i in events ==> !events[i].IsDue(now)
    case Some(first) =>
      first in events && events[first].IsDue(now)
      && forall i :: i in events && events[i].IsDue(now) ==> NotAfter(events[first], events[i])
  }

  predicate InQueryOrder(batch: seq<(EventId, Event)>) {
    forall k, l :: 0 <= k < l < |batch| ==> NotAfter(batch[k].1, batch[l].1)
  }

  // Whatever is still due comes after the batch.
  predicate ComeFirst(batch: seq<(EventId, Event)>, events: map<EventId, Event>, now: Time) {
    forall k, i :: 0 <= k < |batch| && i in events && events[i].IsDue(now) ==> NotAfter(batch[k].1, events[i])
  }

  lemma {:induction false} OrderGoesOn(batch: seq<(EventId, Event)>, events: map<EventId, Event>, id: EventId, now: Time, until: Time)
    requires InQueryOrder(batch) && ComeFirst(batch, events, now) && IsNextDue(events, Some(id), now) && until > now
    ensures var e := Leased(events[id], until);
      InQueryOrder(batch + [(id, e)]) && ComeFirst(batch + [(id, e)], events[id := e], now)
  {
  }
}
