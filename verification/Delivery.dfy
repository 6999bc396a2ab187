/** The outbox worker and AvitoBackend's stock as they run. */
module Delivery {
  import opened Models
  import opened Outbox
  import opened OutboxBatch

  // ---- AvitoBackend ----

  class Stock {
    var counts: map<ProductId, int>
    var processed: map<EventId, Operation>
    const defaultStock: nat

    function Contents(): Receiver
      reads this
    {
      Receiver(counts, processed, defaultStock)
    }

    constructor (defaultStock: nat)
      ensures Contents() == Receiver(map[], map[], defaultStock)
    {
      this.defaultStock := defaultStock;
      counts, processed := map[], map[];
    }

    method Get(p: ProductId) returns (n: int)
      modifies this
      ensures (Contents(), n) == old(Contents()).Get(p)
    {
      if p !in counts {
        counts := counts[p := defaultStock];
      }
      n := counts[p];
    }

    method Take(p: ProductId, quantity: int, key: EventId) returns (reply: TakeReply)
      modifies this
      ensures (Contents(), reply) == old(Contents()).Take(p, quantity, key)
    {
      if key in processed {
        var previous := processed[key];
        if previous.product != p || previous.quantity != quantity {
          return Conflict(previous.left);
        }
        return Replay(previous.left);
      }
      var left := if p in counts then counts[p] else defaultStock;
      left := left - quantity;
      if left < 0 {
        left := 0;
      }
      counts := counts[p := left];
      processed := processed[key := Operation(p, quantity, left)];
      return Taken(left);
    }
  }

  method StockOutboxBackoff(attempts: nat, maximum: Time) returns (delay: Time)
    ensures delay == Backoff(attempts, maximum)
  {
    if attempts <= 1 {
      return MILLIS;
    }
    delay := MILLIS;
    var i := 1;
    while i < attempts && delay < maximum
      invariant 1 <= i <= attempts
      invariant delay == MILLIS * Power(i - 1)
    {
      delay := delay * 2;
      i := i + 1;
    }
    PowerGrows(i - 1, attempts - 1);
    if delay > maximum {
      return maximum;
    }
  }

  // ---- The worker ----

  class Courier {
    const stock: Stock
    var events: map<EventId, Event>
    var local: map<ProductId, int>
    // Who else is at work on which event.
    ghost var jobs: map<nat, Job>

    ghost function Contents(): Exchange
      reads this, stock
    {
      Exchange(local, events, stock.Contents(), jobs)
    }

    constructor (stock: Stock)
      ensures this.stock == stock && events == map[] && local == map[] && jobs == map[]
    {
      this.stock := stock;
      events, local, jobs := map[], map[], map[];
    }

    // The due event that comes first by its next attempt, then by its age.
    method NextDue(now: Time) returns (id: Option<EventId>)
      ensures IsNextDue(events, id, now)
    {
      id := None;
      var pool := events.Keys;
      while pool != {}
        invariant pool <= events.Keys
        invariant id.Some? ==> id.value in events && events[id.value].IsDue(now)
        invariant forall i :: i in events && i !in pool && events[i].IsDue(now) ==>
          id.Some? && NotAfter(events[id.value], events[i])
        decreases pool
      {
        var i :| i in pool;
        pool := pool - {i};
        if events[i].IsDue(now) && (id.None? || NotAfter(events[i], events[id.value])) {
          id := Some(i);
        }
      }
    }

    method MarkStockDecrementDelivered(id: EventId)
      modifies this`events
      ensures events == if id in old(events) && !old(events)[id].delivered
        then old(events)[id := old(events)[id].(delivered := true, lockedUntil := None)] else old(events)
    {
      if id in events && !events[id].delivered {
        events := events[id := events[id].(delivered := true, lockedUntil := None)];
      }
    }

    method RescheduleStockDecrement(id: EventId, next: Time)
      modifies this`events
      ensures events == if id in old(events) && !old(events)[id].delivered
        then old(events)[id := old(events)[id].(nextAttempt := next, lockedUntil := None)] else old(events)
    {
      if id in events && !events[id].delivered {
        events := events[id := events[id].(nextAttempt := next, lockedUntil := None)];
      }
    }

    // The request may get lost on its way, and so may the answer.
    method DecrementStock(id: EventId, e: Event, network: Network) returns (ok: bool)
      modifies stock
      ensures var (after, reply) := old(stock.Contents()).Take(e.product, e.quantity, id);
        stock.Contents() == (if network.RequestLost? then old(stock.Contents()) else after)
        && (ok <==> network.Answered? && !reply.Conflict?)
    {
      if network.RequestLost? {
        return false;
      }
      var reply := stock.Take(e.product, e.quantity, id);
      ok := network.Answered? && !reply.Conflict?;
    }

    // deliverStockDecrement: one event is sent, then acknowledged or postponed.
    method Deliver(ghost j: nat, id: EventId, e: Event, network: Network, now: Time, maximum: Time) returns (ok: bool)
      requires j in jobs && jobs[j] == Job(id, e, Sending)
      modifies this, stock
      ensures jobs == old(jobs) - {j}
      ensures var sent := Next(old(Contents()), Send(j, network));
        && (ok <==> sent.jobs[j].phase.Accepted?)
        && Contents() == Next(sent, if ok then MarkDelivered(j) else Reschedule(j, now + Backoff(e.attempts, maximum)))
      ensures ok <==> Accepts(old(stock.Contents()), id, e, network)
      ensures stock.Contents() == Sent(old(stock.Contents()), id, e, network)
      ensures id in old(events) && old(events)[id] == e && !e.delivered ==>
        events == old(events)[id := Settle(e, ok, now, maximum)]
    {
      ok := DecrementStock(id, e, network);
      if ok {
        MarkStockDecrementDelivered(id);
      } else {
        var delay := StockOutboxBackoff(e.attempts, maximum);
        RescheduleStockDecrement(id, now + delay);
      }
      ghost var sent := Next(old(Contents()), Send(j, network));
      assert sent.jobs - {j} == jobs - {j};
      jobs := jobs - {j};
    }

    // A run that has led from x to where the courier is now.
    ghost predicate Reached(x: Exchange, run: seq<Action>)
      reads this, stock
    {
      PossibleRun(x, run) && Outcome(x, run) == Contents()
    }

    method ClaimOne(id: EventId, now: Time, lease: Time, ghost j: nat, ghost x: Exchange, ghost run: seq<Action>)
      returns (e: Event, ghost longer: seq<Action>)
      requires Reached(x, run) && id in events && events[id].IsDue(now) && j !in jobs
      modifies this`events, this`jobs
      ensures Reached(x, longer)
      ensures jobs == old(jobs)[j := Job(id, e, Sending)]
      ensures e == Leased(old(events)[id], now + lease) && events == old(events)[id := e]
    {
      ghost var action := Claim(j, id, now, lease);
      RunExtends(x, run, action);
      e := events[id].(attempts := events[id].attempts + 1, lockedUntil := Some(now + lease));
      events := events[id := e];
      jobs := jobs[j := Job(id, e, Sending)];
      longer := run + [action];
    }

    // One more event for the batch.
    method ClaimNext(id: EventId, now: Time, lease: Time, batch: seq<(EventId, Event)>, ghost start: map<EventId, Event>,
      ghost before: map<nat, Job>, ghost first: nat, ghost x: Exchange, ghost run: seq<Action>)
      returns (more: seq<(EventId, Event)>, ghost longer: seq<Action>)
      requires lease > 0 && (forall j :: j in before ==> j < first) && IsNextDue(events, Some(id), now)
      requires Hired(before, jobs, batch, first, 0) && Reached(x, run) && SoFar(start, events, batch, now, now + lease)
      modifies this`events, this`jobs
      ensures |more| == |batch| + 1 && SoFar(start, events, more, now, now + lease)
      ensures Hired(before, jobs, more, first, 0) && Reached(x, longer)
    {
      ghost var leased := Leased(events[id], now + lease);
      HiredMore(before, jobs, batch, first, id, leased);
      ClaimsNext(start, events, batch, id, leased, now, now + lease);
      var e;
      e, longer := ClaimOne(id, now, lease, first + |batch|, x, run);
      more := batch + [(id, e)];
    }

    // ClaimStockDecrements: takes due events under a lease, longest waiting first.
    method ClaimBatch(now: Time, lease: Time, limit: nat, ghost first: nat)
      returns (batch: seq<(EventId, Event)>, ghost run: seq<Action>)
      requires lease > 0 && forall j :: j in jobs ==> j < first
      modifies this`events, this`jobs
      ensures Reached(old(Contents()), run)
      ensures Hired(old(jobs), jobs, batch, first, 0)
      ensures FirstDue(old(events), batch, now, now + lease, limit)
      ensures Claimed(old(events), events, batch) && InHand(events, batch)
    {
      batch, run := [], [];
      var id := NextDue(now);
      NothingClaimed(events, now, now + lease);
      while |batch| < limit && id.Some?
        invariant |batch| <= limit && IsNextDue(events, id, now)
        invariant Hired(old(jobs), jobs, batch, first, 0) && Reached(old(Contents()), run)
        invariant SoFar(old(events), events, batch, now, now + lease)
        decreases limit - |batch|
      {
        batch, run := ClaimNext(id.value, now, lease, batch, old(events), old(jobs), first, old(Contents()), run);
        id := NextDue(now);
      }
      BatchIsFirst(old(events), events, batch, now, now + lease, limit);
    }

    method DeliverOne(ghost j: nat, id: EventId, e: Event, network: Network, now: Time, maximum: Time,
      ghost x: Exchange, ghost run: seq<Action>)
      returns (ok: bool, ghost longer: seq<Action>)
      requires Reached(x, run) && j in jobs && jobs[j] == Job(id, e, Sending)
      modifies this, stock
      ensures Reached(x, longer) && jobs == old(jobs) - {j}
      ensures ok <==> Accepts(old(stock.Contents()), id, e, network)
      ensures stock.Contents() == Sent(old(stock.Contents()), id, e, network)
      ensures id in old(events) && old(events)[id] == e && !e.delivered ==>
        events == old(events)[id := Settle(e, ok, now, maximum)]
    {
      ok := Deliver(j, id, e, network, now, maximum);
      ghost var send := Send(j, network);
      ghost var settle := if ok then MarkDelivered(j) else Reschedule(j, now + Backoff(e.attempts, maximum));
      RunExtends(x, run, send);
      RunExtends(x, run + [send], settle);
      longer := run + [send] + [settle];
    }

    // The next event of the batch.
    method DeliverNext(batch: seq<(EventId, Event)>, i: nat, network: Network, now: Time, maximum: Time,
      ghost before: map<nat, Job>, ghost first: nat, ghost x: Exchange, ghost run: seq<Action>)
      returns (ok: bool, ghost longer: seq<Action>)
      requires i < |batch| && Hired(before, jobs, batch, first, i) && Reached(x, run) && forall j :: j in before ==> j < first
      requires batch[i].0 in events && events[batch[i].0] == batch[i].1 && !batch[i].1.delivered
      modifies this, stock
      ensures Hired(before, jobs, batch, first, i + 1) && Reached(x, longer)
      ensures var (id, e) := batch[i];
        && (ok <==> Accepts(old(stock.Contents()), id, e, network))
        && stock.Contents() == Sent(old(stock.Contents()), id, e, network)
        && events == old(events)[id := Settle(e, ok, now, maximum)]
    {
      HiredLess(before, jobs, batch, first, i);
      ok, longer := DeliverOne(first + i, batch[i].0, batch[i].1, network, now, maximum, x, run);
    }

    // One delivery after the other, each with its own reading of the clock.
    method DeliverBatch(batch: seq<(EventId, Event)>, networks: seq<Network>, times: seq<Time>, maximum: Time,
      ghost before: map<nat, Job>, ghost first: nat, ghost x: Exchange, ghost start: seq<Action>)
      returns (errors: nat, ghost run: seq<Action>)
      requires |networks| >= |batch| && |times| >= |batch| && forall j :: j in before ==> j < first
      requires Hired(before, jobs, batch, first, 0) && Reached(x, start) && InHand(events, batch)
      modifies this, stock
      ensures Reached(x, run) && jobs == before
      ensures Worked(old(events), events, old(stock.Contents()), stock.Contents(), batch, networks, times, maximum, |batch|, errors)
    {
      errors, run := 0, start;
      ghost var r := stock.Contents();
      NothingDone(events, r, batch, networks, times, maximum);
      var i := 0;
      while i < |batch|
        invariant 0 <= i <= |batch| && Hired(before, jobs, batch, first, i) && Reached(x, run)
        invariant Worked(old(events), events, r, stock.Contents(), batch, networks, times, maximum, i, errors)
      {
        var ok;
        ghost var was, r1 := events, stock.Contents();
        NextInHand(old(events), was, r, r1, batch, networks, times, maximum, i, errors);
        ok, run := DeliverNext(batch, i, networks[i], times[i], maximum, before, first, x, run);
        WorksNext(old(events), was, r, r1, batch, networks, times, maximum, i, errors, ok);
        if !ok {
          errors := errors + 1;
        }
        i := i + 1;
      }
      HiredNone(before, jobs, batch, first);
    }

    // ProcessStockDecrementOutbox: a claim, then the deliveries.
    method ProcessStockDecrementOutbox(now: Time, lease: Time, limit: nat, networks: seq<Network>, times: seq<Time>,
      maximum: Time, ghost first: nat)
      returns (errors: nat, ghost batch: seq<(EventId, Event)>, ghost run: seq<Action>)
      requires lease > 0 && |networks| >= limit && |times| >= limit && forall j :: j in jobs ==> j < first
      modifies this, stock
      ensures Reached(old(Contents()), run) && jobs == old(jobs)
      ensures FirstDue(old(events), batch, now, now + lease, limit)
      ensures Worked(old(events), events, old(stock.Contents()), stock.Contents(), batch, networks, times, maximum, |batch|, errors)
      ensures Learned(old(stock.Contents()), stock.Contents(), batch, networks)
    {
      var claimed;
      claimed, run := ClaimBatch(now, lease, limit, first);
      batch := claimed;
      ghost var leased, r := events, stock.Contents();
      errors, run := DeliverBatch(claimed, networks, times, maximum, old(jobs), first, old(Contents()), run);
      WorkedFromBefore(old(events), leased, events, r, stock.Contents(), batch, networks, times, maximum, errors);
      ReceivedIsLearned(r, batch, networks, |batch|);
    }
  }
}
