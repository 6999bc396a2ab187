/** Runs of the outbox: nothing is ever stuck, and how far a lease keeps other workers away. */
module OutboxRuns {
  import opened Models
  import opened Outbox

  // ---- Every event can be delivered, whatever happened before ----

  lemma {:induction false} FreshJob(jobs: map<nat, Job>) returns (j: nat)
    ensures j !in jobs
    decreases |jobs|
  {
    if jobs == map[] {
      j := 0;
    } else {
      var top := LargestJob(jobs);
      j := top + 1;
    }
  }

  lemma {:induction false} LargestJob(jobs: map<nat, Job>) returns (j: nat)
    requires jobs != map[]
    ensures forall k :: k in jobs ==> k <= j
    decreases |jobs|
  {
    var first :| first in jobs;
    j := first;
    if jobs - {first} != map[] {
      var k := LargestJob(jobs - {first});
      j := if k <= first then first else k;
      assert forall l :: l in jobs && l != first ==> l in jobs - {first};
    } else {
      assert forall l :: l in jobs && l != first ==> l in jobs - {first};
    }
  }

  // An attempt that nothing disturbs.
  function Attempt(j: nat, id: EventId, at: Time): seq<Action> {
    [Claim(j, id, at, 1), Send(j, Answered), MarkDelivered(j)]
  }

  lemma {:induction false} RunOfThree(x: Exchange, a: Action, b: Action, c: Action)
    requires Possible(x, a) && Possible(Next(x, a), b) && Possible(Next(Next(x, a), b), c)
    ensures PossibleRun(x, [a, b, c]) && Outcome(x, [a, b, c]) == Next(Next(Next(x, a), b), c)
  {
    var x1 := Next(x, a);
    var x2 := Next(x1, b);
    assert PossibleRun(x2, [c]) && Outcome(x2, [c]) == Next(x2, c) by {
      assert [c][1..] == [];
    }
    assert PossibleRun(x1, [b, c]) && Outcome(x1, [b, c]) == Outcome(x2, [c]) by {
      assert [b, c][1..] == [c];
    }
    assert [a, b, c][1..] == [b, c];
  }

  // What the claim, the request and the acknowledgement each do.
  lemma {:induction false} ClaimStarts(x: Exchange, j: nat, id: EventId, at: Time)
    requires Possible(x, Claim(j, id, at, 1))
    ensures var x1 := Next(x, Claim(j, id, at, 1));
      && Possible(x1, Send(j, Answered)) && x1.local == x.local && x1.jobs[j].id == id
      && x1.jobs == x.jobs[j := x1.jobs[j]] && x1.events == x.events[id := x1.events[id]] && !x1.events[id].delivered
  {
  }

  lemma {:induction false} MarkEnds(x: Exchange, j: nat)
    requires Possible(x, MarkDelivered(j)) && x.jobs[j].id in x.events
    ensures var (x', id) := (Next(x, MarkDelivered(j)), x.jobs[j].id);
      && x'.local == x.local && x'.jobs == x.jobs - {j}
      && id in x'.events && x'.events[id].delivered && x'.events == x.events[id := x'.events[id]]
  {
    var id := x.jobs[j].id;
    assert x.events[id := x.events[id]] == x.events;
  }

  lemma {:induction false} SentThenMarked(x: Exchange, x1: Exchange, x2: Exchange, x3: Exchange, j: nat, id: EventId)
    requires id in x.events && id in x1.events && x1.local == x.local && x1.events == x.events[id := x1.events[id]]
    requires x2.local == x1.local && x2.events == x1.events
    requires x3.local == x2.local && id in x3.events && x3.events == x2.events[id := x3.events[id]]
    ensures x3.local == x.local && x3.events == x.events[id := x3.events[id]]
  {
    assert x.events[id := x1.events[id]][id := x3.events[id]] == x.events[id := x3.events[id]];
  }

  lemma {:induction false} AttemptIsPossible(x: Exchange, j: nat, id: EventId, at: Time) returns (x1: Exchange, x2: Exchange)
    requires ExchangeInv(x) && Possible(x, Claim(j, id, at, 1))
    ensures x1 == Next(x, Claim(j, id, at, 1)) && ExchangeInv(x1) && Possible(x1, Send(j, Answered))
    ensures x2 == Next(x1, Send(j, Answered)) && ExchangeInv(x2) && Possible(x2, MarkDelivered(j)) && x2.jobs[j].id == id
    ensures id in x1.events && x1.local == x.local && x1.events == x.events[id := x1.events[id]]
    ensures x2.local == x1.local && x2.events == x1.events
  {
    x1 := Next(x, Claim(j, id, at, 1));
    NextKeepsExchange(x, Claim(j, id, at, 1));
    ClaimStarts(x, j, id, at);
    x2 := Next(x1, Send(j, Answered));
    NextKeepsExchange(x1, Send(j, Answered));
    SentIsAccepted(x1, j);
  }

  lemma {:induction false} AttemptSucceeds(x: Exchange, j: nat, id: EventId, at: Time)
    requires ExchangeInv(x) && Possible(x, Claim(j, id, at, 1))
    ensures PossibleRun(x, Attempt(j, id, at))
    ensures var x' := Outcome(x, Attempt(j, id, at));
      && ExchangeInv(x') && x'.local == x.local
      && id in x'.events && x'.events[id].delivered && x'.events == x.events[id := x'.events[id]]
  {
    var x1, x2 := AttemptIsPossible(x, j, id, at);
    RunOfThree(x, Claim(j, id, at, 1), Send(j, Answered), MarkDelivered(j));
    NextKeepsExchange(x2, MarkDelivered(j));
    MarkEnds(x2, j);
    SentThenMarked(x, x1, x2, Next(x2, MarkDelivered(j)), j, id);
  }

  // A request that arrives is never taken for somebody else's.
  lemma {:induction false} SentIsAccepted(x: Exchange, j: nat)
    requires ExchangeInv(x) && Possible(x, Send(j, Answered))
    ensures Next(x, Send(j, Answered)).jobs == x.jobs[j := x.jobs[j].(phase := Accepted)]
    ensures Next(x, Send(j, Answered)).events == x.events && Next(x, Send(j, Answered)).local == x.local
  {
    if x.jobs[j].id in x.receiver.processed {
      DuplicatesAreReplays(x, j);
    }
  }

  function Undelivered(x: Exchange): set<EventId> {
    set id | id in x.events && !x.events[id].delivered
  }

  lemma {:induction false} DueOneDay(e: Event) returns (at: Time)
    requires !e.delivered
    ensures e.IsDue(at)
  {
    at := if e.lockedUntil.Some? && e.lockedUntil.value > e.nextAttempt then e.lockedUntil.value else e.nextAttempt;
  }

  lemma {:induction false} FewerUndelivered(x: Exchange, x': Exchange, id: EventId)
    requires id in x'.events && x'.events[id].delivered && x'.events == x.events[id := x'.events[id]]
    ensures Undelivered(x') == Undelivered(x) - {id}
  {
  }

  lemma {:induction false} DeliversOne(x: Exchange) returns (run: seq<Action>, id: EventId)
    requires ExchangeInv(x) && Undelivered(x) != {}
    ensures PossibleRun(x, run) && ExchangeInv(Outcome(x, run)) && Outcome(x, run).local == x.local
    ensures id in Undelivered(x) && Undelivered(Outcome(x, run)) == Undelivered(x) - {id}
  {
    id :| id in Undelivered(x);
    var at := DueOneDay(x.events[id]);
    var j := FreshJob(x.jobs);
    AttemptSucceeds(x, j, id, at);
    run := Attempt(j, id, at);
    FewerUndelivered(x, Outcome(x, run), id);
  }

  // From any state the exchange can still be brought to rest.
  lemma {:induction false} CanSettle(x: Exchange) returns (run: seq<Action>)
    requires ExchangeInv(x)
    ensures PossibleRun(x, run) && ExchangeInv(Outcome(x, run))
    ensures Undelivered(Outcome(x, run)) == {} && Outcome(x, run).local == x.local
    decreases |Undelivered(x)|
  {
    run := [];
    if Undelivered(x) != {} {
      var one, id := DeliversOne(x);
      var rest := CanSettle(Outcome(x, one));
      RunsJoin(x, one, rest);
      run := one + rest;
    }
  }

  lemma {:induction false} RunsJoin(x: Exchange, run: seq<Action>, more: seq<Action>)
    requires PossibleRun(x, run) && PossibleRun(Outcome(x, run), more)
    ensures PossibleRun(x, run + more) && Outcome(x, run + more) == Outcome(Outcome(x, run), more)
    decreases |run|
  {
    if run == [] {
      assert run + more == more;
    } else {
      assert (run + more)[0] == run[0] && (run + more)[1..] == run[1..] + more;
      RunsJoin(Next(x, run[0]), run[1..], more);
    }
  }

  // No run leads to an event that is stuck: whatever was lost and whoever died, deliveries
  // can go on until all are acknowledged and both stocks are equal.
  lemma {:induction false} NoEventIsStuck(defaultStock: nat, run: seq<Action>) returns (more: seq<Action>)
    requires PossibleRun(Opening(defaultStock), run)
    ensures PossibleRun(Outcome(Opening(defaultStock), run), more)
    ensures var x := Outcome(Opening(defaultStock), run);
      var x' := Outcome(x, more);
      && x'.local == x.local && (forall id :: id in x'.events ==> x'.events[id].delivered)
      && forall p :: p in x'.local ==> x'.receiver.Count(p) == x'.local[p]
  {
    RunKeepsExchange(Opening(defaultStock), run);
    more := CanSettle(Outcome(Opening(defaultStock), run));
    SettledIsEqual(Outcome(Outcome(Opening(defaultStock), run), more));
  }

  lemma {:induction false} SettledIsEqual(x: Exchange)
    requires ExchangeInv(x) && Undelivered(x) == {}
    ensures forall id :: id in x.events ==> x.events[id].delivered
    ensures forall p :: p in x.local ==> x.receiver.Count(p) == x.local[p]
  {
    assert forall id :: id in x.events && !x.events[id].delivered ==> id in Undelivered(x);
    forall p | p in x.local
      ensures x.receiver.Count(p) == x.local[p]
    {
      NothingUnapplied(x, p);
    }
  }

  // ---- How exclusive a lease is ----

  // Before the given instant nobody can be given the event.
  ghost predicate Excluded(x: Exchange, id: EventId, until: Time) {
    forall k: nat, at: Time, lease: Time :: at < until ==> !Possible(x, Claim(k, id, at, lease))
  }

  predicate Withheld(x: Exchange, id: EventId, until: Time) {
    && id in x.events
    && var e := x.events[id];
       e.delivered || e.nextAttempt >= until || (e.lockedUntil.Some? && e.lockedUntil.value >= until)
  }

  lemma {:induction false} ExcludedIffWithheld(x: Exchange, id: EventId, until: Time)
    requires id in x.events
    ensures Excluded(x, id, until) <==> Withheld(x, id, until)
  {
    if !Withheld(x, id, until) {
      var e := x.events[id];
      var at := if e.lockedUntil.Some? && e.lockedUntil.value > e.nextAttempt then e.lockedUntil.value else e.nextAttempt;
      var k := FreshJob(x.jobs);
      assert Possible(x, Claim(k, id, at, 0));
    }
  }

  // A worker, whoever holds the lease, makes the event due again before that instant.
  predicate ReleasesEarly(x: Exchange, a: Action, id: EventId, until: Time) {
    && a.Reschedule? && a.job in x.jobs && x.jobs[a.job].id == id
    && id in x.events && !x.events[id].delivered && a.next < until
  }

  lemma {:induction false} StepWithholdsIff(x: Exchange, a: Action, id: EventId, until: Time)
    requires Possible(x, a) && Withheld(x, id, until)
    ensures Withheld(Next(x, a), id, until) <==> !ReleasesEarly(x, a, id, until)
  {
  }

  predicate ReleasedDuring(x: Exchange, run: seq<Action>, id: EventId, until: Time)
    requires PossibleRun(x, run)
    decreases |run|
  {
    run != [] && (ReleasesEarly(x, run[0], id, until) || ReleasedDuring(Next(x, run[0]), run[1..], id, until))
  }

  ghost predicate ExcludedThroughout(x: Exchange, run: seq<Action>, id: EventId, until: Time)
    requires PossibleRun(x, run)
    decreases |run|
  {
    Excluded(x, id, until) && (run == [] || ExcludedThroughout(Next(x, run[0]), run[1..], id, until))
  }

  lemma {:induction false} WithheldUnlessReleased(x: Exchange, run: seq<Action>, id: EventId, until: Time)
    requires PossibleRun(x, run) && Withheld(x, id, until)
    ensures ExcludedThroughout(x, run, id, until) <==> !ReleasedDuring(x, run, id, until)
    decreases |run|
  {
    ExcludedIffWithheld(x, id, until);
    if run != [] {
      var x1 := Next(x, run[0]);
      StepWithholdsIff(x, run[0], id, until);
      if ReleasesEarly(x, run[0], id, until) {
        ExcludedIffWithheld(x1, id, until);
      } else {
        WithheldUnlessReleased(x1, run[1..], id, until);
      }
    }
  }

  // Over any run after a claim: the event is withheld from everybody else until the lease
  // ends if and only if no worker that has it reschedules it to an earlier instant.
  lemma {:induction false} LeaseExcludesIff(x: Exchange, j: nat, id: EventId, at: Time, lease: Time, run: seq<Action>)
    requires Possible(x, Claim(j, id, at, lease)) && PossibleRun(Next(x, Claim(j, id, at, lease)), run)
    ensures ExcludedThroughout(Next(x, Claim(j, id, at, lease)), run, id, at + lease)
       <==> !ReleasedDuring(Next(x, Claim(j, id, at, lease)), run, id, at + lease)
  {
    WithheldUnlessReleased(Next(x, Claim(j, id, at, lease)), run, id, at + lease);
  }

  // ---- When that cannot happen ----

  predicate OnlySender(x: Exchange, j: nat, id: EventId) {
    forall k :: k in x.jobs && x.jobs[k].id == id ==> k == j
  }

  // The holder does not give the event back, and the run does not go on beyond the lease.
  predicate WithinLease(run: seq<Action>, j: nat, id: EventId, until: Time) {
    forall a :: a in run ==> !(a.Reschedule? && a.job == j) && (a.Claim? && a.id == id ==> a.at < until)
  }

  lemma {:induction false} OnlySenderStays(x: Exchange, a: Action, j: nat, id: EventId, until: Time)
    requires Possible(x, a) && Withheld(x, id, until) && OnlySender(x, j, id) && WithinLease([a], j, id, until)
    ensures OnlySender(Next(x, a), j, id) && Withheld(Next(x, a), id, until)
  {
    assert a in [a];
  }

  lemma {:induction false} AloneThroughout(x: Exchange, run: seq<Action>, j: nat, id: EventId, until: Time)
    requires PossibleRun(x, run) && Withheld(x, id, until) && OnlySender(x, j, id) && WithinLease(run, j, id, until)
    ensures !ReleasedDuring(x, run, id, until)
    decreases |run|
  {
    if run != [] {
      assert run[0] in run && forall a :: a in run[1..] ==> a in run;
      OnlySenderStays(x, run[0], j, id, until);
      AloneThroughout(Next(x, run[0]), run[1..], j, id, until);
    }
  }

  // If nobody was at work on the event when it was claimed, the lease is exclusive as long
  // as its holder does not give the event back.
  lemma {:induction false} LoneClaimIsExclusive(x: Exchange, j: nat, id: EventId, at: Time, lease: Time, run: seq<Action>)
    requires Possible(x, Claim(j, id, at, lease)) && PossibleRun(Next(x, Claim(j, id, at, lease)), run)
    requires forall k :: k in x.jobs ==> x.jobs[k].id != id
    requires WithinLease(run, j, id, at + lease)
    ensures ExcludedThroughout(Next(x, Claim(j, id, at, lease)), run, id, at + lease)
  {
    AloneThroughout(Next(x, Claim(j, id, at, lease)), run, j, id, at + lease);
    LeaseExcludesIff(x, j, id, at, lease, run);
  }

  // ---- Workers that keep within their leases ----

  // An action and the instant at which it happens.
  datatype Moment = Moment(action: Action, at: Time)

  function Actions(run: seq<Moment>): seq<Action> {
    seq(|run|, i requires 0 <= i < |run| => run[i].action)
  }

  // One clock for all workers, which never goes back; claims and payments read it.
  predicate Clocked(run: seq<Moment>, clock: Time)
    decreases |run|
  {
    run != [] ==>
      && run[0].at >= clock
      && (run[0].action.Claim? || run[0].action.Pay? ==> run[0].action.at == run[0].at)
      && Clocked(run[1..], run[0].at)
  }

  // The instant until which a worker was given its event, whatever became of the event since.
  function LeaseEnd(job: Job): Time {
    if job.event.lockedUntil.Some? then job.event.lockedUntil.value else 0
  }

  // Whoever gives an event back does so before the end of the lease it was claimed under.
  predicate OnTime(x: Exchange, run: seq<Moment>)
    requires PossibleRun(x, Actions(run))
    decreases |run|
  {
    run != [] ==>
      var a := run[0].action;
      Actions(run)[1..] == Actions(run[1..])
      && (a.Reschedule? ==> run[0].at < LeaseEnd(x.jobs[a.job]))
      && OnTime(Next(x, a), run[1..])
  }

  predicate InLease(x: Exchange, j: nat, clock: Time) {
    j in x.jobs && clock < LeaseEnd(x.jobs[j])
  }

  // Each worker within its lease is alone with its event, and the event carries that lease.
  ghost predicate Undisturbed(x: Exchange, clock: Time) {
    && (forall j :: InLease(x, j, clock) ==> CarriesLease(x, j))
    && (forall j, k :: InLease(x, j, clock) && InLease(x, k, clock) && x.jobs[j].id == x.jobs[k].id ==> j == k)
  }

  predicate CarriesLease(x: Exchange, j: nat)
    requires j in x.jobs
  {
    && x.jobs[j].id in x.events
    && var e := x.events[x.jobs[j].id];
       e.delivered || e.lockedUntil == Some(LeaseEnd(x.jobs[j]))
  }

  // Nobody can be given the event of a worker that is within its lease before that ends, and
  // nobody else within a lease has it.
  ghost predicate Exclusive(x: Exchange, clock: Time) {
    forall j :: InLease(x, j, clock) ==>
      && Excluded(x, x.jobs[j].id, LeaseEnd(x.jobs[j]))
      && forall k :: InLease(x, k, clock) && x.jobs[k].id == x.jobs[j].id ==> k == j
  }

  ghost predicate ExclusiveThroughout(x: Exchange, run: seq<Moment>, clock: Time)
    requires PossibleRun(x, Actions(run))
    decreases |run|
  {
    Exclusive(x, clock)
    && (run != [] ==>
          Actions(run)[1..] == Actions(run[1..])
          && ExclusiveThroughout(Next(x, run[0].action), run[1..], run[0].at))
  }

  lemma {:induction false} UndisturbedIsExclusive(x: Exchange, clock: Time)
    requires Undisturbed(x, clock)
    ensures Exclusive(x, clock)
  {
    forall j | InLease(x, j, clock)
      ensures Excluded(x, x.jobs[j].id, LeaseEnd(x.jobs[j]))
    {
      assert CarriesLease(x, j);
      ExcludedIffWithheld(x, x.jobs[j].id, LeaseEnd(x.jobs[j]));
    }
  }

  // An event that can be claimed is in nobody's lease.
  lemma {:induction false} ClaimStaysUndisturbed(x: Exchange, j: nat, id: EventId, at: Time, lease: Time)
    requires Possible(x, Claim(j, id, at, lease)) && Undisturbed(x, at)
    ensures Undisturbed(Next(x, Claim(j, id, at, lease)), at)
  {
    var x' := Next(x, Claim(j, id, at, lease));
    forall k | InLease(x, k, at)
      ensures x.jobs[k].id != id
    {
      assert CarriesLease(x, k);
    }
    forall k | InLease(x', k, at)
      ensures CarriesLease(x', k)
    {
      assert k == j || (InLease(x, k, at) && CarriesLease(x, k));
    }
    assert forall k :: InLease(x', k, at) ==> k == j || InLease(x, k, at);
  }

  lemma {:induction false} StaysUndisturbed(x: Exchange, a: Action, at: Time)
    requires Possible(x, a) && Undisturbed(x, at) && !a.Claim?
    requires a.Reschedule? ==> at < LeaseEnd(x.jobs[a.job])
    ensures Undisturbed(Next(x, a), at)
  {
    var x' := Next(x, a);
    forall k | InLease(x', k, at)
      ensures CarriesLease(x', k)
    {
      assert InLease(x, k, at) && CarriesLease(x, k);
      assert a.Reschedule? ==> InLease(x, a.job, at) && x.jobs[a.job].id != x.jobs[k].id;
    }
    assert forall k :: InLease(x', k, at) ==> InLease(x, k, at) && x'.jobs[k].id == x.jobs[k].id;
  }

  lemma {:induction false} LaterUndisturbed(x: Exchange, clock: Time, at: Time)
    requires Undisturbed(x, clock) && clock <= at
    ensures Undisturbed(x, at)
  {
    assert forall j :: InLease(x, j, at) ==> InLease(x, j, clock);
  }

  lemma {:induction false} ActionsAfter(run: seq<Moment>)
    requires run != []
    ensures Actions(run)[0] == run[0].action && Actions(run)[1..] == Actions(run[1..])
  {
  }

  // If nobody gives an event back after its own lease is over, every lease is exclusive at
  // every moment of the run, whatever is lost and whoever dies.
  lemma {:induction false} OnTimeLeasesAreExclusive(x: Exchange, run: seq<Moment>, clock: Time)
    requires PossibleRun(x, Actions(run)) && Clocked(run, clock) && OnTime(x, run) && Undisturbed(x, clock)
    ensures ExclusiveThroughout(x, run, clock)
    decreases |run|
  {
    UndisturbedIsExclusive(x, clock);
    if run != [] {
      ActionsAfter(run);
      var a, at := run[0].action, run[0].at;
      LaterUndisturbed(x, clock, at);
      if a.Claim? {
        ClaimStaysUndisturbed(x, a.job, a.id, at, a.lease);
      } else {
        StaysUndisturbed(x, a, at);
      }
      OnTimeLeasesAreExclusive(Next(x, a), run[1..], at);
    }
  }

  // In particular from the start.
  lemma {:induction false} OnTimeRunsAreExclusive(defaultStock: nat, run: seq<Moment>)
    requires PossibleRun(Opening(defaultStock), Actions(run)) && Clocked(run, 0) && OnTime(Opening(defaultStock), run)
    ensures ExclusiveThroughout(Opening(defaultStock), run, 0)
  {
    OnTimeLeasesAreExclusive(Opening(defaultStock), run, 0);
  }

  // ---- When it does ----

  // The first worker is still at work when its lease is over; its failure ends the lease of
  // the second one.
  const OVERLAP: seq<Action> := [
    FirstContact(7), Pay(1, 7, 1, 0), Claim(1, 1, 0, 30_000), Claim(2, 1, 31_000, 30_000),
    Send(1, RequestLost), Reschedule(1, 31_500)]

  lemma {:induction false} RunGoesOn(x: Exchange, run: seq<Action>, i: nat)
    requires i < |run| && PossibleRun(x, run[..i]) && Possible(Outcome(x, run[..i]), run[i])
    ensures PossibleRun(x, run[..i + 1]) && Outcome(x, run[..i + 1]) == Next(Outcome(x, run[..i]), run[i])
  {
    RunExtends(x, run[..i], run[i]);
    assert run[..i + 1] == run[..i] + [run[i]];
  }

  lemma {:induction false} BothClaim()
    ensures PossibleRun(Opening(5), OVERLAP[..4])
    ensures var x := Outcome(Opening(5), OVERLAP[..4]);
      && 1 in x.jobs && x.jobs[1].id == 1 && x.jobs[1].phase.Sending?
      && 2 in x.jobs && x.jobs[2].id == 1 && x.jobs[2].phase.Sending? && x.jobs[2].event.lockedUntil == Some(61_000)
      && 3 !in x.jobs && 1 in x.events && !x.events[1].delivered
  {
    var x := Opening(5);
    assert OVERLAP[..0] == [];
    RunGoesOn(x, OVERLAP, 0);
    RunGoesOn(x, OVERLAP, 1);
    RunGoesOn(x, OVERLAP, 2);
    RunGoesOn(x, OVERLAP, 3);
  }

  lemma {:induction false} LeaseCanBeBroken()
    ensures PossibleRun(Opening(5), OVERLAP)
    ensures var x := Outcome(Opening(5), OVERLAP);
      && 2 in x.jobs && x.jobs[2].id == 1 && x.jobs[2].phase.Sending? && x.jobs[2].event.lockedUntil == Some(61_000)
      && Possible(x, Claim(3, 1, 32_000, 30_000))
  {
    BothClaim();
    RunGoesOn(Opening(5), OVERLAP, 4);
    RunGoesOn(Opening(5), OVERLAP, 5);
    assert OVERLAP[..6] == OVERLAP;
  }
}
