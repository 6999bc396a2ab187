/**
The Redis side of one product, as a value, and the effect of every script on it.

The product's keys are disjoint from those of every other product. The per-user sets
user-queues and queued-products are seen from the product: slots holds the users whose
user-queues set contains it, index those whose queued-products set does.
*/
module CacheScripts {
  import opened Models
  import T = Timers

  datatype Stock = Stock(count: int, available: int)

  // One member of the sorted set that is the FIFO queue.
  datatype Entry = Entry(score: nat, user: UserId)

  datatype Cache = Cache(
    stock: Option<Stock>,
    queue: seq<Entry>,
    lastScore: nat,
    members: map<UserId, Membership>,
    rights: map<Token, Right>,
    slots: set<UserId>,
    index: set<UserId>,
    timers: T.Timers,
    presence: map<UserId, Second>)  // the deadline of the last sign of life

  // ---- The sorted set, kept in the order in which ZRANGE lists it ----

  // ZREM: a member occurs at most once.
  function Without(q: seq<Entry>, u: UserId): seq<Entry> {
    if q == [] then []
    else if q[0].user == u then q[1..]
    else [q[0]] + Without(q[1..], u)
  }

  predicate Precedes(a: Entry, b: Entry) {
    a.score < b.score || (a.score == b.score && a.user < b.user)
  }

  function Insert(q: seq<Entry>, e: Entry): seq<Entry> {
    if q == [] || Precedes(e, q[0]) then [e] + q else [q[0]] + Insert(q[1..], e)
  }

  // ZADD
  function Place(q: seq<Entry>, e: Entry): seq<Entry> {
    Insert(Without(q, e.user), e)
  }

  // ---- Stock ----

  // A missing hash field reads as zero.
  function Counters(c: Cache): Stock {
    if c.stock.Some? then c.stock.value else Stock(0, 0)
  }

  function InitStock(c: Cache, total: int): Cache {
    if c.stock.Some? then c else c.(stock := Some(Stock(total, total)))
  }

  function RestoreUnits(c: Cache, n: int): Cache {
    var k := Counters(c);
    c.(stock := Some(k.(available := k.available + n)))
  }

  function CommitPurchase(c: Cache, n: int): Cache {
    var k := Counters(c);
    c.(stock := Some(k.(count := k.count - n)))
  }

  datatype Allocation = Allocation(granted: int, offered: int, soldOut: bool)

  function TryAllocate(c: Cache, quantity: int): (Cache, Allocation) {
    var k := Counters(c);
    if k.count == 0 then (c, Allocation(0, 0, true))
    else if |c.queue| > 0 then (c, Allocation(0, 0, false))
    else if k.available >= quantity then (RestoreUnits(c, -quantity), Allocation(quantity, 0, false))
    else if k.available > 0 then (RestoreUnits(c, -k.available), Allocation(0, k.available, false))
    else (c, Allocation(0, 0, false))
  }

  // ---- Queue ----

  function Enqueue(c: Cache, u: UserId): Cache {
    c.(lastScore := c.lastScore + 1,
       queue := Place(c.queue, Entry(c.lastScore + 1, u)),
       index := c.index + {u})
  }

  function RemoveFromQueue(c: Cache, u: UserId): Cache {
    c.(queue := Without(c.queue, u), index := c.index - {u})
  }

  function Requeue(c: Cache, e: Entry): Cache {
    c.(queue := Place(c.queue, e), index := c.index + {e.user})
  }

  // The head of the queue and what the pop gave it; status None stands for GHOST.
  datatype Popped =
    | NoOne
    | Popped(entry: Entry, granted: int, offered: int, status: Option<MembershipStatus>)

  function PopAndAllocate(c: Cache): (r: (Cache, Popped))
    ensures r.1.Popped? && r.1.status != Some(Queued) ==> |r.0.queue| == |c.queue| - 1
  {
    if c.queue == [] then (c, NoOne) else
      var head := c.queue[0];
      var u := head.user;
      var k := Counters(c);
      var popped := RemoveFromQueue(c, u);
      if u !in c.members then (popped, Popped(head, 0, 0, None))
      else if !c.members[u].status.Queued? then (popped, Popped(head, 0, 0, Some(c.members[u].status)))
      else
        var wanted := c.members[u].quantity;
        if k.count == 0 then (popped, Popped(head, 0, 0, Some(SoldOut)))
        else if k.available >= wanted then
          (RestoreUnits(popped, -wanted), Popped(head, wanted, 0, Some(RightActive)))
        else if k.available > 0 then
          (RestoreUnits(popped, -k.available), Popped(head, 0, k.available, Some(OfferPending)))
        else (c, Popped(head, 0, 0, Some(Queued)))
  }

  // ---- Memberships, rights and slots ----

  // The slot is written in the same transaction as the membership.
  function SetMembership(c: Cache, m: Membership): Cache {
    c.(members := c.members[m.user := m],
       slots := if m.status.IsTerminal() then c.slots - {m.user} else c.slots + {m.user})
  }

  function SetRight(c: Cache, r: Right): Cache {
    c.(rights := c.rights[r.token := r])
  }

  function MarkPurchased(c: Cache, r: Right, at: Time): Cache {
    if r.user in c.members && c.members[r.user].token == Some(r.token)
       && c.members[r.user].status.RightActive?
    then
      c.(members := c.members[r.user := c.members[r.user].Settled(Purchased, at)],
         timers := T.Remove(c.timers, r.user),
         slots := c.slots - {r.user})
    else c
  }

  datatype SlotOutcome = SlotRefused | SlotTaken | SlotAlreadyHeld

  // others is the number of other products in the user's set.
  function OccupySlot(c: Cache, u: UserId, others: nat, limit: nat): (Cache, SlotOutcome) {
    if u in c.slots then (c, SlotAlreadyHeld)
    else if others >= limit then (c, SlotRefused)
    else (c.(slots := c.slots + {u}), SlotTaken)
  }

  function ReleaseSlot(c: Cache, u: UserId): Cache {
    c.(slots := c.slots - {u})
  }

  // ---- Timers ----

  function AddTimer(c: Cache, u: UserId, deadline: Time): Cache {
    c.(timers := T.Add(c.timers, u, Seconds(deadline)))
  }

  function RemoveTimer(c: Cache, u: UserId): Cache {
    c.(timers := T.Remove(c.timers, u))
  }

  // ---- Recovery ----

  function Numbered(users: seq<UserId>): seq<Entry> {
    seq(|users|, i requires 0 <= i < |users| => Entry(i + 1, users[i]))
  }

  function ResetTimers(c: Cache): Cache {
    c.(timers := T.NO_TIMERS, index := {})
  }

  function ResetSlots(c: Cache): Cache {
    c.(slots := {})
  }

  function RestoreProduct(c: Cache, count: int, available: int, users: seq<UserId>): Cache {
    c.(stock := Some(Stock(count, available)),
       queue := Numbered(users),
       lastScore := |users|,
       index := (c.index - (set e | e in c.queue :: e.user)) + (set u | u in users))
  }
}
