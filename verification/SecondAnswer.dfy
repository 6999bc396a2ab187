/**
What happens if AvitoBackend gives two answers: the cache keeps the first one it was told,
also when the durable write of it fails, and PostgreSQL keeps the first one it records.
*/
module SecondAnswer {
  import opened Models
  import opened CacheScripts
  import opened DurableTx
  import opened Service
  import opened Invariants
  import opened Moves
  import opened Joining
  import opened System

  // The cache knows the stock and the tables do not.
  ghost predicate Unrecorded(s: State) {
    Inv(s) && !s.down && s.db.stock.None? && s.cache.stock.Some? && s.faults.Healthy?
  }

  // A join whose first durable write fails leaves the first answer in the cache.
  lemma {:induction false} FailedJoinLeavesAnswer(product: ProductId, cfg: Config, u: UserId, quantity: int, others: nat, at: Time)
    requires cfg.Valid() && product != NO_NAME && u != NO_NAME && quantity > 0 && others < cfg.slotLimit && at > 0
    ensures var s, x := Initial(product, cfg), Step(Join(u, quantity, others, Some(cfg.initialStock)), at, After(0, false));
      && PossibleRun(s, [x]) && Unrecorded(Outcome(s, [x])) && Outcome(s, [x]).clock == at
      && Outcome(s, [x]).cache.stock == Some(Stock(cfg.initialStock, cfg.initialStock))
      && Outcome(s, [x]).cfg == cfg && Outcome(s, [x]).nextToken == 1 && Outcome(s, [x]).product == product
  {
    var s, x := Initial(product, cfg), Step(Join(u, quantity, others, Some(cfg.initialStock)), at, After(0, false));
    InitialInv(product, cfg);
    RunKeepsInv(s, [x]);
    assert [x][1..] == [];
    JoinFails(s.(faults := x.faults), u, quantity, others, at);
  }

  lemma {:induction false} JoinFails(s: State, u: UserId, quantity: int, others: nat, now: Time)
    requires s == Initial(s.product, s.cfg).(faults := After(0, false))
    requires quantity > 0 && others < s.cfg.slotLimit
    ensures var s', total := JoinQueue(s, u, quantity, others, Some(s.cfg.initialStock), now).0, s.cfg.initialStock;
      s' == s.(cache := s'.cache) && s'.cache.stock == Some(Stock(total, total))
  {
  }

  // ---- The second join ----

  lemma {:induction false} UnrecordedIsEmpty(s: State, u: UserId, now: Time)
    requires Unrecorded(s) && now >= s.clock
    ensures s.db.members == map[] && s.db.rights == map[] && Idempotent(s.cache, u).None? && u !in s.cache.slots
    ensures s.cache.stock == Some(Stock(s.cfg.initialStock, s.cfg.initialStock))
  {
    assert s.cache.members.Keys == {};
    assert LiveUsers(s.cache.members) == {};
  }

  lemma {:induction false} RecordsSecond(s: State, u: UserId, second: nat)
    requires Unrecorded(s)
    ensures var (s1, e) := Touch(s, second);
      e.Finished? && s1 == s.(db := s1.db) && s1.db == s.db.(stock := Some(StockRow(s.product, second, second)))
      && Newcomer(s1, u)
  {
    UnrecordedIsEmpty(s, u, s.clock);
    EmptyQueue(s);
    assert Users(s.cache.queue) == {};
  }

  // Nobody else takes part, so the newcomer's units are all that is held.
  lemma {:induction false} OnlyHolder(members: map<UserId, Membership>, m: Membership)
    requires members == map[m.user := m]
    ensures Held(members) == m.Units()
  {
    HeldAfter(map[], m.user, m);
    SumsOfNothing();
    assert map[][m.user := m] == members;
  }

  function Issued(s: State, u: UserId, quantity: int, now: Time): Right {
    NewRight(s, NewMembership(s, u, quantity, now), quantity, now)
  }

  // The newcomer has the row that the cache decides on, and the tables know the second answer.
  predicate Admitted(s: State, s': State, row: Membership, quantity: int, second: nat, now: Time) {
    && s'.db.stock == Some(StockRow(s.product, second, second)) && s'.db.members == map[row.user := row]
    && s'.cache.stock == Some(Stock(s.cfg.initialStock, s.cfg.initialStock - row.Units()))
    && s'.db.rights == (if quantity <= s.cfg.initialStock then map[s.nextToken := Issued(s, row.user, quantity, now)] else map[])
  }

  lemma {:induction false} NewcomerIsAdmitted(s: State, s1: State, u: UserId, quantity: int, second: nat, now: Time)
    requires quantity > 0 && s.faults.Healthy? && s.db.members == map[] && s.db.rights == map[] && s.cache.queue == []
    requires s.cache.stock == Some(Stock(s.cfg.initialStock, s.cfg.initialStock))
    requires s1 == s.(db := s.db.(stock := Some(StockRow(s.product, second, second)))) && Newcomer(s1, u)
    ensures var (s2, e) := Admit(WithSlot(s1, u), u, quantity, now);
      e.Finished? && Admitted(s, s2, EntryRow(s1, u, quantity, now), quantity, second, now)
    ensures quantity <= s.cfg.initialStock ==>
      JoinReply(WithSlot(s1, u), u, quantity, now) == Granted(Issued(s, u, quantity, now))
  {
    AdmitIsStep(s1, u, quantity, now);
  }

  lemma {:induction false} SecondJoinAdmits(s: State, u: UserId, quantity: int, others: nat, second: nat, now: Time)
    requires Unrecorded(s) && quantity > 0 && others < s.cfg.slotLimit
    ensures var (s', reply) := JoinQueue(s, u, quantity, others, Some(second), now);
      && Admitted(s, s', EntryRow(Touch(s, second).0, u, quantity, now), quantity, second, now)
      && (quantity <= s.cfg.initialStock ==> reply == Granted(Issued(s, u, quantity, now)))
  {
    var s1 := Touch(s, second).0;
    UnrecordedIsEmpty(s, u, s.clock);
    RecordsSecond(s, u, second);
    EmptyQueue(s);
    TouchThenSlot(s, u, second);
    NewcomerIsAdmitted(s, s1, u, quantity, second, now);
  }

  lemma {:induction false} AgreesIff(s: State, s': State, row: Membership, quantity: int, second: nat, now: Time)
    requires Admitted(s, s', row, quantity, second, now)
    ensures StockAgrees(s'.cache, s'.db, s.cfg.initialStock) <==> second == s.cfg.initialStock
  {
    OnlyHolder(s'.db.members, row);
  }

  // After the second join the stores agree exactly if the second answer repeats the first.
  lemma {:induction false} StoresAgreeIff(s: State, u: UserId, quantity: int, others: nat, second: nat, now: Time)
    requires Unrecorded(s) && quantity > 0 && others < s.cfg.slotLimit
    ensures var s' := JoinQueue(s, u, quantity, others, Some(second), now).0;
      && StockAgrees(s'.cache, s'.db, s.cfg.initialStock) <==> second == s.cfg.initialStock
  {
    SecondJoinAdmits(s, u, quantity, others, second, now);
    AgreesIff(s, JoinQueue(s, u, quantity, others, Some(second), now).0, EntryRow(Touch(s, second).0, u, quantity, now),
      quantity, second, now);
  }

  // What the cache can serve it grants; the right can be paid exactly if the tables have it, and
  // the stock guard refuses it at any instant and for any order otherwise.
  lemma {:induction false} GrantIsPayableIff(s: State, u: UserId, quantity: int, others: nat, second: nat, now: Time,
    order: OrderId, later: Time)
    requires Unrecorded(s) && 0 < quantity <= s.cfg.initialStock && others < s.cfg.slotLimit && later < now + s.cfg.paymentTtl
    ensures var (s', reply) := JoinQueue(s, u, quantity, others, Some(second), now);
      && reply.Granted? && reply.right.quantity == quantity && reply.right.token == s.nextToken
      && (UseRight(s'.db, s.nextToken, order, later).TxResult? <==> quantity <= second)
      && (quantity > second ==> UseRight(s'.db, s.nextToken, order, later) == TxError(StockDepleted))
  {
    SecondJoinAdmits(s, u, quantity, others, second, now);
  }

  // Seven and then five: the stores disagree, and a right to six units can never be paid.
  lemma {:induction false} SecondAnswerBreaksPayment(order: OrderId, later: Time)
    requires later < 1020
    ensures var cfg := Config(1000, 1000, 1000, 1, 7);
      var run := [Step(Join(1, 6, 0, Some(7)), 10, After(0, false))];
      var s := Outcome(Initial(1, cfg), run);
      var (s', reply) := JoinQueue(s, 1, 6, 0, Some(5), 20);
      && PossibleRun(Initial(1, cfg), run) && !StockAgrees(s'.cache, s'.db, 7)
      && reply.Granted? && reply.right.quantity == 6
      && UseRight(s'.db, reply.right.token, order, later) == TxError(StockDepleted)
  {
    var cfg := Config(1000, 1000, 1000, 1, 7);
    FailedJoinLeavesAnswer(1, cfg, 1, 6, 0, 10);
    var s := Outcome(Initial(1, cfg), [Step(Join(1, 6, 0, Some(7)), 10, After(0, false))]);
    StoresAgreeIff(s, 1, 6, 0, 5, 20);
    GrantIsPayableIff(s, 1, 6, 0, 5, 20, order, later);
  }
}
