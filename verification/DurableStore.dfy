/**
The durable repository: the rows of one product, changed by transactions that commit as a
whole or not at all.
*/
module DurableStore {
  import opened Models
  import D = DurableTx
  import opened Service

  datatype Transition =
    | Denied(error: Error)
    | Transition(right: Right, transitioned: bool)
    | NotCommitted

  // Which way the next durable call goes.
  function CommitOf(f: Faults): (Faults, Ended) {
    match f
    case Healthy => (f, Finished)
    case After(n, crash) =>
      if n > 0 then (After(n - 1, crash), Finished) else (f, if crash then Died else StoreFailed)
  }

  function Answer(right: Right, transitioned: bool, e: Ended): Transition {
    if e.StoreFailed? then NotCommitted else Transition(right, transitioned)
  }

  class DurableRepo {
    var stock: Option<StockRow>
    var members: map<UserId, Membership>
    var rights: map<Token, Right>
    var outbox: map<Token, D.OutboxRow>
    var faults: Faults
    var down: bool

    function Contents(): D.Durable
      reads this
    {
      D.Durable(stock, members, rights, outbox)
    }

    // What every call promises: all of after or nothing of it.
    twostate predicate Committed(after: D.Durable, e: Ended)
      reads this
    {
      && (faults, e) == CommitOf(old(faults))
      && down == (old(down) || e.Died?)
      && Contents() == if e.StoreFailed? then old(Contents()) else after
    }

    constructor (plan: Faults)
      ensures Contents() == D.Durable(None, map[], map[], map[]) && faults == plan && !down
    {
      stock, members, rights, outbox := None, map[], map[], map[];
      faults, down := plan, false;
    }

    method Commit() returns (e: Ended)
      modifies this`faults, this`down
      ensures (faults, e) == CommitOf(old(faults)) && down == (old(down) || e.Died?)
    {
      e := Finished;
      if faults.After? {
        if faults.writes > 0 {
          faults := After(faults.writes - 1, faults.crash);
        } else if faults.crash {
          down := true;
          e := Died;
        } else {
          e := StoreFailed;
        }
      }
    }

    method SaveInitialStock(product: ProductId, total: int) returns (e: Ended)
      modifies this
      ensures Committed(D.SaveInitialStock(old(Contents()), product, total), e)
    {
      e := Commit();
      if !e.StoreFailed? && stock.None? {
        stock := Some(StockRow(product, total, total));
      }
    }

    // INSERT ... ON CONFLICT DO UPDATE
    method WriteMembership(m: Membership, now: Time)
      modifies this`members
      ensures Contents() == D.UpsertMembership(old(Contents()), m, now)
    {
      if m.user in members {
        members := members[m.user := m.(updatedAt := now)];
      } else {
        members := members[m.user := m];
      }
    }

    method UpsertMembership(m: Membership, now: Time) returns (e: Ended)
      modifies this
      ensures Committed(D.UpsertMembership(old(Contents()), m, now), e)
    {
      e := Commit();
      if !e.StoreFailed? {
        WriteMembership(m, now);
      }
    }

    method IssueRightAndUpsertMembershipTx(r: Right, m: Membership, now: Time) returns (e: Ended)
      modifies this
      ensures Committed(D.IssueRight(old(Contents()), r, m, now), e)
    {
      e := Commit();
      if !e.StoreFailed? {
        rights := rights[r.token := r];
        WriteMembership(m, now);
      }
    }

    method UseRightTx(token: Token, order: OrderId, now: Time) returns (t: Transition, e: Ended)
      modifies this
      ensures match D.UseRight(old(Contents()), token, order, now)
        case TxError(error) =>
          t == Denied(error) && Contents() == old(Contents()) && faults == old(faults) && down == old(down)
        case TxResult(after, right, transitioned) =>
          Committed(after, e) && t == Answer(right, transitioned, e)
    {
      t, e := NotCommitted, StoreFailed;
      if token !in rights {
        return Denied(TokenNotFound), e;
      }
      var r := rights[token];
      match r.status {
        case Used =>
          if r.order != Some(order) {
            return Denied(TokenUsed), e;
          }
          e := Commit();
          return Answer(r, false, e), e;
        case Expired => return Denied(TokenExpired), e;
        case UnknownRightStatus => return Denied(InvalidStatus), e;
        case Active =>
      }
      if now >= r.expiresAt {
        return Denied(TokenExpired), e;
      }
      if stock.None? || stock.value.count < r.quantity {
        return Denied(StockDepleted), e;
      }
      var used := r.(status := Used, order := Some(order), usedAt := Some(now));
      e := Commit();
      if !e.StoreFailed? {
        rights := rights[token := used];
        stock := Some(stock.value.(count := stock.value.count - r.quantity));
        outbox := outbox[token := D.OutboxRow(token, order, r.product, r.quantity)];
        if r.user in members && members[r.user].status.RightActive? && members[r.user].token == Some(token) {
          members := members[r.user := members[r.user].(
            status := Purchased, available := None, token := None, expiresAt := None, updatedAt := now)];
        }
      }
      return Answer(used, true, e), e;
    }

    method ExpireRightAndUpsertMembershipTx(token: Token, m: Membership, now: Time) returns (t: Transition, e: Ended)
      modifies this
      ensures match D.ExpireRight(old(Contents()), token, m, now)
        case TxError(error) =>
          t == Denied(error) && Contents() == old(Contents()) && faults == old(faults) && down == old(down)
        case TxResult(after, right, transitioned) =>
          Committed(after, e) && t == Answer(right, transitioned, e)
    {
      t, e := NotCommitted, StoreFailed;
      if token !in rights {
        return Denied(TokenNotFound), e;
      }
      var r := rights[token];
      match r.status {
        case Used =>
          e := Commit();
          return Answer(r, false, e), e;
        case Expired =>
          e := Commit();
          return Answer(r, false, e), e;
        case UnknownRightStatus => return Denied(InvalidStatus), e;
        case Active =>
      }
      e := Commit();
      if !e.StoreFailed? {
        rights := rights[token := r.(status := Expired)];
        WriteMembership(m, now);
      }
      return Answer(r.(status := Expired), true, e), e;
    }

    // One statement for all tokens; only rights that are still ACTIVE change.
    method ExpireRights(tokens: set<Token>)
      modifies this`rights
      ensures rights == map x | x in old(rights) ::
        if x in tokens && old(rights)[x].status.Active? then old(rights)[x].(status := Expired) else old(rights)[x]
    {
      rights := map x | x in rights ::
        if x in tokens && rights[x].status.Active? then rights[x].(status := Expired) else rights[x];
    }
  }
}
