/** The PostgreSQL rows of one product, as a value, and the effect of every transaction. */
module DurableTx {
  import opened Models

  // One row of stock_decrement_outbox; its right token is unique in the table.
  datatype OutboxRow = OutboxRow(token: Token, order: OrderId, product: ProductId, quantity: int)

  datatype Durable = Durable(
    stock: Option<StockRow>,
    members: map<UserId, Membership>,
    rights: map<Token, Right>,
    outbox: map<Token, OutboxRow>)

  // ON CONFLICT DO NOTHING
  function SaveInitialStock(d: Durable, product: ProductId, total: int): Durable {
    if d.stock.Some? then d else d.(stock := Some(StockRow(product, total, total)))
  }

  // An inserted row keeps the caller's stamp, an updated one is stamped by the server.
  function Stamped(d: Durable, m: Membership, now: Time): Membership {
    if m.user in d.members then m.(updatedAt := now) else m
  }

  function UpsertMembership(d: Durable, m: Membership, now: Time): Durable {
    d.(members := d.members[m.user := Stamped(d, m, now)])
  }

  function IssueRight(d: Durable, r: Right, m: Membership, now: Time): Durable {
    UpsertMembership(d.(rights := d.rights[r.token := r]), m, now)
  }

  datatype TxResult = TxResult(db: Durable, right: Right, transitioned: bool) | TxError(error: Error)

  function UseRight(d: Durable, token: Token, order: OrderId, now: Time): TxResult {
    if token !in d.rights then TxError(TokenNotFound) else
      var r := d.rights[token];
      match r.status
      case Used => if r.order != Some(order) then TxError(TokenUsed) else TxResult(d, r, false)
      case Expired => TxError(TokenExpired)
      case UnknownRightStatus => TxError(InvalidStatus)
      case Active =>
        if now >= r.expiresAt then TxError(TokenExpired)
        else if d.stock.None? || d.stock.value.count < r.quantity then TxError(StockDepleted)
        else
          var used := r.(status := Used, order := Some(order), usedAt := Some(now));
          var holder := r.user in d.members && d.members[r.user].status.RightActive?
                        && d.members[r.user].token == Some(token);
          TxResult(
            Durable(
              Some(d.stock.value.(count := d.stock.value.count - r.quantity)),
              if holder then d.members[r.user := d.members[r.user].Settled(Purchased, now)] else d.members,
              d.rights[token := used],
              d.outbox[token := OutboxRow(token, order, r.product, r.quantity)]),
            used, true)
  }

  function ExpireRight(d: Durable, token: Token, m: Membership, now: Time): TxResult {
    if token !in d.rights then TxError(TokenNotFound) else
      var r := d.rights[token];
      match r.status
      case Used => TxResult(d, r, false)
      case Expired => TxResult(d, r, false)
      case UnknownRightStatus => TxError(InvalidStatus)
      case Active =>
        var expired := r.(status := Expired);
        TxResult(UpsertMembership(d.(rights := d.rights[token := expired]), m, now), expired, true)
  }
}
