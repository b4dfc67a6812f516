/** Physical delivery: approved metal is held, handed over against a vault outtake, or put back. */
module PhysicalDelivery {
  import opened Options
  import opened Sums
  import opened Books
  import opened Journal

  predicate IsHeld(d: Delivery) { d.status.Agreed? || d.status.Scheduled? }
  predicate IsPending(d: Delivery) { d.status.Asked? || d.status.Reviewing? }

  function Decide(g: State, i: nat, status: DeliveryStatus): RowWrite
    requires i < |g.deliveries|
  {
    WriteDelivery(At(i), g.deliveries[i].(status := status))
  }

  // `admitted` is what the unlocked eligibility, holding and one-open-request checks said.
  function Request(user: UserId, metal: Metal, gramsMg: int, admitted: bool): (c: Option<Change>)
    ensures c.Some? ==> c.value.row.WriteDelivery? && c.value.row.dslot == New && c.value == RowOnly(c.value.row)
  {
    if gramsMg <= 0 || !admitted then None
    else Some(RowOnly(WriteDelivery(New, Delivery(user, metal, gramsMg, Asked))))
  }

  function Approve(b: State, g: State, i: nat, officer: UserId, st: Standing): (c: Option<Change>)
    ensures c.Some? ==>
              ChangeFits(g, c.value) && c.value.row.WriteDelivery?
              && c.value == Change(c.value.row, c.value.post, None, c.value.stock, None)
  {
    if i >= |g.deliveries| || g.deliveries[i].user == officer || !MayMoveMoney(st)
        || !IsPending(g.deliveries[i]) then None
    else
      var d := g.deliveries[i];
      if Balance(b.log, Customer(d.user, Grams(d.metal))) < d.gramsMg then None
      else Some(RowAndPost(Decide(g, i, Agreed), EscrowMove(d)))
  }

  function Schedule(g: State, i: nat, officer: UserId): (c: Option<Change>)
    ensures c.Some? ==>
              ChangeFits(g, c.value) && c.value.row.WriteDelivery?
              && c.value == Change(c.value.row, c.value.post, None, c.value.stock, None)
  {
    if i >= |g.deliveries| || g.deliveries[i].user == officer || !IsHeld(g.deliveries[i]) then None
    else Some(RowOnly(Decide(g, i, Scheduled)))
  }

  // The handover: held metal returns to the vault account and leaves the vault.
  function Deliver(g: State, i: nat, officer: UserId): (c: Option<Change>)
    ensures c.Some? ==>
              ChangeFits(g, c.value) && c.value.row.WriteDelivery?
              && c.value == Change(c.value.row, c.value.post, None, c.value.stock, None)
  {
    if i >= |g.deliveries| || g.deliveries[i].user == officer || !IsHeld(g.deliveries[i]) then None
    else
      var d := g.deliveries[i];
      Some(Change(Decide(g, i, Delivered), Some(HandoverMove(d)), None,
                  Some(VaultRow(d.metal, Outtake, d.gramsMg)), None))
  }

  // Refuse an open request. `held` is whether the metal was held when the row was locked;
  // it selects the accounts the transaction locks.
  function Reject(g: State, i: nat, officer: UserId, held: bool): (c: Option<Change>)
    ensures c.Some? ==>
              ChangeFits(g, c.value) && c.value.row.WriteDelivery?
              && c.value == Change(c.value.row, c.value.post, None, c.value.stock, None)
  {
    if i >= |g.deliveries| || g.deliveries[i].user == officer
       || !(IsPending(g.deliveries[i]) || IsHeld(g.deliveries[i])) || IsHeld(g.deliveries[i]) != held then None
    else if held then Some(RowAndPost(Decide(g, i, Declined(true)), ReturnMove(g.deliveries[i])))
    else Some(RowOnly(Decide(g, i, Declined(false))))
  }

  ghost predicate DeliveriesOk(deliveries: seq<Delivery>) {
    forall i :: 0 <= i < |deliveries| ==> deliveries[i].gramsMg > 0
  }

  lemma RequestLawful(cfg: Config, s: State, user: UserId, metal: Metal, gramsMg: int, admitted: bool)
    requires DeliveriesOk(s.deliveries)
    ensures var c := Request(user, metal, gramsMg, admitted);
            c.Some? ==> Lawful(cfg.halt, s, c.value) && DeliveriesOk(Apply(s, c.value).deliveries)
  {
    hide Balance, Sum, Shape;
  }

  lemma ApproveLawful(cfg: Config, s: State, i: nat, officer: UserId, st: Standing)
    requires DeliveriesOk(s.deliveries)
    ensures var c := Approve(s, s, i, officer, st);
            c.Some? ==> Lawful(cfg.halt, s, c.value) && DeliveriesOk(Apply(s, c.value).deliveries)
  {
    hide Balance, Sum, Shape;
  }

  lemma ScheduleLawful(cfg: Config, s: State, i: nat, officer: UserId)
    requires DeliveriesOk(s.deliveries)
    ensures var c := Schedule(s, i, officer);
            c.Some? ==> Lawful(cfg.halt, s, c.value) && DeliveriesOk(Apply(s, c.value).deliveries)
  {
    hide Balance, Sum, Shape;
  }

  lemma DeliverLawful(cfg: Config, s: State, i: nat, officer: UserId)
    requires DeliveriesOk(s.deliveries)
    ensures var c := Deliver(s, i, officer);
            c.Some? ==>
              && Lawful(cfg.halt, s, c.value) && DeliveriesOk(Apply(s, c.value).deliveries)
              && var d := s.deliveries[i];
                 StockNet(c.value, d.metal) == -d.gramsMg && PostNet(c.value, Vault(d.metal)) == d.gramsMg
  {
    hide Balance, Sum, Shape;
  }

  lemma RejectLawful(cfg: Config, s: State, i: nat, officer: UserId, held: bool)
    requires DeliveriesOk(s.deliveries)
    ensures var c := Reject(s, i, officer, held);
            c.Some? ==> Lawful(cfg.halt, s, c.value) && DeliveriesOk(Apply(s, c.value).deliveries)
  {
    hide Balance, Sum, Shape;
  }
}
