/**
 * One committed transaction is a `Change`: at most one business row written, at most one
 * ledger transaction posted for it, plus the quote, code and vault rows it touches.
 * A change is lawful when the ledger transaction is exactly what the row's new status owes
 * and no gate is broken; lawful changes keep every invariant of the books.
 */
module Journal {
  import opened Options
  import opened Sums
  import opened Books
  import EmailCodes

  datatype RowWrite =
    | WriteOrder(oslot: Slot, order: Order)
    | WritePayment(pslot: Slot, payment: Payment)
    | WritePayout(wslot: Slot, payout: Payout)
    | WriteDelivery(dslot: Slot, delivery: Delivery)
    | WriteCapital(amount: int)
    | WriteQuote(quote: Quote)
    | WriteCodes(stmt: EmailCodes.Statement)
    | WriteNothing

  // `quoteSet` is the quote row marked in the same transaction, `stock` the vault row appended,
  // `spends` the consumed code whose confirm call this transaction ends.
  datatype Change = Change(
    row: RowWrite,
    post: Option<Move>,
    quoteSet: Option<(nat, QuoteStatus)>,
    stock: Option<VaultRow>,
    spends: Option<nat>)

  function RowOnly(row: RowWrite): Change { Change(row, None, None, None, None) }
  function RowAndPost(row: RowWrite, m: Move): Change { Change(row, Some(m), None, None, None) }

  predicate RowFits(s: State, w: RowWrite) {
    match w
    case WriteOrder(slot, _) => Fits(s.orders, slot)
    case WritePayment(slot, _) => Fits(s.payments, slot)
    case WritePayout(slot, _) => Fits(s.payouts, slot)
    case WriteDelivery(slot, _) => Fits(s.deliveries, slot)
    case _ => true
  }

  // The writes a ledger transaction can be posted for.
  predicate OwnsTransactions(w: RowWrite) {
    w.WriteOrder? || w.WritePayment? || w.WritePayout? || w.WriteDelivery? || w.WriteCapital?
  }

  predicate ChangeFits(s: State, c: Change) {
    && RowFits(s, c.row)
    && (c.quoteSet.Some? ==> c.quoteSet.value.0 < |s.quotes|)
    && (c.post.Some? ==> OwnsTransactions(c.row))
  }

  // The row a ledger transaction is recorded against.
  function RefOf(s: State, w: RowWrite): Ref {
    match w
    case WriteOrder(slot, _) => OrderRef(Index(s.orders, slot))
    case WritePayment(slot, _) => PaymentRef(Index(s.payments, slot))
    case WritePayout(slot, _) => PayoutRef(Index(s.payouts, slot))
    case WriteDelivery(slot, _) => DeliveryRef(Index(s.deliveries, slot))
    case _ => CapitalRef(|s.capital|)
  }

  function Posted(s: State, c: Change): seq<Txn> {
    if c.post.Some? then [Txn(RefOf(s, c.row), Shape(c.post.value))] else []
  }

  // The call that wins a code's consumption goes on to request its payout.
  function Confirming(s: State, stmt: EmailCodes.Statement): set<nat> {
    if stmt.ConsumeCode? && EmailCodes.Wins(s.codes, stmt.id) then s.confirming + {stmt.id} else s.confirming
  }

  function Apply(s: State, c: Change): State
    requires ChangeFits(s, c)
  {
    State(
      s.log + Posted(s, c),
      (var quotes := if c.row.WriteQuote? then s.quotes + [c.row.quote] else s.quotes;
       if c.quoteSet.Some? then
         var (q, st) := c.quoteSet.value;
         quotes[q := quotes[q].(status := st)]
       else quotes),
      if c.row.WriteOrder? then Put(s.orders, c.row.oslot, c.row.order) else s.orders,
      if c.row.WritePayment? then Put(s.payments, c.row.pslot, c.row.payment) else s.payments,
      if c.row.WritePayout? then Put(s.payouts, c.row.wslot, c.row.payout) else s.payouts,
      if c.row.WriteDelivery? then Put(s.deliveries, c.row.dslot, c.row.delivery) else s.deliveries,
      if c.row.WriteCapital? then s.capital + [c.row.amount] else s.capital,
      if c.stock.Some? then s.vault + [c.stock.value] else s.vault,
      if c.row.WriteCodes? then EmailCodes.Run(s.codes, c.row.stmt) else s.codes,
      (var pending := if c.row.WriteCodes? then Confirming(s, c.row.stmt) else s.confirming;
       if c.spends.Some? then pending - {c.spends.value} else pending))
  }

  // ---------------------------------------------------------------- what a change does to balances

  function PostNet(c: Change, a: Account): int {
    if c.post.Some? then MoveNet(c.post.value, a) else 0
  }

  function StockNet(c: Change, m: Metal): int {
    if c.stock.Some? then StockOn(m)(c.stock.value) else 0
  }

  lemma ApplyBalance(s: State, c: Change, a: Account)
    requires ChangeFits(s, c)
    ensures Balance(Apply(s, c).log, a) == Balance(s.log, a) + PostNet(c, a)
  {
    if c.post.Some? {
      BalanceAppend(s.log, Posted(s, c)[0], a);
      ShapeNet(c.post.value, a);
    } else {
      assert Apply(s, c).log == s.log;
    }
  }

  lemma ApplyPhysical(s: State, c: Change, m: Metal)
    requires ChangeFits(s, c)
    ensures Physical(Apply(s, c).vault, m) == Physical(s.vault, m) + StockNet(c, m)
  {
    if c.stock.Some? {
      SumAppend(s.vault, c.stock.value, StockOn(m));
    }
  }

  // ---------------------------------------------------------------- lawful changes

  function StoryBefore(s: State, w: RowWrite): seq<Move>
    requires RowFits(s, w)
  {
    match w
    case WriteOrder(At(i), _) => OrderStory(s.orders[i])
    case WritePayment(At(i), _) => PaymentStory(s.payments[i])
    case WritePayout(At(i), _) => PayoutStory(s.payouts[i])
    case WriteDelivery(At(i), _) => DeliveryStory(s.deliveries[i])
    case _ => []
  }

  function StoryAfter(w: RowWrite): seq<Move> {
    match w
    case WriteOrder(_, o) => OrderStory(o)
    case WritePayment(_, p) => PaymentStory(p)
    case WritePayout(_, p) => PayoutStory(p)
    case WriteDelivery(_, d) => DeliveryStory(d)
    case WriteCapital(amount) => [CapitalMove(amount)]
    case _ => []
  }

  // The row's story grows by exactly the transaction posted.
  ghost predicate TellsStory(s: State, c: Change)
    requires ChangeFits(s, c)
  {
    StoryAfter(c.row) == StoryBefore(s, c.row) + (if c.post.Some? then [c.post.value] else [])
  }

  ghost predicate CustomersCovered(s: State, c: Change) {
    forall a: Account :: a.Customer? && PostNet(c, a) < 0 ==> Balance(s.log, a) + PostNet(c, a) >= 0
  }

  ghost predicate MetalCovered(s: State, c: Change) {
    forall m: Metal ::
      StockNet(c, m) + PostNet(c, Vault(m)) < 0 ==>
        Physical(s.vault, m) + StockNet(c, m) + Balance(s.log, Vault(m)) + PostNet(c, Vault(m)) >= 0
  }

  ghost predicate CashCovered(halt: int, s: State, c: Change) {
    PostNet(c, Cash) < 0 ==> Balance(s.log, Cash) + PostNet(c, Cash) >= halt
  }

  ghost predicate Lawful(halt: int, s: State, c: Change) {
    && ChangeFits(s, c)
    && TellsStory(s, c)
    && (c.post.Some? ==> MoveOk(c.post.value))
    && CustomersCovered(s, c)
    && MetalCovered(s, c)
    && CashCovered(halt, s, c)
  }

  // ---------------------------------------------------------------- invariants of the books

  ghost predicate LogSound(log: seq<Txn>) {
    forall i :: 0 <= i < |log| ==> Sound(log[i].body)
  }

  // Every row has posted exactly the transactions its status says, in order, and nothing else
  // is in the log.
  ghost predicate History(s: State) {
    forall ref: Ref :: PostingsOf(s.log, ref) == Shapes(StoryOf(s, ref))
  }

  datatype Table = Orders | Payments | Payouts | Deliveries | CapitalMoves

  function TableOf(ref: Ref): Table {
    match ref
    case OrderRef(_) => Orders
    case PaymentRef(_) => Payments
    case PayoutRef(_) => Payouts
    case DeliveryRef(_) => Deliveries
    case CapitalRef(_) => CapitalMoves
  }

  function TxnIn(table: Table, a: Account): Txn -> int {
    (t: Txn) => if TableOf(t.ref) == table then Sum(t.body.entries, AmountOn(a)) else 0
  }

  // What the transactions posted for one table's rows did to an account.
  function NetOf(log: seq<Txn>, table: Table, a: Account): int {
    Sum(log, TxnIn(table, a))
  }

  // What the rows of a table say an account should hold because of them.
  function Expected(s: State, table: Table, a: Account): int {
    match table
    case Orders => Sum(s.orders, OrderOn(a))
    case Payments => Sum(s.payments, PaymentOn(a))
    case Payouts => Sum(s.payouts, PayoutOn(a))
    case Deliveries => Sum(s.deliveries, DeliveryOn(a))
    case CapitalMoves => Sum(s.capital, CapitalOn(a))
  }

  ghost predicate Reconciled(s: State) {
    forall table: Table, a: Account :: NetOf(s.log, table, a) == Expected(s, table, a)
  }

  // No customer account was negative after any transaction of the log.
  ghost predicate AlwaysSolvent(log: seq<Txn>) {
    forall k: nat, a: Account :: k <= |log| && a.Customer? ==> Balance(log[..k], a) >= 0
  }

  // Deliveries never gave a customer more metal back than they took.
  ghost predicate DeliveriesOnlyTake(log: seq<Txn>) {
    forall k: nat, u: UserId, m: Metal :: k <= |log| ==> NetOf(log[..k], Deliveries, Customer(u, Grams(m))) <= 0
  }

  // Physical stock is at least what the vault account owes, for each metal.
  ghost predicate Backed(s: State) {
    forall m: Metal :: Physical(s.vault, m) + Balance(s.log, Vault(m)) >= 0
  }

  ghost predicate BooksOk(s: State) {
    && LogSound(s.log)
    && History(s)
    && Reconciled(s)
    && AlwaysSolvent(s.log)
    && DeliveriesOnlyTake(s.log)
    && Backed(s)
  }

  // ---------------------------------------------------------------- lawful changes keep the books

  // Only the written row's story changes.
  lemma StoryMoves(s: State, c: Change, ref: Ref)
    requires ChangeFits(s, c)
    ensures StoryOf(Apply(s, c), ref) ==
            if OwnsTransactions(c.row) && ref == RefOf(s, c.row) then StoryAfter(c.row) else StoryOf(s, ref)
    ensures OwnsTransactions(c.row) && ref == RefOf(s, c.row) ==> StoryOf(s, ref) == StoryBefore(s, c.row)
  {
    hide OrderStory, PaymentStory, PayoutStory, DeliveryStory, CapitalMove, Shape;
  }

  lemma KeepsHistory(s: State, c: Change)
    requires ChangeFits(s, c) && TellsStory(s, c) && History(s)
    ensures History(Apply(s, c))
  {
    hide OrderStory, PaymentStory, PayoutStory, DeliveryStory, CapitalMove, Shape, Shapes, StoryOf, StoryAfter,
         StoryBefore, PostingsOf;
    var s' := Apply(s, c);
    forall ref: Ref ensures PostingsOf(s'.log, ref) == Shapes(StoryOf(s', ref)) {
      assert PostingsOf(s.log, ref) == Shapes(StoryOf(s, ref));
      StoryMoves(s, c, ref);
      if c.post.Some? {
        PostingsAppend(s.log, Posted(s, c)[0], ref);
        ShapesAppend(StoryBefore(s, c.row), c.post.value);
      } else {
        assert s'.log == s.log;
        assert StoryAfter(c.row) == StoryBefore(s, c.row);
      }
    }
  }

  // What a written row does to an account, before and after the write.
  function RowWas(s: State, w: RowWrite, a: Account): int
    requires RowFits(s, w)
  {
    match w
    case WriteOrder(slot, _) => Was(s.orders, slot, OrderOn(a))
    case WritePayment(slot, _) => Was(s.payments, slot, PaymentOn(a))
    case WritePayout(slot, _) => Was(s.payouts, slot, PayoutOn(a))
    case WriteDelivery(slot, _) => Was(s.deliveries, slot, DeliveryOn(a))
    case _ => 0
  }

  function RowIs(w: RowWrite, a: Account): int {
    match w
    case WriteOrder(_, o) => OrderOn(a)(o)
    case WritePayment(_, p) => PaymentOn(a)(p)
    case WritePayout(_, p) => PayoutOn(a)(p)
    case WriteDelivery(_, d) => DeliveryOn(a)(d)
    case WriteCapital(amount) => CapitalOn(a)(amount)
    case _ => 0
  }

  lemma ExpectedMoves(s: State, c: Change, table: Table, a: Account)
    requires ChangeFits(s, c)
    ensures Expected(Apply(s, c), table, a) == Expected(s, table, a)
              + (if table == TableOf(RefOf(s, c.row)) then RowIs(c.row, a) - RowWas(s, c.row, a) else 0)
  {
    hide Sum, Put, Was, OrderOn, PaymentOn, PayoutOn, DeliveryOn, CapitalOn, Shape;
    match c.row
    case WriteOrder(slot, o) => SumPut(s.orders, slot, o, OrderOn(a));
    case WritePayment(slot, p) => SumPut(s.payments, slot, p, PaymentOn(a));
    case WritePayout(slot, p) => SumPut(s.payouts, slot, p, PayoutOn(a));
    case WriteDelivery(slot, d) => SumPut(s.deliveries, slot, d, DeliveryOn(a));
    case WriteCapital(amount) => SumAppend(s.capital, amount, CapitalOn(a));
    case _ =>
  }

  // A row's effect is the sum of its story.
  lemma RowByStory(s: State, w: RowWrite, a: Account)
    requires RowFits(s, w)
    ensures RowIs(w, a) == Sum(StoryAfter(w), MoveOn(a))
    ensures RowWas(s, w, a) == Sum(StoryBefore(s, w), MoveOn(a))
  {
    hide OrderStory, PaymentStory, PayoutStory, DeliveryStory, CapitalMove, MoveNet;
    if w.WriteCapital? {
      SumOne(CapitalMove(w.amount), MoveOn(a));
    }
  }

  lemma RowGrows(s: State, c: Change, a: Account)
    requires ChangeFits(s, c) && TellsStory(s, c)
    ensures RowIs(c.row, a) == RowWas(s, c.row, a) + PostNet(c, a)
  {
    hide RowIs, RowWas, StoryAfter, StoryBefore, MoveNet;
    RowByStory(s, c.row, a);
    if c.post.Some? {
      SumAppend(StoryBefore(s, c.row), c.post.value, MoveOn(a));
    } else {
      assert StoryAfter(c.row) == StoryBefore(s, c.row);
    }
  }

  lemma KeepsReconciled(s: State, c: Change)
    requires ChangeFits(s, c) && TellsStory(s, c) && Reconciled(s)
    ensures Reconciled(Apply(s, c))
  {
    hide RowIs, RowWas, TellsStory, Expected, MoveNet, Shape, RefOf;
    var s' := Apply(s, c);
    forall table: Table, a: Account ensures NetOf(s'.log, table, a) == Expected(s', table, a) {
      assert NetOf(s.log, table, a) == Expected(s, table, a);
      ExpectedMoves(s, c, table, a);
      RowGrows(s, c, a);
      if c.post.Some? {
        SumAppend(s.log, Posted(s, c)[0], TxnIn(table, a));
        ShapeNet(c.post.value, a);
      } else {
        assert s'.log == s.log;
      }
    }
  }

  lemma KeepsSolvent(s: State, c: Change)
    requires ChangeFits(s, c) && CustomersCovered(s, c) && AlwaysSolvent(s.log)
    ensures AlwaysSolvent(Apply(s, c).log)
  {
    var log, log' := s.log, Apply(s, c).log;
    forall k: nat, a: Account | k <= |log'| && a.Customer? ensures Balance(log'[..k], a) >= 0 {
      if k <= |log| {
        assert log'[..k] == log[..k];
      } else {
        assert log'[..k] == log' && log[..|log|] == log;
        ApplyBalance(s, c, a);
      }
    }
  }

  // The net effect of one delivery on any customer account is never positive.
  lemma DeliveryTakes(d: Delivery, u: UserId, m: Metal)
    requires d.gramsMg > 0
    ensures DeliveryOn(Customer(u, Grams(m)))(d) <= 0
  {
    DeliveryNet(d, Customer(u, Grams(m)));
  }

  lemma KeepsDeliveriesTaking(s: State, c: Change)
    requires ChangeFits(s, c) && DeliveriesOnlyTake(s.log) && Reconciled(Apply(s, c))
    requires forall i :: 0 <= i < |Apply(s, c).deliveries| ==> Apply(s, c).deliveries[i].gramsMg > 0
    ensures DeliveriesOnlyTake(Apply(s, c).log)
  {
    var s' := Apply(s, c);
    var log, log' := s.log, s'.log;
    forall k: nat, u: UserId, m: Metal | k <= |log'| ensures NetOf(log'[..k], Deliveries, Customer(u, Grams(m))) <= 0 {
      if k <= |log| {
        assert log'[..k] == log[..k];
      } else {
        assert log'[..k] == log';
        var a := Customer(u, Grams(m));
        assert NetOf(log', Deliveries, a) == Expected(s', Deliveries, a);
        forall i | 0 <= i < |s'.deliveries| ensures DeliveryOn(a)(s'.deliveries[i]) <= Nought()(s'.deliveries[i]) {
          DeliveryTakes(s'.deliveries[i], u, m);
        }
        SumLe(s'.deliveries, DeliveryOn(a), Nought());
        SumZero(s'.deliveries, Nought());
      }
    }
  }

  function Nought(): Delivery -> int { (d: Delivery) => 0 }

  lemma KeepsBacked(s: State, c: Change)
    requires ChangeFits(s, c) && MetalCovered(s, c) && Backed(s)
    ensures Backed(Apply(s, c))
  {
    forall m: Metal ensures Physical(Apply(s, c).vault, m) + Balance(Apply(s, c).log, Vault(m)) >= 0 {
      ApplyBalance(s, c, Vault(m));
      ApplyPhysical(s, c, m);
    }
  }

  lemma KeepsSound(s: State, c: Change)
    requires ChangeFits(s, c) && (c.post.Some? ==> MoveOk(c.post.value)) && LogSound(s.log)
    ensures LogSound(Apply(s, c).log)
  {
    if c.post.Some? {
      ShapeSound(c.post.value);
    }
  }

  lemma LawfulKeepsBooks(halt: int, s: State, c: Change)
    requires BooksOk(s) && Lawful(halt, s, c)
    requires forall i :: 0 <= i < |Apply(s, c).deliveries| ==> Apply(s, c).deliveries[i].gramsMg > 0
    ensures BooksOk(Apply(s, c))
    ensures Balance(s.log, Cash) >= halt ==> Balance(Apply(s, c).log, Cash) >= halt
  {
    hide History, Reconciled, AlwaysSolvent, DeliveriesOnlyTake, Backed, TellsStory, CustomersCovered, MetalCovered,
         Shape, Balance;
    KeepsSound(s, c);
    KeepsHistory(s, c);
    KeepsReconciled(s, c);
    KeepsSolvent(s, c);
    KeepsDeliveriesTaking(s, c);
    KeepsBacked(s, c);
    ApplyBalance(s, c, Cash);
  }

  // A balance is the sum of what the five tables did to it.
  lemma {:induction false} BalanceByTable(log: seq<Txn>, a: Account)
    ensures Balance(log, a) == NetOf(log, Orders, a) + NetOf(log, Payments, a) + NetOf(log, Payouts, a)
                               + NetOf(log, Deliveries, a) + NetOf(log, CapitalMoves, a)
    decreases |log|
  {
    if log != [] {
      BalanceByTable(log[..|log| - 1], a);
    }
  }
}
