/**
 * The tables of the platform and the double-entry ledger behind them.
 *
 * Row ids are indices into append-only tables. Money is integer cents, metal is integer
 * milligrams. The columns marked "history" are not stored by the program as such: they
 * say how a row reached its status, which the program records only in its ledger notes.
 */
module Books {
  import opened Options
  import opened Sums

  type UserId = nat

  datatype Metal = XAU | XPT
  datatype Asset = ETB | Grams(metal: Metal)
  datatype Side = Buy | Sell

  datatype Account =
    | Customer(user: UserId, asset: Asset)
    | Cash
    | Vault(metal: Metal)
    | Fees
    | Tax
    | Reforestation
    | External
    | PayoutHold
    | DeliveryHold(metal: Metal)

  function AssetOf(a: Account): Asset {
    match a
    case Customer(_, asset) => asset
    case Vault(m) => Grams(m)
    case DeliveryHold(m) => Grams(m)
    case _ => ETB
  }

  // ---------------------------------------------------------------- ledger

  datatype Entry = Entry(account: Account, asset: Asset, amount: int)
  datatype Kind = DepositTxn | BuyTxn | SellTxn | WithdrawalTxn | TreasuryTxn | DeliveryTxn
  datatype Note =
    | NoNote | ReviewApproved
    | ChapaDeposit | DepositReversed
    | PayoutHeld | PayoutSent | PayoutRefund
    | DeliveryHeld | DeliveryOut | DeliveryRefund
    | Capital
  // The business row a ledger transaction was posted for.
  datatype Ref = OrderRef(i: nat) | PaymentRef(i: nat) | PayoutRef(i: nat) | DeliveryRef(i: nat) | CapitalRef(i: nat)
  datatype Posting = Posting(kind: Kind, note: Note, entries: seq<Entry>)
  datatype Txn = Txn(ref: Ref, body: Posting)

  function AmountOn(a: Account): Entry -> int {
    (e: Entry) => if e.account == a then e.amount else 0
  }

  function OfAsset(asset: Asset): Entry -> int {
    (e: Entry) => if e.asset == asset then e.amount else 0
  }

  function PostingOn(a: Account): Posting -> int {
    (p: Posting) => Sum(p.entries, AmountOn(a))
  }

  function TxnOn(a: Account): Txn -> int {
    (t: Txn) => Sum(t.body.entries, AmountOn(a))
  }

  // The projected balance of an account: the sum of its entries, never a stored number.
  function Balance(log: seq<Txn>, a: Account): int {
    Sum(log, TxnOn(a))
  }

  // The postings recorded for one business row, oldest first.
  function PostingsOf(log: seq<Txn>, ref: Ref): seq<Posting> {
    if log == [] then []
    else
      PostingsOf(log[..|log| - 1], ref)
      + (if log[|log| - 1].ref == ref then [log[|log| - 1].body] else [])
  }

  // What the database accepts as one ledger transaction.
  ghost predicate Sound(p: Posting) {
    && p.entries != []
    && (forall i :: 0 <= i < |p.entries| ==>
          p.entries[i].amount != 0 && p.entries[i].asset == AssetOf(p.entries[i].account))
    && (forall asset: Asset :: Sum(p.entries, OfAsset(asset)) == 0)
  }

  // ---------------------------------------------------------------- trading rows

  // The money figures of a quote; immutable once the quote exists.
  datatype Terms = Terms(
    side: Side, metal: Metal, gramsMg: int,
    subtotal: int, fee: int, tax: int, reforest: int, total: int)

  // What the quote engine guarantees of the figures it stores.
  predicate WellPriced(t: Terms) {
    && t.gramsMg > 0 && t.subtotal > 0 && t.fee >= 0 && t.tax >= 0 && t.reforest >= 0 && t.total > 0
    && t.total == (if t.side == Buy then t.subtotal + t.fee + t.tax + t.reforest
                   else t.subtotal - t.fee - t.tax - t.reforest)
  }

  datatype QuoteStatus = Open | Consumed | Expired
  datatype Quote = Quote(user: UserId, terms: Terms, status: QuoteStatus, expiresAt: int)

  datatype Key = Key(user: UserId, client: string)

  datatype Refusal =
    | QuoteConsumed | QuoteExpired | AccountFrozen | StaffAccount | EmailUnverified | KycRequired
    | InsufficientBalance | InsufficientMetal | TierTxnCap | TierDailyCap
    | ReserveHalt | FloatHalt | SellbackCeiling | ReviewExpired | ComplianceRejected
    | PayoutDailyLimit | PayoutDailyCount

  // `reviewed` (history): the order settled through an approved review, not directly.
  datatype OrderStatus = Created | Review | Settled(at: int, reviewed: bool) | Rejected(code: Refusal)
  // `terms` is the join with the order's quote, whose figures never change.
  datatype Order = Order(quote: nat, user: UserId, terms: Terms, key: Key, status: OrderStatus, createdAt: int)

  // ---------------------------------------------------------------- money in and out

  // The program declares `Verified` and credits from it, but no statement writes it.
  datatype PaymentStatus = Initiated | WebhookReceived | Verified | Credited | Failed | Reversed
  // `creditedAt` stays set after a reversal. History: `moved` is what each of the row's ledger transactions moved
  // into the customer's account, oldest first; `takenBack` that a confirmed refund or reversal was recorded.
  datatype Payment = Payment(
    user: UserId, amount: int, status: PaymentStatus,
    creditedAt: Option<int>, moved: seq<int>, takenBack: bool)

  // `refunded` (history): the rejection put held cents back.
  datatype PayoutStatus = Requested | Approved | Processing | PaidOut | Refused(refunded: bool)
  datatype Destination = Destination(bank: nat, account: string, name: string)
  datatype Payout = Payout(
    user: UserId, amount: int, dest: Destination, key: Key, code: nat,
    status: PayoutStatus, createdAt: int)

  // `Reviewing` too is declared and accepted by the program, and written by no statement.
  datatype DeliveryStatus = Asked | Reviewing | Agreed | Scheduled | Declined(refunded: bool) | Delivered
  datatype Delivery = Delivery(user: UserId, metal: Metal, gramsMg: int, status: DeliveryStatus)

  datatype VaultKind = Intake | Outtake
  datatype VaultRow = VaultRow(metal: Metal, kind: VaultKind, gramsMg: int)

  // A one-time withdrawal code and the exact request it confirms.
  datatype Code = Code(
    user: UserId, amount: int, dest: Destination, secret: nat,
    attempts: nat, createdAt: int, expiresAt: int, consumedAt: Option<int>)

  // ---------------------------------------------------------------- state

  // `confirming` holds the consumed codes whose confirm call has not yet run its payout transaction.
  datatype State = State(
    log: seq<Txn>,
    quotes: seq<Quote>,
    orders: seq<Order>,
    payments: seq<Payment>,
    payouts: seq<Payout>,
    deliveries: seq<Delivery>,
    capital: seq<int>,
    vault: seq<VaultRow>,
    codes: seq<Code>,
    confirming: set<nat>)

  // Limits and thresholds; constant for a run.
  datatype Config = Config(
    reviewThreshold: int, reviewMaxAgeMs: int, halt: int, sellbackCeiling: int,
    payoutMin: int, payoutDailyMax: int, payoutDailyCount: int, depositMin: int)

  predicate ConfigOk(cfg: Config) {
    && cfg.reviewThreshold > 0 && cfg.reviewMaxAgeMs > 0 && cfg.halt >= 0 && cfg.sellbackCeiling >= 0
    && cfg.payoutMin > 0 && cfg.payoutDailyMax > 0 && cfg.payoutDailyCount > 0 && cfg.depositMin > 0
  }

  // What the database says about a customer when a transaction asks: the two freeze signals,
  // the account gate, and the caps of the cached holding tier (None: uncapped).
  datatype Standing = Standing(frozen: bool, gate: Option<Refusal>, perTxnCap: Option<int>, dailyCap: Option<int>)

  predicate MayMoveMoney(st: Standing) {
    !st.frozen && st.gate.None?
  }

  const EMPTY: State := State([], [], [], [], [], [], [], [], [], {})

  function StockOn(m: Metal): VaultRow -> int {
    (v: VaultRow) => if v.metal != m then 0 else if v.kind == Intake then v.gramsMg else -v.gramsMg
  }

  // Physical vault stock: intakes minus outtakes.
  function Physical(vault: seq<VaultRow>, m: Metal): int {
    Sum(vault, StockOn(m))
  }

  // ---------------------------------------------------------------- money movements

  // The two shapes of ledger transaction the platform posts.
  datatype Move =
    | Trade(user: UserId, terms: Terms, reviewed: bool)
    | Shift(kind: Kind, note: Note, from: Account, to: Account, amount: int)

  function TradeEntries(user: UserId, t: Terms): seq<Entry> {
    var metal := Grams(t.metal);
    if t.side == Buy then
      [ Entry(Customer(user, ETB), ETB, -t.total),
        Entry(Cash, ETB, t.subtotal),
        Entry(Fees, ETB, t.fee),
        Entry(Tax, ETB, t.tax),
        Entry(Reforestation, ETB, t.reforest),
        Entry(Customer(user, metal), metal, t.gramsMg),
        Entry(Vault(t.metal), metal, -t.gramsMg) ]
    else
      [ Entry(Cash, ETB, -t.subtotal),
        Entry(Customer(user, ETB), ETB, t.total),
        Entry(Fees, ETB, t.fee),
        Entry(Tax, ETB, t.tax),
        Entry(Reforestation, ETB, t.reforest),
        Entry(Customer(user, metal), metal, -t.gramsMg),
        Entry(Vault(t.metal), metal, t.gramsMg) ]
  }

  function TransferEntries(from: Account, to: Account, amount: int): seq<Entry> {
    [Entry(from, AssetOf(from), -amount), Entry(to, AssetOf(to), amount)]
  }

  // The entries handed to the ledger, before zero entries are dropped.
  function EntriesOf(m: Move): seq<Entry> {
    match m
    case Trade(user, terms, _) => TradeEntries(user, terms)
    case Shift(_, _, from, to, amount) => TransferEntries(from, to, amount)
  }

  function KindOf(m: Move): Kind {
    match m
    case Trade(_, terms, _) => if terms.side == Buy then BuyTxn else SellTxn
    case Shift(kind, _, _, _, _) => kind
  }

  function NoteOf(m: Move): Note {
    match m
    case Trade(_, _, reviewed) => if reviewed then ReviewApproved else NoNote
    case Shift(_, note, _, _, _) => note
  }

  predicate NonZero(e: Entry) { e.amount != 0 }

  // What the ledger records for a move.
  function Shape(m: Move): Posting {
    Posting(KindOf(m), NoteOf(m), Filter(EntriesOf(m), NonZero))
  }

  // The ledger's own check before it records anything.
  predicate Postable(es: seq<Entry>) {
    var kept := Filter(es, NonZero);
    && kept != []
    && Sum(kept, OfAsset(ETB)) == 0 && Sum(kept, OfAsset(Grams(XAU))) == 0 && Sum(kept, OfAsset(Grams(XPT))) == 0
  }

  predicate MoveOk(m: Move) {
    match m
    case Trade(_, terms, _) => WellPriced(terms)
    case Shift(_, _, from, to, amount) => from != to && AssetOf(from) == AssetOf(to) && amount != 0
  }

  // What a move does to an account.
  function MoveNet(m: Move, a: Account): int {
    match m
    case Shift(_, _, from, to, amount) => (if a == to then amount else 0) - (if a == from then amount else 0)
    case Trade(user, t, _) =>
      var sign := if t.side == Buy then 1 else -1;
      match a
      case Customer(u, ETB) => if u == user then -sign * t.total else 0
      case Customer(u, Grams(m)) => if u == user && m == t.metal then sign * t.gramsMg else 0
      case Cash => sign * t.subtotal
      case Fees => t.fee
      case Tax => t.tax
      case Reforestation => t.reforest
      case Vault(m) => if m == t.metal then -sign * t.gramsMg else 0
      case _ => 0
  }

  lemma SumTwo<T>(x: T, y: T, f: T -> int)
    ensures Sum([x, y], f) == f(x) + f(y)
  {
    assert [x, y] == [x] + [y];
    SumAppend([x], y, f);
    SumAppend([], x, f);
    assert [] + [x] == [x];
  }

  lemma SumSeven<T>(rows: seq<T>, f: T -> int)
    requires |rows| == 7
    ensures Sum(rows, f) == f(rows[0]) + f(rows[1]) + f(rows[2]) + f(rows[3]) + f(rows[4]) + f(rows[5]) + f(rows[6])
  {
    SumTwo(rows[0], rows[1], f);
    SumAppend(rows[..2], rows[2], f);
    SumAppend(rows[..3], rows[3], f);
    SumAppend(rows[..4], rows[4], f);
    SumAppend(rows[..5], rows[5], f);
    SumAppend(rows[..6], rows[6], f);
    assert rows[..2] == [rows[0], rows[1]];
    assert rows[..3] == rows[..2] + [rows[2]];
    assert rows[..4] == rows[..3] + [rows[3]];
    assert rows[..5] == rows[..4] + [rows[4]];
    assert rows[..6] == rows[..5] + [rows[5]];
    assert rows == rows[..6] + [rows[6]];
  }

  // Dropping zero entries changes no balance: the recorded posting moves what the move says.
  lemma ShapeNet(m: Move, a: Account)
    ensures PostingOn(a)(Shape(m)) == MoveNet(m, a)
  {
    hide Filter, Sum;
    var es := EntriesOf(m);
    SumFilter(es, NonZero, AmountOn(a));
    if m.Trade? {
      SumSeven(es, AmountOn(a));
    } else {
      SumTwo(es[0], es[1], AmountOn(a));
    }
  }

  // The ledger accepts every well-formed move: balanced per asset, no zero entry, no empty transaction.
  lemma ShapeSound(m: Move)
    requires MoveOk(m)
    ensures Sound(Shape(m))
  {
    hide Filter, Sum;
    var es, kept := EntriesOf(m), Shape(m).entries;
    FilterKeeps(es, NonZero);
    FilterMember(es, NonZero, 0);
    forall i | 0 <= i < |kept| ensures kept[i].amount != 0 && kept[i].asset == AssetOf(kept[i].account) {
      assert kept[i] in kept;
    }
    forall asset: Asset ensures Sum(kept, OfAsset(asset)) == 0 {
      SumFilter(es, NonZero, OfAsset(asset));
      if m.Trade? {
        SumSeven(es, OfAsset(asset));
      } else {
        SumTwo(es[0], es[1], OfAsset(asset));
      }
    }
  }

  lemma BalanceAppend(log: seq<Txn>, t: Txn, a: Account)
    ensures Balance(log + [t], a) == Balance(log, a) + PostingOn(a)(t.body)
  {
    SumAppend(log, t, TxnOn(a));
  }

  lemma PostingsAppend(log: seq<Txn>, t: Txn, ref: Ref)
    ensures PostingsOf(log + [t], ref) == PostingsOf(log, ref) + (if t.ref == ref then [t.body] else [])
  {
    assert (log + [t])[..|log|] == log;
  }

  // ---------------------------------------------------------------- the story of a row

  // The moves a row must have posted, in order, given its status.
  function OrderStory(o: Order): seq<Move> {
    if o.status.Settled? then [Trade(o.user, o.terms, o.status.reviewed)] else []
  }

  function PaymentStory(p: Payment): seq<Move> {
    DepositMoves(p.user, p.moved)
  }

  function DepositMoves(user: UserId, moved: seq<int>): seq<Move> {
    if moved == [] then []
    else DepositMoves(user, moved[..|moved| - 1]) + [DepositMove(user, moved[|moved| - 1])]
  }

  // A credit is a movement in, a reversal a movement out.
  function DepositMove(user: UserId, cents: int): Move {
    if cents > 0 then Shift(DepositTxn, ChapaDeposit, External, Customer(user, ETB), cents)
    else Shift(DepositTxn, DepositReversed, Customer(user, ETB), External, -cents)
  }

  function CreditMove(p: Payment): Move { Shift(DepositTxn, ChapaDeposit, External, Customer(p.user, ETB), p.amount) }
  function DebitMove(p: Payment, debited: int): Move {
    Shift(DepositTxn, DepositReversed, Customer(p.user, ETB), External, debited)
  }

  lemma DepositMovesAppend(user: UserId, moved: seq<int>, cents: int)
    ensures DepositMoves(user, moved + [cents]) == DepositMoves(user, moved) + [DepositMove(user, cents)]
  {
    assert (moved + [cents])[..|moved|] == moved;
  }

  lemma {:induction false} DepositsMoveCents(user: UserId, moved: seq<int>, m: Move)
    requires m in DepositMoves(user, moved)
    ensures m.Shift? && {m.from, m.to} == {External, Customer(user, ETB)}
    decreases |moved|
  {
    var n := |moved| - 1;
    if m != DepositMove(user, moved[n]) {
      DepositsMoveCents(user, moved[..n], m);
    }
  }

  function Cents(): int -> int { (n: int) => n }

  // What of a deposit is in the customer's account because of its ledger transactions.
  function Kept(p: Payment): int { Sum(p.moved, Cents()) }

  function PayoutStory(p: Payout): seq<Move> {
    match p.status
    case Refused(false) => []
    case Refused(true) => [HoldMove(p), RefundMove(p)]
    case PaidOut => [HoldMove(p), SendMove(p)]
    case _ => [HoldMove(p)]
  }

  function HoldMove(p: Payout): Move { Shift(WithdrawalTxn, PayoutHeld, Customer(p.user, ETB), PayoutHold, p.amount) }
  function SendMove(p: Payout): Move { Shift(WithdrawalTxn, PayoutSent, PayoutHold, External, p.amount) }
  function RefundMove(p: Payout): Move {
    Shift(WithdrawalTxn, PayoutRefund, PayoutHold, Customer(p.user, ETB), p.amount)
  }

  function DeliveryStory(d: Delivery): seq<Move> {
    match d.status
    case Agreed => [EscrowMove(d)]
    case Scheduled => [EscrowMove(d)]
    case Delivered => [EscrowMove(d), HandoverMove(d)]
    case Declined(true) => [EscrowMove(d), ReturnMove(d)]
    case _ => []
  }

  function EscrowMove(d: Delivery): Move {
    Shift(DeliveryTxn, DeliveryHeld, Customer(d.user, Grams(d.metal)), DeliveryHold(d.metal), d.gramsMg)
  }
  function HandoverMove(d: Delivery): Move {
    Shift(DeliveryTxn, DeliveryOut, DeliveryHold(d.metal), Vault(d.metal), d.gramsMg)
  }
  function ReturnMove(d: Delivery): Move {
    Shift(DeliveryTxn, DeliveryRefund, DeliveryHold(d.metal), Customer(d.user, Grams(d.metal)), d.gramsMg)
  }

  function CapitalMove(amount: int): Move { Shift(TreasuryTxn, Capital, External, Cash, amount) }

  function StoryOf(s: State, ref: Ref): seq<Move> {
    match ref
    case OrderRef(i) => if i < |s.orders| then OrderStory(s.orders[i]) else []
    case PaymentRef(i) => if i < |s.payments| then PaymentStory(s.payments[i]) else []
    case PayoutRef(i) => if i < |s.payouts| then PayoutStory(s.payouts[i]) else []
    case DeliveryRef(i) => if i < |s.deliveries| then DeliveryStory(s.deliveries[i]) else []
    case CapitalRef(i) => if i < |s.capital| then [CapitalMove(s.capital[i])] else []
  }

  function Shapes(story: seq<Move>): seq<Posting> {
    if story == [] then [] else Shapes(story[..|story| - 1]) + [Shape(story[|story| - 1])]
  }

  lemma ShapesAppend(story: seq<Move>, m: Move)
    ensures Shapes(story + [m]) == Shapes(story) + [Shape(m)]
  {
    assert (story + [m])[..|story|] == story;
  }

  function MoveOn(a: Account): Move -> int { (m: Move) => MoveNet(m, a) }

  // What a row has done to an account so far.
  function OrderOn(a: Account): Order -> int { (o: Order) => Sum(OrderStory(o), MoveOn(a)) }
  function PaymentOn(a: Account): Payment -> int { (p: Payment) => Sum(PaymentStory(p), MoveOn(a)) }
  function PayoutOn(a: Account): Payout -> int { (p: Payout) => Sum(PayoutStory(p), MoveOn(a)) }
  function DeliveryOn(a: Account): Delivery -> int { (d: Delivery) => Sum(DeliveryStory(d), MoveOn(a)) }
  function CapitalOn(a: Account): int -> int { (amount: int) => MoveNet(CapitalMove(amount), a) }

  lemma SumOne<T>(x: T, f: T -> int)
    ensures Sum([x], f) == f(x)
  {
    SumAppend([], x, f);
    assert [] + [x] == [x];
  }

  lemma OrderNet(o: Order, a: Account)
    ensures OrderOn(a)(o) == if o.status.Settled? then MoveNet(Trade(o.user, o.terms, o.status.reviewed), a) else 0
  {
    if o.status.Settled? {
      SumOne(OrderStory(o)[0], MoveOn(a));
    }
  }

  lemma {:induction false} MovesNet(user: UserId, moved: seq<int>, a: Account)
    ensures Sum(DepositMoves(user, moved), MoveOn(a)) ==
            MoveNet(Shift(DepositTxn, ChapaDeposit, External, Customer(user, ETB), Sum(moved, Cents())), a)
    decreases |moved|
  {
    if moved != [] {
      var n := |moved| - 1;
      MovesNet(user, moved[..n], a);
      SumAppend(DepositMoves(user, moved[..n]), DepositMove(user, moved[n]), MoveOn(a));
    }
  }

  lemma PaymentNet(p: Payment, a: Account)
    ensures PaymentOn(a)(p) == MoveNet(Shift(DepositTxn, ChapaDeposit, External, Customer(p.user, ETB), Kept(p)), a)
  {
    MovesNet(p.user, p.moved, a);
  }

  lemma PayoutNet(p: Payout, a: Account)
    ensures PayoutOn(a)(p) ==
            match p.status
            case PaidOut => MoveNet(Shift(WithdrawalTxn, PayoutSent, Customer(p.user, ETB), External, p.amount), a)
            case Refused(_) => 0
            case _ => MoveNet(HoldMove(p), a)
  {
    match p.status
    case Refused(refunded) => if refunded { SumTwo(HoldMove(p), RefundMove(p), MoveOn(a)); }
    case PaidOut => SumTwo(HoldMove(p), SendMove(p), MoveOn(a));
    case _ => SumOne(HoldMove(p), MoveOn(a));
  }

  lemma DeliveryNet(d: Delivery, a: Account)
    ensures DeliveryOn(a)(d) ==
            match d.status
            case Agreed => MoveNet(EscrowMove(d), a)
            case Scheduled => MoveNet(EscrowMove(d), a)
            case Delivered =>
              MoveNet(Shift(DeliveryTxn, DeliveryOut, Customer(d.user, Grams(d.metal)), Vault(d.metal), d.gramsMg), a)
            case _ => 0
  {
    match d.status
    case Agreed => SumOne(EscrowMove(d), MoveOn(a));
    case Scheduled => SumOne(EscrowMove(d), MoveOn(a));
    case Delivered => SumTwo(EscrowMove(d), HandoverMove(d), MoveOn(a));
    case Declined(refunded) => if refunded { SumTwo(EscrowMove(d), ReturnMove(d), MoveOn(a)); }
    case _ =>
  }
}
