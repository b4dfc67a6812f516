/** What the invariants mean for the platform: backing, escrow, revenue, zero sums, exact histories. */
module Guarantees {
  import opened Sums
  import opened Books
  import opened Journal
  import opened Platform
  import opened Calendar
  import O = Orders
  import P = Payouts
  import D = Payments
  import H = PhysicalDelivery

  // ---------------------------------------------------------------- every balance, from the business rows

  function Held(): Payout -> int { (p: Payout) => if P.Held(p) then p.amount else 0 }
  function Sent(): Payout -> int { (p: Payout) => if p.status.PaidOut? then p.amount else 0 }
  function HeldGrams(m: Metal): Delivery -> int {
    (d: Delivery) => if d.metal == m && H.IsHeld(d) then d.gramsMg else 0
  }
  function GoneGrams(m: Metal): Delivery -> int {
    (d: Delivery) => if d.metal == m && d.status.Delivered? then d.gramsMg else 0
  }
  function FeeOn(): Order -> int { (o: Order) => if o.status.Settled? then o.terms.fee else 0 }
  function TaxOn(): Order -> int { (o: Order) => if o.status.Settled? then o.terms.tax else 0 }
  function ReforestOn(): Order -> int { (o: Order) => if o.status.Settled? then o.terms.reforest else 0 }
  function SubtotalOn(): Order -> int {
    (o: Order) => if !o.status.Settled? then 0 else if o.terms.side == Buy then o.terms.subtotal else -o.terms.subtotal
  }
  function IssuedGrams(m: Metal): Order -> int {
    (o: Order) => if !o.status.Settled? || o.terms.metal != m then 0
                  else if o.terms.side == Buy then o.terms.gramsMg else -o.terms.gramsMg
  }
  function KeptDeposit(): Payment -> int { (p: Payment) => Kept(p) }
  function Amount(): int -> int { (n: int) => n }

  function NoOrder(): Order -> int { (o: Order) => 0 }
  function NoPayment(): Payment -> int { (p: Payment) => 0 }
  function NoPayout(): Payout -> int { (p: Payout) => 0 }
  function NoDelivery(): Delivery -> int { (d: Delivery) => 0 }
  function NoCapital(): int -> int { (n: int) => 0 }
  function Minus<T>(f: T -> int): T -> int { (x: T) => -f(x) }

  // A balance splits into the sums the five tables expect of it.
  lemma BalanceFromTables(s: State, a: Account)
    requires Reconciled(s)
    ensures Balance(s.log, a) == Sum(s.orders, OrderOn(a)) + Sum(s.payments, PaymentOn(a)) + Sum(s.payouts, PayoutOn(a))
                                 + Sum(s.deliveries, DeliveryOn(a)) + Sum(s.capital, CapitalOn(a))
  {
    hide Balance, NetOf, Sum;
    BalanceByTable(s.log, a);
    assert NetOf(s.log, Orders, a) == Expected(s, Orders, a);
    assert NetOf(s.log, Payments, a) == Expected(s, Payments, a);
    assert NetOf(s.log, Payouts, a) == Expected(s, Payouts, a);
    assert NetOf(s.log, Deliveries, a) == Expected(s, Deliveries, a);
    assert NetOf(s.log, CapitalMoves, a) == Expected(s, CapitalMoves, a);
  }

  // Replace the five per-row effects on one account by closed forms.
  lemma BalanceIs(s: State, a: Account, fo: Order -> int, fd: Payment -> int, fp: Payout -> int, fh: Delivery -> int,
                  fc: int -> int)
    requires Reconciled(s)
    requires forall i :: 0 <= i < |s.orders| ==> OrderOn(a)(s.orders[i]) == fo(s.orders[i])
    requires forall i :: 0 <= i < |s.payments| ==> PaymentOn(a)(s.payments[i]) == fd(s.payments[i])
    requires forall i :: 0 <= i < |s.payouts| ==> PayoutOn(a)(s.payouts[i]) == fp(s.payouts[i])
    requires forall i :: 0 <= i < |s.deliveries| ==> DeliveryOn(a)(s.deliveries[i]) == fh(s.deliveries[i])
    requires forall i :: 0 <= i < |s.capital| ==> CapitalOn(a)(s.capital[i]) == fc(s.capital[i])
    ensures Balance(s.log, a) == Sum(s.orders, fo) + Sum(s.payments, fd) + Sum(s.payouts, fp)
                                 + Sum(s.deliveries, fh) + Sum(s.capital, fc)
  {
    hide Balance, Sum, OrderOn, PaymentOn, PayoutOn, DeliveryOn, CapitalOn;
    BalanceFromTables(s, a);
    SumEq(s.orders, OrderOn(a), fo);
    SumEq(s.payments, PaymentOn(a), fd);
    SumEq(s.payouts, PayoutOn(a), fp);
    SumEq(s.deliveries, DeliveryOn(a), fh);
    SumEq(s.capital, CapitalOn(a), fc);
  }

  lemma RowNets(a: Account)
    ensures forall o: Order :: OrderOn(a)(o) ==
              if o.status.Settled? then MoveNet(Trade(o.user, o.terms, o.status.reviewed), a) else 0
    ensures forall p: Payment :: PaymentOn(a)(p) ==
              MoveNet(Shift(DepositTxn, ChapaDeposit, External, Customer(p.user, ETB), Kept(p)), a)
    ensures forall p: Payout :: PayoutOn(a)(p) ==
              match p.status
              case PaidOut => MoveNet(Shift(WithdrawalTxn, PayoutSent, Customer(p.user, ETB), External, p.amount), a)
              case Refused(_) => 0
              case _ => MoveNet(HoldMove(p), a)
    ensures forall d: Delivery :: DeliveryOn(a)(d) ==
              match d.status
              case Agreed => MoveNet(EscrowMove(d), a)
              case Scheduled => MoveNet(EscrowMove(d), a)
              case Delivered =>
                MoveNet(Shift(DeliveryTxn, DeliveryOut, Customer(d.user, Grams(d.metal)), Vault(d.metal), d.gramsMg), a)
              case _ => 0
  {
    hide OrderOn, PaymentOn, PayoutOn, DeliveryOn, MoveNet;
    forall o: Order
      ensures OrderOn(a)(o) == if o.status.Settled? then MoveNet(Trade(o.user, o.terms, o.status.reviewed), a) else 0
    {
      OrderNet(o, a);
    }
    forall p: Payment { PaymentNet(p, a); }
    forall p: Payout { PayoutNet(p, a); }
    forall d: Delivery { DeliveryNet(d, a); }
  }

  // Escrow: the payout hold is exactly the payouts requested, approved or processing, and each
  // delivery hold exactly the grams approved or scheduled.
  lemma EscrowIsExact(cfg: Config, s: State, m: Metal)
    requires ConfigOk(cfg) && Reachable(cfg, s)
    ensures Balance(s.log, PayoutHold) == Sum(s.payouts, Held()) >= 0
            && Balance(s.log, DeliveryHold(m)) == Sum(s.deliveries, HeldGrams(m)) >= 0
  {
    hide Balance, Sum, Reachable, OrderOn, PaymentOn, PayoutOn, DeliveryOn, O.OrdersOk, LogSound, History, Reconciled,
         AlwaysSolvent, DeliveriesOnlyTake, Backed, P.OnePayoutPerCode, P.OnePayoutPerKey, P.ConfirmingOk,
         P.WithinDailyLimits;
    ReachableIsOk(cfg, s);
    RowNets(PayoutHold);
    RowNets(DeliveryHold(m));
    BalanceIs(s, PayoutHold, NoOrder(), NoPayment(), Held(), NoDelivery(), NoCapital());
    BalanceIs(s, DeliveryHold(m), NoOrder(), NoPayment(), NoPayout(), HeldGrams(m), NoCapital());
    Zeros(s);
    forall i | 0 <= i < |s.payouts| ensures Held()(s.payouts[i]) >= 0 {
      assert P.PayoutMatches(s, s.payouts[i]);
    }
    SumNonNeg(s.payouts, Held());
    SumNonNeg(s.deliveries, HeldGrams(m));
  }

  lemma Zeros(s: State)
    ensures Sum(s.orders, NoOrder()) == 0 && Sum(s.payments, NoPayment()) == 0 && Sum(s.payouts, NoPayout()) == 0
            && Sum(s.deliveries, NoDelivery()) == 0 && Sum(s.capital, NoCapital()) == 0
  {
    SumZero(s.orders, NoOrder());
    SumZero(s.payments, NoPayment());
    SumZero(s.payouts, NoPayout());
    SumZero(s.deliveries, NoDelivery());
    SumZero(s.capital, NoCapital());
  }

  // Revenue: fees, tax and reforestation are the sums of those figures over settled orders; cash is
  // capital moved in plus buy subtotals minus sell subtotals.
  lemma RevenueIsExact(cfg: Config, s: State)
    requires ConfigOk(cfg) && Reachable(cfg, s)
    ensures Balance(s.log, Fees) == Sum(s.orders, FeeOn())
            && Balance(s.log, Tax) == Sum(s.orders, TaxOn())
            && Balance(s.log, Reforestation) == Sum(s.orders, ReforestOn())
            && Balance(s.log, Cash) == Sum(s.capital, Amount()) + Sum(s.orders, SubtotalOn())
  {
    hide Balance, Sum, Reachable, OrderOn, PaymentOn, PayoutOn, DeliveryOn, O.OrdersOk, P.PayoutsOk, LogSound, History,
         Reconciled, AlwaysSolvent, DeliveriesOnlyTake, Backed;
    ReachableIsOk(cfg, s);
    RowNets(Fees);
    RowNets(Tax);
    RowNets(Reforestation);
    RowNets(Cash);
    BalanceIs(s, Fees, FeeOn(), NoPayment(), NoPayout(), NoDelivery(), NoCapital());
    BalanceIs(s, Tax, TaxOn(), NoPayment(), NoPayout(), NoDelivery(), NoCapital());
    BalanceIs(s, Reforestation, ReforestOn(), NoPayment(), NoPayout(), NoDelivery(), NoCapital());
    BalanceIs(s, Cash, SubtotalOn(), NoPayment(), NoPayout(), NoDelivery(), Amount());
    Zeros(s);
  }

  lemma SumMinus<T>(rows: seq<T>, f: T -> int)
    ensures Sum(rows, Minus(f)) == -Sum(rows, f)
  {
    SumAdds(rows, f, Minus(f), Nil<T>());
    SumZero(rows, Nil<T>());
  }

  function Nil<T>(): T -> int { (x: T) => 0 }

  // The outside world: what is owed outside is kept deposits plus capital, less payouts sent;
  // the vault account is minus the grams issued, plus the grams handed over.
  lemma OutsideIsExact(cfg: Config, s: State, m: Metal)
    requires ConfigOk(cfg) && Reachable(cfg, s)
    ensures Balance(s.log, External) ==
              Sum(s.payouts, Sent()) - Sum(s.payments, KeptDeposit()) - Sum(s.capital, Amount())
            && Balance(s.log, Vault(m)) == Sum(s.deliveries, GoneGrams(m)) - Sum(s.orders, IssuedGrams(m))
  {
    hide Balance, Sum, Reachable, OrderOn, PaymentOn, PayoutOn, DeliveryOn, O.OrdersOk, P.PayoutsOk, LogSound, History,
         Reconciled, AlwaysSolvent, DeliveriesOnlyTake, Backed;
    ReachableIsOk(cfg, s);
    RowNets(External);
    RowNets(Vault(m));
    BalanceIs(s, External, NoOrder(), Minus(KeptDeposit()), Sent(), NoDelivery(), Minus(Amount()));
    BalanceIs(s, Vault(m), Minus(IssuedGrams(m)), NoPayment(), NoPayout(), GoneGrams(m), NoCapital());
    SumMinus(s.payments, KeptDeposit());
    SumMinus(s.capital, Amount());
    SumMinus(s.orders, IssuedGrams(m));
    Zeros(s);
  }

  // ---------------------------------------------------------------- zero sums and metal backing

  // What customers numbered below `n` hold of an asset.
  function HeldBelow(log: seq<Txn>, asset: Asset, n: nat): int {
    if n == 0 then 0 else HeldBelow(log, asset, n - 1) + Balance(log, Customer(n - 1, asset))
  }

  // What the system accounts hold of an asset.
  function SystemTotal(log: seq<Txn>, asset: Asset): int {
    match asset
    case ETB => Balance(log, Cash) + Balance(log, Fees) + Balance(log, Tax) + Balance(log, Reforestation)
                + Balance(log, External) + Balance(log, PayoutHold)
    case Grams(m) => Balance(log, Vault(m)) + Balance(log, DeliveryHold(m))
  }

  predicate IsBelow(e: Entry, n: nat) {
    e.account.Customer? ==> e.account.user < n
  }

  // `n` numbers every customer the log mentions.
  ghost predicate Covers(log: seq<Txn>, n: nat) {
    forall i, j :: 0 <= i < |log| && 0 <= j < |log[i].body.entries| ==> IsBelow(log[i].body.entries[j], n)
  }

  function BelowOn(asset: Asset, n: nat): Entry -> int {
    (e: Entry) => if e.account.Customer? && e.account.asset == asset && e.account.user < n then e.amount else 0
  }

  function TxnBelow(asset: Asset, n: nat): Txn -> int {
    (t: Txn) => Sum(t.body.entries, BelowOn(asset, n))
  }

  lemma {:induction false} HeldBelowIsSum(log: seq<Txn>, asset: Asset, n: nat)
    ensures HeldBelow(log, asset, n) == Sum(log, TxnBelow(asset, n))
    decreases n
  {
    if n == 0 {
      forall i | 0 <= i < |log| ensures TxnBelow(asset, 0)(log[i]) == 0 {
        SumZero(log[i].body.entries, BelowOn(asset, 0));
      }
      SumZero(log, TxnBelow(asset, 0));
    } else {
      var a := Customer(n - 1, asset);
      HeldBelowIsSum(log, asset, n - 1);
      forall i | 0 <= i < |log|
        ensures TxnBelow(asset, n)(log[i]) == TxnBelow(asset, n - 1)(log[i]) + TxnOn(a)(log[i])
      {
        SumAdds(log[i].body.entries, BelowOn(asset, n - 1), AmountOn(a), BelowOn(asset, n));
      }
      SumAdds(log, TxnBelow(asset, n - 1), TxnOn(a), TxnBelow(asset, n));
    }
  }

  // The system accounts of an asset on one posting.
  function SystemNet(p: Posting, asset: Asset): int {
    match asset
    case ETB => PostingOn(Cash)(p) + PostingOn(Fees)(p) + PostingOn(Tax)(p) + PostingOn(Reforestation)(p)
                + PostingOn(External)(p) + PostingOn(PayoutHold)(p)
    case Grams(m) => PostingOn(Vault(m))(p) + PostingOn(DeliveryHold(m))(p)
  }

  lemma {:induction false} EntriesSplit(es: seq<Entry>, asset: Asset, n: nat)
    requires forall i :: 0 <= i < |es| ==> es[i].asset == AssetOf(es[i].account) && IsBelow(es[i], n)
    ensures Sum(es, OfAsset(asset)) == Sum(es, BelowOn(asset, n)) + SystemNet(Posting(DepositTxn, NoNote, es), asset)
    decreases |es|
  {
    if es != [] {
      EntriesSplit(es[..|es| - 1], asset, n);
    }
  }

  lemma {:induction false} ZeroSumBelow(log: seq<Txn>, asset: Asset, n: nat)
    requires LogSound(log) && Covers(log, n)
    ensures Sum(log, TxnBelow(asset, n)) + SystemTotal(log, asset) == 0
    decreases |log|
  {
    hide AmountOn, OfAsset, BelowOn;
    if log != [] {
      var k := |log| - 1;
      ZeroSumBelow(log[..k], asset, n);
      assert Sound(log[k].body);
      EntriesSplit(log[k].body.entries, asset, n);
      LastTxn(log, asset, n);
    }
  }

  lemma LastTxn(log: seq<Txn>, asset: Asset, n: nat)
    requires log != []
    ensures var k := |log| - 1;
            SystemTotal(log, asset) == SystemTotal(log[..k], asset) + SystemNet(log[k].body, asset)
  {
    var k := |log| - 1;
    assert log == log[..k] + [log[k]];
    forall a: Account ensures Balance(log, a) == Balance(log[..k], a) + PostingOn(a)(log[k].body) {
      BalanceAppend(log[..k], log[k], a);
    }
  }

  // All balances of an asset sum to zero, for every asset and any numbering that covers the customers.
  lemma AllBalancesSumToZero(cfg: Config, s: State, asset: Asset, n: nat)
    requires ConfigOk(cfg) && Reachable(cfg, s) && Covers(s.log, n)
    ensures HeldBelow(s.log, asset, n) + SystemTotal(s.log, asset) == 0
  {
    hide Reachable, SystemTotal, HeldBelow, Covers, Sound, O.OrdersOk, P.PayoutsOk;
    ReachableIsOk(cfg, s);
    HeldBelowIsSum(s.log, asset, n);
    ZeroSumBelow(s.log, asset, n);
  }

  lemma {:induction false} HeldBelowGrows(log: seq<Txn>, asset: Asset, n: nat, k: nat)
    requires n <= k && forall u: nat :: Balance(log, Customer(u, asset)) >= 0
    ensures HeldBelow(log, asset, n) <= HeldBelow(log, asset, k)
    decreases k
  {
    if n < k {
      HeldBelowGrows(log, asset, n, k - 1);
    }
  }

  // A numbering that covers the log exists.
  lemma {:induction false} CoverExists(log: seq<Txn>) returns (n: nat)
    ensures Covers(log, n)
    decreases |log|
  {
    n := 0;
    if log != [] {
      n := CoverExists(log[..|log| - 1]);
      var k := CoverEntries(log[|log| - 1].body.entries);
      if k > n {
        n := k;
      }
      forall i, j | 0 <= i < |log| && 0 <= j < |log[i].body.entries| ensures IsBelow(log[i].body.entries[j], n) {
        if i < |log| - 1 {
          assert log[..|log| - 1][i] == log[i];
        }
      }
    }
  }

  lemma {:induction false} CoverEntries(es: seq<Entry>) returns (n: nat)
    ensures forall j :: 0 <= j < |es| ==> IsBelow(es[j], n)
    decreases |es|
  {
    n := 0;
    if es != [] {
      n := CoverEntries(es[..|es| - 1]);
      var last := es[|es| - 1];
      if last.account.Customer? && last.account.user >= n {
        n := last.account.user + 1;
      }
    }
  }

  // No customer account and no hold is ever negative, now or after any earlier transaction of the log.
  lemma NobodyIsNegative(cfg: Config, s: State, u: UserId, asset: Asset, m: Metal, k: nat)
    requires ConfigOk(cfg) && Reachable(cfg, s) && k <= |s.log|
    ensures Balance(s.log[..k], Customer(u, asset)) >= 0
    ensures Balance(s.log[..k], PayoutHold) >= 0 && Balance(s.log[..k], DeliveryHold(m)) >= 0
  {
    hide Reachable, Balance, O.OrdersOk, P.PayoutsOk, Backed, LogSound, History, Reconciled, DeliveriesOnlyTake, Sum;
    ReachableIsOk(cfg, s);
    var a := Customer(u, asset);
    assert a.Customer? && Balance(s.log[..k], a) >= 0;
    var earlier := LogPrefixIsReachable(cfg, s, k);
    EscrowIsExact(cfg, earlier, m);
  }

  // Full metal backing: physical stock covers what all customers hold plus what is held for delivery.
  lemma MetalIsFullyBacked(cfg: Config, s: State, m: Metal, n: nat)
    requires ConfigOk(cfg) && Reachable(cfg, s)
    ensures Physical(s.vault, m) >= HeldBelow(s.log, Grams(m), n) + Balance(s.log, DeliveryHold(m))
  {
    hide Reachable, Balance, O.OrdersOk, P.PayoutsOk, LogSound, History, Reconciled, AlwaysSolvent, DeliveriesOnlyTake,
         Physical, Covers, HeldBelow;
    ReachableIsOk(cfg, s);
    var all := CoverExists(s.log);
    AllBalancesSumToZero(cfg, s, Grams(m), all);
    forall u: nat ensures Balance(s.log, Customer(u, Grams(m))) >= 0 {
      NobodyIsNegative(cfg, s, u, Grams(m), m, |s.log|);
      assert s.log[..|s.log|] == s.log;
    }
    if n <= all {
      HeldBelowGrows(s.log, Grams(m), n, all);
    } else {
      CoversMore(s.log, all, n);
      AllBalancesSumToZero(cfg, s, Grams(m), n);
    }
  }

  lemma CoversMore(log: seq<Txn>, n: nat, k: nat)
    requires Covers(log, n) && n <= k
    ensures Covers(log, k)
  {
    forall i, j | 0 <= i < |log| && 0 <= j < |log[i].body.entries| ensures IsBelow(log[i].body.entries[j], k) {
      assert IsBelow(log[i].body.entries[j], n);
    }
  }

  // ---------------------------------------------------------------- exact histories

  lemma OrderUsesItsQuote(cfg: Config, s: State, i: nat)
    requires ConfigOk(cfg) && Reachable(cfg, s) && i < |s.orders|
    ensures O.OrderMatches(s.quotes, s.orders[i])
  {
    hide Reachable, BooksOk, P.PayoutsOk, O.OrderMatches, D.PaymentsOk, H.DeliveriesOk;
    ReachableIsOk(cfg, s);
  }

  // An order posts one ledger transaction, at its quote's figures, exactly when it is settled.
  lemma OrderPostsOnceAtQuote(cfg: Config, s: State, i: nat)
    requires ConfigOk(cfg) && Reachable(cfg, s) && i < |s.orders|
    ensures var o := s.orders[i];
            && o.quote < |s.quotes|
            && PostingsOf(s.log, OrderRef(i)) ==
               if o.status.Settled? then [Shape(Trade(o.user, s.quotes[o.quote].terms, o.status.reviewed))] else []
  {
    hide Reachable, LogSound, Reconciled, AlwaysSolvent, DeliveriesOnlyTake, Backed, O.OrdersOk, P.PayoutsOk, Shape,
         PostingsOf;
    ReachableIsOk(cfg, s);
    OrderUsesItsQuote(cfg, s, i);
    assert PostingsOf(s.log, OrderRef(i)) == Shapes(StoryOf(s, OrderRef(i)));
    if s.orders[i].status.Settled? {
      ShapesAppend([], StoryOf(s, OrderRef(i))[0]);
      assert [] + StoryOf(s, OrderRef(i)) == StoryOf(s, OrderRef(i));
    }
  }

  // At most one order per quote reaches review or settled, and each idempotency key owns one order.
  lemma OneOrderPerQuoteAndKey(cfg: Config, s: State, i: nat, j: nat)
    requires ConfigOk(cfg) && Reachable(cfg, s) && i < |s.orders| && j < |s.orders|
    ensures var orders := s.orders;
            && (orders[i].key == orders[j].key ==> i == j)
            && (O.Live(orders[i]) && O.Live(orders[j]) && orders[i].quote == orders[j].quote ==> i == j)
  {
    hide Reachable, BooksOk, P.PayoutsOk;
    ReachableIsOk(cfg, s);
  }

  // A deposit's ledger transactions are the credits and debits of its history and no others: every credit is of
  // exactly the initialised amount, every debit is of at most that and undoes the credit just before it.
  lemma DepositHistoryIsExact(cfg: Config, s: State, i: nat)
    requires ConfigOk(cfg) && Reachable(cfg, s) && i < |s.payments|
    ensures var p := s.payments[i];
            && PostingsOf(s.log, PaymentRef(i)) == Shapes(DepositMoves(p.user, p.moved))
            && D.MovesOk(p.amount, p.moved)
            && (p.creditedAt.None? <==> p.moved == [])
            && (p.status.Credited? ==> p.moved != [] && p.moved[|p.moved| - 1] == p.amount)
            && (p.status.Reversed? ==> p.moved != [] && p.takenBack)
  {
    hide Reachable, LogSound, Reconciled, AlwaysSolvent, DeliveriesOnlyTake, Backed, O.OrdersOk, P.PayoutsOk, Shape,
         PostingsOf, Shapes, DepositMoves;
    ReachableIsOk(cfg, s);
    assert PostingsOf(s.log, PaymentRef(i)) == Shapes(StoryOf(s, PaymentRef(i)));
    assert D.PaymentOk(s.payments[i]);
  }

  lemma TwoShapes(story: seq<Move>)
    requires |story| <= 2
    ensures Shapes(story) == if |story| == 0 then []
                             else if |story| == 1 then [Shape(story[0])]
                             else [Shape(story[0]), Shape(story[1])]
  {
    hide Shape, Shapes;
    NoShapes();
    if |story| == 1 {
      ShapesAppend([], story[0]);
      assert story == [] + [story[0]];
    } else if |story| == 2 {
      ShapesAppend([], story[0]);
      ShapesAppend([story[0]], story[1]);
      assert story == [story[0]] + [story[1]];
      assert [] + [story[0]] == [story[0]];
    } else {
      assert story == [];
    }
  }

  lemma NoShapes()
    ensures Shapes([]) == []
  {
  }

  // A payout's cents enter escrow at most once and leave it exactly once: to the provider when
  // it settles, back to the customer when it is refused after being held, never both.
  lemma PayoutHistoryIsExact(cfg: Config, s: State, i: nat)
    requires ConfigOk(cfg) && Reachable(cfg, s) && i < |s.payouts|
    ensures var p := s.payouts[i];
            PostingsOf(s.log, PayoutRef(i)) ==
            match p.status
            case PaidOut => [Shape(HoldMove(p)), Shape(SendMove(p))]
            case Refused(true) => [Shape(HoldMove(p)), Shape(RefundMove(p))]
            case Refused(false) => []
            case _ => [Shape(HoldMove(p))]
  {
    hide Reachable, LogSound, Reconciled, AlwaysSolvent, DeliveriesOnlyTake, Backed, O.OrdersOk, P.PayoutsOk, Shape,
         PostingsOf, HoldMove, SendMove, RefundMove;
    ReachableIsOk(cfg, s);
    assert PostingsOf(s.log, PayoutRef(i)) == Shapes(StoryOf(s, PayoutRef(i)));
    TwoShapes(StoryOf(s, PayoutRef(i)));
  }

  lemma DeliveryHistoryIsExact(cfg: Config, s: State, i: nat)
    requires ConfigOk(cfg) && Reachable(cfg, s) && i < |s.deliveries|
    ensures var d := s.deliveries[i];
            PostingsOf(s.log, DeliveryRef(i)) ==
            match d.status
            case Agreed => [Shape(EscrowMove(d))]
            case Scheduled => [Shape(EscrowMove(d))]
            case Delivered => [Shape(EscrowMove(d)), Shape(HandoverMove(d))]
            case Declined(true) => [Shape(EscrowMove(d)), Shape(ReturnMove(d))]
            case _ => []
  {
    hide Reachable, LogSound, Reconciled, AlwaysSolvent, DeliveriesOnlyTake, Backed, O.OrdersOk, P.PayoutsOk, Shape,
         PostingsOf, EscrowMove, HandoverMove, ReturnMove;
    ReachableIsOk(cfg, s);
    assert PostingsOf(s.log, DeliveryRef(i)) == Shapes(StoryOf(s, DeliveryRef(i)));
    TwoShapes(StoryOf(s, DeliveryRef(i)));
  }

  // Every payout carries the amount and destination of its own consumed withdrawal code.
  lemma PayoutComesFromItsCode(cfg: Config, s: State, i: nat, j: nat)
    requires ConfigOk(cfg) && Reachable(cfg, s) && i < |s.payouts| && j < |s.payouts|
    ensures var p := s.payouts[i];
            && p.code < |s.codes|
            && s.codes[p.code].consumedAt.Some?
            && s.codes[p.code].user == p.user && s.codes[p.code].amount == p.amount && s.codes[p.code].dest == p.dest
            && (p.code == s.payouts[j].code ==> i == j)
            && (p.key == s.payouts[j].key ==> i == j)
  {
    hide Reachable, BooksOk, O.OrdersOk;
    ReachableIsOk(cfg, s);
    assert P.PayoutMatches(s, s.payouts[i]);
  }

  // ---------------------------------------------------------------- daily limits

  // For every customer and EAT day of every run.
  lemma DailyLimitsHold(cfg: Config, s: State, user: UserId, day: int)
    requires ConfigOk(cfg) && Reachable(cfg, s)
    ensures Sum(s.payouts, P.AmountOnDay(user, day)) <= cfg.payoutDailyMax
            && Sum(s.payouts, P.NumberOnDay(user, day)) <= cfg.payoutDailyCount
            && Sum(s.orders, O.DirectOn(user, day)) < cfg.reviewThreshold
            && Sum(s.orders, O.SoldOnDay(day)) <= cfg.sellbackCeiling
  {
    hide Reachable, BooksOk, Sum;
    ReachableIsOk(cfg, s);
  }

  // In every run, an order that settled without review stayed below the review line together with every order the
  // customer had placed before it that day and that trades or waits for review.
  lemma NoOrderSlipsUnder(cfg: Config, s: State, i: nat)
    requires ConfigOk(cfg) && Reachable(cfg, s) && i < |s.orders|
    requires s.orders[i].status.Settled? && !s.orders[i].status.reviewed
    ensures var o := s.orders[i];
            Sum(s.orders[..i], O.PlacedOn(o.user, Day(o.createdAt))) + o.terms.total < cfg.reviewThreshold
  {
    hide Reachable, BooksOk, Sum;
    ReachableIsOk(cfg, s);
  }
}
