/**
 * Transactions interleaved at their lock, read and commit steps. Each thread claims its rows,
 * locks its accounts in ascending id order, reads balances, then reads everything else, decides
 * on what it read, and commits. Every interleaved run commits exactly what some atomic run
 * commits, and account lock waits never form a cycle.
 */
module Interleaving {
  import opened Options
  import opened Sums
  import opened Books
  import opened Journal
  import opened Platform
  import opened Footprints
  import opened Calendar
  import O = Orders
  import P = Payouts
  import E = EmailCodes

  // ---------------------------------------------------------------- decisions on stale reads

  // The database as read at balance time `b` and gate time `g` still agrees with the present `s`
  // on everything the transaction holds.
  ghost predicate StillHolds(s: State, op: Op, b: State, g: State)
    requires RowsExist(s, op)
  {
    && RowsExist(g, op) && RowsExist(b, op)
    && Footprint(g, op) == Footprint(s, op)
    && (forall r :: r in Footprint(s, op) && r.Acct? ==> Same(r, b, s))
    && (forall r :: r in Footprint(s, op) ==> Same(r, g, s))
  }

  // Reads that feed a trade decision.
  lemma TradeReadsAgree(s: State, b: State, g: State, user: UserId, t: Terms, now: int)
    requires forall r :: r in TradeAccounts(user, t) ==> Same(r, b, s) && Same(r, g, s)
    ensures O.ReadFor(b, g, user, t.metal, now) == O.ReadFor(s, s, user, t.metal, now)
  {
    hide Sum, Balance, Physical, EatDayStartUtc;
    assert Same(Acct(Customer(user, ETB)), b, s) && Same(Acct(Customer(user, ETB)), g, s);
    assert Same(Acct(Customer(user, Grams(t.metal))), b, s);
    assert Same(Acct(Cash), b, s) && Same(Acct(Cash), g, s);
    assert Same(Acct(Vault(t.metal)), b, s) && Same(Acct(Vault(t.metal)), g, s);
  }

  lemma OrdersDecideAlike(cfg: Config, s: State, op: Op, b: State, g: State)
    requires op.Execute? || op.ApproveReview? || op.RejectReview?
    requires RowsExist(s, op) && StillHolds(s, op, b, g)
    ensures Effect(cfg, op, b, g) == Effect(cfg, op, s, s)
  {
    hide Sum, Balance, Physical, Postable, EntriesOf, O.Judge, O.JudgeReview, O.ReadFor, O.IndexOfKey, SameAccount,
         TradeAccounts;
    match op
    case Execute(q, key, now, _, _) =>
      assert Same(OrderKey(key), g, s) && Same(QuoteRow(q), g, s);
      TradeReadsAgree(s, b, g, key.user, s.quotes[q].terms, now);
    case ApproveReview(i, _, now, _) =>
      assert Same(OrderRow(i), g, s);
      TradeReadsAgree(s, b, g, s.orders[i].user, s.orders[i].terms, now);
    case RejectReview(i, _) =>
      assert Same(OrderRow(i), g, s);
  }

  lemma DepositDecidesAlike(cfg: Config, s: State, op: Op, b: State, g: State)
    requires op.SettlePayment? || op.ReversePayment?
    requires RowsExist(s, op) && StillHolds(s, op, b, g)
    ensures Effect(cfg, op, b, g) == Effect(cfg, op, s, s)
  {
    hide Sum, Balance, Physical, P.IndexOfKey, EatDayStartUtc, TradeAccounts;
    assert Same(PaymentRow(op.paymentId), g, s);
    if op.ReversePayment? {
      assert Same(Acct(Customer(s.payments[op.paymentId].user, ETB)), b, s);
    }
  }

  lemma RequestDecidesAlike(cfg: Config, s: State, op: Op, b: State, g: State)
    requires op.RequestPayout?
    requires RowsExist(s, op) && StillHolds(s, op, b, g)
    ensures Effect(cfg, op, b, g) == Effect(cfg, op, s, s)
  {
    hide Sum, Balance, Physical, P.IndexOfKey, EatDayStartUtc, TradeAccounts;
    assert Same(Confirm(op.codeId), g, s) && Same(PayoutKey(op.key), g, s);
    assert Same(Acct(Customer(op.key.user, ETB)), b, s) && Same(Acct(Customer(op.key.user, ETB)), g, s);
  }

  lemma MetalDecidesAlike(cfg: Config, s: State, op: Op, b: State, g: State)
    requires op.RecordVault? || op.RecordCapital? || op.ApproveDelivery?
    requires RowsExist(s, op) && StillHolds(s, op, b, g)
    ensures Effect(cfg, op, b, g) == Effect(cfg, op, s, s)
  {
    hide Sum, Balance, Physical;
    match op
    case RecordVault(m, _, _) =>
      assert Same(Acct(Vault(m)), b, s) && Same(Acct(Vault(m)), g, s);
    case RecordCapital(_, _) => assert Same(Acct(Cash), b, s);
    case ApproveDelivery(i, _, _) =>
      assert Same(DeliveryRow(i), g, s);
      assert Same(Acct(Customer(s.deliveries[i].user, Grams(s.deliveries[i].metal))), b, s);
  }

  lemma PaymentRowsDecideAlike(cfg: Config, s: State, op: Op, b: State, g: State)
    requires op.WriteWebhook? || op.ClosePayment? || op.CloseStalePayment?
    requires RowsExist(s, op) && StillHolds(s, op, b, g)
    ensures Effect(cfg, op, b, g) == Effect(cfg, op, s, s)
  {
    hide Sum, Balance, Physical, SameAccount, TradeAccounts;
    assert Same(PaymentRow(op.paymentId), g, s);
  }

  lemma PayoutRowsDecideAlike(cfg: Config, s: State, op: Op, b: State, g: State)
    requires op.ClaimTransfer? || op.SettlePayout? || op.RefundPayout?
    requires RowsExist(s, op) && StillHolds(s, op, b, g)
    ensures Effect(cfg, op, b, g) == Effect(cfg, op, s, s)
  {
    hide Sum, Balance, Physical, SameAccount, TradeAccounts;
    assert Same(PayoutRow(op.payoutId), g, s);
  }

  lemma DeliveryRowsDecideAlike(cfg: Config, s: State, op: Op, b: State, g: State)
    requires op.ScheduleDelivery? || op.Deliver? || op.RejectDelivery?
    requires RowsExist(s, op) && StillHolds(s, op, b, g)
    ensures Effect(cfg, op, b, g) == Effect(cfg, op, s, s)
  {
    hide Sum, Balance, Physical, SameAccount, TradeAccounts;
    assert Same(DeliveryRow(op.deliveryId), g, s);
  }

  // Deciding on what was read is deciding on what is committed.
  lemma DecidesAlike(cfg: Config, s: State, op: Op, b: State, g: State)
    requires RowsExist(s, op) && StillHolds(s, op, b, g)
    ensures Effect(cfg, op, b, g) == Effect(cfg, op, s, s)
  {
    hide StillHolds, RowsExist;
    match op
    case CreateQuote(_, _, _, _, _, _) =>
    case OpenPayment(_, _, _) =>
    case RequestDelivery(_, _, _, _) =>
    case Execute(_, _, _, _, _) => OrdersDecideAlike(cfg, s, op, b, g);
    case ApproveReview(_, _, _, _) => OrdersDecideAlike(cfg, s, op, b, g);
    case RejectReview(_, _) => OrdersDecideAlike(cfg, s, op, b, g);
    case SettlePayment(_, _, _) => DepositDecidesAlike(cfg, s, op, b, g);
    case ReversePayment(_, _) => DepositDecidesAlike(cfg, s, op, b, g);
    case RequestPayout(_, _, _, _) => RequestDecidesAlike(cfg, s, op, b, g);
    case RecordVault(_, _, _) => MetalDecidesAlike(cfg, s, op, b, g);
    case RecordCapital(_, _) => MetalDecidesAlike(cfg, s, op, b, g);
    case ApproveDelivery(_, _, _) => MetalDecidesAlike(cfg, s, op, b, g);
    case WriteCodes(_) =>
    case WriteWebhook(_) => PaymentRowsDecideAlike(cfg, s, op, b, g);
    case ClosePayment(_, _) => PaymentRowsDecideAlike(cfg, s, op, b, g);
    case CloseStalePayment(_) => PaymentRowsDecideAlike(cfg, s, op, b, g);
    case ClaimTransfer(_, _, _) => PayoutRowsDecideAlike(cfg, s, op, b, g);
    case SettlePayout(_) => PayoutRowsDecideAlike(cfg, s, op, b, g);
    case RefundPayout(_, _) => PayoutRowsDecideAlike(cfg, s, op, b, g);
    case _ => DeliveryRowsDecideAlike(cfg, s, op, b, g);
  }

  // ---------------------------------------------------------------- immutable columns

  // Rows are never removed, and the columns lock sets are computed from never change.
  ghost predicate Stable(s: State, s': State) {
    && |s.quotes| <= |s'.quotes| && |s.orders| <= |s'.orders| && |s.payments| <= |s'.payments|
    && |s.payouts| <= |s'.payouts| && |s.deliveries| <= |s'.deliveries|
    && (forall i :: 0 <= i < |s.quotes| ==>
          s'.quotes[i].user == s.quotes[i].user && s'.quotes[i].terms == s.quotes[i].terms)
    && (forall i :: 0 <= i < |s.orders| ==>
          && s'.orders[i].user == s.orders[i].user
          && s'.orders[i].terms == s.orders[i].terms
          && s'.orders[i].quote == s.orders[i].quote)
    && (forall i :: 0 <= i < |s.payments| ==> s'.payments[i].user == s.payments[i].user)
    && (forall i :: 0 <= i < |s.payouts| ==> s'.payouts[i].user == s.payouts[i].user)
    && (forall i :: 0 <= i < |s.deliveries| ==> s'.deliveries[i].user == s.deliveries[i].user
                                                && s'.deliveries[i].metal == s.deliveries[i].metal)
    && E.KeepsRequests(s.codes, s'.codes)
  }

  // A change to an existing row leaves those columns as they were.
  ghost predicate KeepsColumns(s: State, c: Change)
    requires ChangeFits(s, c)
  {
    match c.row
    case WriteOrder(At(i), o) => o.user == s.orders[i].user && o.terms == s.orders[i].terms
        && o.quote == s.orders[i].quote
    case WritePayment(At(i), p) => p.user == s.payments[i].user
    case WritePayout(At(i), p) => p.user == s.payouts[i].user
    case WriteDelivery(At(i), d) => d.user == s.deliveries[i].user && d.metal == s.deliveries[i].metal
    case _ => true
  }

  lemma EffectKeepsColumns(cfg: Config, s: State, op: Op)
    ensures var c := Effect(cfg, op, s, s);
            c.Some? && ChangeFits(s, c.value) ==> KeepsColumns(s, c.value)
  {
    hide Sum, Balance, Physical, Postable, EntriesOf, Shape, Apply, O.Judge, O.JudgeReview, O.ReadFor, O.IndexOfKey,
         P.IndexOfKey, P.DailyLimit;
  }

  lemma ApplyIsStable(s: State, c: Change)
    requires ChangeFits(s, c) && KeepsColumns(s, c)
    ensures Stable(s, Apply(s, c))
  {
    hide Shape, E.Run;
    if c.row.WriteCodes? {
      E.RunKeepsRequests(s.codes, c.row.stmt);
    }
  }

  lemma StepIsStable(cfg: Config, s: State, op: Op)
    ensures Stable(s, Step(cfg, s, op))
  {
    hide Effect, Apply, KeepsColumns;
    var c := Effect(cfg, op, s, s);
    EffectKeepsColumns(cfg, s, op);
    if c.Some? && ChangeFits(s, c.value) {
      ApplyIsStable(s, c.value);
    }
  }

  lemma FootprintIsStable(s: State, s': State, op: Op)
    requires Stable(s, s') && RowsExist(s, op)
    ensures RowsExist(s', op) && Footprint(s', op) == Footprint(s, op)
  {
    hide TradeAccounts;
  }

  // ---------------------------------------------------------------- the interleaved machine

  // One open transaction: what it must hold, what it holds, and the database as it read balances
  // and then everything else.
  datatype Thread = Thread(op: Op, needs: set<Resource>, got: set<Resource>, balances: Option<State>,
                           gates: Option<State>)
  datatype World = World(db: State, threads: map<nat, Thread>)

  datatype Action =
    | Begin(t: nat, op: Op)
    | Acquire(t: nat, r: Resource)
    | ReadBalances(t: nat)
    | ReadGates(t: nat)
    | CommitTxn(t: nat)
    | Abort(t: nat)

  // The order of account ids; `rank` is injective.
  type Rank = Account -> int

  ghost predicate Injective(rank: Rank) {
    forall a, b :: rank(a) == rank(b) ==> a == b
  }

  ghost predicate HoldsAccounts(th: Thread) {
    forall r :: r in th.needs && r.Acct? ==> r in th.got
  }

  // The account the thread's lock statement asks for now: the lowest one it lacks.
  ghost predicate NextAccount(rank: Rank, th: Thread, a: Account) {
    && Acct(a) in th.needs && Acct(a) !in th.got
    && (forall b :: Acct(b) in th.needs && rank(b) < rank(a) ==> Acct(b) in th.got)
  }

  ghost predicate Free(w: World, r: Resource) {
    forall u :: u in w.threads ==> r !in w.threads[u].got
  }

  ghost predicate Enabled(rank: Rank, w: World, a: Action) {
    match a
    case Begin(t, op) => t !in w.threads && RowsExist(w.db, op)
    case Acquire(t, r) =>
      && t in w.threads
      && r in w.threads[t].needs && r !in w.threads[t].got
      && Free(w, r)
      && (r.Acct? ==> NextAccount(rank, w.threads[t], r.a))
    case ReadBalances(t) => t in w.threads && w.threads[t].balances.None? && HoldsAccounts(w.threads[t])
    case ReadGates(t) =>
      && t in w.threads
      && w.threads[t].balances.Some? && w.threads[t].gates.None?
      && w.threads[t].needs <= w.threads[t].got
    case CommitTxn(t) => t in w.threads && w.threads[t].gates.Some?
    case Abort(t) => t in w.threads
  }

  // An order's turnover is whatever the committed tables said when the gates were read.
  function WithTurnover(op: Op, g: State): Op {
    if op.Execute? then op.(turnover := O.TurnoverSince(g.orders, op.key.user, EatDayStartUtc(op.now))) else op
  }

  ghost function Act(cfg: Config, rank: Rank, w: World, a: Action): World
    requires Enabled(rank, w, a)
  {
    match a
    case Begin(t, op) => w.(threads := w.threads[t := Thread(op, Footprint(w.db, op), {}, None, None)])
    case Acquire(t, r) => w.(threads := w.threads[t := w.threads[t].(got := w.threads[t].got + {r})])
    case ReadBalances(t) => w.(threads := w.threads[t := w.threads[t].(balances := Some(w.db))])
    case ReadGates(t) =>
      w.(threads := w.threads[t := w.threads[t].(gates := Some(w.db), op := WithTurnover(w.threads[t].op, w.db))])
    case CommitTxn(t) =>
      var th := w.threads[t];
      if th.balances.Some? && th.gates.Some? then
        World(Commit(w.db, Effect(cfg, th.op, th.balances.value, th.gates.value)), w.threads - {t})
      else w
    case Abort(t) => w.(threads := w.threads - {t})
  }

  // ---------------------------------------------------------------- what every interleaved run keeps

  ghost predicate ThreadOk(rank: Rank, s: State, th: Thread) {
    && RowsExist(s, th.op)
    && th.needs == Footprint(s, th.op)
    && th.got <= th.needs
    && (forall a, b :: Acct(a) in th.got && Acct(b) in th.needs && rank(b) < rank(a) ==> Acct(b) in th.got)
    && (th.balances.Some? ==>
          && HoldsAccounts(th)
          && RowsExist(th.balances.value, th.op)
          && (forall r :: r in th.needs && r.Acct? ==> Same(r, th.balances.value, s)))
    && (th.gates.Some? ==>
          && th.balances.Some?
          && th.needs <= th.got
          && RowsExist(th.gates.value, th.op)
          && Footprint(th.gates.value, th.op) == th.needs
          && (forall r :: r in th.needs ==> Same(r, th.gates.value, s))
          && (th.op.Execute? ==>
                th.op.turnover
                == O.TurnoverSince(th.gates.value.orders, th.op.key.user, EatDayStartUtc(th.op.now))))
  }

  ghost predicate Exclusive(w: World) {
    forall t, u :: t in w.threads && u in w.threads && t != u ==> w.threads[t].got !! w.threads[u].got
  }

  ghost predicate WorldOk(cfg: Config, rank: Rank, w: World) {
    && PlatformOk(cfg, w.db)
    && (forall t :: t in w.threads ==> ThreadOk(rank, w.db, w.threads[t]))
    && Exclusive(w)
  }

  // Committing is one atomic step: the balances and every other value read are still the committed ones.
  lemma CommitIsAtomic(cfg: Config, rank: Rank, w: World, t: nat)
    requires WorldOk(cfg, rank, w) && Enabled(rank, w, CommitTxn(t))
    ensures Act(cfg, rank, w, CommitTxn(t)).db == Step(cfg, w.db, w.threads[t].op)
    ensures Honest(w.db, w.threads[t].op)
    ensures StillHolds(w.db, w.threads[t].op, w.threads[t].balances.value, w.threads[t].gates.value)
  {
    hide PlatformOk, Effect, Footprint, RowsExist, Sum, EatDayStartUtc, SameAccount, Commit;
    var th := w.threads[t];
    assert ThreadOk(rank, w.db, th);
    DecidesAlike(cfg, w.db, th.op, th.balances.value, th.gates.value);
    if th.op.Execute? {
      CustomerIsHeld(w.db, th.op);
      assert Same(Acct(Customer(th.op.key.user, ETB)), th.gates.value, w.db);
      TurnoverOnlyDrops(th.op.key.user, th.gates.value, w.db, EatDayStartUtc(th.op.now));
    }
  }

  lemma CustomerIsHeld(s: State, op: Op)
    requires op.Execute? && RowsExist(s, op)
    ensures Acct(Customer(op.key.user, ETB)) in Footprint(s, op)
  {
  }

  lemma TurnoverOnlyDrops(user: UserId, g: State, s: State, since: int)
    requires Same(Acct(Customer(user, ETB)), g, s)
    ensures O.TurnoverSince(s.orders, user, since) <= O.TurnoverSince(g.orders, user, since)
  {
    hide Sum, Balance, Physical;
    assert SameTotals(user, g, s);
  }

  // Another thread's commit leaves this thread as good as it was.
  lemma ThreadSurvives(cfg: Config, rank: Rank, s: State, op: Op, th: Thread)
    requires PlatformOk(cfg, s) && RowsExist(s, op) && ThreadOk(rank, s, th)
    requires th.got !! Footprint(s, op)
    ensures ThreadOk(rank, Step(cfg, s, op), th)
  {
    hide PlatformOk, Effect, Footprint, RowsExist, Sum, EatDayStartUtc, Same, Step;
    var s' := Step(cfg, s, op);
    StepIsStable(cfg, s, op);
    FootprintIsStable(s, s', th.op);
    forall r | r in th.needs && r.Acct? && th.balances.Some? ensures Same(r, th.balances.value, s') {
      Frame(cfg, s, op, r);
      SameTransitive(r, th.balances.value, s, s');
    }
    forall r | r in th.needs && th.gates.Some? ensures Same(r, th.gates.value, s') {
      Frame(cfg, s, op, r);
      SameTransitive(r, th.gates.value, s, s');
    }
  }

  lemma ReadsAreFresh(rank: Rank, w: World, t: nat, a: Action)
    requires t in w.threads && ThreadOk(rank, w.db, w.threads[t])
    requires Enabled(rank, w, a) && (a == ReadBalances(t) || a == ReadGates(t))
    ensures var th := w.threads[t];
            ThreadOk(rank, w.db, if a.ReadBalances? then th.(balances := Some(w.db))
                                 else th.(gates := Some(w.db), op := WithTurnover(th.op, w.db)))
  {
    hide Sum, EatDayStartUtc, Same, TradeAccounts;
    forall r | r in w.threads[t].needs ensures Same(r, w.db, w.db) {
      SameReflexive(r, w.db);
    }
  }

  lemma CommitKeepsWorld(cfg: Config, rank: Rank, w: World, t: nat)
    requires ConfigOk(cfg) && WorldOk(cfg, rank, w) && Enabled(rank, w, CommitTxn(t))
    ensures WorldOk(cfg, rank, Act(cfg, rank, w, CommitTxn(t)))
  {
    hide PlatformOk, Effect, Footprint, RowsExist, Same, Step, Commit, Honest;
    var w' := Act(cfg, rank, w, CommitTxn(t));
    var op := w.threads[t].op;
    assert ThreadOk(rank, w.db, w.threads[t]);
    CommitIsAtomic(cfg, rank, w, t);
    StepKeepsPlatform(cfg, w.db, op);
    forall u | u in w'.threads ensures ThreadOk(rank, w'.db, w'.threads[u]) {
      ThreadSurvives(cfg, rank, w.db, op, w.threads[u]);
    }
  }

  // A thread may take a resource nobody holds, its accounts lowest first.
  lemma AcquireKeepsThread(rank: Rank, w: World, t: nat, r: Resource)
    requires Injective(rank) && t in w.threads && ThreadOk(rank, w.db, w.threads[t]) && Enabled(rank, w, Acquire(t, r))
    ensures ThreadOk(rank, w.db, w.threads[t].(got := w.threads[t].got + {r}))
  {
    hide Footprint, RowsExist, Same, EatDayStartUtc, O.TurnoverSince;
  }

  // A step of one thread alone: its own state stays good and it holds nothing another holds.
  lemma OneThreadMoves(cfg: Config, rank: Rank, w: World, t: nat, th: Thread)
    requires WorldOk(cfg, rank, w) && ThreadOk(rank, w.db, th)
    requires forall u | u in w.threads && u != t :: th.got !! w.threads[u].got
    ensures WorldOk(cfg, rank, w.(threads := w.threads[t := th]))
  {
    hide PlatformOk, ThreadOk;
  }

  lemma ActKeepsWorld(cfg: Config, rank: Rank, w: World, a: Action)
    requires ConfigOk(cfg) && Injective(rank) && WorldOk(cfg, rank, w) && Enabled(rank, w, a)
    ensures WorldOk(cfg, rank, Act(cfg, rank, w, a))
  {
    hide PlatformOk, Footprint, RowsExist, WithTurnover, ThreadOk;
    match a
    case Begin(t, op) =>
      BeginsOk(rank, w.db, op);
      OneThreadMoves(cfg, rank, w, t, Thread(op, Footprint(w.db, op), {}, None, None));
    case Acquire(t, r) =>
      AcquireKeepsThread(rank, w, t, r);
      OneThreadMoves(cfg, rank, w, t, w.threads[t].(got := w.threads[t].got + {r}));
    case ReadBalances(t) =>
      ReadsAreFresh(rank, w, t, a);
      OneThreadMoves(cfg, rank, w, t, w.threads[t].(balances := Some(w.db)));
    case ReadGates(t) =>
      ReadsAreFresh(rank, w, t, a);
      OneThreadMoves(cfg, rank, w, t, w.threads[t].(gates := Some(w.db), op := WithTurnover(w.threads[t].op, w.db)));
    case CommitTxn(t) => CommitKeepsWorld(cfg, rank, w, t);
    case Abort(t) =>
  }

  lemma BeginsOk(rank: Rank, s: State, op: Op)
    requires RowsExist(s, op)
    ensures ThreadOk(rank, s, Thread(op, Footprint(s, op), {}, None, None))
  {
    hide Footprint, RowsExist;
  }

  lemma CommittedInTable(rank: Rank, w: World, t: nat)
    requires Enabled(rank, w, CommitTxn(t))
    ensures t in w.threads
  {
  }

  // Nothing but a commit touches the tables.
  lemma OnlyCommitsWrite(cfg: Config, rank: Rank, w: World, a: Action)
    requires Enabled(rank, w, a) && !a.CommitTxn?
    ensures Act(cfg, rank, w, a).db == w.db
  {
    hide Footprint, WithTurnover;
  }

  // ---------------------------------------------------------------- refinement over runs

  const START: World := World(EMPTY, map[])

  ghost predicate EnabledRun(cfg: Config, rank: Rank, w: World, actions: seq<Action>)
    decreases |actions|
  {
    actions == [] || (Enabled(rank, w, actions[0])
        && EnabledRun(cfg, rank, Act(cfg, rank, w, actions[0]), actions[1..]))
  }

  ghost function ActAll(cfg: Config, rank: Rank, w: World, actions: seq<Action>): World
    requires EnabledRun(cfg, rank, w, actions)
    decreases |actions|
  {
    if actions == [] then w else ActAll(cfg, rank, Act(cfg, rank, w, actions[0]), actions[1..])
  }

  // The transactions of an interleaved run, in commit order.
  ghost function Committed(cfg: Config, rank: Rank, w: World, actions: seq<Action>): seq<Op>
    requires EnabledRun(cfg, rank, w, actions)
    decreases |actions|
  {
    if actions == [] then []
    else
      (if actions[0].CommitTxn? then [w.threads[actions[0].t].op] else [])
      + Committed(cfg, rank, Act(cfg, rank, w, actions[0]), actions[1..])
  }

  lemma {:induction false} RefinesFrom(cfg: Config, rank: Rank, w: World, before: seq<Op>, actions: seq<Action>)
    requires ConfigOk(cfg) && Injective(rank) && WorldOk(cfg, rank, w) && EnabledRun(cfg, rank, w, actions)
    requires HonestRun(cfg, before) && Run(cfg, before) == w.db
    ensures HonestRun(cfg, before + Committed(cfg, rank, w, actions))
    ensures Run(cfg, before + Committed(cfg, rank, w, actions)) == ActAll(cfg, rank, w, actions).db
    ensures WorldOk(cfg, rank, ActAll(cfg, rank, w, actions))
    decreases |actions|
  {
    hide WorldOk, Step, Honest, Act, Run, HonestRun, Enabled;
    if actions == [] {
      assert before + [] == before;
    } else {
      var a := actions[0];
      var w' := Act(cfg, rank, w, a);
      ActKeepsWorld(cfg, rank, w, a);
      if a.CommitTxn? {
        CommittedInTable(rank, w, a.t);
      }
      var first := if a.CommitTxn? then [w.threads[a.t].op] else [];
      if a.CommitTxn? {
        CommitIsAtomic(cfg, rank, w, a.t);
        ExtendRun(cfg, before, w.threads[a.t].op);
      } else {
        OnlyCommitsWrite(cfg, rank, w, a);
        assert before + first == before;
      }
      RefinesFrom(cfg, rank, w', before + first, actions[1..]);
      assert before + Committed(cfg, rank, w, actions) == before + first + Committed(cfg, rank, w', actions[1..]);
    }
  }

  lemma ExtendRun(cfg: Config, ops: seq<Op>, op: Op)
    requires HonestRun(cfg, ops) && Honest(Run(cfg, ops), op)
    ensures HonestRun(cfg, ops + [op]) && Run(cfg, ops + [op]) == Step(cfg, Run(cfg, ops), op)
  {
    hide Honest, Step;
    assert (ops + [op])[..|ops|] == ops;
    forall k | 0 <= k < |ops + [op]| ensures Honest(Run(cfg, (ops + [op])[..k]), (ops + [op])[k]) {
      if k < |ops| {
        assert (ops + [op])[..k] == ops[..k];
      }
    }
  }

  // Every interleaved run leaves the tables exactly as the atomic run of its committed transactions,
  // in commit order; that atomic run is honest, so the state is reachable and every guarantee holds of it.
  lemma InterleavedRefinesAtomic(cfg: Config, rank: Rank, actions: seq<Action>)
    requires ConfigOk(cfg) && Injective(rank) && EnabledRun(cfg, rank, START, actions)
    ensures var ops := Committed(cfg, rank, START, actions);
            && HonestRun(cfg, ops)
            && Run(cfg, ops) == ActAll(cfg, rank, START, actions).db
            && Reachable(cfg, ActAll(cfg, rank, START, actions).db)
  {
    hide PlatformOk, Reachable;
    EmptyOk(cfg);
    RefinesFrom(cfg, rank, START, [], actions);
    RunIsReachable(cfg, [] + Committed(cfg, rank, START, actions));
    assert [] + Committed(cfg, rank, START, actions) == Committed(cfg, rank, START, actions);
  }

  // In every reachable world, a transaction about to post has read balances and vault stock that are
  // still the committed ones, and it posts nothing outside its lock set.
  lemma ReadsAreStillCommitted(cfg: Config, rank: Rank, actions: seq<Action>, t: nat, a: Account)
    requires ConfigOk(cfg) && Injective(rank) && EnabledRun(cfg, rank, START, actions)
    requires t in ActAll(cfg, rank, START, actions).threads
    requires ActAll(cfg, rank, START, actions).threads[t].gates.Some?
    ensures var w := ActAll(cfg, rank, START, actions);
            var th := w.threads[t];
            && th.balances.Some?
            && (Acct(a) in th.needs ==>
                  && Acct(a) in th.got
                  && Balance(th.balances.value.log, a) == Balance(w.db.log, a)
                  && (a.Vault? ==> Physical(th.gates.value.vault, a.metal) == Physical(w.db.vault, a.metal)))
            && (Acct(a) !in th.needs ==>
                  var c := Effect(cfg, th.op, th.balances.value, th.gates.value);
                  c.Some? ==> PostNet(c.value, a) == 0 && (a.Vault? ==> StockNet(c.value, a.metal) == 0))
  {
    hide EnabledRun, Enabled, Committed, ActAll, Sum, Balance, Physical, Effect, Footprint, RowsExist, EatDayStartUtc,
         PostNet, StockNet, SameTotals, SameSells;
    EmptyOk(cfg);
    RefinesFrom(cfg, rank, START, [], actions);
    var w := ActAll(cfg, rank, START, actions);
    var th := w.threads[t];
    assert ThreadOk(rank, w.db, th);
    if Acct(a) in th.needs {
      assert Same(Acct(a), th.balances.value, w.db) && Same(Acct(a), th.gates.value, w.db);
    } else {
      DecidesAlike(cfg, w.db, th.op, th.balances.value, th.gates.value);
      PostsWithinLocks(cfg, w.db, th.op, a);
    }
  }

  // ---------------------------------------------------------------- no cycle of lock waits

  // `t` is blocked asking for account `a`, which `u` holds.
  ghost predicate WaitsFor(rank: Rank, w: World, t: nat, u: nat, a: Account) {
    && t in w.threads && u in w.threads
    && NextAccount(rank, w.threads[t], a)
    && Acct(a) in w.threads[u].got
  }

  // A chain of waits asks for ever higher accounts.
  lemma {:induction false} WaitsAscend(cfg: Config, rank: Rank, w: World, ts: seq<nat>, wanted: seq<Account>, n: nat)
    requires Injective(rank) && WorldOk(cfg, rank, w)
    requires |wanted| == |ts| && n < |ts|
    requires forall i :: 0 <= i < |ts| - 1 ==> WaitsFor(rank, w, ts[i], ts[i + 1], wanted[i])
    requires ts[|ts| - 1] in w.threads && NextAccount(rank, w.threads[ts[|ts| - 1]], wanted[|ts| - 1])
    ensures rank(wanted[0]) + n <= rank(wanted[n])
    decreases n
  {
    hide PlatformOk, Footprint, RowsExist, Same;
    if n > 0 {
      WaitsAscend(cfg, rank, w, ts, wanted, n - 1);
      var u := ts[n];
      assert WaitsFor(rank, w, ts[n - 1], u, wanted[n - 1]);
      assert u in w.threads && ThreadOk(rank, w.db, w.threads[u]);
      assert NextAccount(rank, w.threads[u], wanted[n]) by {
        if n < |ts| - 1 {
          assert WaitsFor(rank, w, u, ts[n + 1], wanted[n]);
        }
      }
      assert rank(wanted[n - 1]) < rank(wanted[n]);
    }
  }

  // In a good world no number of transactions wait for each other in a circle: the last of the
  // circle would ask for an account above every account the others ask for, its own included.
  lemma NoCircleIn(cfg: Config, rank: Rank, w: World, ts: seq<nat>, wanted: seq<Account>)
    requires Injective(rank) && WorldOk(cfg, rank, w) && |ts| == |wanted| >= 1
    requires forall i :: 0 <= i < |ts| - 1 ==> WaitsFor(rank, w, ts[i], ts[i + 1], wanted[i])
    ensures !WaitsFor(rank, w, ts[|ts| - 1], ts[0], wanted[|ts| - 1])
  {
    hide WorldOk, WaitsFor, NextAccount;
    var n := |ts|;
    if WaitsFor(rank, w, ts[n - 1], ts[0], wanted[n - 1]) {
      var round, asked := ts + [ts[0]], wanted + [wanted[0]];
      forall i | 0 <= i < n ensures WaitsFor(rank, w, round[i], round[i + 1], asked[i]) {
        if i < n - 1 {
          assert WaitsFor(rank, w, ts[i], ts[i + 1], wanted[i]);
        }
      }
      WaiterAsks(rank, w, round[0], round[1], asked[0]);
      WaitsAscend(cfg, rank, w, round, asked, n);
    }
  }

  lemma WaiterAsks(rank: Rank, w: World, t: nat, u: nat, a: Account)
    requires WaitsFor(rank, w, t, u, a)
    ensures t in w.threads && NextAccount(rank, w.threads[t], a)
  {
  }

  // In every world an interleaved run reaches, account lock waits form no cycle of any length.
  lemma NoCircularWait(cfg: Config, rank: Rank, actions: seq<Action>, ts: seq<nat>, wanted: seq<Account>)
    requires ConfigOk(cfg) && Injective(rank) && EnabledRun(cfg, rank, START, actions)
    requires |ts| == |wanted| >= 1
    requires var w := ActAll(cfg, rank, START, actions);
             forall i :: 0 <= i < |ts| - 1 ==> WaitsFor(rank, w, ts[i], ts[i + 1], wanted[i])
    ensures !WaitsFor(rank, ActAll(cfg, rank, START, actions), ts[|ts| - 1], ts[0], wanted[|ts| - 1])
  {
    hide PlatformOk, Footprint, RowsExist, Same, EnabledRun, Enabled, WaitsFor, ActAll, Committed;
    EmptyOk(cfg);
    RefinesFrom(cfg, rank, START, [], actions);
    NoCircleIn(cfg, rank, ActAll(cfg, rank, START, actions), ts, wanted);
  }
}
