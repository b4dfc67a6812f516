/** Physical delivery and treasury entries, step by step on the database; each transaction is one platform step. */
module VaultServices {
  import opened Sums
  import opened Books
  import opened Ledger
  import opened Platform
  import H = PhysicalDelivery
  import T = TreasuryEntries

  datatype Answer = NotFound | Forbidden | Conflict | Throws | Done

  predicate IsOpenFor(d: Delivery, user: UserId, metal: Metal) {
    d.user == user && d.metal == metal && (H.IsPending(d) || H.IsHeld(d))
  }

  function Moved(s: State, i: nat, status: DeliveryStatus): State
    requires i < |s.deliveries|
  {
    s.(deliveries := s.deliveries[i := s.deliveries[i].(status := status)])
  }

  function Logged(s: State, i: nat, m: Move): State {
    s.(log := s.log + [Txn(DeliveryRef(i), Shape(m))])
  }

  lemma ApproveStep(cfg: Config, s: State, i: nat, officer: UserId, st: Standing)
    requires i < |s.deliveries|
    ensures var d := s.deliveries[i];
            Step(cfg, s, ApproveDelivery(i, officer, st)) ==
            if d.user == officer || !MayMoveMoney(st) || !H.IsPending(d)
               || Balance(s.log, Customer(d.user, Grams(d.metal))) < d.gramsMg then s
            else Logged(Moved(s, i, Agreed), i, EscrowMove(d))
  {
    hide Shape, Balance;
  }

  lemma ScheduleStep(cfg: Config, s: State, i: nat, officer: UserId)
    requires i < |s.deliveries|
    ensures Step(cfg, s, ScheduleDelivery(i, officer)) ==
            if s.deliveries[i].user == officer || !H.IsHeld(s.deliveries[i]) then s else Moved(s, i, Scheduled)
  {
    assert s.log + [] == s.log;
  }

  lemma DeliverStep(cfg: Config, s: State, i: nat, officer: UserId)
    requires i < |s.deliveries|
    ensures var d := s.deliveries[i];
            Step(cfg, s, Op.Deliver(i, officer)) ==
            if d.user == officer || !H.IsHeld(d) then s
            else Logged(Moved(s, i, Delivered), i, HandoverMove(d))
                 .(vault := s.vault + [VaultRow(d.metal, Outtake, d.gramsMg)])
  {
    hide Shape;
  }

  lemma RejectStep(cfg: Config, s: State, i: nat, officer: UserId)
    requires i < |s.deliveries|
    ensures var d := s.deliveries[i];
            Step(cfg, s, RejectDelivery(i, officer, H.IsHeld(d))) ==
            if d.user == officer || !(H.IsPending(d) || H.IsHeld(d)) then s
            else if H.IsHeld(d) then Logged(Moved(s, i, Declined(true)), i, ReturnMove(d))
            else Moved(s, i, Declined(false))
  {
    hide Shape;
    assert s.log + [] == s.log;
  }

  lemma RequestStep(cfg: Config, s: State, user: UserId, metal: Metal, gramsMg: int, admitted: bool)
    ensures Step(cfg, s, RequestDelivery(user, metal, gramsMg, admitted)) ==
            if gramsMg <= 0 || !admitted then s
            else s.(deliveries := s.deliveries + [Delivery(user, metal, gramsMg, Asked)])
  {
    assert s.log + [] == s.log;
  }

  lemma VaultStep(cfg: Config, s: State, metal: Metal, kind: VaultKind, gramsMg: int)
    ensures var owed := -Balance(s.log, Vault(metal));
            Step(cfg, s, Op.RecordVault(metal, kind, gramsMg)) ==
            if gramsMg <= 0
               || (kind == Outtake && Physical(s.vault, metal) - gramsMg < (if owed > 0 then owed else 0)) then s
            else s.(vault := s.vault + [VaultRow(metal, kind, gramsMg)])
  {
    hide Balance, Physical;
    assert s.log + [] == s.log;
  }

  lemma EntryMoves(vault: seq<VaultRow>, v: VaultRow)
    ensures Physical(vault + [v], v.metal) ==
            Physical(vault, v.metal) + (if v.kind == Intake then v.gramsMg else -v.gramsMg)
  {
    SumAppend(vault, v, StockOn(v.metal));
  }

  lemma CapitalStep(cfg: Config, s: State, direction: T.Direction, amount: int)
    ensures var signed := if direction.In? then amount else -amount;
            Step(cfg, s, Op.RecordCapital(direction, amount)) ==
            if amount <= 0 || (direction.Out? && Balance(s.log, Cash) - amount < cfg.halt) then s
            else s.(capital := s.capital + [signed],
                    log := s.log + [Txn(CapitalRef(|s.capital|), Shape(CapitalMove(signed)))])
  {
    hide Balance, Shape;
  }

  // What an officer's decision leaves behind: the row moved on, its posting, and what was taken from the vault.
  ghost predicate Decided(s: State, s': State, i: nat, status: DeliveryStatus, posted: seq<Txn>, taken: seq<VaultRow>)
    requires i < |s.deliveries|
  {
    s' == s.(deliveries := s.deliveries[i := s.deliveries[i].(status := status)], log := s.log + posted,
             vault := s.vault + taken)
  }

  class DeliveryService {
    const db: Database
    const ledger: LedgerService
    const cfg: Config

    constructor (db: Database, ledger: LedgerService, cfg: Config)
      ensures this.db == db && this.ledger == ledger && this.cfg == cfg
    {
      this.db, this.ledger, this.cfg := db, ledger, cfg;
    }

    ghost predicate Valid()
      reads db
    {
      ledger.db == db && ConfigOk(cfg) && Reachable(cfg, db.View())
    }

    lemma HasGrams(i: nat)
      requires Valid() && i < |db.deliveries|
      ensures db.deliveries[i].gramsMg > 0
    {
      ReachableIsOk(cfg, db.View());
    }

    // The conditional status move: only one of two officers gets the row.
    method Claim(i: nat, from: set<DeliveryStatus>, to: DeliveryStatus) returns (claimed: bool)
      requires i < |db.deliveries|
      modifies db`deliveries
      ensures claimed <==> old(db.deliveries)[i].status in from
      ensures db.deliveries == if claimed then old(db.deliveries)[i := old(db.deliveries)[i].(status := to)]
                else old(db.deliveries)
    {
      if db.deliveries[i].status !in from {
        return false;
      }
      db.deliveries := db.deliveries[i := db.deliveries[i].(status := to)];
      return true;
    }

    // An open request of the same customer and metal stands in the way of another.
    method HasOpen(user: UserId, metal: Metal) returns (found: bool)
      ensures found <==> exists i :: 0 <= i < |db.deliveries| && IsOpenFor(db.deliveries[i], user, metal)
    {
      var k := 0;
      while k < |db.deliveries|
        invariant 0 <= k <= |db.deliveries|
        invariant forall i | 0 <= i < k :: !IsOpenFor(db.deliveries[i], user, metal)
      {
        if IsOpenFor(db.deliveries[k], user, metal) {
          return true;
        }
        k := k + 1;
      }
      return false;
    }

    lemma OpenMeansUnfinished(user: UserId, metal: Metal)
      ensures forall i | 0 <= i < |db.deliveries| ::
                var d := db.deliveries[i];
                IsOpenFor(d, user, metal) <==>
                !(d.user != user || d.metal != metal || d.status.Delivered? || d.status.Declined?)
    {
    }

    // `eligible` is the holding tier's say; the grams asked for must be in the account, and no other request open.
    method Create(user: UserId, metal: Metal, gramsMg: int, eligible: bool, st: Standing) returns (admitted: bool)
      requires Valid()
      modifies db`deliveries
      ensures Valid()
      ensures db.View() == Step(cfg, old(db.View()), RequestDelivery(user, metal, gramsMg, admitted))
      ensures admitted <==>
              && MayMoveMoney(st) && eligible && 0 < gramsMg <= Balance(db.log, Customer(user, Grams(metal)))
              && !exists i :: 0 <= i < |old(db.deliveries)| && IsOpenFor(old(db.deliveries)[i], user, metal)
      ensures admitted <==>
              && !st.frozen && st.gate.None? && eligible && 0 < gramsMg <= Balance(db.log, Customer(user, Grams(metal)))
              && forall i | 0 <= i < |old(db.deliveries)| ::
                   var d := old(db.deliveries)[i];
                   d.user != user || d.metal != metal || d.status.Delivered? || d.status.Declined?
      ensures db.deliveries == old(db.deliveries)
                               + (if admitted then [Delivery(user, metal, gramsMg, Asked)] else [])
    {
      OpenMeansUnfinished(user, metal);
      hide Reachable, Balance, IsOpenFor;
      RequestStep(cfg, db.View(), user, metal, gramsMg, true);
      RequestStep(cfg, db.View(), user, metal, gramsMg, false);
      StepIsReachable(cfg, db.View(), RequestDelivery(user, metal, gramsMg, true));
      hide Step;
      if !MayMoveMoney(st) || !eligible || gramsMg <= 0 {
        return false;
      }
      var accounts := [Customer(user, Grams(metal))];
      var held := ledger.LockAndReadBalances(accounts);
      assert accounts[0] in accounts;
      if gramsMg > held[accounts[0]] {
        return false;
      }
      var open := HasOpen(user, metal);
      if open {
        return false;
      }
      db.deliveries := db.deliveries + [Delivery(user, metal, gramsMg, Asked)];
      return true;
    }

    // Approval holds the metal; too little metal rolls the status change back.
    method Approve(i: nat, officer: UserId, st: Standing) returns (answer: Answer)
      requires Valid()
      modifies db
      ensures Valid()
      ensures i < |old(db.deliveries)| ==> db.View() == Step(cfg, old(db.View()), ApproveDelivery(i, officer, st))
      ensures i >= |old(db.deliveries)| ==> db.View() == old(db.View())
      ensures answer.Done? <==>
              && i < |old(db.deliveries)|
              && var d := old(db.deliveries)[i];
                 && d.user != officer && !st.frozen && st.gate.None? && (d.status.Asked? || d.status.Reviewing?)
                 && old(Balance(db.log, Customer(d.user, Grams(d.metal)))) >= d.gramsMg
      ensures answer.Done? ==>
                Decided(old(db.View()), db.View(), i, Agreed,
                        [Txn(DeliveryRef(i), Shape(EscrowMove(old(db.deliveries)[i])))], [])
      ensures !answer.Done? ==> db.View() == old(db.View())
    {
      hide Reachable, Balance, Shape;
      if i >= |db.deliveries| {
        return NotFound;
      }
      var begun := db.View();
      ApproveStep(cfg, begun, i, officer, st);
      StepIsReachable(cfg, begun, ApproveDelivery(i, officer, st));
      HasGrams(i);
      hide Step;
      var row := db.deliveries[i];
      if row.user == officer {
        return Forbidden;
      }
      if !MayMoveMoney(st) {
        return Throws;
      }
      var claimed := Claim(i, {Asked, Reviewing}, Agreed);
      if !claimed {
        return Conflict;
      }
      var accounts := [Customer(row.user, Grams(row.metal)), DeliveryHold(row.metal)];
      var balances := ledger.LockAndReadBalances(accounts);
      assert accounts[0] in accounts;
      if balances[accounts[0]] < row.gramsMg {
        db.Rollback(begun);
        return Throws;
      }
      ledger.PostTransfer(DeliveryRef(i), DeliveryTxn, DeliveryHeld,
                          Customer(row.user, Grams(row.metal)), DeliveryHold(row.metal), row.gramsMg);
      return Done;
    }

    method Schedule(i: nat, officer: UserId) returns (answer: Answer)
      requires Valid()
      modifies db`deliveries
      ensures Valid()
      ensures i < |old(db.deliveries)| ==> db.View() == Step(cfg, old(db.View()), ScheduleDelivery(i, officer))
      ensures i >= |old(db.deliveries)| ==> db.View() == old(db.View())
      ensures answer.Done? <==>
              && i < |old(db.deliveries)|
              && var d := old(db.deliveries)[i];
                 d.user != officer && (d.status.Agreed? || d.status.Scheduled?)
      ensures answer.Done? ==> Decided(old(db.View()), db.View(), i, Scheduled, [], [])
      ensures !answer.Done? ==> db.View() == old(db.View())
    {
      hide Reachable;
      assert db.log + [] == db.log && db.vault + [] == db.vault;
      if i >= |db.deliveries| {
        return NotFound;
      }
      ScheduleStep(cfg, db.View(), i, officer);
      StepIsReachable(cfg, db.View(), ScheduleDelivery(i, officer));
      hide Step;
      if db.deliveries[i].user == officer {
        return Forbidden;
      }
      var claimed := Claim(i, {Agreed, Scheduled}, Scheduled);
      return if claimed then Done else Conflict;
    }

    // The handover: the held metal goes back to the vault account and the bar leaves the vault.
    method Deliver(i: nat, officer: UserId) returns (answer: Answer)
      requires Valid()
      modifies db
      ensures Valid()
      ensures i < |old(db.deliveries)| ==> db.View() == Step(cfg, old(db.View()), Op.Deliver(i, officer))
      ensures i >= |old(db.deliveries)| ==> db.View() == old(db.View())
      ensures answer.Done? <==>
              && i < |old(db.deliveries)|
              && var d := old(db.deliveries)[i];
                 d.user != officer && (d.status.Agreed? || d.status.Scheduled?)
      ensures answer.Done? ==>
                var d := old(db.deliveries)[i];
                Decided(old(db.View()), db.View(), i, Delivered,
                        [Txn(DeliveryRef(i), Shape(HandoverMove(d)))], [VaultRow(d.metal, Outtake, d.gramsMg)])
      ensures !answer.Done? ==> db.View() == old(db.View())
    {
      hide Reachable, Shape;
      if i >= |db.deliveries| {
        return NotFound;
      }
      DeliverStep(cfg, db.View(), i, officer);
      StepIsReachable(cfg, db.View(), Op.Deliver(i, officer));
      HasGrams(i);
      hide Step;
      var row := db.deliveries[i];
      if row.user == officer {
        return Forbidden;
      }
      var claimed := Claim(i, {Agreed, Scheduled}, Delivered);
      if !claimed {
        return Conflict;
      }
      ledger.PostTransfer(DeliveryRef(i), DeliveryTxn, DeliveryOut, DeliveryHold(row.metal), Vault(row.metal),
                          row.gramsMg);
      db.vault := db.vault + [VaultRow(row.metal, Outtake, row.gramsMg)];
      return Done;
    }

    // A refusal puts held metal back; a request not yet approved held nothing.
    method Reject(i: nat, officer: UserId) returns (answer: Answer)
      requires Valid()
      modifies db
      ensures Valid()
      ensures i < |old(db.deliveries)| ==>
                db.View() == Step(cfg, old(db.View()), RejectDelivery(i, officer, H.IsHeld(old(db.deliveries)[i])))
      ensures i >= |old(db.deliveries)| ==> db.View() == old(db.View())
      ensures answer.Done? <==>
              && i < |old(db.deliveries)|
              && var d := old(db.deliveries)[i];
                 d.user != officer && !d.status.Delivered? && !d.status.Declined?
      ensures answer.Done? ==>
                var d := old(db.deliveries)[i];
                var held := d.status.Agreed? || d.status.Scheduled?;
                Decided(old(db.View()), db.View(), i, Declined(held),
                        if held then [Txn(DeliveryRef(i), Shape(ReturnMove(d)))] else [], [])
      ensures !answer.Done? ==> db.View() == old(db.View())
    {
      hide Reachable, Shape;
      assert db.log + [] == db.log && db.vault + [] == db.vault;
      if i >= |db.deliveries| {
        return NotFound;
      }
      var before := db.deliveries[i];
      RejectStep(cfg, db.View(), i, officer);
      StepIsReachable(cfg, db.View(), RejectDelivery(i, officer, H.IsHeld(before)));
      HasGrams(i);
      hide Step;
      if before.user == officer {
        return Forbidden;
      }
      if !(H.IsPending(before) || H.IsHeld(before)) {
        return Conflict;
      }
      var wasHeld := H.IsHeld(before);
      var claimed := Claim(i, {before.status}, Declined(wasHeld));
      if wasHeld {
        ledger.PostTransfer(DeliveryRef(i), DeliveryTxn, DeliveryRefund,
                            DeliveryHold(before.metal), Customer(before.user, Grams(before.metal)), before.gramsMg);
      }
      return Done;
    }
  }

  class TreasuryEntriesService {
    const db: Database
    const ledger: LedgerService
    const cfg: Config

    constructor (db: Database, ledger: LedgerService, cfg: Config)
      ensures this.db == db && this.ledger == ledger && this.cfg == cfg
    {
      this.db, this.ledger, this.cfg := db, ledger, cfg;
    }

    ghost predicate Valid()
      reads db
    {
      ledger.db == db && ConfigOk(cfg) && Reachable(cfg, db.View())
    }

    method PhysicalMg(metal: Metal) returns (mg: int)
      ensures mg == Physical(db.vault, metal)
    {
      var taken, brought := 0, 0;
      var k := 0;
      while k < |db.vault|
        invariant 0 <= k <= |db.vault| && brought - taken == Physical(db.vault[..k], metal)
      {
        NextRow(db.vault, k, StockOn(metal));
        var v := db.vault[k];
        if v.metal == metal {
          if v.kind == Intake {
            brought := brought + v.gramsMg;
          } else {
            taken := taken + v.gramsMg;
          }
        }
        k := k + 1;
      }
      assert db.vault[..k] == db.vault;
      return brought - taken;
    }

    // An outtake may not leave less metal in the vault than customers are owed.
    method RecordVault(metal: Metal, kind: VaultKind, gramsMg: int) returns (ok: bool)
      requires Valid() && gramsMg > 0
      modifies db`vault
      ensures Valid()
      ensures db.View() == Step(cfg, old(db.View()), Op.RecordVault(metal, kind, gramsMg))
      ensures ok <==> kind == Intake
                      || (Physical(old(db.vault), metal) - gramsMg >= 0
                          && Physical(old(db.vault), metal) - gramsMg + Balance(db.log, Vault(metal)) >= 0)
      ensures Physical(db.vault, metal) ==
              Physical(old(db.vault), metal) + (if !ok then 0 else if kind == Intake then gramsMg else -gramsMg)
      ensures db.vault == old(db.vault) + (if ok then [VaultRow(metal, kind, gramsMg)] else [])
    {
      hide Reachable, Balance, Physical;
      EntryMoves(db.vault, VaultRow(metal, kind, gramsMg));
      VaultStep(cfg, db.View(), metal, kind, gramsMg);
      StepIsReachable(cfg, db.View(), Op.RecordVault(metal, kind, gramsMg));
      hide Step;
      var accounts := [Vault(metal)];
      var balances := ledger.LockAndReadBalances(accounts);
      assert accounts[0] in accounts;
      if kind == Outtake {
        var physical := PhysicalMg(metal);
        var owed := -balances[accounts[0]];
        if physical - gramsMg < (if owed > 0 then owed else 0) {
          return false;
        }
      }
      db.vault := db.vault + [VaultRow(metal, kind, gramsMg)];
      return true;
    }

    // Capital may not be taken out below the halt threshold.
    method RecordCapital(direction: T.Direction, amount: int) returns (ok: bool)
      requires Valid() && amount > 0
      modifies db`capital, db`log
      ensures Valid()
      ensures db.View() == Step(cfg, old(db.View()), Op.RecordCapital(direction, amount))
      ensures ok <==> direction.In? || old(Balance(db.log, Cash)) >= cfg.halt + amount
      ensures Balance(db.log, Cash) ==
              old(Balance(db.log, Cash)) + (if !ok then 0 else if direction.In? then amount else -amount)
      ensures db.capital == old(db.capital) + (if !ok then [] else if direction.In? then [amount] else [-amount])
    {
      hide Reachable, Balance, Shape;
      ghost var move := CapitalMove(if direction.In? then amount else -amount);
      BalanceAppend(db.log, Txn(CapitalRef(|db.capital|), Shape(move)), Cash);
      ShapeNet(move, Cash);
      CapitalStep(cfg, db.View(), direction, amount);
      StepIsReachable(cfg, db.View(), Op.RecordCapital(direction, amount));
      hide Step;
      var accounts := [Cash, External];
      var balances := ledger.LockAndReadBalances(accounts);
      assert accounts[0] in accounts;
      if direction.Out? && balances[Cash] - amount < cfg.halt {
        return false;
      }
      var signed := if direction.In? then amount else -amount;
      ledger.PostTransfer(CapitalRef(|db.capital|), TreasuryTxn, Capital, External, Cash, signed);
      db.capital := db.capital + [signed];
      return true;
    }
  }
}
