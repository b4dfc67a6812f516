/** The ledger service: the balances read under account locks, and the only code that writes the ledger. */
module Ledger {
  import opened Sums
  import opened Books
  import O = Orders

  // The tables, updated in place. A transaction that throws puts back what it found.
  class Database {
    var log: seq<Txn>
    var quotes: seq<Quote>
    var orders: seq<Order>
    var payments: seq<Payment>
    var payouts: seq<Payout>
    var deliveries: seq<Delivery>
    var capital: seq<int>
    var vault: seq<VaultRow>
    var codes: seq<Code>
    var confirming: set<nat>

    constructor ()
      ensures View() == EMPTY
    {
      log, quotes, orders, payments, payouts, deliveries, capital, vault := [], [], [], [], [], [], [], [];
      codes, confirming := [], {};
    }

    function View(): State
      reads this
    {
      State(log, quotes, orders, payments, payouts, deliveries, capital, vault, codes, confirming)
    }

    method Rollback(to: State)
      modifies this
      ensures View() == to
    {
      log, quotes, orders, payments, payouts := to.log, to.quotes, to.orders, to.payments, to.payouts;
      deliveries, capital, vault, codes, confirming := to.deliveries, to.capital, to.vault, to.codes, to.confirming;
    }
  }

  lemma NextRow<T>(rows: seq<T>, k: nat, f: T -> int)
    requires k < |rows|
    ensures Sum(rows[..k + 1], f) == Sum(rows[..k], f) + f(rows[k])
  {
    assert rows[..k + 1] == rows[..k] + [rows[k]];
    SumAppend(rows[..k], rows[k], f);
  }

  class LedgerService {
    const db: Database

    constructor (db: Database)
      ensures this.db == db
    {
      this.db := db;
    }

    // Balances of the given accounts, duplicates and all; an account without entries reads zero. One pass over
    // the entries of the log, grouped by account.
    method LockAndReadBalances(accounts: seq<Account>) returns (balances: map<Account, int>)
      ensures forall a :: a in balances <==> a in accounts
      ensures forall a | a in accounts :: balances[a] == Balance(db.log, a)
    {
      balances := map a | a in accounts :: 0;
      var t := 0;
      while t < |db.log|
        invariant 0 <= t <= |db.log|
        invariant forall a :: a in balances <==> a in accounts
        invariant forall a | a in accounts :: balances[a] == Balance(db.log[..t], a)
      {
        balances := AddEntries(balances, db.log[t].body.entries);
        forall a | a in accounts ensures balances[a] == Balance(db.log[..t + 1], a) {
          NextRow(db.log, t, TxnOn(a));
        }
        t := t + 1;
      }
      assert db.log[..t] == db.log;
    }

    method AddEntries(before: map<Account, int>, entries: seq<Entry>) returns (balances: map<Account, int>)
      ensures balances.Keys == before.Keys
      ensures forall a | a in before :: balances[a] == before[a] + Sum(entries, AmountOn(a))
    {
      balances := before;
      var k := 0;
      while k < |entries|
        invariant 0 <= k <= |entries| && balances.Keys == before.Keys
        invariant forall a | a in before :: balances[a] == before[a] + Sum(entries[..k], AmountOn(a))
      {
        ghost var was := balances;
        var e := entries[k];
        if e.account in balances {
          balances := balances[e.account := balances[e.account] + e.amount];
        }
        forall a | a in before ensures balances[a] == before[a] + Sum(entries[..k + 1], AmountOn(a)) {
          assert was[a] == before[a] + Sum(entries[..k], AmountOn(a));
          NextRow(entries, k, AmountOn(a));
        }
        k := k + 1;
      }
      assert entries[..k] == entries;
    }

    // Zero entries are dropped, the rest must balance per asset and be something; then one transaction is
    // appended, and nothing else. A refusal throws before anything is written.
    method PostTransaction(ref: Ref, kind: Kind, note: Note, entries: seq<Entry>) returns (ok: bool)
      modifies db`log
      ensures ok <==> Postable(entries)
      ensures db.log == if ok then old(db.log) + [Txn(ref, Posting(kind, note, Filter(entries, NonZero)))]
                else old(db.log)
    {
      var kept := DropZeros(entries);
      var perAsset := Totals(kept);
      var rest := perAsset.Keys;
      while rest != {}
        invariant rest <= perAsset.Keys
        invariant forall asset | asset in perAsset.Keys - rest :: perAsset[asset] == 0
      {
        var asset :| asset in rest;
        if perAsset[asset] != 0 {
          BalancedEverywhere(kept, perAsset);
          return false;
        }
        rest := rest - {asset};
      }
      BalancedEverywhere(kept, perAsset);
      if |kept| == 0 {
        return false;
      }
      db.log := db.log + [Txn(ref, Posting(kind, note, kept))];
      return true;
    }

    method DropZeros(entries: seq<Entry>) returns (kept: seq<Entry>)
      ensures kept == Filter(entries, NonZero)
    {
      kept := [];
      var k := 0;
      while k < |entries|
        invariant 0 <= k <= |entries| && kept == Filter(entries[..k], NonZero)
      {
        assert entries[..k + 1] == entries[..k] + [entries[k]];
        FilterAppend(entries[..k], entries[k], NonZero);
        if entries[k].amount != 0 {
          kept := kept + [entries[k]];
        }
        k := k + 1;
      }
      assert entries[..k] == entries;
    }

    method Totals(kept: seq<Entry>) returns (perAsset: map<Asset, int>)
      ensures forall asset :: asset in perAsset ==> perAsset[asset] == Sum(kept, OfAsset(asset))
      ensures forall asset :: asset !in perAsset ==> Sum(kept, OfAsset(asset)) == 0
    {
      perAsset := map[];
      var k := 0;
      while k < |kept|
        invariant 0 <= k <= |kept|
        invariant forall asset :: asset in perAsset ==> perAsset[asset] == Sum(kept[..k], OfAsset(asset))
        invariant forall asset :: asset !in perAsset ==> Sum(kept[..k], OfAsset(asset)) == 0
      {
        ghost var was := perAsset;
        var e := kept[k];
        perAsset := perAsset[e.asset := (if e.asset in perAsset then perAsset[e.asset] else 0) + e.amount];
        forall asset
          ensures asset in perAsset ==> perAsset[asset] == Sum(kept[..k + 1], OfAsset(asset))
          ensures asset !in perAsset ==> Sum(kept[..k + 1], OfAsset(asset)) == 0
        {
          assert asset in was ==> was[asset] == Sum(kept[..k], OfAsset(asset));
          NextRow(kept, k, OfAsset(asset));
        }
        k := k + 1;
      }
      assert kept[..k] == kept;
    }

    lemma BalancedEverywhere(kept: seq<Entry>, perAsset: map<Asset, int>)
      requires forall asset :: asset in perAsset ==> perAsset[asset] == Sum(kept, OfAsset(asset))
      requires forall asset :: asset !in perAsset ==> Sum(kept, OfAsset(asset)) == 0
      ensures (forall asset | asset in perAsset :: perAsset[asset] == 0) <==>
              Sum(kept, OfAsset(ETB)) == 0 && Sum(kept, OfAsset(Grams(XAU))) == 0 && Sum(kept, OfAsset(Grams(XPT))) == 0
    {
      if Sum(kept, OfAsset(ETB)) == 0 && Sum(kept, OfAsset(Grams(XAU))) == 0 && Sum(kept, OfAsset(Grams(XPT))) == 0 {
        forall asset | asset in perAsset ensures perAsset[asset] == 0 {
          match asset { case ETB => case Grams(m) => match m { case XAU => case XPT => } }
        }
      }
    }

    // Two entries that move an amount from one account to another; such a transaction is never refused.
    method PostTransfer(ref: Ref, kind: Kind, note: Note, from: Account, to: Account, amount: int)
      requires from != to && AssetOf(from) == AssetOf(to) && amount != 0
      modifies db`log
      ensures db.log == old(db.log) + [Txn(ref, Shape(Shift(kind, note, from, to, amount)))]
    {
      hide Filter, Postable;
      var entries := [Entry(from, AssetOf(from), -amount), Entry(to, AssetOf(to), amount)];
      O.MoveIsPostable(Shift(kind, note, from, to, amount));
      var ok := PostTransaction(ref, kind, note, entries);
    }

    // A customer's own view of the three balances.
    method BalancesForUser(user: UserId) returns (etb: int, xau: int, xpt: int)
      ensures etb == Balance(db.log, Customer(user, ETB))
      ensures xau == Balance(db.log, Customer(user, Grams(XAU)))
      ensures xpt == Balance(db.log, Customer(user, Grams(XPT)))
    {
      var accounts := [Customer(user, ETB), Customer(user, Grams(XAU)), Customer(user, Grams(XPT))];
      var byAsset := LockAndReadBalances(accounts);
      assert accounts[0] in accounts && accounts[1] in accounts && accounts[2] in accounts;
      return byAsset[accounts[0]], byAsset[accounts[1]], byAsset[accounts[2]];
    }
  }
}
