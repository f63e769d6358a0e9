/**
 * The total of the balances a wallet store holds, and how single-wallet saves
 * change it.  Used to state that a transfer neither creates nor destroys money.
 */
module Ledger {
  import opened YankiWalletModel

  ghost function Pick(m: map<Phone, Wallet>): (p: Phone)
    requires m != map[]
    ensures p in m
  {
    var p :| p in m; p
  }

  /** The sum of every balance in the store. */
  ghost function TotalBalance(m: map<Phone, Wallet>): int
    decreases |m|
  {
    if m == map[] then 0
    else
      var p := Pick(m);
      assert |m - {p}| == |m| - 1 by { assert (m - {p}).Keys == m.Keys - {p}; }
      m[p].balance + TotalBalance(m - {p})
  }

  /** Any wallet of the store can be taken out of the sum first. */
  lemma {:induction false} TotalBalanceRemove(m: map<Phone, Wallet>, k: Phone)
    requires k in m
    ensures TotalBalance(m) == m[k].balance + TotalBalance(m - {k})
    decreases |m|
  {
    var p := Pick(m);
    assert |m - {p}| == |m| - 1 by { assert (m - {p}).Keys == m.Keys - {p}; }
    assert |m - {k}| == |m| - 1 by { assert (m - {k}).Keys == m.Keys - {k}; }
    if p != k {
      TotalBalanceRemove(m - {p}, k);
      TotalBalanceRemove(m - {k}, p);
      assert m - {p} - {k} == m - {k} - {p};
    }
  }

  /** Saving a wallet changes the total by the change of that one balance. */
  lemma TotalBalanceSave(m: map<Phone, Wallet>, k: Phone, w: Wallet)
    ensures k in m ==> TotalBalance(m[k := w]) == TotalBalance(m) - m[k].balance + w.balance
    ensures k !in m ==> TotalBalance(m[k := w]) == TotalBalance(m) + w.balance
  {
    TotalBalanceRemove(m[k := w], k);
    assert m[k := w] - {k} == m - {k};
    if k in m {
      TotalBalanceRemove(m, k);
    } else {
      assert m - {k} == m;
    }
  }

  /**
   * Debiting one stored wallet and crediting another, distinct one by the
   * same amount leaves the total unchanged.
   */
  lemma TransferKeepsTotal(m: map<Phone, Wallet>, from: Phone, to: Phone, amount: int, now: Time)
    requires from in m && to in m && from != to
    ensures TotalBalance(m[from := BalanceUpdated(m[from], amount, false, now)]
                          [to := BalanceUpdated(m[to], amount, true, now)])
            == TotalBalance(m)
  {
    var m1 := m[from := BalanceUpdated(m[from], amount, false, now)];
    TotalBalanceSave(m, from, BalanceUpdated(m[from], amount, false, now));
    TotalBalanceSave(m1, to, BalanceUpdated(m[to], amount, true, now));
  }
}
