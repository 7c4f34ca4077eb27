/** Wallets and their transactions: the wallet lookup, the statistics of a
    date window, and adding a transaction to a wallet. Dates are day numbers
    (any integer encoding that preserves the calendar order). */
module Wealthflow {

  /** One transaction: positive amounts are income, negative ones expenses. */
  datatype Transaction = Transaction(date: int, category: string, note: string, amount: real)

  /** The statistics of one wallet over one period. */
  datatype WalletStats = WalletStats(balance: real, income: real, expenses: real, change: real, transactions: seq<Transaction>)

  predicate InWindow(t: Transaction, start: int, end: int) {
    start <= t.date <= end
  }

  /** The transactions dated within [start, end], in their original order. */
  function InPeriod(txns: seq<Transaction>, start: int, end: int): (r: seq<Transaction>)
    ensures |r| <= |txns|
    ensures forall t :: t in r ==> t in txns && InWindow(t, start, end)
    ensures forall i :: 0 <= i < |txns| && InWindow(txns[i], start, end) ==> txns[i] in r
    ensures start > end ==> r == []
    ensures (forall i :: 0 <= i < |txns| ==> !InWindow(txns[i], start, end)) ==> r == []
  {
    if |txns| == 0 then []
    else
      var last := txns[|txns| - 1];
      InPeriod(txns[..|txns| - 1], start, end) + (if InWindow(last, start, end) then [last] else [])
  }

  /** Filtering a concatenation filters each part and keeps them in order, so
      the filter never reorders transactions. */
  lemma {:induction false} InPeriodConcat(a: seq<Transaction>, b: seq<Transaction>, start: int, end: int)
    ensures InPeriod(a + b, start, end) == InPeriod(a, start, end) + InPeriod(b, start, end)
    decreases |b|
  {
    if |b| == 0 {
      assert a + b == a;
    } else {
      var b' := b[..|b| - 1];
      assert (a + b)[..|a + b| - 1] == a + b';
      InPeriodConcat(a, b', start, end);
    }
  }

  /** The sum of all amounts: never negative when every amount is income,
      never positive when every amount is an expense. */
  function Balance(txns: seq<Transaction>): (r: real)
    ensures (forall i :: 0 <= i < |txns| ==> txns[i].amount >= 0.0) ==> r >= 0.0
    ensures (forall i :: 0 <= i < |txns| ==> txns[i].amount <= 0.0) ==> r <= 0.0
  {
    if |txns| == 0 then 0.0 else Balance(txns[..|txns| - 1]) + txns[|txns| - 1].amount
  }

  /** The sum of the positive amounts. */
  function Income(txns: seq<Transaction>): (r: real)
    ensures r >= 0.0
    ensures (forall i :: 0 <= i < |txns| ==> txns[i].amount <= 0.0) ==> r == 0.0
  {
    if |txns| == 0 then 0.0
    else
      var a := txns[|txns| - 1].amount;
      Income(txns[..|txns| - 1]) + (if a > 0.0 then a else 0.0)
  }

  /** The sum of the negated negative amounts. */
  function Expenses(txns: seq<Transaction>): (r: real)
    ensures r >= 0.0
    ensures (forall i :: 0 <= i < |txns| ==> txns[i].amount >= 0.0) ==> r == 0.0
  {
    if |txns| == 0 then 0.0
    else
      var a := txns[|txns| - 1].amount;
      Expenses(txns[..|txns| - 1]) + (if a < 0.0 then -a else 0.0)
  }

  /** The balance is income less expenses. */
  lemma {:induction false} BalanceIsIncomeLessExpenses(txns: seq<Transaction>)
    ensures Balance(txns) == Income(txns) - Expenses(txns)
  {
    if |txns| > 0 {
      BalanceIsIncomeLessExpenses(txns[..|txns| - 1]);
    }
  }

  /** The statistics of a wallet's transactions over the period [start, end]. */
  function ComputeWalletStats(txns: seq<Transaction>, start: int, end: int): (st: WalletStats)
    ensures st.balance == st.income - st.expenses
    ensures st.change == st.balance
    ensures st.income >= 0.0 && st.expenses >= 0.0
    ensures |st.transactions| <= |txns|
    ensures forall t :: t in st.transactions ==> t in txns && InWindow(t, start, end)
    ensures forall i :: 0 <= i < |txns| && InWindow(txns[i], start, end) ==> txns[i] in st.transactions
    ensures start > end ==> st == WalletStats(0.0, 0.0, 0.0, 0.0, [])
    ensures (forall i :: 0 <= i < |txns| ==> !InWindow(txns[i], start, end)) ==> st == WalletStats(0.0, 0.0, 0.0, 0.0, [])
  {
    var period := InPeriod(txns, start, end);
    BalanceIsIncomeLessExpenses(period);
    var balance := Balance(period);
    WalletStats(balance, Income(period), Expenses(period), balance, period)
  }

  /** Adding a transaction: if it falls in the period, the balance moves by
      exactly its amount, income or expenses by its positive or negative part,
      and one more transaction is listed; otherwise nothing changes. */
  lemma AppendStats(txns: seq<Transaction>, t: Transaction, start: int, end: int)
    ensures var before := ComputeWalletStats(txns, start, end);
      var after := ComputeWalletStats(txns + [t], start, end);
      if InWindow(t, start, end) then
        && after.transactions == before.transactions + [t]
        && after.balance == before.balance + t.amount
        && after.income == before.income + (if t.amount > 0.0 then t.amount else 0.0)
        && after.expenses == before.expenses + (if t.amount < 0.0 then -t.amount else 0.0)
      else after == before
  {
    assert (txns + [t])[..|txns + [t]| - 1] == txns;
    var p := InPeriod(txns, start, end);
    if !InWindow(t, start, end) {
      assert InPeriod(txns + [t], start, end) == p + [] == p;
    }
  }

  /** A zero-amount transaction in the period is listed but adds to neither
      income nor expenses. */
  lemma ZeroAmountCountedNotSummed(txns: seq<Transaction>, t: Transaction, start: int, end: int)
    requires t.amount == 0.0 && InWindow(t, start, end)
    ensures var before := ComputeWalletStats(txns, start, end);
      var after := ComputeWalletStats(txns + [t], start, end);
      && |after.transactions| == |before.transactions| + 1
      && after.income == before.income && after.expenses == before.expenses
      && after.balance == before.balance
  {
    AppendStats(txns, t, start, end);
  }

  /** The record stored for a new transaction: an empty category becomes
      "General", an empty note stays empty. */
  function NewTransaction(date: int, category: string, note: string, amount: real): (t: Transaction)
    ensures t.category != ""
    ensures category != "" ==> t.category == category
    ensures category == "" ==> t.category == "General"
    ensures t.date == date && t.note == note && t.amount == amount
  {
    Transaction(date, if category == "" then "General" else category, note, amount)
  }

  /** A wallet: its id and name never change; its transaction list grows. */
  class Wallet {
    const id: string
    const name: string
    var transactions: seq<Transaction>

    constructor (id: string, name: string, transactions: seq<Transaction>)
      ensures this.id == id && this.name == name && this.transactions == transactions
    {
      this.id := id;
      this.name := name;
      this.transactions := transactions;
    }

    /** Appends a transaction and recomputes the period's statistics. */
    method AddTransaction(date: int, category: string, note: string, amount: real, start: int, end: int)
      returns (stats: WalletStats)
      modifies this
      ensures transactions == old(transactions) + [NewTransaction(date, category, note, amount)]
      ensures stats == ComputeWalletStats(transactions, start, end)
      ensures start <= date <= end ==>
        && stats.balance == old(ComputeWalletStats(transactions, start, end)).balance + amount
        && |stats.transactions| == |old(ComputeWalletStats(transactions, start, end)).transactions| + 1
      ensures !(start <= date <= end) ==> stats == old(ComputeWalletStats(transactions, start, end))
    {
      var t := NewTransaction(date, category, note, amount);
      AppendStats(transactions, t, start, end);
      transactions := transactions + [t];
      stats := ComputeWalletStats(transactions, start, end);
    }
  }

  /** The first wallet with the given id, or null when none has it. */
  method GetWalletById(wallets: seq<Wallet>, walletId: string) returns (w: Wallet?)
    ensures w == null <==> forall i :: 0 <= i < |wallets| ==> wallets[i].id != walletId
    ensures w != null ==> exists k :: (0 <= k < |wallets| && wallets[k] == w && w.id == walletId
                                       && forall j :: 0 <= j < k ==> wallets[j].id != walletId)
  {
    var i := 0;
    while i < |wallets|
      invariant 0 <= i <= |wallets|
      invariant forall j :: 0 <= j < i ==> wallets[j].id != walletId
    {
      if wallets[i].id == walletId {
        return wallets[i];
      }
      i := i + 1;
    }
    return null;
  }

  /** The wallet shown: the selected one, else the first wallet. With no
      wallets at all the source fails on `wallets[0]`; that is a null here. */
  method SelectWallet(wallets: seq<Wallet>, selectedId: string) returns (w: Wallet?)
    ensures w == null <==> |wallets| == 0
    ensures (exists i :: 0 <= i < |wallets| && wallets[i].id == selectedId) ==>
      w != null && exists k :: (0 <= k < |wallets| && wallets[k] == w && w.id == selectedId
                                && forall j :: 0 <= j < k ==> wallets[j].id != selectedId)
    ensures (forall i :: 0 <= i < |wallets| ==> wallets[i].id != selectedId) && |wallets| > 0 ==> w == wallets[0]
  {
    w := GetWalletById(wallets, selectedId);
    if w == null && |wallets| > 0 {
      w := wallets[0];
    }
  }
}
