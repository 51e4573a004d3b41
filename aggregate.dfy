/**
  The report totals: the `reduce` sums over sales totals and expense
  amounts, the net of a balance, and the line totals of an invoice.
*/
module Aggregate {
  import opened Records

  /** `s.reduce((sum, x) => sum + amount(x), 0)`: added from the left, 0 for no records. */
  function SumOf<T>(s: seq<T>, amount: T -> int): int
    decreases |s|
  {
    if s == [] then 0 else SumOf(s[..|s| - 1], amount) + amount(s[|s| - 1])
  }

  /** The sum over a concatenation is the sum of the two sums. */
  lemma {:induction false} SumAppend<T>(a: seq<T>, b: seq<T>, amount: T -> int)
    ensures SumOf(a + b, amount) == SumOf(a, amount) + SumOf(b, amount)
    decreases |b|
  {
    if b == [] {
      assert a + b == a;
    } else {
      var n := |b| - 1;
      assert (a + b)[..|a + b| - 1] == a + b[..n];
      SumAppend(a, b[..n], amount);
    }
  }

  /** Taking one record out of a list takes its amount out of the total. */
  lemma {:induction false} RemoveOne<T>(b: seq<T>, i: int, amount: T -> int)
    requires 0 <= i < |b|
    ensures SumOf(b, amount) == SumOf(b[..i] + b[i + 1..], amount) + amount(b[i])
  {
    var x := b[i];
    assert b == (b[..i] + [x]) + b[i + 1..];
    SumAppend(b[..i] + [x], b[i + 1..], amount);
    SumAppend(b[..i], [x], amount);
    SumAppend(b[..i], b[i + 1..], amount);
    assert SumOf([x], amount) == amount(x) by {
      assert [x][..0] == [];
    }
  }

  lemma {:induction false} RemoveOneMultiset<T>(b: seq<T>, i: int)
    requires 0 <= i < |b|
    ensures multiset(b[..i] + b[i + 1..]) == multiset(b) - multiset{b[i]}
  {
    assert b == (b[..i] + [b[i]]) + b[i + 1..];
    assert multiset(b) == multiset(b[..i]) + multiset{b[i]} + multiset(b[i + 1..]);
  }

  /** The order of the records does not change a total. */
  lemma {:induction false} SumPermutation<T>(a: seq<T>, b: seq<T>, amount: T -> int)
    requires multiset(a) == multiset(b)
    ensures SumOf(a, amount) == SumOf(b, amount)
    decreases |a|
  {
    if a == [] {
      assert |b| == |multiset(b)| == 0;
    } else {
      var n := |a| - 1;
      var x := a[n];
      assert a == a[..n] + [x];
      assert multiset(a[..n]) == multiset(a) - multiset{x} by {
        assert multiset(a) == multiset(a[..n]) + multiset{x};
      }
      assert x in multiset(b);
      var i :| 0 <= i < |b| && b[i] == x;
      RemoveOne(b, i, amount);
      RemoveOneMultiset(b, i);
      SumPermutation(a[..n], b[..i] + b[i + 1..], amount);
    }
  }

  /** Adding records that are never negative never lowers a total. */
  lemma {:induction false} SumNonNegative<T>(s: seq<T>, amount: T -> int)
    requires forall i :: 0 <= i < |s| ==> amount(s[i]) >= 0
    ensures SumOf(s, amount) >= 0
    decreases |s|
  {
    if s != [] {
      SumNonNegative(s[..|s| - 1], amount);
    }
  }

  function SaleTotal(s: Sale): int { s.total }

  function ExpenseAmount(e: Expense): int { e.amount }

  /** Total of a sales report: the sum of the sales' stored totals. */
  function SalesTotal(sales: seq<Sale>): int {
    SumOf(sales, SaleTotal)
  }

  /** Total of an expenses report: the sum of the expense amounts. */
  function ExpensesTotal(expenses: seq<Expense>): int {
    SumOf(expenses, ExpenseAmount)
  }

  /** `balance` / `net`: sales takings less expenses. */
  function NetProfit(sales: seq<Sale>, expenses: seq<Expense>): int {
    SalesTotal(sales) - ExpensesTotal(expenses)
  }

  /** Empty reports total 0, and the net of two empty lists is 0. */
  lemma EmptyTotals()
    ensures SalesTotal([]) == 0 && ExpensesTotal([]) == 0 && NetProfit([], []) == 0
  {
  }

  /** The net of a balance over two stretches of records is the sum of their nets. */
  lemma NetAppend(s1: seq<Sale>, s2: seq<Sale>, e1: seq<Expense>, e2: seq<Expense>)
    ensures NetProfit(s1 + s2, e1 + e2) == NetProfit(s1, e1) + NetProfit(s2, e2)
  {
    SumAppend(s1, s2, SaleTotal);
    SumAppend(e1, e2, ExpenseAmount);
  }

  /** Line total of an invoice row: `item.price * item.quantity`. */
  function LineTotal(item: SaleItem): int {
    item.price * item.quantity
  }

  /** The sum of an invoice's line totals; a sale's stored total is this sum when it is created. */
  function ItemsTotal(items: seq<SaleItem>): int {
    SumOf(items, LineTotal)
  }

  /** With positive quantities and non-negative prices, every line total is at most the invoice sum. */
  lemma {:induction false} LineTotalBounded(items: seq<SaleItem>, k: int)
    requires forall i :: 0 <= i < |items| ==> items[i].quantity > 0 && items[i].price >= 0
    requires 0 <= k < |items|
    ensures 0 <= LineTotal(items[k]) <= ItemsTotal(items)
  {
    var rest := items[..k] + items[k + 1..];
    assert items == items[..k] + [items[k]] + items[k + 1..];
    SumAppend(items[..k] + [items[k]], items[k + 1..], LineTotal);
    SumAppend(items[..k], [items[k]], LineTotal);
    assert [items[k]][..0] == [];
    SumNonNegative(items[..k], LineTotal);
    SumNonNegative(items[k + 1..], LineTotal);
  }
}
