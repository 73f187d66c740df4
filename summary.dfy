/**
 * The totals shown in the summary panel and put into the prompt:
 * `list.reduce((s, x) => s + (Number(x.amount) || 0), 0)` for each list, and
 * the balance as their difference.
 */
module Summary {
  import opened Entries
  import opened Lists

  /** The coerced amount of every element, in order */
  function Amounts<T>(xs: seq<T>, amount: T -> real): (r: seq<real>)
    ensures |r| == |xs|
    ensures forall k :: 0 <= k < |xs| ==> r[k] == amount(xs[k])
  {
    if xs == [] then [] else [amount(xs[0])] + Amounts(xs[1..], amount)
  }

  /** `reduce((s, a) => s + a, acc)`: a left fold from the first element */
  function Reduce(rs: seq<real>, acc: real): real
  {
    if rs == [] then acc else Reduce(rs[1..], acc + rs[0])
  }

  /** The mathematical sum, as an independent reference for `Reduce` */
  function Sum(rs: seq<real>): real
  {
    if rs == [] then 0.0 else rs[0] + Sum(rs[1..])
  }

  /** The total of a list, as `script.js` computes it */
  function Total<T>(xs: seq<T>, amount: T -> real): real
  {
    Reduce(Amounts(xs, amount), 0.0)
  }

  function TotalIncome(xs: seq<IncomeEntry>): real
  {
    Total(xs, IncomeAmount)
  }

  function TotalExpenses(ys: seq<ExpenseEntry>): real
  {
    Total(ys, ExpenseAmount)
  }

  datatype Totals = Totals(totalIncome: real, totalExpenses: real, balance: real)

  /** The three figures of the summary panel */
  function Summarize(xs: seq<IncomeEntry>, ys: seq<ExpenseEntry>): Totals
  {
    var ti := TotalIncome(xs);
    var te := TotalExpenses(ys);
    Totals(ti, te, ti - te)
  }

  /** Folding from the left with a start value adds that value to the sum. */
  lemma {:induction false} ReduceIsSum(rs: seq<real>, acc: real)
    ensures Reduce(rs, acc) == acc + Sum(rs)
  {
    if rs != [] {
      ReduceIsSum(rs[1..], acc + rs[0]);
    }
  }

  lemma {:induction false} SumConcat(a: seq<real>, b: seq<real>)
    ensures Sum(a + b) == Sum(a) + Sum(b)
  {
    if a == [] {
      assert a + b == b;
    } else {
      assert (a + b)[1..] == a[1..] + b;
      SumConcat(a[1..], b);
    }
  }

  /** A list's total is the sum of its coerced amounts. */
  lemma TotalIsSum<T>(xs: seq<T>, amount: T -> real)
    ensures Total(xs, amount) == Sum(Amounts(xs, amount))
  {
    ReduceIsSum(Amounts(xs, amount), 0.0);
  }

  /** Appending an element adds its coerced amount to the total. */
  lemma TotalAppend<T>(xs: seq<T>, x: T, amount: T -> real)
    ensures Total(xs + [x], amount) == Total(xs, amount) + amount(x)
  {
    assert Amounts(xs + [x], amount) == Amounts(xs, amount) + [amount(x)];
    TotalIsSum(xs + [x], amount);
    TotalIsSum(xs, amount);
    SumConcat(Amounts(xs, amount), [amount(x)]);
  }

  /** Removing the element at an in-range position takes its coerced amount
      off the total; any other position leaves the total as it was. */
  lemma TotalRemoveAt<T>(xs: seq<T>, i: int, amount: T -> real)
    ensures 0 <= i < |xs| ==> Total(RemoveAt(xs, i), amount) == Total(xs, amount) - amount(xs[i])
    ensures i >= |xs| ==> Total(RemoveAt(xs, i), amount) == Total(xs, amount)
  {
    if 0 <= i < |xs| {
      var a := Amounts(xs, amount);
      assert Amounts(RemoveAt(xs, i), amount) == a[..i] + a[i + 1..];
      assert a == a[..i] + [a[i]] + a[i + 1..];
      SumConcat(a[..i], [a[i]]);
      SumConcat(a[..i] + [a[i]], a[i + 1..]);
      SumConcat(a[..i], a[i + 1..]);
      TotalIsSum(xs, amount);
      TotalIsSum(RemoveAt(xs, i), amount);
    }
  }

  /** Recording an income raises the income total and the balance by its
      coerced amount and leaves the expense total as it was. */
  lemma SummarizeAddIncome(xs: seq<IncomeEntry>, ys: seq<ExpenseEntry>, x: IncomeEntry)
    ensures var before, after := Summarize(xs, ys), Summarize(xs + [x], ys);
            && after.totalIncome == before.totalIncome + IncomeAmount(x)
            && after.totalExpenses == before.totalExpenses
            && after.balance == before.balance + IncomeAmount(x)
  {
    TotalAppend(xs, x, IncomeAmount);
  }

  /** Recording an expense raises the expense total by its coerced amount,
      lowers the balance by it and leaves the income total as it was. */
  lemma SummarizeAddExpense(xs: seq<IncomeEntry>, ys: seq<ExpenseEntry>, y: ExpenseEntry)
    ensures var before, after := Summarize(xs, ys), Summarize(xs, ys + [y]);
            && after.totalIncome == before.totalIncome
            && after.totalExpenses == before.totalExpenses + ExpenseAmount(y)
            && after.balance == before.balance - ExpenseAmount(y)
  {
    TotalAppend(ys, y, ExpenseAmount);
  }

  /** Deleting the income at an in-range position takes its coerced amount
      off the income total and the balance; the expense total stays. */
  lemma SummarizeRemoveIncome(xs: seq<IncomeEntry>, ys: seq<ExpenseEntry>, i: int)
    requires 0 <= i < |xs|
    ensures var before, after := Summarize(xs, ys), Summarize(RemoveAt(xs, i), ys);
            && after.totalIncome == before.totalIncome - IncomeAmount(xs[i])
            && after.totalExpenses == before.totalExpenses
            && after.balance == before.balance - IncomeAmount(xs[i])
  {
    TotalRemoveAt(xs, i, IncomeAmount);
  }

  /** Deleting the expense at an in-range position takes its coerced amount
      off the expense total and gives it back to the balance. */
  lemma SummarizeRemoveExpense(xs: seq<IncomeEntry>, ys: seq<ExpenseEntry>, i: int)
    requires 0 <= i < |ys|
    ensures var before, after := Summarize(xs, ys), Summarize(xs, RemoveAt(ys, i));
            && after.totalIncome == before.totalIncome
            && after.totalExpenses == before.totalExpenses - ExpenseAmount(ys[i])
            && after.balance == before.balance + ExpenseAmount(ys[i])
  {
    TotalRemoveAt(ys, i, ExpenseAmount);
  }

  /** The balance is the income sum minus the expense sum, with every
      non-numeric or missing amount counted as 0. */
  lemma BalanceIsDifference(xs: seq<IncomeEntry>, ys: seq<ExpenseEntry>)
    ensures Summarize(xs, ys).balance
         == Sum(Amounts(xs, IncomeAmount)) - Sum(Amounts(ys, ExpenseAmount))
    ensures Summarize(xs, ys).totalIncome == Sum(Amounts(xs, IncomeAmount))
    ensures Summarize(xs, ys).totalExpenses == Sum(Amounts(ys, ExpenseAmount))
  {
    TotalIsSum(xs, IncomeAmount);
    TotalIsSum(ys, ExpenseAmount);
  }

  /** An entry whose amount is not a number adds nothing to the total. */
  lemma NonNumericCountsZero(xs: seq<IncomeEntry>, source: Wrappers.Option<string>)
    ensures TotalIncome(xs + [IncomeEntry(source, NotNumeric)]) == TotalIncome(xs)
  {
    TotalAppend(xs, IncomeEntry(source, NotNumeric), IncomeAmount);
  }

  /** The normalised objects given to the prompt carry amounts that add up to
      the totals the prompt reports. */
  lemma NormalizedTotalsAgree(xs: seq<IncomeEntry>, ys: seq<ExpenseEntry>)
    ensures Sum(Amounts(NormalizeIncomes(xs), (o: IncomeObject) => o.amount)) == TotalIncome(xs)
    ensures Sum(Amounts(NormalizeExpenses(ys), (o: ExpenseObject) => o.amount)) == TotalExpenses(ys)
  {
    assert Amounts(NormalizeIncomes(xs), (o: IncomeObject) => o.amount) == Amounts(xs, IncomeAmount);
    assert Amounts(NormalizeExpenses(ys), (o: ExpenseObject) => o.amount) == Amounts(ys, ExpenseAmount);
    TotalIsSum(xs, IncomeAmount);
    TotalIsSum(ys, ExpenseAmount);
  }
}
