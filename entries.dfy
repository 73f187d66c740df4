/**
 * The records of the ledger. Entries read back from local storage are
 * arbitrary JSON, so their text fields may be missing and their amounts may
 * not be numbers; entries made by the forms always have every field.
 */
module Entries {
  import opened Wrappers

  /** What `Number(x)` yields for a stored amount: a finite number, or NaN
      (missing field, non-numeric text, object, ...). */
  datatype Amount = Numeric(value: real) | NotNumeric

  /** What `Number(input.value)` yields for the amount typed into a form:
      a finite number, or NaN / an infinity. */
  datatype AmountInput = Finite(value: real) | NonFinite

  /** An element of `incomeData`: `{ source, amount }` */
  datatype IncomeEntry = IncomeEntry(source: Option<string>, amount: Amount)

  /** An element of `expenseData`: `{ date, desc, category, amount }` */
  datatype ExpenseEntry = ExpenseEntry(date: Option<string>, desc: Option<string>,
                                      category: Option<string>, amount: Amount)

  /** The normalised income object handed to the prompt builder */
  datatype IncomeObject = IncomeObject(source: string, amount: real)

  /** The normalised expense object handed to the prompt builder */
  datatype ExpenseObject = ExpenseObject(date: string, desc: string, category: string, amount: real)

  /** `Number(a) || 0`: NaN (and zero) become 0 */
  function AmountOrZero(a: Amount): real
  {
    match a
    case Numeric(v) => v
    case NotNumeric => 0.0
  }

  /** `field || dflt` for a text field: an absent or empty text is falsy */
  function TextOr(t: Option<string>, dflt: string): string
  {
    if t.Some? && t.value != "" then t.value else dflt
  }

  function IncomeAmount(i: IncomeEntry): real
  {
    AmountOrZero(i.amount)
  }

  function ExpenseAmount(e: ExpenseEntry): real
  {
    AmountOrZero(e.amount)
  }

  function NormalizeIncome(i: IncomeEntry): IncomeObject
  {
    IncomeObject(TextOr(i.source, "unknown"), AmountOrZero(i.amount))
  }

  function NormalizeExpense(e: ExpenseEntry): ExpenseObject
  {
    ExpenseObject(TextOr(e.date, "no-date"), TextOr(e.desc, "no-desc"),
                  TextOr(e.category, "Other"), AmountOrZero(e.amount))
  }

  /** `incomeData.map(...)`: one object per entry, in the same order */
  function NormalizeIncomes(xs: seq<IncomeEntry>): (r: seq<IncomeObject>)
    ensures |r| == |xs|
    ensures forall k :: 0 <= k < |xs| ==> r[k] == NormalizeIncome(xs[k])
  {
    if xs == [] then [] else [NormalizeIncome(xs[0])] + NormalizeIncomes(xs[1..])
  }

  /** `expenseData.map(...)`: one object per entry, in the same order */
  function NormalizeExpenses(ys: seq<ExpenseEntry>): (r: seq<ExpenseObject>)
    ensures |r| == |ys|
    ensures forall k :: 0 <= k < |ys| ==> r[k] == NormalizeExpense(ys[k])
  {
    if ys == [] then [] else [NormalizeExpense(ys[0])] + NormalizeExpenses(ys[1..])
  }

  /** A normalised object written back as a stored entry */
  function IncomeEntryOf(o: IncomeObject): IncomeEntry
  {
    IncomeEntry(Some(o.source), Numeric(o.amount))
  }

  function ExpenseEntryOf(o: ExpenseObject): ExpenseEntry
  {
    ExpenseEntry(Some(o.date), Some(o.desc), Some(o.category), Numeric(o.amount))
  }

  /** An income entry with every field present and meaningful */
  predicate CompleteIncome(i: IncomeEntry)
  {
    i.source.Some? && i.source.value != "" && i.amount.Numeric?
  }

  /** An expense entry with every field present and meaningful */
  predicate CompleteExpense(e: ExpenseEntry)
  {
    && e.date.Some? && e.date.value != ""
    && e.desc.Some? && e.desc.value != ""
    && e.category.Some? && e.category.value != ""
    && e.amount.Numeric?
  }

  /** Normalisation keeps each present field as it is and replaces each
      missing or empty one by its non-empty default, field by field; it keeps
      a complete entry exactly as it is, and is idempotent. */
  lemma NormalizeIncomeDefaults(i: IncomeEntry)
    ensures NormalizeIncome(i).source != ""
    ensures i.source.None? || i.source == Some("") ==> NormalizeIncome(i).source == "unknown"
    ensures i.source.Some? && i.source.value != "" ==> NormalizeIncome(i).source == i.source.value
    ensures i.amount.NotNumeric? ==> NormalizeIncome(i).amount == 0.0
    ensures i.amount.Numeric? ==> NormalizeIncome(i).amount == i.amount.value
    ensures CompleteIncome(i) <==> IncomeEntryOf(NormalizeIncome(i)) == i
    ensures NormalizeIncome(IncomeEntryOf(NormalizeIncome(i))) == NormalizeIncome(i)
  {
  }

  lemma NormalizeExpenseDefaults(e: ExpenseEntry)
    ensures var o := NormalizeExpense(e); o.date != "" && o.desc != "" && o.category != ""
    ensures e.date.None? || e.date == Some("") ==> NormalizeExpense(e).date == "no-date"
    ensures e.desc.None? || e.desc == Some("") ==> NormalizeExpense(e).desc == "no-desc"
    ensures e.category.None? || e.category == Some("") ==> NormalizeExpense(e).category == "Other"
    ensures e.date.Some? && e.date.value != "" ==> NormalizeExpense(e).date == e.date.value
    ensures e.desc.Some? && e.desc.value != "" ==> NormalizeExpense(e).desc == e.desc.value
    ensures e.category.Some? && e.category.value != "" ==> NormalizeExpense(e).category == e.category.value
    ensures e.amount.NotNumeric? ==> NormalizeExpense(e).amount == 0.0
    ensures e.amount.Numeric? ==> NormalizeExpense(e).amount == e.amount.value
    ensures CompleteExpense(e) <==> ExpenseEntryOf(NormalizeExpense(e)) == e
    ensures NormalizeExpense(ExpenseEntryOf(NormalizeExpense(e))) == NormalizeExpense(e)
  {
  }
}
