/**
 * The page's ledger state: the two module-level lists `incomeData` and
 * `expenseData`, the copy of them kept in local storage, and the event
 * handlers that change them (the two form submissions and the per-row delete
 * buttons) or read them (the summary panel and the AI button).
 */
module BudgetLedger {
  import opened Wrappers
  import opened Entries
  import opened Text
  import opened Lists
  import opened Summary
  import opened Prompt

  /** What local storage holds under the keys `incomeData` and `expenseData`
      (already parsed); `None` when a key is absent or holds `null`. */
  datatype Storage = Storage(incomeData: Option<seq<IncomeEntry>>,
                             expenseData: Option<seq<ExpenseEntry>>)

  /** `JSON.parse(localStorage.getItem(key)) || []` */
  function LoadList<T>(stored: Option<seq<T>>): seq<T>
  {
    stored.GetOr([])
  }

  /** The guard of both form handlers, `!text || amount <= 0 || !Number.isFinite(amount)`,
      applied to the trimmed text */
  predicate Rejects(text: string, amount: AmountInput)
  {
    text == "" || (amount.Finite? && amount.value <= 0.0) || amount.NonFinite?
  }

  /** A submission goes through exactly when its text holds something other
      than whitespace and its amount is a finite number above zero. */
  lemma AcceptedSubmissions(input: string, amount: AmountInput)
    ensures !Rejects(Trim(input), amount) <==> !AllWhitespace(input) && amount.Finite? && amount.value > 0.0
  {
    TrimEmptyIff(input);
  }

  /** `new Date().toISOString().slice(0, 10)`, given the ISO timestamp:
      its first ten characters, the calendar day */
  function IsoDay(iso: string): (day: string)
    ensures day <= iso
    ensures |day| == if |iso| < 10 then |iso| else 10
  {
    if |iso| < 10 then iso else iso[..10]
  }

  /** `els.langSelect ? els.langSelect.value : "en"` */
  function SelectedLang(langSelect: Option<string>): string
  {
    langSelect.GetOr("en")
  }

  /** What the AI button sends: totals from the raw lists, normalised copies
      of the entries, the prompt in the selected language */
  function AnalysisPrompt(xs: seq<IncomeEntry>, ys: seq<ExpenseEntry>, langSelect: Option<string>,
                          show: real -> string): string
  {
    var totalIncome := TotalIncome(xs);
    var totalExpenses := TotalExpenses(ys);
    BuildPrompt(SelectedLang(langSelect), totalIncome, totalExpenses, totalIncome - totalExpenses,
                NormalizeIncomes(xs), NormalizeExpenses(ys), show)
  }

  /** The AI prompt is built in the selected language from the income sum,
      the expense sum, their difference and the normalised entries. */
  lemma AnalysisPromptArguments(xs: seq<IncomeEntry>, ys: seq<ExpenseEntry>, langSelect: Option<string>,
                                show: real -> string)
    ensures var income := Sum(Amounts(xs, IncomeAmount));
            var expenses := Sum(Amounts(ys, ExpenseAmount));
            AnalysisPrompt(xs, ys, langSelect, show)
            == BuildPrompt(SelectedLang(langSelect), income, expenses, income - expenses,
                           NormalizeIncomes(xs), NormalizeExpenses(ys), show)
  {
    TotalIsSum(xs, IncomeAmount);
    TotalIsSum(ys, ExpenseAmount);
  }

  /** Only selecting `"uz"` gives the code `"uz"`; without a selector the code is `"en"`. */
  lemma SelectedUzbek(langSelect: Option<string>)
    ensures SelectedLang(langSelect) == "uz" <==> langSelect == Some("uz")
    ensures langSelect == None ==> SelectedLang(langSelect) == "en"
  {
  }

  /** The prompt is in Uzbek exactly when Uzbek is selected. */
  lemma AnalysisPromptLanguage(xs: seq<IncomeEntry>, ys: seq<ExpenseEntry>, langSelect: Option<string>,
                               show: real -> string)
    ensures Uzbek.intro <= AnalysisPrompt(xs, ys, langSelect, show) <==> langSelect == Some("uz")
  {
    SelectedUzbek(langSelect);
    PromptLanguage(SelectedLang(langSelect), TotalIncome(xs), TotalExpenses(ys),
                   TotalIncome(xs) - TotalExpenses(ys), NormalizeIncomes(xs), NormalizeExpenses(ys), show);
  }

  /** The prompt's balance line holds the income sum minus the expense sum. */
  lemma AnalysisPromptBalance(xs: seq<IncomeEntry>, ys: seq<ExpenseEntry>, langSelect: Option<string>,
                              show: real -> string)
    ensures var t := if langSelect == Some("uz") then Uzbek else English;
            var income := Sum(Amounts(xs, IncomeAmount));
            var expenses := Sum(Amounts(ys, ExpenseAmount));
            Contains(AnalysisPrompt(xs, ys, langSelect, show),
                     "\n" + t.balanceLabel + show(income - expenses) + "\n")
  {
    var income := Sum(Amounts(xs, IncomeAmount));
    var expenses := Sum(Amounts(ys, ExpenseAmount));
    SelectedUzbek(langSelect);
    AnalysisPromptArguments(xs, ys, langSelect, show);
    PromptReportsTotals(SelectedLang(langSelect), income, expenses, income - expenses,
                        NormalizeIncomes(xs), NormalizeExpenses(ys), show);
  }

  class Ledger {
    var incomeData: seq<IncomeEntry>
    var expenseData: seq<ExpenseEntry>
    var storage: Storage

    /** Local storage holds exactly the lists in memory */
    predicate Saved()
      reads this
    {
      storage == Storage(Some(incomeData), Some(expenseData))
    }

    /** The figures of the summary panel for the current lists */
    function CurrentTotals(): Totals
      reads this
    {
      Summarize(incomeData, expenseData)
    }

    /** The script's start: both lists are read back from storage, an absent
        key giving an empty list; lists that were saved come back as they were. */
    constructor Load(stored: Storage)
      ensures incomeData == LoadList(stored.incomeData)
      ensures expenseData == LoadList(stored.expenseData)
      ensures storage == stored
      ensures stored.incomeData.None? ==> incomeData == []
      ensures stored.expenseData.None? ==> expenseData == []
      ensures stored.incomeData.Some? && stored.expenseData.Some? ==>
              Saved() && Storage(Some(incomeData), Some(expenseData)) == stored
    {
      incomeData := LoadList(stored.incomeData);
      expenseData := LoadList(stored.expenseData);
      storage := stored;
    }

    /** `saveData()`: both lists are written to storage; nothing else changes */
    method SaveData()
      modifies this`storage
      ensures Saved()
    {
      storage := Storage(Some(incomeData), Some(expenseData));
    }

    /** The income form's submit handler. A rejected submission changes
        nothing; an accepted one appends `{ source, amount }` with the trimmed
        source, saves, and raises the income total by the amount. */
    method SubmitIncome(sourceInput: string, amount: AmountInput) returns (added: bool)
      modifies this
      ensures added <==> !Rejects(Trim(sourceInput), amount)
      ensures expenseData == old(expenseData)
      ensures !added ==> incomeData == old(incomeData) && storage == old(storage)
      ensures added ==>
              && incomeData == old(incomeData) + [IncomeEntry(Some(Trim(sourceInput)), Numeric(amount.value))]
              && CompleteIncome(incomeData[|incomeData| - 1])
              && Saved()
              && CurrentTotals().totalIncome == old(CurrentTotals().totalIncome) + amount.value
              && CurrentTotals().balance == old(CurrentTotals().balance) + amount.value
    {
      var source := Trim(sourceInput);
      if Rejects(source, amount) {
        return false;
      }
      var entry := IncomeEntry(Some(source), Numeric(amount.value));
      SummarizeAddIncome(incomeData, expenseData, entry);
      incomeData := incomeData + [entry];
      SaveData();
      added := true;
    }

    /** The expense form's submit handler. The category is taken as selected
        (it is not trimmed) and the date is the day of `nowIso`, the current
        time as an ISO timestamp. */
    method SubmitExpense(descInput: string, category: string, amount: AmountInput, nowIso: string)
      returns (added: bool)
      modifies this
      ensures added <==> !Rejects(Trim(descInput), amount)
      ensures incomeData == old(incomeData)
      ensures !added ==> expenseData == old(expenseData) && storage == old(storage)
      ensures added ==>
              && expenseData == old(expenseData)
                                + [ExpenseEntry(Some(IsoDay(nowIso)), Some(Trim(descInput)),
                                                Some(category), Numeric(amount.value))]
              && Saved()
              && CurrentTotals().totalExpenses == old(CurrentTotals().totalExpenses) + amount.value
              && CurrentTotals().balance == old(CurrentTotals().balance) - amount.value
    {
      var desc := Trim(descInput);
      if Rejects(desc, amount) {
        return false;
      }
      var today := IsoDay(nowIso);
      var entry := ExpenseEntry(Some(today), Some(desc), Some(category), Numeric(amount.value));
      SummarizeAddExpense(incomeData, expenseData, entry);
      expenseData := expenseData + [entry];
      SaveData();
      added := true;
    }

    /** The delete button of income row `index`: `incomeData.splice(index, 1)`,
        then save. The other list is untouched. */
    method DeleteIncome(index: int)
      modifies this
      ensures incomeData == RemoveAt(old(incomeData), index)
      ensures expenseData == old(expenseData)
      ensures Saved()
      ensures 0 <= index < |old(incomeData)| ==>
              && |incomeData| == |old(incomeData)| - 1
              && CurrentTotals().balance == old(CurrentTotals().balance) - IncomeAmount(old(incomeData)[index])
      ensures index >= |old(incomeData)| ==> incomeData == old(incomeData)
    {
      if 0 <= index < |incomeData| {
        RemoveAtInRange(incomeData, index);
        SummarizeRemoveIncome(incomeData, expenseData, index);
      }
      incomeData := RemoveAt(incomeData, index);
      SaveData();
    }

    /** The delete button of expense row `index`: `expenseData.splice(index, 1)`,
        then save. The other list is untouched. */
    method DeleteExpense(index: int)
      modifies this
      ensures expenseData == RemoveAt(old(expenseData), index)
      ensures incomeData == old(incomeData)
      ensures Saved()
      ensures 0 <= index < |old(expenseData)| ==>
              && |expenseData| == |old(expenseData)| - 1
              && CurrentTotals().balance == old(CurrentTotals().balance) + ExpenseAmount(old(expenseData)[index])
      ensures index >= |old(expenseData)| ==> expenseData == old(expenseData)
    {
      if 0 <= index < |expenseData| {
        RemoveAtInRange(expenseData, index);
        SummarizeRemoveExpense(incomeData, expenseData, index);
      }
      expenseData := RemoveAt(expenseData, index);
      SaveData();
    }

    /** `renderSummary()`'s figures: each total is the sum of the coerced
        amounts and the balance is their difference. */
    method RenderSummary() returns (totals: Totals)
      ensures totals.totalIncome == Sum(Amounts(incomeData, IncomeAmount))
      ensures totals.totalExpenses == Sum(Amounts(expenseData, ExpenseAmount))
      ensures totals.balance == totals.totalIncome - totals.totalExpenses
    {
      totals := Summarize(incomeData, expenseData);
      BalanceIsDifference(incomeData, expenseData);
    }

    /** The AI button's handler up to the prompt (its encoding into a URL
        and the opening of a new tab are left out). The prompt is in Uzbek
        exactly when Uzbek is selected and reports the balance as the income
        sum minus the expense sum. */
    method AnalyzePrompt(langSelect: Option<string>, show: real -> string) returns (prompt: string)
      ensures var income := Sum(Amounts(incomeData, IncomeAmount));
              var expenses := Sum(Amounts(expenseData, ExpenseAmount));
              prompt == BuildPrompt(SelectedLang(langSelect), income, expenses, income - expenses,
                                    NormalizeIncomes(incomeData), NormalizeExpenses(expenseData), show)
      ensures Uzbek.intro <= prompt <==> langSelect == Some("uz")
      ensures var t := if langSelect == Some("uz") then Uzbek else English;
              var income := Sum(Amounts(incomeData, IncomeAmount));
              var expenses := Sum(Amounts(expenseData, ExpenseAmount));
              Contains(prompt, "\n" + t.balanceLabel + show(income - expenses) + "\n")
    {
      prompt := AnalysisPrompt(incomeData, expenseData, langSelect, show);
      AnalysisPromptArguments(incomeData, expenseData, langSelect, show);
      AnalysisPromptLanguage(incomeData, expenseData, langSelect, show);
      AnalysisPromptBalance(incomeData, expenseData, langSelect, show);
    }
  }
}
