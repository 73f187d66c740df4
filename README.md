# Budget ledger

A Dafny model of the budget ledger in `script.js`, a single-page budgeting
app. The page keeps two ordered lists, `incomeData` (`{ source, amount }`)
and `expenseData` (`{ date, desc, category, amount }`). Its event handlers
work on those lists:

- the two form handlers validate a submission and push one entry;
- the per-row delete buttons remove one entry with `splice(index, 1)`;
- after every change, `saveData()` writes both lists to local storage;
- the summary panel shows the two totals and the balance;
- the AI button normalises the entries and builds a prompt in Uzbek or
  English with `buildPrompt`.

The modules follow the program's structure:

- `Entries` (entries.dfy) holds the stored and the normalised records, the
  `Number(x) || 0` and `text || default` coercions, and the normalisation.
- `Text` (text.dfy) covers `trim` (ECMAScript whitespace and line
  terminators) and `join`. `Split` is an independent reference definition,
  used to say what a joined text holds. `Contains` is `includes`.
- `Lists` (lists.dfy) covers `splice(start, 1)`, including its start-index
  clamping.
- `Summary` (summary.dfy) covers the `reduce` totals, a plain recursive `Sum`
  as their reference, and how adds and deletes move the totals.
- `Prompt` (prompt.dfy) covers `buildPrompt`. Each template is a `Template`
  value holding the exact texts of `script.js`. A filled-in prompt is the
  concatenation of the template's pieces, the totals and the entry lines.
- `BudgetLedger` (ledger.dfy) holds the `Ledger` class. Its fields are the
  two lists and the `storage` snapshot. Its methods are the event handlers,
  and there are lemmas on the AI button's prompt. The methods that change
  the lists state their new state against the state before the call; the
  facts about the lists that hold for all inputs are the `Summary` and
  `Lists` lemmas those methods call.

Number-to-text conversion (`${n}`) is the parameter `show: real -> string`.
The clock is the parameter `nowIso`, the ISO timestamp of the submission.
The language selector is an `Option<string>`, `None` when the element is
absent.

## Model

| member | source | states |
|---|---|---|
| Entries.NormalizeIncomes | script.js:234-237 | one normalised object per income entry, same length, each at the same position |
| Entries.NormalizeExpenses | script.js:239-244 | one normalised object per expense entry, same length, each at the same position |
| Entries.AmountOrZero | script.js:236 | `Number(x)` or 0: a number stays, a non-number becomes 0 (stated by the two `Defaults` lemmas below) |
| Entries.TextOr | script.js:235 | the text or the default: a non-empty text stays, a missing or empty one becomes the default (stated by the two `Defaults` lemmas below) |
| Entries.IncomeAmount | script.js:37 | the income callback's `Number(i.amount)` or 0; stated by `Summary.TotalIsSum` and `Summary.NonNumericCountsZero` |
| Entries.ExpenseAmount | script.js:38 | the expense callback's `Number(e.amount)` or 0; stated by `Summary.TotalIsSum` and `Summary.BalanceIsDifference` |
| Entries.NormalizeIncome | script.js:234-237 | the `map` callback for one income entry; its properties are `Entries.NormalizeIncomeDefaults` |
| Entries.NormalizeExpense | script.js:239-244 | the `map` callback for one expense entry; its properties are `Entries.NormalizeExpenseDefaults` |
| Entries.NormalizeIncomeDefaults | script.js:234-237 | field by field: a non-empty source is kept, a missing or empty one gives `"unknown"`; a numeric amount is kept, a non-numeric one gives 0; the source is never empty; a complete entry is kept exactly (both directions); normalising twice changes nothing |
| Entries.NormalizeExpenseDefaults | script.js:239-244 | field by field: a non-empty date, description or category is kept, a missing or empty one becomes `"no-date"`, `"no-desc"` or `"Other"`; a numeric amount is kept, a non-numeric one gives 0; no text field is empty; a complete entry is kept exactly (both directions); idempotent |
| Text.Trim | script.js:115 | `trim()`; its properties are `Text.TrimEmptyIff`, `Text.TrimKeepsCore` and `Text.TrimIdempotent` |
| Text.TrimStart | script.js:115 | the result is a suffix of the input; what is dropped is all whitespace; the result does not start with whitespace |
| Text.TrimEnd | script.js:115 | the result is a prefix of the input; what is dropped is all whitespace; the result does not end with whitespace |
| Text.TrimEmptyIff | script.js:115-118 | the trimmed text is empty exactly when the input is all whitespace |
| Text.TrimStartSkips | script.js:115 | leading whitespace before a non-whitespace start is removed and nothing else |
| Text.TrimEndSkips | script.js:138 | trailing whitespace after a non-whitespace end is removed and nothing else |
| Text.TrimKeepsCore | script.js:138 | trimming whitespace + core + whitespace gives back exactly the core |
| Text.TrimIdempotent | script.js:138 | trimming a trimmed text changes nothing |
| Text.Join | script.js:166 | `join("\n")`; what the joined text holds is stated by `Text.SplitJoin` and `Text.JoinContains` |
| Text.JoinContains | script.js:166 | every part occurs in the joined text |
| Text.SplitJoin | script.js:166 | splitting a newline-joined text at the newline gives back the parts, provided no part holds a newline |
| Lists.SpliceStart | script.js:65 | the position `splice` actually uses is never past the end of the list |
| Lists.RemoveAt | script.js:65 | `splice(start, 1)` as a value: drops the element at the clamped start, if any; its properties are the three `Lists.RemoveAt…` lemmas |
| Lists.RemoveAtInRange | script.js:65 | deleting an in-range index shortens the list by one, keeps the elements before it, shifts the ones after it down by one, and loses exactly that element from the contents |
| Lists.RemoveAtPastEnd | script.js:96 | an index at or past the end deletes nothing |
| Lists.RemoveAtNegative | script.js:96 | a negative index counts from the end (`-1` is the last element), clamped at the first element |
| Summary.Amounts | script.js:37-38 | one coerced amount per entry, in order |
| Summary.Reduce | script.js:37 | `reduce((s, x) => s + x, acc)` over the coerced amounts, a left fold; stated equal to `Sum` by `Summary.ReduceIsSum` |
| Summary.Total | script.js:37-38 | `reduce` of the coerced amounts from 0; stated equal to the sum by `Summary.TotalIsSum` |
| Summary.TotalIncome | script.js:37 | `totalIncome`; stated equal to the sum of the coerced income amounts by `Summary.BalanceIsDifference` |
| Summary.TotalExpenses | script.js:38 | `totalExpenses`; stated equal to the sum of the coerced expense amounts by `Summary.BalanceIsDifference` |
| Summary.Summarize | script.js:36-39 | the summary panel's three figures; stated by `Summary.BalanceIsDifference` and the four `Summary.Summarize…` lemmas |
| Summary.ReduceIsSum | script.js:37 | the left fold from a start value equals that start value plus the sum |
| Summary.TotalIsSum | script.js:37-38 | each total equals the sum of the coerced amounts |
| Summary.TotalAppend | script.js:120 | pushing an entry adds its coerced amount to the total |
| Summary.TotalRemoveAt | script.js:65 | an in-range delete takes the element's amount off the total; a delete past the end leaves the total unchanged |
| Summary.SummarizeAddIncome | script.js:120 | a pushed income raises the income total and the balance by its amount; the expense total stays |
| Summary.SummarizeAddExpense | script.js:146 | a pushed expense raises the expense total by its amount and lowers the balance by it; the income total stays |
| Summary.SummarizeRemoveIncome | script.js:65 | deleting income `i` lowers the income total and the balance by its amount |
| Summary.SummarizeRemoveExpense | script.js:96 | deleting expense `i` lowers the expense total by its amount and raises the balance by it |
| Summary.BalanceIsDifference | script.js:36-39 | the totals are the sums of the coerced amounts, and the balance is income sum minus expense sum |
| Summary.NonNumericCountsZero | script.js:37 | an entry whose amount is not a number leaves the total unchanged |
| Summary.NormalizedTotalsAgree | script.js:230-244 | the amounts of the normalised objects add up to the same totals as the raw lists |
| Prompt.IncomeLine | script.js:165 | one income line, `- source : amount`; the line that `Prompt.PromptMentionsIncome` and `Prompt.IncomeLinesOnePerEntry` are stated in |
| Prompt.ExpenseLine | script.js:171 | one expense line, `- [category] desc (date) : amount`; the line that `Prompt.PromptMentionsExpense` and `Prompt.ExpenseLinesOnePerEntry` are stated in |
| Prompt.IncomeLineList | script.js:164-165 | the `map` of the incomes to their lines, one per entry in order; stated by `Prompt.IncomeLinesOnePerEntry` |
| Prompt.ExpenseLineList | script.js:170-171 | the `map` of the expenses to their lines, one per entry in order; stated by `Prompt.ExpenseLinesOnePerEntry` |
| Prompt.IncomeLines | script.js:163-167 | the income section, `"none"` or the lines joined by newlines; stated by `Prompt.IncomeLinesOnePerEntry` |
| Prompt.ExpenseLines | script.js:169-173 | the expense section, `"none"` or the lines joined by newlines; stated by `Prompt.ExpenseLinesOnePerEntry` |
| Prompt.EffectiveLang | script.js:161 | `lang` or `"en"` when it is empty; stated by `Prompt.TemplateChoice` |
| Prompt.TemplateFor | script.js:161-175 | the template chosen for a language code; stated by `Prompt.TemplateChoice` |
| Prompt.Pieces | script.js:176-197 | the order in which the template literal interleaves its fixed text with the totals and the two sections. The fixed text of the Uzbek literal (script.js:176-197) is the constant `Prompt.Uzbek`; the English one (script.js:200-222) is `Prompt.English`. Stated by `Prompt.FillReportsTotals` and `Prompt.FillListsEntries` |
| Prompt.Fill | script.js:200-222 | a template literal with its placeholders filled in; stated by `Prompt.FillReportsTotals` and `Prompt.FillListsEntries` |
| Prompt.BuildPrompt | script.js:160-223 | `buildPrompt`; its properties are `Prompt.PromptLanguage`, `Prompt.PromptReportsTotals`, `Prompt.PromptListsEntries`, `Prompt.PromptMentionsIncome` and `Prompt.PromptMentionsExpense` |
| Prompt.TemplateChoice | script.js:161-175 | the Uzbek template is chosen exactly for the code `"uz"`; an empty code and every other code give English |
| Prompt.FillReportsTotals | script.js:180-182 | a filled-in template holds each total on its own line, after its label |
| Prompt.FillListsEntries | script.js:184-188 | a filled-in template holds each list section after its header line, followed by an empty line |
| Prompt.PromptLanguage | script.js:160-202 | the prompt starts with the Uzbek introduction exactly when the code is `"uz"`, and with the English one exactly when it is not |
| Prompt.PromptReportsTotals | script.js:200-206 | the prompt reports income, expenses and balance, each on its own line, after the chosen language's label |
| Prompt.PromptListsEntries | script.js:208-212 | each list section appears in full after its header and is followed by an empty line |
| Prompt.IncomeLinesOnePerEntry | script.js:163-167 | an empty income list is written as `none`; otherwise the section holds exactly one line per entry, in list order |
| Prompt.ExpenseLinesOnePerEntry | script.js:169-173 | an empty expense list is written as `none`; otherwise the section holds exactly one line per entry, in list order |
| Prompt.PromptMentionsIncome | script.js:163-167 | every income entry's `- source : amount` line occurs in the prompt |
| Prompt.PromptMentionsExpense | script.js:169-173 | every expense entry's `- [category] desc (date) : amount` line occurs in the prompt |
| BudgetLedger.LoadList | script.js:4-5 | the parsed stored list, or `[]` when there is none; stated by `BudgetLedger.Ledger.Load` |
| BudgetLedger.Rejects | script.js:118 | the guard of the form handlers: an empty text, an amount at or below zero, or a non-finite amount; stated by `BudgetLedger.AcceptedSubmissions` |
| BudgetLedger.AcceptedSubmissions | script.js:115-118 | a submission is accepted exactly when its text is not all whitespace and its amount is finite and above zero |
| BudgetLedger.IsoDay | script.js:144 | the date stored is the first ten characters of the ISO timestamp (a prefix of it) |
| BudgetLedger.SelectedLang | script.js:246 | the selected language code, `"en"` without a selector; stated by `BudgetLedger.SelectedUzbek` |
| BudgetLedger.SelectedUzbek | script.js:246 | the code is `"uz"` exactly when `"uz"` is selected; without a selector it is `"en"` |
| BudgetLedger.AnalysisPrompt | script.js:229-255 | the prompt the AI button builds; stated by the three `BudgetLedger.AnalysisPrompt…` lemmas |
| BudgetLedger.AnalysisPromptArguments | script.js:229-255 | the AI prompt is `buildPrompt` of the selected code, the income sum, the expense sum, their difference and the normalised entries |
| BudgetLedger.AnalysisPromptLanguage | script.js:246-255 | the AI prompt starts with the Uzbek introduction exactly when `"uz"` is selected |
| BudgetLedger.AnalysisPromptBalance | script.js:230-255 | the AI prompt's balance line shows income sum minus expense sum |
| BudgetLedger.Ledger.Load | script.js:4-5 | each list is what storage holds under its key, or empty when the key is absent; saved lists come back unchanged |
| BudgetLedger.Ledger.SaveData | script.js:7-10 | afterwards storage holds exactly the two in-memory lists; the lists are unchanged |
| BudgetLedger.Ledger.SubmitIncome | script.js:112-128 | accepted iff the guard passes. A rejected submission changes nothing. An accepted one appends exactly `{ trimmed source, amount }`, leaves the expenses alone, saves, and raises the income total and the balance by the amount |
| BudgetLedger.Ledger.SubmitExpense | script.js:135-154 | accepted iff the guard passes. A rejected submission changes nothing. An accepted one appends exactly `{ day, trimmed desc, category, amount }`, leaves the incomes alone, saves, and raises the expense total and lowers the balance by the amount |
| BudgetLedger.Ledger.DeleteIncome | script.js:64-69 | the income list becomes `splice(index, 1)` of it and the expense list is untouched. Storage is saved. An in-range delete shortens the list by one and lowers the balance by that entry's amount; an index past the end leaves the list as it was |
| BudgetLedger.Ledger.DeleteExpense | script.js:95-100 | the expense list becomes `splice(index, 1)` of it and the income list is untouched. Storage is saved. An in-range delete shortens the list by one and raises the balance by that entry's amount; an index past the end leaves the list as it was |
| BudgetLedger.Ledger.RenderSummary | script.js:36-39 | the panel's figures are the two sums of coerced amounts and their difference |
| BudgetLedger.Ledger.AnalyzePrompt | script.js:229-255 | the prompt is `buildPrompt` of the selected code, the income sum, the expense sum, their difference and the normalised entries; it starts with the Uzbek introduction exactly when `"uz"` is selected; its balance line shows income sum minus expense sum |

## Left out

- DOM rendering, element lookup and the clearing of form fields: these are view plumbing. The delete handlers are modelled as the state change their closures perform.
- `localStorage` and JSON: storage is the `storage` field, holding the already-parsed lists. `JSON.parse` of malformed stored text throws in this code and stops the script; the model has no such state and does not claim it fails soft.
- Stored values that are truthy but are not arrays, text fields that hold non-string JSON values, and `null` elements of a stored list are all outside the `Storage` type. A `null` element makes `i.amount` or `item.amount` throw (script.js:37, 55, 84, 230): the start-up render (script.js:265-267) stops, and the AI button builds no prompt. The model has no such state, so its `AnalyzePrompt` always gives a prompt. Other non-object elements, such as numbers or strings, behave exactly like an entry with every field missing, which the model covers.
- `toLocaleString` (script.js:41-43, 60, 91) is left out with the DOM rendering: `RenderSummary` returns the three figures as numbers, not as text.
- The template's number-to-text conversion (`${n}`) is the `show` parameter.
- `new Date().toISOString()`: this is the `nowIso` parameter.
- IEEE-754 arithmetic (rounding, NaN and infinities in sums): amounts are exact reals. `Number(x)` of a stored amount is either a finite number or not a number at all.
- `encodeURIComponent` and `window.open` to the external chat site: these are a side effect with no result in the page.
- `sw.js`: service-worker caching over browser APIs, with no ledger logic.
- Prompt.BuildPrompt: it is stated over the normalised objects, whose amounts are already numbers. This is its only caller's input, so its own `Number(x) || 0` on those amounts is the identity.
- Prompt.IncomeLinesOnePerEntry and Prompt.ExpenseLinesOnePerEntry: they assume no field of any entry contains a line break. A source or description with a newline would span several lines of the prompt.
