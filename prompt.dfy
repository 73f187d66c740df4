/**
 * `buildPrompt`: the text handed to the external AI chat, built from two
 * fixed templates (Uzbek and English), the three totals and one line per
 * entry. Turning a JS number into text is locale-independent but not
 * modelled here, so it is the parameter `show`.
 */
module Prompt {
  import opened Entries
  import opened Text

  /** `- ${source} : ${amount}` */
  function IncomeLine(o: IncomeObject, show: real -> string): string
  {
    "- " + o.source + " : " + show(o.amount)
  }

  /** `- [${category}] ${desc} (${date}) : ${amount}` */
  function ExpenseLine(o: ExpenseObject, show: real -> string): string
  {
    "- [" + o.category + "] " + o.desc + " (" + o.date + ") : " + show(o.amount)
  }

  function IncomeLineList(xs: seq<IncomeObject>, show: real -> string): seq<string>
  {
    seq(|xs|, k requires 0 <= k < |xs| => IncomeLine(xs[k], show))
  }

  function ExpenseLineList(ys: seq<ExpenseObject>, show: real -> string): seq<string>
  {
    seq(|ys|, k requires 0 <= k < |ys| => ExpenseLine(ys[k], show))
  }

  /** The income section: `"none"` for no entries, otherwise the lines joined by newlines */
  function IncomeLines(xs: seq<IncomeObject>, show: real -> string): string
  {
    if |xs| == 0 then "none" else Join(IncomeLineList(xs, show), "\n")
  }

  /** The expense section: `"none"` for no entries, otherwise the lines joined by newlines */
  function ExpenseLines(ys: seq<ExpenseObject>, show: real -> string): string
  {
    if |ys| == 0 then "none" else Join(ExpenseLineList(ys, show), "\n")
  }

  /** `lang || "en"` */
  function EffectiveLang(lang: string): string
  {
    if lang == "" then "en" else lang
  }

  /** The fixed text of one language's template: the introduction (ending
      in a line break), the labels of the three totals, the headers of the two
      lists and the closing questions (ending in a line break). */
  datatype Template = Template(intro: string, incomeLabel: string, expensesLabel: string,
                               balanceLabel: string, incomeHeader: string,
                               expenseHeader: string, questions: string)

  const Uzbek: Template := Template(
    "\nSiz juda talabchan, " + "qattiq moliyaviy tahlilchisiz.\n"
    + "Javobingizni faqat UZBEK tilida yozing.\n",
    "JAMI DAROMAD: ",
    "JAMI XARAJATLAR: ",
    "QOLDIQ: ",
    "DAROMAD OBYEKTLARI (manba | summa):",
    "XARAJAT OBYEKTLARI (kategoriya | tavsif | sana | summa):",
    "A) Qisqa xulosa  \n"
    + "B) Spending patterns (pul qayerga to'planayapti)  \n"
    + "C) Zaif joylar  \n"
    + "D) Kategoriya bo\U{2018}yicha tahlil (kategoriya va tavsifga tayangan holda)  \n"
    + "E) O\U{2018}lchanadigan takliflar (aniq raqamlar bilan)  \n"
    + "F) Kelajak prognozi  \n"
    + "G) Achchiq haqiqat paragrafi\n")

  const English: Template := Template(
    "\nYou are a strict " + "personal finance analyst.\n"
    + "Answer ONLY in ENGLISH.\n",
    "TOTAL INCOME: ",
    "TOTAL EXPENSES: ",
    "BALANCE: ",
    "INCOME OBJECTS (source | amount):",
    "EXPENSE OBJECTS (category | description | date | amount):",
    "Provide:\n"
    + "A) Summary  \n"
    + "B) Spending patterns (where money is concentrated)  \n"
    + "C) Weak points  \n"
    + "D) Category-by-category analysis (USE description & category fields)  \n"
    + "E) Specific measurable improvements  \n"
    + "F) Future projection  \n"
    + "G) Brutally honest hard truth paragraph\n")

  /** The template `buildPrompt` picks for a language code: Uzbek only for
      exactly `"uz"` */
  function TemplateFor(lang: string): Template
  {
    if EffectiveLang(lang) == "uz" then Uzbek else English
  }

  /** The texts written one after another */
  function Concat(pieces: seq<string>): string
  {
    if |pieces| == 0 then "" else pieces[0] + Concat(pieces[1..])
  }

  /** The pieces of a filled-in template, in the order the template literal
      writes them */
  function Pieces(t: Template, totalIncome: string, totalExpenses: string, balance: string,
                  incomeLines: string, expenseLines: string): seq<string>
  {
    [t.intro,
     "\n", t.incomeLabel, totalIncome,
     "\n", t.expensesLabel, totalExpenses,
     "\n", t.balanceLabel, balance, "\n",
     "\n", t.incomeHeader, "\n", incomeLines,
     "\n\n", t.expenseHeader, "\n", expenseLines,
     "\n\n", t.questions]
  }

  /** A template filled in with the three totals and the two lists, as text */
  function Fill(t: Template, totalIncome: string, totalExpenses: string, balance: string,
                incomeLines: string, expenseLines: string): string
  {
    Concat(Pieces(t, totalIncome, totalExpenses, balance, incomeLines, expenseLines))
  }

  /** `buildPrompt(lang, totalIncome, totalExpenses, balance, incomes, expenses)` */
  function BuildPrompt(lang: string, totalIncome: real, totalExpenses: real, balance: real,
                       incomes: seq<IncomeObject>, expenses: seq<ExpenseObject>,
                       show: real -> string): string
  {
    Fill(TemplateFor(lang), show(totalIncome), show(totalExpenses), show(balance),
         IncomeLines(incomes, show), ExpenseLines(expenses, show))
  }

  lemma IntrosDiffer()
    ensures |Uzbek.intro| > 1 && |English.intro| > 1
    ensures Uzbek.intro[1] == 'S' && English.intro[1] == 'Y'
  {
  }

  lemma {:induction false} ConcatSplit(pieces: seq<string>, i: nat)
    requires i <= |pieces|
    ensures Concat(pieces) == Concat(pieces[..i]) + Concat(pieces[i..])
  {
    if i > 0 {
      ConcatSplit(pieces[1..], i - 1);
      assert pieces[1..][..i - 1] == pieces[1..i];
      assert pieces[1..][i - 1..] == pieces[i..];
      assert pieces[..i][1..] == pieces[1..i];
    } else {
      assert pieces[i..] == pieces;
    }
  }

  /** A run of consecutive pieces occurs in the concatenation of all of them. */
  lemma {:induction false} ConcatContainsRun(pieces: seq<string>, i: nat, j: nat)
    requires i <= j <= |pieces|
    ensures Contains(Concat(pieces), Concat(pieces[i..j]))
  {
    if i == 0 {
      ConcatSplit(pieces, j);
      assert pieces[..j] == pieces[i..j];
      ContainsMiddle("", Concat(pieces[..j]), Concat(pieces[j..]));
      assert "" + Concat(pieces[..j]) + Concat(pieces[j..]) == Concat(pieces);
    } else {
      ConcatContainsRun(pieces[1..], i - 1, j - 1);
      assert pieces[1..][i - 1..j - 1] == pieces[i..j];
      ContainsAfter(pieces[0], Concat(pieces[1..]), Concat(pieces[i..j]));
    }
  }

  /** The concatenation starts with the first piece. */
  lemma ConcatStartsWithFirst(pieces: seq<string>)
    requires pieces != []
    ensures pieces[0] <= Concat(pieces)
  {
  }

  /** Four consecutive pieces, concatenated */
  lemma ConcatRunOfFour(pieces: seq<string>, i: nat)
    requires i + 4 <= |pieces|
    ensures Concat(pieces[i..i + 4]) == pieces[i] + pieces[i + 1] + pieces[i + 2] + pieces[i + 3]
  {
    var run := pieces[i..i + 4];
    assert Concat(run[3..]) == pieces[i + 3] by { assert run[3..][1..] == []; }
    assert Concat(run[2..]) == pieces[i + 2] + pieces[i + 3] by { assert run[2..][1..] == run[3..]; }
    assert Concat(run[1..]) == pieces[i + 1] + pieces[i + 2] + pieces[i + 3] by {
      assert run[1..][1..] == run[2..];
    }
  }

  /** Four consecutive pieces occur, written together, in the concatenation. */
  lemma ConcatContainsFour(pieces: seq<string>, i: nat)
    requires i + 4 <= |pieces|
    ensures Contains(Concat(pieces), pieces[i] + pieces[i + 1] + pieces[i + 2] + pieces[i + 3])
  {
    ConcatContainsRun(pieces, i, i + 4);
    ConcatRunOfFour(pieces, i);
  }

  /** A filled-in template holds each total on a line of its own after its
      label. */
  lemma FillReportsTotals(t: Template, ti: string, te: string, bal: string, il: string, el: string)
    ensures var p := Fill(t, ti, te, bal, il, el);
            && Contains(p, "\n" + t.incomeLabel + ti + "\n")
            && Contains(p, "\n" + t.expensesLabel + te + "\n")
            && Contains(p, "\n" + t.balanceLabel + bal + "\n")
  {
    var ps := Pieces(t, ti, te, bal, il, el);
    ConcatContainsFour(ps, 1);
    ConcatContainsFour(ps, 4);
    ConcatContainsFour(ps, 7);
  }

  /** A filled-in template holds each list on the lines after its header,
      followed by an empty line. */
  lemma FillListsEntries(t: Template, ti: string, te: string, bal: string, il: string, el: string)
    ensures var p := Fill(t, ti, te, bal, il, el);
            && Contains(p, t.incomeHeader + "\n" + il + "\n\n")
            && Contains(p, t.expenseHeader + "\n" + el + "\n\n")
  {
    var ps := Pieces(t, ti, te, bal, il, el);
    ConcatContainsFour(ps, 12);
    ConcatContainsFour(ps, 16);
  }

  /** `lang || "en"` followed by `=== "uz"`: only the exact code `"uz"`
      selects the Uzbek template. */
  lemma TemplateChoice(lang: string)
    ensures TemplateFor(lang) == if lang == "uz" then Uzbek else English
  {
  }

  /** The prompt opens with the Uzbek introduction exactly when the code is
      `"uz"`; an empty or any other code gives the English one. */
  lemma PromptLanguage(lang: string, ti: real, te: real, bal: real,
                       incomes: seq<IncomeObject>, expenses: seq<ExpenseObject>,
                       show: real -> string)
    ensures Uzbek.intro <= BuildPrompt(lang, ti, te, bal, incomes, expenses, show) <==> lang == "uz"
    ensures English.intro <= BuildPrompt(lang, ti, te, bal, incomes, expenses, show) <==> lang != "uz"
  {
    var t := TemplateFor(lang);
    var ps := Pieces(t, show(ti), show(te), show(bal),
                     IncomeLines(incomes, show), ExpenseLines(expenses, show));
    var p := Concat(ps);
    assert p == BuildPrompt(lang, ti, te, bal, incomes, expenses, show);
    ConcatStartsWithFirst(ps);
    assert t.intro <= p;
    TemplateChoice(lang);
    IntrosDiffer();
    if lang == "uz" {
      assert p[1] == 'S';
    } else {
      assert p[1] == 'Y';
    }
  }

  /** The prompt reports the three totals, each on a line of its own after
      the chosen language's label. */
  lemma PromptReportsTotals(lang: string, ti: real, te: real, bal: real,
                            incomes: seq<IncomeObject>, expenses: seq<ExpenseObject>,
                            show: real -> string)
    ensures var p := BuildPrompt(lang, ti, te, bal, incomes, expenses, show);
            var t := if lang == "uz" then Uzbek else English;
            && Contains(p, "\n" + t.incomeLabel + show(ti) + "\n")
            && Contains(p, "\n" + t.expensesLabel + show(te) + "\n")
            && Contains(p, "\n" + t.balanceLabel + show(bal) + "\n")
  {
    TemplateChoice(lang);
    FillReportsTotals(TemplateFor(lang), show(ti), show(te), show(bal),
                      IncomeLines(incomes, show), ExpenseLines(expenses, show));
  }

  /** Each list appears whole on the lines after its section header and is
      followed by an empty line. */
  lemma PromptListsEntries(lang: string, ti: real, te: real, bal: real,
                           incomes: seq<IncomeObject>, expenses: seq<ExpenseObject>,
                           show: real -> string)
    ensures var p := BuildPrompt(lang, ti, te, bal, incomes, expenses, show);
            var t := if lang == "uz" then Uzbek else English;
            && Contains(p, t.incomeHeader + "\n" + IncomeLines(incomes, show) + "\n\n")
            && Contains(p, t.expenseHeader + "\n" + ExpenseLines(expenses, show) + "\n\n")
  {
    TemplateChoice(lang);
    FillListsEntries(TemplateFor(lang), show(ti), show(te), show(bal),
                     IncomeLines(incomes, show), ExpenseLines(expenses, show));
  }

  /** An empty list is written as `none`; otherwise the section holds exactly
      one line per entry, in list order (provided no field contains a newline). */
  lemma IncomeLinesOnePerEntry(xs: seq<IncomeObject>, show: real -> string)
    requires forall k :: 0 <= k < |xs| ==> '\n' !in IncomeLine(xs[k], show)
    ensures Split(IncomeLines(xs, show), '\n')
         == if xs == [] then ["none"] else IncomeLineList(xs, show)
  {
    if xs == [] {
      SplitWithout("none", '\n');
    } else {
      SplitJoin(IncomeLineList(xs, show), '\n');
    }
  }

  lemma ExpenseLinesOnePerEntry(ys: seq<ExpenseObject>, show: real -> string)
    requires forall k :: 0 <= k < |ys| ==> '\n' !in ExpenseLine(ys[k], show)
    ensures Split(ExpenseLines(ys, show), '\n')
         == if ys == [] then ["none"] else ExpenseLineList(ys, show)
  {
    if ys == [] {
      SplitWithout("none", '\n');
    } else {
      SplitJoin(ExpenseLineList(ys, show), '\n');
    }
  }

  /** Every income entry has its line in the prompt. */
  lemma PromptMentionsIncome(lang: string, ti: real, te: real, bal: real,
                             incomes: seq<IncomeObject>, expenses: seq<ExpenseObject>,
                             show: real -> string, k: int)
    requires 0 <= k < |incomes|
    ensures Contains(BuildPrompt(lang, ti, te, bal, incomes, expenses, show), IncomeLine(incomes[k], show))
  {
    var t := TemplateFor(lang);
    var il := IncomeLines(incomes, show);
    var section := t.incomeHeader + "\n" + il + "\n\n";
    FillListsEntries(t, show(ti), show(te), show(bal), il, ExpenseLines(expenses, show));
    ContainsMiddle(t.incomeHeader + "\n", il, "\n\n");
    JoinContains(IncomeLineList(incomes, show), "\n", k);
    ContainsTransitive(section, il, IncomeLine(incomes[k], show));
    ContainsTransitive(BuildPrompt(lang, ti, te, bal, incomes, expenses, show), section,
                       IncomeLine(incomes[k], show));
  }

  /** Every expense entry has its line in the prompt. */
  lemma PromptMentionsExpense(lang: string, ti: real, te: real, bal: real,
                              incomes: seq<IncomeObject>, expenses: seq<ExpenseObject>,
                              show: real -> string, k: int)
    requires 0 <= k < |expenses|
    ensures Contains(BuildPrompt(lang, ti, te, bal, incomes, expenses, show), ExpenseLine(expenses[k], show))
  {
    var t := TemplateFor(lang);
    var el := ExpenseLines(expenses, show);
    var section := t.expenseHeader + "\n" + el + "\n\n";
    FillListsEntries(t, show(ti), show(te), show(bal), IncomeLines(incomes, show), el);
    ContainsMiddle(t.expenseHeader + "\n", el, "\n\n");
    JoinContains(ExpenseLineList(expenses, show), "\n", k);
    ContainsTransitive(section, el, ExpenseLine(expenses[k], show));
    ContainsTransitive(BuildPrompt(lang, ti, te, bal, incomes, expenses, show), section,
                       ExpenseLine(expenses[k], show));
  }
}
