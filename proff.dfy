/**
 * The financial getter of `app_modules/Sheets/Sammendrag/proff_getter.py` (Regnskapsregisteret):
 * the org-number guard, and the fold over the financial statements of the register's answer. The
 * statements are sorted by start date, latest first; the first three are visited; a statement
 * whose year is empty or before 2020 is skipped; its result lines set revenue, operating result
 * and result before tax, its balance lines total assets, each under `{prefix}_{year}`, a later
 * line overwriting an earlier one. The HTTP request is a parameter: the statements of the answer,
 * or `None` when the request fails, the status is not 200 or the answer holds no statements.
 */
module Proff {
  import opened Wrappers
  import opened Text
  import opened PyValue

  /**
   * One line of a statement: `linje` and `belop` when present. The label read is
   * `line.get("linje", "").lower()`, the amount `line.get("belop", 0)`.
   */
  datatype Line = Line(linje: Option<string>, belop: Option<Value>)

  /**
   * One statement: the `fraDato` of its `regnskapperiode` when present, its result lines and its
   * balance lines (an absent list reads as `{}`, which holds no lines).
   */
  datatype Statement = Statement(fraDato: Option<string>, resultLines: seq<Line>, balanceLines: seq<Line>)

  /** The message of the `ValueError` that `int()` raises for a year that is not a number. */
  const IntValueError: string := "invalid literal for int() with base 10"

  /** `org_number` passes the guard: non-empty and all digits (`str.isdigit` is false for `""`). */
  predicate ValidOrgNumber(orgNumber: string) {
    orgNumber != "" && AllDigits(orgNumber)
  }

  /** The lower-cased label that decides which key a line sets. */
  function Label(line: Line): string {
    LowerStr(match line.linje case Some(l) => l case None => "")
  }

  /** `str(value)` of the line's amount, `0` when absent. */
  function AmountText(line: Line): string {
    PyStr(match line.belop case Some(v) => v case None => Int(0))
  }

  /** The sort key: `fraDato`, or `""` when absent. */
  function DateOf(s: Statement): string {
    match s.fraDato case Some(d) => d case None => ""
  }

  /** Python's `<` on strings: lexicographic by code point, a proper prefix first. */
  predicate LexLess(a: string, b: string) {
    if b == [] then false
    else if a == [] then true
    else if a[0] != b[0] then a[0] < b[0]
    else LexLess(a[1..], b[1..])
  }

  lemma {:induction false} LexLessIrreflexive(a: string)
    ensures !LexLess(a, a)
  {
    if a != [] {
      LexLessIrreflexive(a[1..]);
    }
  }

  lemma {:induction false} LexLessTransitive(a: string, b: string, c: string)
    requires LexLess(a, b) && LexLess(b, c)
    ensures LexLess(a, c)
  {
    if a != [] && a[0] == b[0] && b[0] == c[0] {
      LexLessTransitive(a[1..], b[1..], c[1..]);
    }
  }

  lemma {:induction false} LexLessTotal(a: string, b: string)
    ensures a == b || LexLess(a, b) || LexLess(b, a)
  {
    if a != [] && b != [] && a[0] == b[0] {
      LexLessTotal(a[1..], b[1..]);
      if a[1..] == b[1..] {
        assert a == [a[0]] + a[1..] && b == [b[0]] + b[1..];
      }
    }
  }

  /** "Not later than" is transitive: the order `sorted(..., reverse=True)` arranges dates in. */
  lemma NotLessTransitive(a: string, b: string, c: string)
    requires !LexLess(a, b) && !LexLess(b, c)
    ensures !LexLess(a, c)
  {
    if LexLess(a, c) {
      LexLessTotal(a, b);
      if a != b {
        LexLessTransitive(b, a, c);
      }
    }
  }

  /** Insertion of `x` into a list sorted latest first: before the first element with an earlier date. */
  function Insert(x: Statement, xs: seq<Statement>): (r: seq<Statement>)
    ensures multiset(r) == multiset(xs) + multiset{x}
  {
    if xs == [] then [x]
    else if !LexLess(DateOf(x), DateOf(xs[0])) then [x] + xs
    else
      assert xs == [xs[0]] + xs[1..];
      [xs[0]] + Insert(x, xs[1..])
  }

  /**
   * `sorted(statements, key=fraDato, reverse=True)`: latest date first; of two statements with
   * the same date the earlier one in the input stays first.
   */
  function SortByDate(ss: seq<Statement>): (r: seq<Statement>)
    ensures multiset(r) == multiset(ss)
  {
    if ss == [] then []
    else
      assert ss == [ss[0]] + ss[1..];
      Insert(ss[0], SortByDate(ss[1..]))
  }

  /** Each statement's date is not earlier than the next one's. */
  predicate SortedByDate(ss: seq<Statement>) {
    forall i :: 0 <= i < |ss| - 1 ==> !LexLess(DateOf(ss[i]), DateOf(ss[i + 1]))
  }

  lemma {:induction false} InsertSorted(x: Statement, xs: seq<Statement>)
    requires SortedByDate(xs)
    ensures SortedByDate(Insert(x, xs))
    ensures xs != [] ==> Insert(x, xs)[0] == x || Insert(x, xs)[0] == xs[0]
  {
    if xs != [] && LexLess(DateOf(x), DateOf(xs[0])) {
      var tail := xs[1..];
      InsertSorted(x, tail);
      var r := Insert(x, xs);
      assert r == [xs[0]] + Insert(x, tail);
      LexLessIrreflexive(DateOf(x));
      if !LexLess(DateOf(xs[0]), DateOf(r[1])) {
      } else if r[1] == x {
        LexLessTransitive(DateOf(x), DateOf(xs[0]), DateOf(x));
      }
    }
  }

  /** The sort puts the statements in date order, latest first, and keeps every one of them. */
  lemma {:induction false} SortByDateSpec(ss: seq<Statement>)
    ensures SortedByDate(SortByDate(ss)) && multiset(SortByDate(ss)) == multiset(ss)
  {
    if ss != [] {
      SortByDateSpec(ss[1..]);
      InsertSorted(ss[0], SortByDate(ss[1..]));
    }
  }

  /** In a list sorted latest first, no statement has an earlier date than one further down. */
  lemma {:induction false} SortedChain(ss: seq<Statement>, i: nat, j: nat)
    requires SortedByDate(ss) && i <= j < |ss|
    ensures !LexLess(DateOf(ss[i]), DateOf(ss[j]))
    decreases j - i
  {
    if i == j {
      LexLessIrreflexive(DateOf(ss[i]));
    } else {
      SortedChain(ss, i + 1, j);
      NotLessTransitive(DateOf(ss[i]), DateOf(ss[i + 1]), DateOf(ss[j]));
    }
  }

  /** `statements[:3]` after the sort. */
  function Latest(ss: seq<Statement>): (r: seq<Statement>)
    ensures |r| <= 3
  {
    var sorted := SortByDate(ss);
    if |sorted| <= 3 then sorted else sorted[..3]
  }

  /**
   * The statements visited are the three (or fewer) with the latest dates: each of them is in the
   * input, and no statement left out has a later date than one visited.
   */
  lemma LatestSpec(ss: seq<Statement>)
    ensures |Latest(ss)| == if |ss| < 3 then |ss| else 3
    ensures forall i :: 0 <= i < |Latest(ss)| ==> Latest(ss)[i] in multiset(ss)
    ensures forall i, j :: 0 <= i < |Latest(ss)| <= j < |SortByDate(ss)| ==>
      !LexLess(DateOf(Latest(ss)[i]), DateOf(SortByDate(ss)[j]))
  {
    var sorted := SortByDate(ss);
    SortByDateSpec(ss);
    assert |sorted| == |multiset(sorted)| == |multiset(ss)| == |ss|;
    forall i | 0 <= i < |Latest(ss)| ensures Latest(ss)[i] in multiset(ss) {
      assert Latest(ss)[i] == sorted[i];
      assert sorted[i] in multiset(sorted);
    }
    forall i, j | 0 <= i < |Latest(ss)| <= j < |sorted|
      ensures !LexLess(DateOf(Latest(ss)[i]), DateOf(sorted[j]))
    {
      SortedChain(sorted, i, j);
    }
  }

  /** `fraDato[:4]`. */
  function YearOf(s: Statement): (r: string)
    ensures |r| <= 4
  {
    var d := DateOf(s);
    if |d| <= 4 then d else d[..4]
  }

  /** The value of a digit string. */
  function DigitsValue(s: string): nat
    requires AllDigits(s)
  {
    if s == "" then 0 else DigitsValue(s[..|s| - 1]) * 10 + (s[|s| - 1] as int - '0' as int)
  }

  lemma {:induction false} DigitsValueBound(s: string)
    requires AllDigits(s)
    ensures DigitsValue(s) < Pow10(|s|)
  {
    if s != "" {
      DigitsValueBound(s[..|s| - 1]);
    }
  }

  function Pow10(n: nat): nat {
    if n == 0 then 1 else 10 * Pow10(n - 1)
  }

  /** `int(year)` for a year of ASCII digits; anything else raises `ValueError`. */
  function ParseYear(year: string): Option<nat> {
    if year != "" && AllDigits(year) then Some(DigitsValue(year)) else None
  }

  /** A year a key can carry: four digits, 2020 or later. */
  predicate RecentYear(y: string) {
    |y| == 4 && AllDigits(y) && DigitsValue(y) >= 2020
  }

  /** A year `int()` reads as 2020 or later, cut to four characters, is four digits. */
  lemma ParsedYearRecent(year: string)
    requires |year| <= 4 && ParseYear(year).Some? && ParseYear(year).value >= 2020
    ensures RecentYear(year)
  {
    DigitsValueBound(year);
    assert Pow10(1) == 10 && Pow10(2) == 100 && Pow10(3) == 1000;
  }

  /**
   * The key prefix a result line sets: revenue when the label holds "sum driftsinntekter" or is
   * "driftsinntekter"; else operating result when it holds "driftsresultat"; else result before
   * tax when it holds "ordinært resultat før skatt" or "resultat før skatt"; else none.
   */
  function ResultPrefix(line: Line): Option<string> {
    var text := Label(line);
    if Contains(text, "sum driftsinntekter") || text == "driftsinntekter" then Some("sum_driftsinnt")
    else if Contains(text, "driftsresultat") then Some("driftsresultat")
    else if Contains(text, "ordinært resultat før skatt") || Contains(text, "resultat før skatt") then Some("ord_res_f_skatt")
    else None
  }

  /** The key prefix a balance line sets: total assets when the label holds "sum eiendeler". */
  function BalancePrefix(line: Line): (r: Option<string>)
    ensures r.Some? <==> Contains(Label(line), "sum eiendeler")
    ensures r.Some? ==> r.value == "sum_eiendeler"
  {
    if Contains(Label(line), "sum eiendeler") then Some("sum_eiendeler") else None
  }

  /** `f"{prefix}_{year}"`. */
  function Key(prefix: string, year: string): string {
    prefix + "_" + year
  }

  /** Keys of one year differ when their prefixes do. */
  lemma KeyInjective(p: string, q: string, year: string)
    ensures Key(p, year) == Key(q, year) ==> p == q
  {
    if Key(p, year) == Key(q, year) {
      assert |p| == |q|;
      assert p == Key(p, year)[..|p|] && q == Key(q, year)[..|q|];
    }
  }

  /** The lines of one list, in order: each line with a prefix writes `str(amount)` under its key. */
  function LinesFold(acc: map<string, string>, year: string, lines: seq<Line>, prefixOf: Line -> Option<string>): map<string, string>
    decreases |lines|
  {
    if lines == [] then acc
    else
      var next := match prefixOf(lines[0])
        case None => acc
        case Some(p) => acc[Key(p, year) := AmountText(lines[0])];
      LinesFold(next, year, lines[1..], prefixOf)
  }

  /** One statement: skipped for an empty year or one before 2020, `ValueError` for a year that is not a number. */
  function ApplyStatement(acc: map<string, string>, s: Statement): Result<map<string, string>, string> {
    var year := YearOf(s);
    if year == "" then Ok(acc)
    else match ParseYear(year)
      case None => Err(IntValueError)
      case Some(n) =>
        if n < 2020 then Ok(acc)
        else Ok(LinesFold(LinesFold(acc, year, s.resultLines, ResultPrefix), year, s.balanceLines, BalancePrefix))
  }

  /** The statements in order; the first exception ends the fold. */
  function StatementsFold(acc: map<string, string>, ss: seq<Statement>): Result<map<string, string>, string>
    decreases |ss|
  {
    if ss == [] then Ok(acc)
    else match ApplyStatement(acc, ss[0])
      case Err(e) => Err(e)
      case Ok(next) => StatementsFold(next, ss[1..])
  }

  /** The financial data of a list of statements, or the exception raised while building it. */
  function FinancialData(ss: seq<Statement>): Result<map<string, string>, string> {
    StatementsFold(map[], Latest(ss))
  }

  /** One list of lines, line by line. */
  method ApplyLines(data0: map<string, string>, year: string, lines: seq<Line>, prefixOf: Line -> Option<string>)
    returns (data: map<string, string>)
    ensures data == LinesFold(data0, year, lines, prefixOf)
  {
    data := data0;
    var j := 0;
    while j < |lines|
      invariant j <= |lines|
      invariant LinesFold(data, year, lines[j..], prefixOf) == LinesFold(data0, year, lines, prefixOf)
    {
      assert lines[j..][1..] == lines[j + 1..];
      var prefix := prefixOf(lines[j]);
      if prefix.Some? {
        data := data[Key(prefix.value, year) := AmountText(lines[j])];
      }
      j := j + 1;
    }
  }

  /**
   * The statement loop of `fetch_brreg_financial_data`: sort, take three, and for each recent
   * statement its result lines and then its balance lines; `int()` of a year that is not a number
   * raises, and the exception leaves the loop.
   */
  method ExtractFinancialData(statements: seq<Statement>) returns (r: Result<map<string, string>, string>)
    ensures r == FinancialData(statements)
  {
    var top := Latest(statements);
    var data: map<string, string> := map[];
    var i := 0;
    while i < |top|
      invariant i <= |top|
      invariant StatementsFold(data, top[i..]) == FinancialData(statements)
    {
      var s := top[i];
      assert top[i..][1..] == top[i + 1..];
      var year := YearOf(s);
      if year != "" {
        var n := ParseYear(year);
        if n.None? {
          return Err(IntValueError);
        }
        if n.value >= 2020 {
          data := ApplyLines(data, year, s.resultLines, ResultPrefix);
          data := ApplyLines(data, year, s.balanceLines, BalancePrefix);
        }
      }
      i := i + 1;
    }
    r := Ok(data);
  }

  /**
   * `fetch_brreg_financial_data` (and `fetch_proff_info`, which calls it): `{}` for an org number
   * that is empty or not all digits, for a failed request or an answer without statements, and
   * when the statement fold raises; the financial data otherwise.
   */
  function FetchFinancialData(orgNumber: string, answer: Option<seq<Statement>>): (r: map<string, string>)
    ensures !ValidOrgNumber(orgNumber) ==> r == map[]
    ensures answer.None? ==> r == map[]
    ensures ValidOrgNumber(orgNumber) && answer.Some? && FinancialData(answer.value).Ok? ==>
      r == FinancialData(answer.value).value
    ensures answer.Some? && FinancialData(answer.value).Err? ==> r == map[]
  {
    if !ValidOrgNumber(orgNumber) then map[]
    else match answer
      case None => map[]
      case Some(ss) =>
        match FinancialData(ss)
        case Err(_) => map[]
        case Ok(d) => d
  }

  /** A statement whose year is empty or before 2020 adds nothing. */
  lemma SkippedStatement(acc: map<string, string>, s: Statement)
    requires YearOf(s) == "" || (ParseYear(YearOf(s)).Some? && ParseYear(YearOf(s)).value < 2020)
    ensures ApplyStatement(acc, s) == Ok(acc)
  {
  }

  /** The "ordinært resultat før skatt" test is subsumed by the "resultat før skatt" test. */
  lemma OrdinaryIsBeforeTax(text: string)
    requires Contains(text, "ordinært resultat før skatt")
    ensures Contains(text, "resultat før skatt")
  {
    var k :| 0 <= k <= |text| && StartsAt(text, k, "ordinært resultat før skatt");
    var long := "ordinært resultat før skatt";
    assert long[9..] == "resultat før skatt";
    assert text[k + 9..k + 9 + |"resultat før skatt"|] == long[9..];
    assert StartsAt(text, k + 9, "resultat før skatt");
  }

  /**
   * A result line sets at most one key, by priority: revenue before operating result before
   * result before tax; it never sets total assets.
   */
  lemma ResultPrefixSpec(line: Line)
    ensures var text := Label(line);
      var revenue := Contains(text, "sum driftsinntekter") || text == "driftsinntekter";
      var r := ResultPrefix(line);
      && (r == Some("sum_driftsinnt") <==> revenue)
      && (r == Some("driftsresultat") <==> !revenue && Contains(text, "driftsresultat"))
      && (r == Some("ord_res_f_skatt") <==>
            !revenue && !Contains(text, "driftsresultat") && Contains(text, "resultat før skatt"))
      && r != Some("sum_eiendeler")
  {
    if Contains(Label(line), "ordinært resultat før skatt") {
      OrdinaryIsBeforeTax(Label(line));
    }
  }

  /** The keys a fold of lines writes: `{prefix}_{year}` for the prefix of some line. */
  lemma {:induction false} LinesFoldKeys(acc: map<string, string>, year: string, lines: seq<Line>, prefixOf: Line -> Option<string>, k: string)
    requires k in LinesFold(acc, year, lines, prefixOf) && k !in acc
    ensures exists j :: 0 <= j < |lines| && prefixOf(lines[j]).Some? && k == Key(prefixOf(lines[j]).value, year)
    decreases |lines|
  {
    var next := match prefixOf(lines[0])
      case None => acc
      case Some(p) => acc[Key(p, year) := AmountText(lines[0])];
    if k in next {
      assert prefixOf(lines[0]).Some? && k == Key(prefixOf(lines[0]).value, year);
    } else {
      LinesFoldKeys(next, year, lines[1..], prefixOf, k);
      var j :| 0 <= j < |lines[1..]| && prefixOf(lines[1..][j]).Some? && k == Key(prefixOf(lines[1..][j]).value, year);
      assert lines[j + 1] == lines[1..][j];
    }
  }

  /**
   * The last line with a given prefix decides its key: its amount is the value, whatever earlier
   * lines wrote.
   */
  lemma {:induction false} LastLineWins(acc: map<string, string>, year: string, lines: seq<Line>, prefixOf: Line -> Option<string>, j: nat)
    requires j < |lines| && prefixOf(lines[j]).Some?
    requires forall i :: j < i < |lines| ==> prefixOf(lines[i]) != prefixOf(lines[j])
    ensures var k := Key(prefixOf(lines[j]).value, year);
      k in LinesFold(acc, year, lines, prefixOf) && LinesFold(acc, year, lines, prefixOf)[k] == AmountText(lines[j])
    decreases |lines|
  {
    var next := match prefixOf(lines[0])
      case None => acc
      case Some(p) => acc[Key(p, year) := AmountText(lines[0])];
    if j > 0 {
      assert forall i :: j - 1 < i < |lines[1..]| ==> lines[1..][i] == lines[i + 1];
      LastLineWins(next, year, lines[1..], prefixOf, j - 1);
    } else {
      var k := Key(prefixOf(lines[0]).value, year);
      forall i | 0 <= i < |lines[1..]| && prefixOf(lines[1..][i]).Some?
        ensures Key(prefixOf(lines[1..][i]).value, year) != k
      {
        assert lines[1..][i] == lines[i + 1];
        KeyInjective(prefixOf(lines[1..][i]).value, prefixOf(lines[0]).value, year);
      }
      LinesFoldKeeps(next, year, lines[1..], prefixOf, k);
    }
  }

  /** A key no line writes keeps its value. */
  lemma {:induction false} LinesFoldKeeps(acc: map<string, string>, year: string, lines: seq<Line>, prefixOf: Line -> Option<string>, k: string)
    requires k in acc
    requires forall i :: 0 <= i < |lines| && prefixOf(lines[i]).Some? ==> Key(prefixOf(lines[i]).value, year) != k
    ensures k in LinesFold(acc, year, lines, prefixOf) && LinesFold(acc, year, lines, prefixOf)[k] == acc[k]
    decreases |lines|
  {
    if lines != [] {
      var next := match prefixOf(lines[0])
        case None => acc
        case Some(p) => acc[Key(p, year) := AmountText(lines[0])];
      assert forall i :: 0 <= i < |lines[1..]| ==> lines[1..][i] == lines[i + 1];
      LinesFoldKeeps(next, year, lines[1..], prefixOf, k);
    }
  }

  /** A key carries a year of four digits, 2020 or later, after one of the four prefixes. */
  ghost predicate FinancialKey(k: string) {
    exists p, y :: p in {"sum_driftsinnt", "driftsresultat", "ord_res_f_skatt", "sum_eiendeler"}
                   && RecentYear(y) && k == Key(p, y)
  }

  /** Every prefix a line of either kind gives is one of the four. */
  lemma PrefixesKnown(line: Line)
    ensures ResultPrefix(line).Some? ==>
      ResultPrefix(line).value in {"sum_driftsinnt", "driftsresultat", "ord_res_f_skatt", "sum_eiendeler"}
    ensures BalancePrefix(line).Some? ==>
      BalancePrefix(line).value in {"sum_driftsinnt", "driftsresultat", "ord_res_f_skatt", "sum_eiendeler"}
  {
  }

  /** A fold of lines for a recent year keeps every key a financial key. */
  lemma LinesFoldFinancial(acc: map<string, string>, year: string, lines: seq<Line>, prefixOf: Line -> Option<string>)
    requires forall k :: k in acc ==> FinancialKey(k)
    requires RecentYear(year)
    requires prefixOf == ResultPrefix || prefixOf == BalancePrefix
    ensures forall k :: k in LinesFold(acc, year, lines, prefixOf) ==> FinancialKey(k)
  {
    forall k | k in LinesFold(acc, year, lines, prefixOf) ensures FinancialKey(k) {
      if k !in acc {
        LinesFoldKeys(acc, year, lines, prefixOf, k);
        var j :| 0 <= j < |lines| && prefixOf(lines[j]).Some? && k == Key(prefixOf(lines[j]).value, year);
        PrefixesKnown(lines[j]);
      }
    }
  }

  /** The statement fold keeps every key a financial key. */
  lemma {:induction false} StatementsFoldFinancial(acc: map<string, string>, ss: seq<Statement>)
    requires forall k :: k in acc ==> FinancialKey(k)
    requires StatementsFold(acc, ss).Ok?
    ensures forall k :: k in StatementsFold(acc, ss).value ==> FinancialKey(k)
    decreases |ss|
  {
    if ss != [] {
      var s := ss[0];
      var year := YearOf(s);
      var next := ApplyStatement(acc, s).value;
      if year != "" && ParseYear(year).value >= 2020 {
        ParsedYearRecent(year);
        var mid := LinesFold(acc, year, s.resultLines, ResultPrefix);
        LinesFoldFinancial(acc, year, s.resultLines, ResultPrefix);
        LinesFoldFinancial(mid, year, s.balanceLines, BalancePrefix);
      }
      StatementsFoldFinancial(next, ss[1..]);
    }
  }

  /**
   * Every key of the result is one of the four prefixes followed by `_` and a year of four digits,
   * 2020 or later; an invalid org number or a missing answer gives `{}`.
   */
  lemma FetchFinancialKeys(orgNumber: string, answer: Option<seq<Statement>>)
    ensures forall k :: k in FetchFinancialData(orgNumber, answer) ==> FinancialKey(k)
  {
    if ValidOrgNumber(orgNumber) && answer.Some? && FinancialData(answer.value).Ok? {
      StatementsFoldFinancial(map[], Latest(answer.value));
    }
  }

  /** A `sum_eiendeler` key a statement adds comes from one of its balance lines holding "sum eiendeler". */
  lemma AssetsFromBalance(acc: map<string, string>, year: string, resultLines: seq<Line>, balanceLines: seq<Line>)
    requires var k := Key("sum_eiendeler", year);
      k !in acc && k in LinesFold(LinesFold(acc, year, resultLines, ResultPrefix), year, balanceLines, BalancePrefix)
    ensures exists j :: 0 <= j < |balanceLines| && Contains(Label(balanceLines[j]), "sum eiendeler")
  {
    var k := Key("sum_eiendeler", year);
    var mid := LinesFold(acc, year, resultLines, ResultPrefix);
    if k in mid {
      LinesFoldKeys(acc, year, resultLines, ResultPrefix, k);
      var j :| 0 <= j < |resultLines| && ResultPrefix(resultLines[j]).Some?
               && k == Key(ResultPrefix(resultLines[j]).value, year);
      KeyInjective(ResultPrefix(resultLines[j]).value, "sum_eiendeler", year);
      ResultPrefixSpec(resultLines[j]);
      assert false;
    }
    LinesFoldKeys(mid, year, balanceLines, BalancePrefix, k);
  }

  // ---------------------------------------------------------------------------------------------
  // Values: where each one comes from, and which line wins

  /** Some line of `lines` writes `v` under `k`: its prefix and the year give `k`, its amount is `v`. */
  ghost predicate LineWrote(lines: seq<Line>, prefixOf: Line -> Option<string>, year: string, k: string, v: string) {
    exists j :: 0 <= j < |lines| && prefixOf(lines[j]).Some? && k == Key(prefixOf(lines[j]).value, year)
                && v == AmountText(lines[j])
  }

  /** A statement with a recent year writes `v` under `k` through one of its result or balance lines. */
  ghost predicate StatementWrote(s: Statement, k: string, v: string) {
    && RecentYear(YearOf(s))
    && (LineWrote(s.resultLines, ResultPrefix, YearOf(s), k, v) || LineWrote(s.balanceLines, BalancePrefix, YearOf(s), k, v))
  }

  /** A value after a fold of lines is the earlier one, or the amount of a line writing its key. */
  lemma {:induction false} LinesFoldOrigin(acc: map<string, string>, year: string, lines: seq<Line>, prefixOf: Line -> Option<string>, k: string)
    requires k in LinesFold(acc, year, lines, prefixOf)
    ensures var out := LinesFold(acc, year, lines, prefixOf);
      (k in acc && out[k] == acc[k]) || LineWrote(lines, prefixOf, year, k, out[k])
    decreases |lines|
  {
    if lines != [] {
      var out := LinesFold(acc, year, lines, prefixOf);
      var next := match prefixOf(lines[0])
        case None => acc
        case Some(p) => acc[Key(p, year) := AmountText(lines[0])];
      assert out == LinesFold(next, year, lines[1..], prefixOf);
      LinesFoldOrigin(next, year, lines[1..], prefixOf, k);
      if LineWrote(lines[1..], prefixOf, year, k, out[k]) {
        var j :| 0 <= j < |lines[1..]| && prefixOf(lines[1..][j]).Some?
                 && k == Key(prefixOf(lines[1..][j]).value, year) && out[k] == AmountText(lines[1..][j]);
        assert lines[1..][j] == lines[j + 1];
      } else if prefixOf(lines[0]).Some? && k == Key(prefixOf(lines[0]).value, year) {
        assert out[k] == AmountText(lines[0]);
      }
    }
  }

  /** A value after one statement is the earlier one, or written by one of the statement's lines. */
  lemma StatementOrigin(acc: map<string, string>, s: Statement, k: string)
    requires ApplyStatement(acc, s).Ok? && k in ApplyStatement(acc, s).value
    ensures var out := ApplyStatement(acc, s).value;
      (k in acc && out[k] == acc[k]) || StatementWrote(s, k, out[k])
  {
    var year := YearOf(s);
    if year != "" && ParseYear(year).value >= 2020 {
      ParsedYearRecent(year);
      var mid := LinesFold(acc, year, s.resultLines, ResultPrefix);
      LinesFoldOrigin(mid, year, s.balanceLines, BalancePrefix, k);
      if k in mid && ApplyStatement(acc, s).value[k] == mid[k] {
        LinesFoldOrigin(acc, year, s.resultLines, ResultPrefix, k);
      }
    }
  }

  /** A value after the statement fold is the earlier one, or written by a line of a visited statement. */
  lemma {:induction false} StatementsFoldOrigin(acc: map<string, string>, ss: seq<Statement>, k: string)
    requires StatementsFold(acc, ss).Ok? && k in StatementsFold(acc, ss).value
    ensures var out := StatementsFold(acc, ss).value;
      (k in acc && out[k] == acc[k]) || exists i :: 0 <= i < |ss| && StatementWrote(ss[i], k, out[k])
    decreases |ss|
  {
    if ss != [] {
      var out := StatementsFold(acc, ss).value;
      var next := ApplyStatement(acc, ss[0]).value;
      assert StatementsFold(acc, ss) == StatementsFold(next, ss[1..]);
      StatementsFoldOrigin(next, ss[1..], k);
      if exists i :: 0 <= i < |ss[1..]| && StatementWrote(ss[1..][i], k, out[k]) {
        var i :| 0 <= i < |ss[1..]| && StatementWrote(ss[1..][i], k, out[k]);
        assert ss[1..][i] == ss[i + 1];
      } else {
        StatementOrigin(acc, ss[0], k);
        if !(k in acc && next[k] == acc[k]) {
          assert StatementWrote(ss[0], k, out[k]);
        }
      }
    }
  }

  /**
   * Every value of the financial data is `str(belop)` of a line of one of the three latest
   * statements, a statement with a recent year, whose prefix and year give the value's key.
   */
  lemma FinancialValueOrigin(ss: seq<Statement>, k: string)
    requires FinancialData(ss).Ok? && k in FinancialData(ss).value
    ensures exists i :: 0 <= i < |Latest(ss)| && StatementWrote(Latest(ss)[i], k, FinancialData(ss).value[k])
  {
    StatementsFoldOrigin(map[], Latest(ss), k);
  }

  /** The year a key ends with: its last four characters. */
  function KeyYear(k: string): string {
    if |k| < 4 then "" else k[|k| - 4..]
  }

  /** A key of a recent year ends with that year. */
  lemma KeyYearOf(p: string, year: string)
    requires |year| == 4
    ensures KeyYear(Key(p, year)) == year
  {
    assert Key(p, year)[|Key(p, year)| - 4..] == year;
  }

  /** A statement of another year leaves a key unchanged. */
  lemma StatementKeeps(acc: map<string, string>, s: Statement, k: string)
    requires ApplyStatement(acc, s).Ok? && k in acc && |KeyYear(k)| == 4 && YearOf(s) != KeyYear(k)
    ensures k in ApplyStatement(acc, s).value && ApplyStatement(acc, s).value[k] == acc[k]
  {
    var year := YearOf(s);
    if year != "" && ParseYear(year).value >= 2020 {
      ParsedYearRecent(year);
      forall i | 0 <= i < |s.resultLines| && ResultPrefix(s.resultLines[i]).Some?
        ensures Key(ResultPrefix(s.resultLines[i]).value, year) != k
      {
        KeyYearOf(ResultPrefix(s.resultLines[i]).value, year);
      }
      LinesFoldKeeps(acc, year, s.resultLines, ResultPrefix, k);
      var mid := LinesFold(acc, year, s.resultLines, ResultPrefix);
      forall i | 0 <= i < |s.balanceLines| && BalancePrefix(s.balanceLines[i]).Some?
        ensures Key(BalancePrefix(s.balanceLines[i]).value, year) != k
      {
        KeyYearOf(BalancePrefix(s.balanceLines[i]).value, year);
      }
      LinesFoldKeeps(mid, year, s.balanceLines, BalancePrefix, k);
    }
  }

  /** Statements of other years leave a key unchanged. */
  lemma {:induction false} StatementsFoldKeeps(acc: map<string, string>, ss: seq<Statement>, k: string)
    requires StatementsFold(acc, ss).Ok? && k in acc && |KeyYear(k)| == 4
    requires forall i :: 0 <= i < |ss| ==> YearOf(ss[i]) != KeyYear(k)
    ensures k in StatementsFold(acc, ss).value && StatementsFold(acc, ss).value[k] == acc[k]
    decreases |ss|
  {
    if ss != [] {
      var next := ApplyStatement(acc, ss[0]).value;
      StatementKeeps(acc, ss[0], k);
      assert forall i :: 0 <= i < |ss[1..]| ==> ss[1..][i] == ss[i + 1];
      StatementsFoldKeeps(next, ss[1..], k);
    }
  }

  /** Whatever the data before it, the statement sets `k` to `v`. */
  ghost predicate StatementSets(s: Statement, k: string, v: string) {
    forall acc: map<string, string> :: ApplyStatement(acc, s).Ok? && k in ApplyStatement(acc, s).value
                                       && ApplyStatement(acc, s).value[k] == v
  }

  /**
   * The last result line with a given prefix in a statement of a recent year sets that prefix's
   * key to its amount: the balance lines after it never write a result key.
   */
  lemma ResultLineSets(s: Statement, j: nat)
    requires RecentYear(YearOf(s)) && j < |s.resultLines| && ResultPrefix(s.resultLines[j]).Some?
    requires forall i :: j < i < |s.resultLines| ==> ResultPrefix(s.resultLines[i]) != ResultPrefix(s.resultLines[j])
    ensures StatementSets(s, Key(ResultPrefix(s.resultLines[j]).value, YearOf(s)), AmountText(s.resultLines[j]))
  {
    var year := YearOf(s);
    var p := ResultPrefix(s.resultLines[j]).value;
    ResultPrefixSpec(s.resultLines[j]);
    forall acc: map<string, string>
      ensures ApplyStatement(acc, s).Ok? && Key(p, year) in ApplyStatement(acc, s).value
              && ApplyStatement(acc, s).value[Key(p, year)] == AmountText(s.resultLines[j])
    {
      LastLineWins(acc, year, s.resultLines, ResultPrefix, j);
      var mid := LinesFold(acc, year, s.resultLines, ResultPrefix);
      forall i | 0 <= i < |s.balanceLines| && BalancePrefix(s.balanceLines[i]).Some?
        ensures Key(BalancePrefix(s.balanceLines[i]).value, year) != Key(p, year)
      {
        KeyInjective("sum_eiendeler", p, year);
      }
      LinesFoldKeeps(mid, year, s.balanceLines, BalancePrefix, Key(p, year));
    }
  }

  /** The last balance line holding "sum eiendeler" in a statement of a recent year sets total assets. */
  lemma BalanceLineSets(s: Statement, j: nat)
    requires RecentYear(YearOf(s)) && j < |s.balanceLines| && BalancePrefix(s.balanceLines[j]).Some?
    requires forall i :: j < i < |s.balanceLines| ==> BalancePrefix(s.balanceLines[i]).None?
    ensures StatementSets(s, Key("sum_eiendeler", YearOf(s)), AmountText(s.balanceLines[j]))
  {
    var year := YearOf(s);
    forall acc: map<string, string>
      ensures ApplyStatement(acc, s).Ok? && Key("sum_eiendeler", year) in ApplyStatement(acc, s).value
              && ApplyStatement(acc, s).value[Key("sum_eiendeler", year)] == AmountText(s.balanceLines[j])
    {
      var mid := LinesFold(acc, year, s.resultLines, ResultPrefix);
      LastLineWins(mid, year, s.balanceLines, BalancePrefix, j);
    }
  }

  /** A statement that sets `k`, with no later statement of `k`'s year, decides `k`'s value. */
  lemma {:induction false} StatementsFoldWins(acc: map<string, string>, ss: seq<Statement>, i: nat, k: string, v: string)
    requires StatementsFold(acc, ss).Ok? && i < |ss| && StatementSets(ss[i], k, v) && |KeyYear(k)| == 4
    requires forall j :: i < j < |ss| ==> YearOf(ss[j]) != KeyYear(k)
    ensures k in StatementsFold(acc, ss).value && StatementsFold(acc, ss).value[k] == v
    decreases i
  {
    var next := ApplyStatement(acc, ss[0]).value;
    assert StatementsFold(acc, ss) == StatementsFold(next, ss[1..]);
    assert forall j :: 0 <= j < |ss[1..]| ==> ss[1..][j] == ss[j + 1];
    if i > 0 {
      StatementsFoldWins(next, ss[1..], i - 1, k, v);
    } else {
      assert ApplyStatement(acc, ss[0]).Ok? && k in next && next[k] == v;
      StatementsFoldKeeps(next, ss[1..], k);
    }
  }

  /**
   * Of the three latest statements, the last one with a given recent year decides that year's
   * result keys: each prefix takes the amount of that statement's last result line with the
   * prefix, overwriting what an earlier statement of the same year wrote.
   */
  lemma FinancialResultValue(ss: seq<Statement>, i: nat, j: nat)
    requires FinancialData(ss).Ok? && i < |Latest(ss)| && RecentYear(YearOf(Latest(ss)[i]))
    requires forall i' :: i < i' < |Latest(ss)| ==> YearOf(Latest(ss)[i']) != YearOf(Latest(ss)[i])
    requires var lines := Latest(ss)[i].resultLines;
      j < |lines| && ResultPrefix(lines[j]).Some?
      && forall j' :: j < j' < |lines| ==> ResultPrefix(lines[j']) != ResultPrefix(lines[j])
    ensures var s := Latest(ss)[i];
      var k := Key(ResultPrefix(s.resultLines[j]).value, YearOf(s));
      k in FinancialData(ss).value && FinancialData(ss).value[k] == AmountText(s.resultLines[j])
  {
    var s := Latest(ss)[i];
    ResultLineSets(s, j);
    KeyYearOf(ResultPrefix(s.resultLines[j]).value, YearOf(s));
    StatementsFoldWins(map[], Latest(ss), i, Key(ResultPrefix(s.resultLines[j]).value, YearOf(s)), AmountText(s.resultLines[j]));
  }

  /**
   * Of the three latest statements, the last one with a given recent year decides that year's
   * total assets: the amount of its last balance line holding "sum eiendeler".
   */
  lemma FinancialAssetsValue(ss: seq<Statement>, i: nat, j: nat)
    requires FinancialData(ss).Ok? && i < |Latest(ss)| && RecentYear(YearOf(Latest(ss)[i]))
    requires forall i' :: i < i' < |Latest(ss)| ==> YearOf(Latest(ss)[i']) != YearOf(Latest(ss)[i])
    requires var lines := Latest(ss)[i].balanceLines;
      j < |lines| && Contains(Label(lines[j]), "sum eiendeler")
      && forall j' :: j < j' < |lines| ==> !Contains(Label(lines[j']), "sum eiendeler")
    ensures var s := Latest(ss)[i];
      var k := Key("sum_eiendeler", YearOf(s));
      k in FinancialData(ss).value && FinancialData(ss).value[k] == AmountText(s.balanceLines[j])
  {
    var s := Latest(ss)[i];
    BalanceLineSets(s, j);
    KeyYearOf("sum_eiendeler", YearOf(s));
    StatementsFoldWins(map[], Latest(ss), i, Key("sum_eiendeler", YearOf(s)), AmountText(s.balanceLines[j]));
  }

  /**
   * Every value `fetch_brreg_financial_data` returns is `str(belop)` of a line of one of the three
   * latest statements of the answer, under the key that line's prefix and its statement's year give.
   */
  lemma FetchFinancialValueOrigin(orgNumber: string, answer: Option<seq<Statement>>, k: string)
    requires k in FetchFinancialData(orgNumber, answer)
    ensures answer.Some?
    ensures exists i :: 0 <= i < |Latest(answer.value)|
                        && StatementWrote(Latest(answer.value)[i], k, FetchFinancialData(orgNumber, answer)[k])
  {
    FinancialValueOrigin(answer.value, k);
  }
}
