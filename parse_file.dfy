/**
 * `parseFile`: the CODEOWNERS file cut into lines on `\n` or `\r\n`, each line
 * numbered from 1, trimmed, skipped when the API flagged it or when it is
 * blank or a comment, and otherwise handed to `parseLine`. A line whose
 * pattern does not compile is dropped and reported; the rules come out in
 * reverse file order, so that the first rule that matches a path is the one
 * written last.
 *
 * `ScanLines` states the loop as a function of the lines seen so far; the
 * method `ParseFile` is proved against it, and the lemmas below say what the
 * scan keeps, what it drops and in which order.
 */
module FileParser {
  import opened Text
  import opened Results
  import opened Regex
  import opened ParsePattern
  import opened LineParser

  const LF: char := '\n'
  const CR: char := '\r'

  /** A rule as `parseFile` returns it; resolving a path sorts its `owners` in place. */
  class CodeOwnerRule {
    const pattern: string
    const regexPattern: seq<Token>
    const lineNumber: int
    var owners: seq<string>

    /** The record's current contents. */
    function Value(): Rule
      reads this
    {
      Rule(pattern, regexPattern, lineNumber, owners)
    }

    constructor (rule: Rule)
      ensures Value() == rule
    {
      pattern := rule.pattern;
      regexPattern := rule.regexPattern;
      lineNumber := rule.lineNumber;
      owners := rule.owners;
    }
  }

  /** The current contents of a list of rule records. */
  function Values(rs: seq<CodeOwnerRule>): (r: seq<Rule>)
    reads set o | o in rs
    ensures |r| == |rs| && forall i :: 0 <= i < |rs| ==> r[i] == rs[i].Value()
    decreases |rs|
  {
    if rs == [] then [] else [rs[0].Value()] + Values(rs[1..])
  }

  /** A line that ended in `\r\n` loses its `\r` with the separator. */
  function DropCR(s: string): string {
    if s != [] && s[|s| - 1] == CR then s[..|s| - 1] else s
  }

  /** `split(/\r?\n/)`: the pieces between the `\n`s, each but the last without the one `\r` before its `\n`. */
  function SplitLines(s: string): (r: seq<string>)
    ensures |r| >= 1
  {
    var pieces := Split(s, LF);
    seq(|pieces|, i requires 0 <= i < |pieces| => if i + 1 < |pieces| then DropCR(pieces[i]) else pieces[i])
  }

  /** Text without a `\n` is one line. */
  lemma SplitLinesOne(a: string)
    requires LF !in a
    ensures SplitLines(a) == [a]
  {
    SplitNoSep(a, LF);
  }

  /** A line ended by `\n` or `\r\n` comes first, without its terminator, and the rest is cut the same way. */
  lemma SplitLinesCons(a: string, b: string)
    requires LF !in a
    ensures SplitLines(a + [LF] + b) == [DropCR(a)] + SplitLines(b)
  {
    SplitAppend(a, b, LF);
    SplitNoSep(a, LF);
    var r := SplitLines(a + [LF] + b);
    var t := [DropCR(a)] + SplitLines(b);
    assert |r| == |t|;
    forall i | 0 <= i < |r| ensures r[i] == t[i] {
      if i > 0 {
        assert Split(a + [LF] + b, LF)[i] == Split(b, LF)[i - 1];
      }
    }
  }

  /** No line holds a `\n`. */
  lemma SplitLinesNoLF(s: string)
    ensures forall i :: 0 <= i < |SplitLines(s)| ==> LF !in SplitLines(s)[i]
  {
    SplitSepFree(s, LF);
    var pieces := Split(s, LF);
    forall i | 0 <= i < |pieces| ensures LF !in SplitLines(s)[i] {
      if i + 1 < |pieces| && pieces[i] != [] && pieces[i][|pieces[i]| - 1] == CR {
        assert forall c :: c in DropCR(pieces[i]) ==> c in pieces[i];
      }
    }
  }

  /** The decimal digits of `n`, as a template literal renders a line number. */
  function Decimal(n: nat): (r: string)
    decreases n
  {
    if n < 10 then [Digit(n)] else Decimal(n / 10) + [Digit(n % 10)]
  }

  function Digit(d: nat): char
    requires d < 10
  {
    ('0' as int + d) as char
  }

  /** The number a string of decimal digits denotes. */
  function DecimalValue(s: string): int
    decreases |s|
  {
    if s == [] then 0 else DecimalValue(s[..|s| - 1]) * 10 + (s[|s| - 1] as int - '0' as int)
  }

  /** The rendering is all digits and reads back as the number. */
  lemma {:induction false} DecimalRoundTrip(n: nat)
    ensures Decimal(n) != []
    ensures forall k :: 0 <= k < |Decimal(n)| ==> '0' <= Decimal(n)[k] <= '9'
    ensures DecimalValue(Decimal(n)) == n
    decreases n
  {
    if n >= 10 {
      DecimalRoundTrip(n / 10);
      var s := Decimal(n);
      assert s[..|s| - 1] == Decimal(n / 10);
      assert s[|s| - 1] == Digit(n % 10);
    }
  }

  /** The text `setOutput('error', …)` receives for a line whose pattern does not compile. */
  function ErrorText(lineNumber: nat, e: PatternError): string {
    "Line " + Decimal(lineNumber) + ": " + Message(e)
  }

  /** A line is skipped when the API flagged its number, or it is blank or a comment once trimmed. */
  predicate Skipped(line: string, lineNumber: int, errors: seq<int>) {
    lineNumber in errors || Trim(line) == [] || Trim(line)[0] == Hash
  }

  /** What the loop has gathered: the rules in file order and every error text it reported. */
  datatype Scan = Scan(rules: seq<Rule>, reports: seq<string>)

  /** One turn of the loop: line number `n` skipped, kept as a rule, or reported. */
  function LineStep(before: Scan, line: string, n: nat, errors: seq<int>): Scan {
    if Skipped(line, n, errors) then before
    else match ParseLine(Trim(line), n)
      case Success(rule) => Scan(before.rules + [rule], before.reports)
      case Failure(e) => Scan(before.rules, before.reports + [ErrorText(n, e)])
  }

  /** The loop over `lines`, line `k` (from 0) numbered `k + 1`. */
  function ScanLines(lines: seq<string>, errors: seq<int>): Scan
    decreases |lines|
  {
    if lines == [] then Scan([], [])
    else LineStep(ScanLines(lines[..|lines| - 1], errors), lines[|lines| - 1], |lines|, errors)
  }

  lemma ScanNext(lines: seq<string>, errors: seq<int>, k: nat)
    requires k < |lines|
    ensures ScanLines(lines[..k + 1], errors) == LineStep(ScanLines(lines[..k], errors), lines[k], k + 1, errors)
  {
    assert lines[..k + 1][..k] == lines[..k];
  }

  /** `parseFile(fileContent, errors)`: the rules, last line first. */
  function FileRules(fileContent: string, errors: seq<int>): seq<Rule> {
    Reverse(ScanLines(SplitLines(fileContent), errors).rules)
  }

  /** The error texts `parseFile` reports, in the order it reports them; the output keeps the last. */
  function FileReports(fileContent: string, errors: seq<int>): seq<string> {
    ScanLines(SplitLines(fileContent), errors).reports
  }

  method ParseFile(fileContent: string, errors: seq<int>) returns (rules: seq<CodeOwnerRule>, reports: seq<string>)
    ensures Values(rules) == FileRules(fileContent, errors)
    ensures reports == FileReports(fileContent, errors)
    ensures forall i :: 0 <= i < |rules| ==> fresh(rules[i])
    ensures forall i, j :: 0 <= i < j < |rules| ==> rules[i] != rules[j]
  {
    var lines := SplitLines(fileContent);
    var pushed: seq<CodeOwnerRule> := [];
    reports := [];
    ghost var scan := Scan([], []);
    var lineNo := 0;
    while lineNo < |lines|
      invariant 0 <= lineNo <= |lines|
      invariant scan == ScanLines(lines[..lineNo], errors)
      invariant |pushed| == |scan.rules| && forall i :: 0 <= i < |pushed| ==> pushed[i].Value() == scan.rules[i]
      invariant reports == scan.reports
      invariant forall i :: 0 <= i < |pushed| ==> fresh(pushed[i])
      invariant forall i, j :: 0 <= i < j < |pushed| ==> pushed[i] != pushed[j]
    {
      var rawLine := lines[lineNo];
      ScanNext(lines, errors, lineNo);
      lineNo := lineNo + 1;
      scan := LineStep(scan, rawLine, lineNo, errors);
      if lineNo in errors {
        continue;
      }
      var line := Trim(rawLine);
      if |line| == 0 || line[0] == Hash {
        continue;
      }
      // The branch for lines that start with `\#` or `!` does nothing.
      match ParseLine(line, lineNo)
      case Success(rule) =>
        var r := new CodeOwnerRule(rule);
        pushed := pushed + [r];
      case Failure(e) =>
        reports := reports + [ErrorText(lineNo, e)];
    }
    assert lines[..lineNo] == lines;
    rules := Reverse(pushed);
    ValuesReversed(pushed, scan.rules);
  }

  lemma ValuesReversed(pushed: seq<CodeOwnerRule>, scanned: seq<Rule>)
    requires |pushed| == |scanned| && forall i :: 0 <= i < |pushed| ==> pushed[i].Value() == scanned[i]
    ensures Values(Reverse(pushed)) == Reverse(scanned)
  {
  }

  /**
   * Every rule of the scan comes from a line that is not skipped and that
   * `parseLine` accepts, under that line's number; the numbers are in range
   * and strictly increasing, so rules and reports together are no more than
   * the lines.
   */
  lemma {:induction false} ScanRules(lines: seq<string>, errors: seq<int>)
    ensures var s := ScanLines(lines, errors); |s.rules| + |s.reports| <= |lines|
    ensures var s := ScanLines(lines, errors);
      forall i :: 0 <= i < |s.rules| ==> FromLine(lines, errors, s.rules[i])
    ensures var s := ScanLines(lines, errors);
      forall i, j :: 0 <= i < j < |s.rules| ==> s.rules[i].lineNumber < s.rules[j].lineNumber
    decreases |lines|
  {
    if lines != [] {
      var init := lines[..|lines| - 1];
      ScanRules(init, errors);
      RulesStep(lines, errors);
      var before := ScanLines(init, errors);
      forall i | 0 <= i < |before.rules|
        ensures FromLine(lines, errors, before.rules[i]) && before.rules[i].lineNumber < |lines|
      {
        FromLineExtends(init, lines, errors, before.rules[i]);
      }
    }
  }

  /** `parseLine` accepts line `n`, which is not skipped. */
  predicate Accepted(lines: seq<string>, errors: seq<int>, n: int)
    requires 1 <= n <= |lines|
  {
    !Skipped(lines[n - 1], n, errors) && ParseLine(Trim(lines[n - 1]), n).Success?
  }

  /** The last line adds its rule, if any, after those of the lines before it, or at most one report. */
  lemma RulesStep(lines: seq<string>, errors: seq<int>)
    requires lines != []
    ensures var last := |lines|;
      var s := ScanLines(lines, errors);
      var before := ScanLines(lines[..last - 1], errors);
      if Accepted(lines, errors, last)
      then s.rules == before.rules + [ParseLine(Trim(lines[last - 1]), last).value] && s.reports == before.reports &&
        FromLine(lines, errors, ParseLine(Trim(lines[last - 1]), last).value) &&
        ParseLine(Trim(lines[last - 1]), last).value.lineNumber == last
      else s.rules == before.rules && |s.reports| <= |before.reports| + 1
  {
  }

  /** `rule` is what `parseLine` makes of the trimmed line its number names, a line that is not skipped. */
  predicate FromLine(lines: seq<string>, errors: seq<int>, rule: Rule) {
    var n := rule.lineNumber;
    1 <= n <= |lines| && !Skipped(lines[n - 1], n, errors) && ParseLine(Trim(lines[n - 1]), n) == Success(rule)
  }

  lemma FromLineExtends(init: seq<string>, lines: seq<string>, errors: seq<int>, rule: Rule)
    requires |init| <= |lines| && init == lines[..|init|]
    requires FromLine(init, errors, rule)
    ensures FromLine(lines, errors, rule)
  {
    assert lines[rule.lineNumber - 1] == init[rule.lineNumber - 1];
  }

  /** Every line that is not skipped and that `parseLine` accepts gives a rule. */
  lemma {:induction false} ScanKeeps(lines: seq<string>, errors: seq<int>, n: int)
    requires 1 <= n <= |lines| && !Skipped(lines[n - 1], n, errors)
    requires ParseLine(Trim(lines[n - 1]), n).Success?
    ensures exists i :: 0 <= i < |ScanLines(lines, errors).rules| && ScanLines(lines, errors).rules[i].lineNumber == n
    decreases |lines|
  {
    var init := lines[..|lines| - 1];
    var before := ScanLines(init, errors);
    if n == |lines| {
      var k := |before.rules|;
      assert ScanLines(lines, errors).rules[k].lineNumber == n;
    } else {
      assert init[n - 1] == lines[n - 1];
      ScanKeeps(init, errors, n);
      var i :| 0 <= i < |before.rules| && before.rules[i].lineNumber == n;
      assert ScanLines(lines, errors).rules[i] == before.rules[i];
    }
  }

  /** Line `n` reports an error exactly when it is not skipped and its pattern does not compile. */
  lemma {:induction false} ScanReports(lines: seq<string>, errors: seq<int>, n: int)
    requires 1 <= n <= |lines|
    ensures Reported(ScanLines(lines, errors), n) <==> Failing(lines, errors, n)
    decreases |lines|
  {
    if n == |lines| {
      ReportsLast(lines, errors);
    } else {
      var init := lines[..|lines| - 1];
      assert init[n - 1] == lines[n - 1];
      ScanReports(init, errors, n);
      ReportsEarlier(lines, errors, n);
    }
  }

  /** Some error text for line `n` is among the reports. */
  predicate Reported(s: Scan, n: nat) {
    exists e :: ErrorText(n, e) in s.reports
  }

  lemma ReportsLast(lines: seq<string>, errors: seq<int>)
    requires lines != []
    ensures Reported(ScanLines(lines, errors), |lines|) <==> Failing(lines, errors, |lines|)
  {
    var last := |lines|;
    ReportsStep(lines, errors);
    ReportsBefore(lines[..last - 1], errors, last);
    if Failing(lines, errors, last) {
      assert ErrorText(last, ParseLine(Trim(lines[last - 1]), last).error) in ScanLines(lines, errors).reports;
    }
  }

  lemma ReportsEarlier(lines: seq<string>, errors: seq<int>, n: nat)
    requires 1 <= n < |lines|
    ensures Reported(ScanLines(lines, errors), n) <==> Reported(ScanLines(lines[..|lines| - 1], errors), n)
  {
    var last := |lines|;
    ReportsStep(lines, errors);
    if Failing(lines, errors, last) {
      var e := ParseLine(Trim(lines[last - 1]), last).error;
      var s := ScanLines(lines, errors);
      var before := ScanLines(lines[..last - 1], errors);
      forall e' ensures ErrorText(n, e') in s.reports <==> ErrorText(n, e') in before.reports {
        ErrorTextDiffers(n, last, e', e);
      }
    }
  }

  /** Line `n` is not skipped and its pattern does not compile. */
  predicate Failing(lines: seq<string>, errors: seq<int>, n: int)
    requires 1 <= n <= |lines|
  {
    !Skipped(lines[n - 1], n, errors) && ParseLine(Trim(lines[n - 1]), n).Failure?
  }

  /** The last line adds its report, if any, after those of the lines before it. */
  lemma ReportsStep(lines: seq<string>, errors: seq<int>)
    requires lines != []
    ensures var last := |lines|;
      var s := ScanLines(lines, errors);
      var before := ScanLines(lines[..last - 1], errors);
      if Failing(lines, errors, last)
      then s.reports == before.reports + [ErrorText(last, ParseLine(Trim(lines[last - 1]), last).error)]
      else s.reports == before.reports
  {
  }

  /** No text the scan of the first lines reports names a later line. */
  lemma {:induction false} ReportsBefore(lines: seq<string>, errors: seq<int>, n: int)
    requires n > |lines|
    ensures forall e :: ErrorText(n, e) !in ScanLines(lines, errors).reports
    decreases |lines|
  {
    if lines != [] {
      var init := lines[..|lines| - 1];
      ReportsBefore(init, errors, n);
      var before := ScanLines(init, errors);
      var s := ScanLines(lines, errors);
      forall e ensures ErrorText(n, e) !in s.reports {
        if ErrorText(n, e) in s.reports && ErrorText(n, e) !in before.reports {
          var last := |lines|;
          var e' := ParseLine(Trim(lines[last - 1]), last).error;
          assert s.reports == before.reports + [ErrorText(last, e')];
          ErrorTextDiffers(n, last, e, e');
        }
      }
    }
  }

  /**
   * `parseFile` keeps file order reversed: line numbers strictly decrease,
   * no rule comes from a flagged, blank or comment line, each rule is what
   * `parseLine` makes of its trimmed line, and there are no more rules than
   * lines.
   */
  lemma FileRulesReversed(fileContent: string, errors: seq<int>)
    ensures var rules := FileRules(fileContent, errors);
      forall i, j :: 0 <= i < j < |rules| ==> rules[i].lineNumber > rules[j].lineNumber
    ensures var rules := FileRules(fileContent, errors); var lines := SplitLines(fileContent);
      forall i :: 0 <= i < |rules| ==> FromLine(lines, errors, rules[i]) && rules[i].lineNumber !in errors
    ensures |FileRules(fileContent, errors)| <= |SplitLines(fileContent)|
  {
    var lines := SplitLines(fileContent);
    ScanRules(lines, errors);
    ReversedRules(lines, errors, ScanLines(lines, errors).rules);
  }

  lemma ReversedRules(lines: seq<string>, errors: seq<int>, scanned: seq<Rule>)
    requires forall i :: 0 <= i < |scanned| ==> FromLine(lines, errors, scanned[i])
    requires forall i, j :: 0 <= i < j < |scanned| ==> scanned[i].lineNumber < scanned[j].lineNumber
    ensures var rules := Reverse(scanned);
      forall i, j :: 0 <= i < j < |rules| ==> rules[i].lineNumber > rules[j].lineNumber
    ensures var rules := Reverse(scanned);
      forall i :: 0 <= i < |rules| ==> FromLine(lines, errors, rules[i]) && rules[i].lineNumber !in errors
  {
    var rules := Reverse(scanned);
    forall i, j | 0 <= i < j < |rules| ensures rules[i].lineNumber > rules[j].lineNumber {
      assert rules[i] == scanned[|scanned| - 1 - i] && rules[j] == scanned[|scanned| - 1 - j];
    }
    forall i | 0 <= i < |rules| ensures FromLine(lines, errors, rules[i]) && rules[i].lineNumber !in errors {
      assert rules[i] == scanned[|scanned| - 1 - i];
    }
  }

  /** Line `n` gives a rule exactly when it is not skipped and `parseLine` accepts it. */
  lemma FileRulesComplete(fileContent: string, errors: seq<int>, n: int)
    ensures var rules := FileRules(fileContent, errors); var lines := SplitLines(fileContent);
      (exists i :: 0 <= i < |rules| && rules[i].lineNumber == n) <==> 1 <= n <= |lines| && Accepted(lines, errors, n)
  {
    var lines := SplitLines(fileContent);
    var scanned := ScanLines(lines, errors).rules;
    var rules := FileRules(fileContent, errors);
    FileRulesReversed(fileContent, errors);
    if 1 <= n <= |lines| && Accepted(lines, errors, n) {
      ScanKeeps(lines, errors, n);
      var i :| 0 <= i < |scanned| && scanned[i].lineNumber == n;
      assert rules[|scanned| - 1 - i] == scanned[i];
    }
  }

  /** Line `n` is reported exactly when it is not skipped and its pattern does not compile; no line gives both. */
  lemma FileReportsComplete(fileContent: string, errors: seq<int>, n: int)
    requires 1 <= n <= |SplitLines(fileContent)|
    ensures var s := ScanLines(SplitLines(fileContent), errors);
      Reported(s, n) <==> Failing(SplitLines(fileContent), errors, n)
    ensures var rules := FileRules(fileContent, errors);
      !(Reported(ScanLines(SplitLines(fileContent), errors), n) && exists i :: 0 <= i < |rules| && rules[i].lineNumber == n)
  {
    ScanReports(SplitLines(fileContent), errors, n);
    FileRulesComplete(fileContent, errors, n);
  }

  /** Texts for different line numbers differ. */
  lemma ErrorTextDiffers(n: nat, m: nat, e: PatternError, f: PatternError)
    requires n != m
    ensures ErrorText(n, e) != ErrorText(m, f)
  {
    NumberedDiffer(n, m, Message(e), Message(f));
  }

  lemma NumberedDiffer(n: nat, m: nat, u: string, v: string)
    requires n != m
    ensures "Line " + Decimal(n) + ": " + u != "Line " + Decimal(m) + ": " + v
  {
    DecimalRoundTrip(n);
    DecimalRoundTrip(m);
    var a := "Line " + Decimal(n) + ": " + u;
    var b := "Line " + Decimal(m) + ": " + v;
    AfterPrefix("Line ", Decimal(n), ": ", u);
    AfterPrefix("Line ", Decimal(m), ": ", v);
    if a == b {
      DigitsThenColon(Decimal(n), Decimal(m), ": " + u, ": " + v);
    }
  }

  lemma AfterPrefix(p: string, d: string, c: string, u: string)
    ensures (p + d + c + u)[|p|..] == d + (c + u)
  {
  }

  /** Two digit strings each followed by a colon can only line up when they are equal. */
  lemma DigitsThenColon(dn: string, dm: string, x: string, y: string)
    requires forall k :: 0 <= k < |dn| ==> '0' <= dn[k] <= '9'
    requires forall k :: 0 <= k < |dm| ==> '0' <= dm[k] <= '9'
    requires x != [] && y != [] && x[0] == ':' && y[0] == ':'
    requires dn + x == dm + y
    ensures dn == dm
  {
    var k := if |dn| < |dm| then |dn| else |dm|;
    assert (dn + x)[k] == ':' <==> k == |dn|;
    assert (dm + y)[k] == ':' <==> k == |dm|;
    assert dn == (dn + x)[..|dn|];
    assert dm == (dm + y)[..|dm|];
  }
}
