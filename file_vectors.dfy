/**
 * The cases of the repository's file-parser test suite
 * (__tests__/parse-file.test.ts): the rules, in the order `parseFile` returns
 * them, and the error texts it reports, for the inputs of lines 57-83 and
 * 245-330. The README example of lines 6-55 is in `ReadmeVectors`; the
 * GitHub example of lines 85-243 is not stated.
 *
 * Most test lines are words separated by single spaces; `WordsLine` says
 * once and for all what the line parser makes of such a line, so that each
 * case only has to name its lines and follow the scan line by line.
 */
module FileVectors {
  import opened Text
  import opened Results
  import opened Regex
  import opened ParsePattern
  import opened LineParser
  import opened FileParser

  // ---------------------------------------------------------------------------
  // Lines made of words.

  /** A word of a test line: non-empty, with no whitespace, `#` or backslash. */
  predicate Word(w: string) {
    w != [] && forall i :: 0 <= i < |w| ==> !IsWs(w[i]) && w[i] != Hash && w[i] != Backslash
  }

  predicate Words(ws: seq<string>) {
    |ws| >= 1 && forall k :: 0 <= k < |ws| ==> Word(ws[k])
  }

  /** `n` single spaces, the separators between `n + 1` words. */
  function Spaces(n: nat): (r: seq<string>)
    ensures |r| == n && forall k :: 0 <= k < n ==> r[k] == " "
  {
    seq(n, _ => " ")
  }

  /**
   * Words joined by single spaces form a line that trimming leaves alone,
   * that is neither blank nor a comment, and that splits back into the words.
   */
  lemma WordsLine(line: string, ws: seq<string>)
    requires Words(ws) && line == Join(ws, ' ')
    ensures Trim(line) == line && line != [] && line[0] != Hash
    ensures Fields(StripComment(line), false) == ws
  {
    JoinWords(ws);
    assert "" + line + "" == line;
    TrimExact("", line, "");
    StripCommentKeeps(line);
    JoinIsWeave(ws);
    WordsSeparable(ws);
    FieldsOfWeave(ws, Spaces(|ws| - 1));
  }

  /** The joined line starts and ends with a word character and holds no `#` and no line break. */
  lemma {:induction false} JoinWords(ws: seq<string>)
    requires Words(ws)
    ensures var line := Join(ws, ' ');
      line != [] && !IsWs(line[0]) && !IsWs(line[|line| - 1]) &&
      forall i :: 0 <= i < |line| ==> line[i] != Hash && line[i] != LF
    decreases |ws|
  {
    var line := Join(ws, ' ');
    var w := ws[0];
    assert Word(w);
    if |ws| > 1 {
      var rest := Join(ws[1..], ' ');
      assert Words(ws[1..]) by {
        forall k | 0 <= k < |ws| - 1 ensures Word(ws[1..][k]) {
          assert ws[1..][k] == ws[k + 1];
        }
      }
      JoinWords(ws[1..]);
      assert line == w + [' '] + rest;
      assert line[0] == w[0];
      assert line[|line| - 1] == rest[|rest| - 1];
      forall i | 0 <= i < |line| ensures line[i] != Hash && line[i] != LF {
        if i < |w| {
          assert line[i] == w[i];
        } else if i > |w| {
          assert line[i] == rest[i - |w| - 1];
        }
      }
    }
  }

  lemma {:induction false} JoinIsWeave(ws: seq<string>)
    requires |ws| >= 1
    ensures Join(ws, ' ') == Weave(ws, Spaces(|ws| - 1))
    decreases |ws|
  {
    if |ws| > 1 {
      JoinIsWeave(ws[1..]);
      var seps := Spaces(|ws| - 1);
      assert seps[0] == " " && seps[1..] == Spaces(|ws| - 2);
      assert ws[1..][1..] == ws[2..];
    }
  }

  lemma WordsSeparable(ws: seq<string>)
    requires Words(ws)
    ensures Separable(ws, Spaces(|ws| - 1))
  {
    var seps := Spaces(|ws| - 1);
    forall k | 0 <= k < |seps| ensures seps[k] != [] && AllWs(seps[k]) {
      assert seps[k] == " ";
    }
    forall k | 0 <= k < |ws| ensures Unbroken(ws[k], false) && ws[k] != [] && ws[k][|ws[k]| - 1] != Backslash {
      assert Word(ws[k]);
    }
  }

  /** A line of words is one line of a file: it holds no `\n` and does not end with `\r`. */
  lemma WordsLineUnbroken(line: string, ws: seq<string>)
    requires Words(ws) && line == Join(ws, ' ')
    ensures LF !in line && line[|line| - 1] != CR
  {
    JoinWords(ws);
  }

  /** What `parseLine` makes of a trimmed line of words: the first word as the pattern, the others as owners. */
  lemma WordsRule(line: string, ws: seq<string>, n: nat)
    requires Words(ws) && line == Join(ws, ' ')
    ensures Trim(line) == line && line != [] && line[0] != Hash
    ensures !HasTripleAsterisk(ws[0]) ==>
      ParseLine(Trim(line), n) == Success(Rule(ws[0], Compile(ws[0]).value, n, ws[1..]))
    ensures HasTripleAsterisk(ws[0]) ==> ParseLine(Trim(line), n) == Failure(TripleAsterisk)
  {
    WordsLine(line, ws);
  }

  /** A line that starts with `#` and ends with something other than whitespace is a comment, and is skipped. */
  lemma CommentLine(line: string, n: nat, errors: seq<int>)
    requires line != [] && line[0] == Hash && !IsWs(line[|line| - 1])
    ensures Skipped(line, n, errors)
  {
    assert "" + line + "" == line;
    TrimExact("", line, "");
  }

  lemma BlankLine(n: nat, errors: seq<int>)
    ensures Skipped("", n, errors)
  {
  }

  /** The scan of one more line. */
  lemma ScanSnoc(lines: seq<string>, line: string, errors: seq<int>)
    ensures ScanLines(lines + [line], errors) == LineStep(ScanLines(lines, errors), line, |lines| + 1, errors)
  {
    assert (lines + [line])[..|lines|] == lines;
  }

  /** A line of words whose number is not flagged adds its rule. */
  lemma KeepStep(lines: seq<string>, line: string, ws: seq<string>, errors: seq<int>, before: Scan)
    requires Words(ws) && line == Join(ws, ' ') && !HasTripleAsterisk(ws[0])
    requires |lines| + 1 !in errors && ScanLines(lines, errors) == before
    ensures Compile(ws[0]).Success?
    ensures ScanLines(lines + [line], errors) ==
      Scan(before.rules + [Rule(ws[0], Compile(ws[0]).value, |lines| + 1, ws[1..])], before.reports)
  {
    WordsRule(line, ws, |lines| + 1);
    ScanSnoc(lines, line, errors);
  }

  /** A line of words whose pattern holds `***` adds its error text. */
  lemma FailStep(lines: seq<string>, line: string, ws: seq<string>, errors: seq<int>, before: Scan)
    requires Words(ws) && line == Join(ws, ' ') && HasTripleAsterisk(ws[0])
    requires |lines| + 1 !in errors && ScanLines(lines, errors) == before
    ensures ScanLines(lines + [line], errors) ==
      Scan(before.rules, before.reports + [ErrorText(|lines| + 1, TripleAsterisk)])
  {
    WordsRule(line, ws, |lines| + 1);
    ScanSnoc(lines, line, errors);
  }

  /** A skipped line changes nothing. */
  lemma SkipStep(lines: seq<string>, line: string, errors: seq<int>, before: Scan)
    requires Skipped(line, |lines| + 1, errors) && ScanLines(lines, errors) == before
    ensures ScanLines(lines + [line], errors) == before
  {
    ScanSnoc(lines, line, errors);
  }

  /** Lines joined with `\n`, none holding a `\n` or ending with `\r`, are cut back into those lines. */
  lemma SplitLinesJoin(lines: seq<string>)
    requires |lines| >= 1
    requires forall k :: 0 <= k < |lines| ==> LF !in lines[k] && (lines[k] == [] || lines[k][|lines[k]| - 1] != CR)
    ensures SplitLines(Join(lines, LF)) == lines
  {
    SplitJoin(lines, LF);
  }

  /**
   * A file of one line, with no `\n`, whose trimmed text is not a comment and
   * whose pattern compiles: one rule, numbered 1, and no report.
   */
  lemma OneLineFile(text: string, line: string, pattern: string, owners: seq<string>)
    requires LF !in text && line == Trim(text) && line != [] && line[0] != Hash
    requires Fields(StripComment(line), false) == [pattern] + owners
    requires pattern != [] && !HasTripleAsterisk(pattern)
    ensures Compile(pattern).Success?
    ensures FileRules(text, []) == [Rule(pattern, Compile(pattern).value, 1, owners)]
    ensures FileReports(text, []) == []
  {
    SplitLinesOne(text);
    ParseLineGives(line, 1, pattern, owners);
    assert ScanLines([text], []) == LineStep(ScanLines([], []), text, 1, []) by {
      assert [text][..0] == [];
    }
  }

  // ---------------------------------------------------------------------------
  // "should parse space correctly" (__tests__/parse-file.test.ts:57-69)

  const SpaceInput := "hello/wo\\ rld @owner1"

  lemma SpaceFields(line: string, pattern: string)
    requires line == SpaceInput && pattern == "hello/wo\\ rld"
    ensures LF !in line && Trim(line) == line && line != [] && line[0] != Hash
    ensures Fields(StripComment(line), false) == [pattern] + ["@owner1"]
    ensures pattern != [] && !HasTripleAsterisk(pattern)
  {
    assert LF !in line && line[0] != Hash;
    assert !HasTripleAsterisk(pattern) by {
      forall i | 0 <= i && i + 2 < |pattern| ensures pattern[i] != '*' {
      }
    }
    SpaceTrim();
    SpaceText();
    SpaceWoven();
    SpaceSeparable();
    FieldsOfWeave(["hello/wo\\ rld", "@owner1"], [" "]);
  }

  lemma SpaceTrim()
    ensures Trim("hello/wo\\ rld @owner1") == "hello/wo\\ rld @owner1"
  {
    TrimExact("", "hello/wo\\ rld @owner1", "");
    assert "" + "hello/wo\\ rld @owner1" + "" == "hello/wo\\ rld @owner1";
  }

  lemma SpaceText()
    ensures StripComment("hello/wo\\ rld @owner1") == "hello/wo\\ rld @owner1"
  {
    SpaceBeforeComment();
    StripCommentKeeps("hello/wo\\ rld @owner1");
  }

  lemma SpaceBeforeComment()
    ensures forall k :: 0 <= k < |"hello/wo\\ rld @owner1"| ==> !CommentAt("hello/wo\\ rld @owner1", k)
  {
  }

  lemma SpaceWoven()
    ensures Weave(["hello/wo\\ rld", "@owner1"], [" "]) == "hello/wo\\ rld @owner1"
  {
  }

  lemma SpaceSeparable()
    ensures Separable(["hello/wo\\ rld", "@owner1"], [" "])
  {
    assert Unbroken("hello/wo\\ rld", false);
    assert Unbroken("@owner1", false);
  }

  /** An escaped space stays inside the pattern. */
  lemma ShouldParseSpaceCorrectly()
    ensures Compile("hello/wo\\ rld").Success?
    ensures FileRules(SpaceInput, []) == [Rule("hello/wo\\ rld", Compile("hello/wo\\ rld").value, 1, ["@owner1"])]
    ensures FileReports(SpaceInput, []) == []
  {
    SpaceFile(SpaceInput, "hello/wo\\ rld");
  }

  lemma SpaceFile(text: string, pattern: string)
    requires text == SpaceInput && pattern == "hello/wo\\ rld"
    ensures Compile(pattern).Success?
    ensures FileRules(text, []) == [Rule(pattern, Compile(pattern).value, 1, ["@owner1"])]
    ensures FileReports(text, []) == []
  {
    SpaceFields(text, pattern);
    OneLineFile(text, text, pattern, ["@owner1"]);
  }

  // ---------------------------------------------------------------------------
  // "should parse leading, trailing and middle whitespace correctly" (__tests__/parse-file.test.ts:71-83)

  const PaddedInput := "  \t*.md \t @owner1\t@owner2\t "
  const PaddedLine := "*.md \t @owner1\t@owner2"

  lemma PaddedFields(text: string, line: string, pattern: string)
    requires text == PaddedInput && line == PaddedLine && pattern == "*.md"
    ensures LF !in text && Trim(text) == line && line != [] && line[0] != Hash
    ensures Fields(StripComment(line), false) == [pattern] + ["@owner1", "@owner2"]
    ensures pattern != [] && !HasTripleAsterisk(pattern)
  {
    assert LF !in text && line[0] != Hash;
    assert !HasTripleAsterisk(pattern) by {
      forall i | 0 <= i && i + 2 < |pattern| ensures pattern[i] != '*' || pattern[i + 1] != '*' {
      }
    }
    PaddedTrim(text, line);
    PaddedText();
    PaddedWoven();
    PaddedSeparable();
    FieldsOfWeave(["*.md", "@owner1", "@owner2"], [" \t ", "\t"]);
  }

  lemma PaddedTrim(text: string, line: string)
    requires text == PaddedInput && line == PaddedLine
    ensures Trim(text) == line
  {
    PaddedPieces(text, "  \t", line, "\t ");
    TrimExact("  \t", line, "\t ");
  }

  lemma PaddedPieces(text: string, pre: string, core: string, post: string)
    requires text == PaddedInput && pre == "  \t" && core == PaddedLine && post == "\t "
    ensures pre + core + post == text
  {
  }

  lemma PaddedText()
    ensures StripComment("*.md \t @owner1\t@owner2") == "*.md \t @owner1\t@owner2"
  {
    PaddedBeforeComment();
    StripCommentKeeps("*.md \t @owner1\t@owner2");
  }

  lemma PaddedBeforeComment()
    ensures forall k :: 0 <= k < |"*.md \t @owner1\t@owner2"| ==> !CommentAt("*.md \t @owner1\t@owner2", k)
  {
  }

  lemma PaddedWoven()
    ensures Weave(["*.md", "@owner1", "@owner2"], [" \t ", "\t"]) == "*.md \t @owner1\t@owner2"
  {
  }

  lemma PaddedSeparable()
    ensures Separable(["*.md", "@owner1", "@owner2"], [" \t ", "\t"])
  {
    assert Unbroken("*.md", false);
    assert Unbroken("@owner1", false);
    assert Unbroken("@owner2", false);
  }

  /** Whitespace around the line and between its fields, spaces and tabs alike, only separates. */
  lemma ShouldParseLeadingTrailingAndMiddleWhitespaceCorrectly()
    ensures Compile("*.md").Success?
    ensures FileRules(PaddedInput, []) == [Rule("*.md", Compile("*.md").value, 1, ["@owner1", "@owner2"])]
    ensures FileReports(PaddedInput, []) == []
  {
    PaddedFile(PaddedInput, PaddedLine, "*.md");
  }

  lemma PaddedFile(text: string, line: string, pattern: string)
    requires text == PaddedInput && line == PaddedLine && pattern == "*.md"
    ensures Compile(pattern).Success?
    ensures FileRules(text, []) == [Rule(pattern, Compile(pattern).value, 1, ["@owner1", "@owner2"])]
    ensures FileReports(text, []) == []
  {
    PaddedFields(text, line, pattern);
    OneLineFile(text, line, pattern, ["@owner1", "@owner2"]);
  }

  // ---------------------------------------------------------------------------
  // "should skip lines specified in the errors array" (__tests__/parse-file.test.ts:281-309)

  /** The line `valid line <d>`. */
  function ValidLine(d: string): string {
    "valid line " + d
  }

  const SkipInput: string := ValidLine("1") + "\n" + ValidLine("2") + "\n" + "line with error\n" + ValidLine("4")
  const Skip3: string := "line with error"

  lemma SkipLines()
    ensures SplitLines(SkipInput) == [ValidLine("1"), ValidLine("2"), Skip3, ValidLine("4")]
  {
    var lines := [ValidLine("1"), ValidLine("2"), Skip3, ValidLine("4")];
    JoinCons(ValidLine("1"), lines[1..], LF);
    JoinCons(ValidLine("2"), lines[2..], LF);
    JoinCons(Skip3, lines[3..], LF);
    assert SkipInput == ValidLine("1") + [LF] + (ValidLine("2") + [LF] + (Skip3 + [LF] + ValidLine("4")));
    SplitLinesJoin(lines);
  }

  function ValidRule(valid: seq<Token>, n: nat, d: string): Rule {
    Rule("valid", valid, n, ["line", d])
  }

  /** A line `valid line <d>` whose number is not flagged adds its rule. */
  lemma ValidStep(lines: seq<string>, d: string, errors: seq<int>, valid: seq<Token>, before: Scan)
    requires Word(d) && Compile("valid") == Success(valid)
    requires |lines| + 1 !in errors && ScanLines(lines, errors) == before
    ensures ScanLines(lines + [ValidLine(d)], errors) ==
      Scan(before.rules + [ValidRule(valid, |lines| + 1, d)], before.reports)
  {
    var ws := ["valid", "line", d];
    ValidWords(d, ws);
    KeepStep(lines, ValidLine(d), ws, errors, before);
  }

  /** The words of `valid line <d>`: the pattern `valid` and the owners `line` and `<d>`. */
  lemma ValidWords(d: string, ws: seq<string>)
    requires Word(d) && ws == ["valid", "line", d]
    ensures Words(ws) && ValidLine(d) == Join(ws, ' ') && !HasTripleAsterisk(ws[0])
  {
    assert Word("valid") && Word("line");
    JoinCons("valid", ws[1..], ' ');
    JoinCons("line", ws[2..], ' ');
    assert !HasTripleAsterisk("valid");
  }

  lemma SkipScan1(l1: string, valid: seq<Token>)
    requires l1 == ValidLine("1") && Compile("valid") == Success(valid)
    ensures ScanLines([l1], [3]) == Scan([ValidRule(valid, 1, "1")], [])
  {
    assert Word("1");
    ValidStep([], "1", [3], valid, Scan([], []));
    assert [] + [l1] == [l1];
  }

  lemma SkipScan2(l1: string, l2: string, valid: seq<Token>)
    requires l1 == ValidLine("1") && l2 == ValidLine("2") && Compile("valid") == Success(valid)
    ensures ScanLines([l1, l2], [3]) == Scan([ValidRule(valid, 1, "1"), ValidRule(valid, 2, "2")], [])
  {
    SkipScan1(l1, valid);
    assert Word("2");
    ValidStep([l1], "2", [3], valid, Scan([ValidRule(valid, 1, "1")], []));
    assert [l1] + [l2] == [l1, l2];
  }

  lemma SkipScan3(l1: string, l2: string, l3: string, valid: seq<Token>)
    requires l1 == ValidLine("1") && l2 == ValidLine("2") && Compile("valid") == Success(valid)
    ensures ScanLines([l1, l2, l3], [3]) == Scan([ValidRule(valid, 1, "1"), ValidRule(valid, 2, "2")], [])
  {
    SkipScan2(l1, l2, valid);
    assert Skipped(l3, 3, [3]);
    SkipStep([l1, l2], l3, [3], Scan([ValidRule(valid, 1, "1"), ValidRule(valid, 2, "2")], []));
    assert [l1, l2] + [l3] == [l1, l2, l3];
  }

  /** The three lines the scan keeps, line 3 being flagged. */
  lemma SkipScan(l1: string, l2: string, l3: string, l4: string, valid: seq<Token>)
    requires l1 == ValidLine("1") && l2 == ValidLine("2") && l4 == ValidLine("4")
    requires Compile("valid") == Success(valid)
    ensures ScanLines([l1, l2, l3, l4], [3]) ==
      Scan([ValidRule(valid, 1, "1"), ValidRule(valid, 2, "2"), ValidRule(valid, 4, "4")], [])
  {
    SkipScan3(l1, l2, l3, valid);
    assert Word("4");
    ValidStep([l1, l2, l3], "4", [3], valid, Scan([ValidRule(valid, 1, "1"), ValidRule(valid, 2, "2")], []));
    assert [l1, l2, l3] + [l4] == [l1, l2, l3, l4];
  }

  /** Line 3 is flagged and left out; the others come out last line first. */
  lemma ShouldSkipLinesSpecifiedInTheErrorsArray()
    ensures Compile("valid").Success?
    ensures var valid := Compile("valid").value;
      FileRules(SkipInput, [3]) ==
        [Rule("valid", valid, 4, ["line", "4"]), Rule("valid", valid, 2, ["line", "2"]), Rule("valid", valid, 1, ["line", "1"])]
    ensures FileReports(SkipInput, [3]) == []
  {
    assert !HasTripleAsterisk("valid");
    var valid := Compile("valid").value;
    SkipLines();
    SkipScan(ValidLine("1"), ValidLine("2"), Skip3, ValidLine("4"), valid);
  }

  // ---------------------------------------------------------------------------
  // "should parse valid file content into a Ruleset" (__tests__/parse-file.test.ts:245-268)

  const Comment1: string := "# This is a comment"

  /** A leading newline, a comment, two rule lines around a blank line, and a trailing newline. */
  const ContentInput: string := "\n" + Comment1 + "\n" + ValidLine("1") + "\n\n" + ValidLine("2") + "\n"

  lemma ContentLines()
    ensures SplitLines(ContentInput) == ["", Comment1, ValidLine("1"), "", ValidLine("2"), ""]
  {
    var lines := ["", Comment1, ValidLine("1"), "", ValidLine("2"), ""];
    ContentJoined(ContentInput, lines);
    ContentUnbroken(lines);
    SplitLinesJoin(lines);
  }

  lemma ContentJoined(text: string, lines: seq<string>)
    requires text == ContentInput && lines == ["", Comment1, ValidLine("1"), "", ValidLine("2"), ""]
    ensures Join(lines, LF) == text
  {
    JoinCons("", lines[1..], LF);
    JoinCons(Comment1, lines[2..], LF);
    JoinCons(ValidLine("1"), lines[3..], LF);
    JoinCons("", lines[4..], LF);
    JoinCons(ValidLine("2"), lines[5..], LF);
    ContentNested(text, Comment1, ValidLine("1"), ValidLine("2"));
  }

  lemma ContentNested(text: string, c: string, v1: string, v2: string)
    requires text == "\n" + c + "\n" + v1 + "\n\n" + v2 + "\n"
    ensures text == "" + [LF] + (c + [LF] + (v1 + [LF] + ("" + [LF] + (v2 + [LF] + ""))))
  {
  }

  lemma ContentUnbroken(lines: seq<string>)
    requires lines == ["", Comment1, ValidLine("1"), "", ValidLine("2"), ""]
    ensures forall k :: 0 <= k < |lines| ==> LF !in lines[k] && (lines[k] == [] || lines[k][|lines[k]| - 1] != CR)
  {
  }

  /** The opening blank line and comment leave the scan empty. */
  lemma ContentScan2(l1: string, l2: string)
    requires l1 == "" && l2 == Comment1
    ensures ScanLines([l1, l2], []) == Scan([], [])
  {
    BlankLine(1, []);
    SkipStep([], l1, [], Scan([], []));
    assert [] + [l1] == [l1];
    CommentLine(l2, 2, []);
    SkipStep([l1], l2, [], Scan([], []));
    assert [l1] + [l2] == [l1, l2];
  }

  lemma ContentScan3(l1: string, l2: string, l3: string, valid: seq<Token>)
    requires l1 == "" && l2 == Comment1 && l3 == ValidLine("1")
    requires Compile("valid") == Success(valid)
    ensures ScanLines([l1, l2, l3], []) == Scan([ValidRule(valid, 3, "1")], [])
  {
    ContentScan2(l1, l2);
    assert Word("1");
    ValidStep([l1, l2], "1", [], valid, Scan([], []));
    assert [l1, l2] + [l3] == [l1, l2, l3];
  }

  lemma ContentScan4(l1: string, l2: string, l3: string, l4: string, valid: seq<Token>)
    requires l1 == "" && l2 == Comment1 && l3 == ValidLine("1") && l4 == ""
    requires Compile("valid") == Success(valid)
    ensures ScanLines([l1, l2, l3, l4], []) == Scan([ValidRule(valid, 3, "1")], [])
  {
    ContentScan3(l1, l2, l3, valid);
    BlankLine(4, []);
    SkipStep([l1, l2, l3], l4, [], Scan([ValidRule(valid, 3, "1")], []));
    assert [l1, l2, l3] + [l4] == [l1, l2, l3, l4];
  }

  lemma ContentScan5(l1: string, l2: string, l3: string, l4: string, l5: string, valid: seq<Token>)
    requires l1 == "" && l2 == Comment1 && l3 == ValidLine("1") && l4 == "" && l5 == ValidLine("2")
    requires Compile("valid") == Success(valid)
    ensures ScanLines([l1, l2, l3, l4, l5], []) == Scan([ValidRule(valid, 3, "1"), ValidRule(valid, 5, "2")], [])
  {
    ContentScan4(l1, l2, l3, l4, valid);
    assert Word("2");
    ValidStep([l1, l2, l3, l4], "2", [], valid, Scan([ValidRule(valid, 3, "1")], []));
    assert [l1, l2, l3, l4] + [l5] == [l1, l2, l3, l4, l5];
  }

  lemma ContentScan(l1: string, l2: string, l3: string, l4: string, l5: string, l6: string, valid: seq<Token>)
    requires l1 == "" && l2 == Comment1 && l3 == ValidLine("1") && l4 == "" && l5 == ValidLine("2") && l6 == ""
    requires Compile("valid") == Success(valid)
    ensures ScanLines([l1, l2, l3, l4, l5, l6], []) == Scan([ValidRule(valid, 3, "1"), ValidRule(valid, 5, "2")], [])
  {
    ContentScan5(l1, l2, l3, l4, l5, valid);
    BlankLine(6, []);
    SkipStep([l1, l2, l3, l4, l5], l6, [], Scan([ValidRule(valid, 3, "1"), ValidRule(valid, 5, "2")], []));
    assert [l1, l2, l3, l4, l5] + [l6] == [l1, l2, l3, l4, l5, l6];
  }

  /** Blank lines and the comment are skipped; the rules of lines 3 and 5 come out last line first. */
  lemma ShouldParseValidFileContentIntoARuleset()
    ensures Compile("valid").Success?
    ensures var valid := Compile("valid").value;
      FileRules(ContentInput, []) == [Rule("valid", valid, 5, ["line", "2"]), Rule("valid", valid, 3, ["line", "1"])]
    ensures FileReports(ContentInput, []) == []
  {
    assert !HasTripleAsterisk("valid");
    var valid := Compile("valid").value;
    ContentLines();
    ContentScan("", Comment1, ValidLine("1"), "", ValidLine("2"), "", valid);
  }

  // ---------------------------------------------------------------------------
  // "should skip empty lines and comments" (__tests__/parse-file.test.ts:270-279)

  const Comment2: string := "# Another comment"

  const EmptyInput: string := "\n" + Comment1 + "\n" + Comment2 + "\n\n"

  lemma EmptyLines()
    ensures SplitLines(EmptyInput) == ["", Comment1, Comment2, "", ""]
  {
    var lines := ["", Comment1, Comment2, "", ""];
    JoinCons("", lines[1..], LF);
    JoinCons(Comment1, lines[2..], LF);
    JoinCons(Comment2, lines[3..], LF);
    JoinCons("", lines[4..], LF);
    assert EmptyInput == "" + [LF] + (Comment1 + [LF] + (Comment2 + [LF] + ("" + [LF] + "")));
    SplitLinesJoin(lines);
  }

  lemma EmptyScan(l1: string, l2: string, l3: string, l4: string, l5: string)
    requires l1 == "" && l2 == Comment1 && l3 == Comment2 && l4 == "" && l5 == ""
    ensures ScanLines([l1, l2, l3, l4, l5], []) == Scan([], [])
  {
    ContentScan2(l1, l2);
    CommentLine(l3, 3, []);
    SkipStep([l1, l2], l3, [], Scan([], []));
    assert [l1, l2] + [l3] == [l1, l2, l3];
    BlankLine(4, []);
    SkipStep([l1, l2, l3], l4, [], Scan([], []));
    assert [l1, l2, l3] + [l4] == [l1, l2, l3, l4];
    BlankLine(5, []);
    SkipStep([l1, l2, l3, l4], l5, [], Scan([], []));
    assert [l1, l2, l3, l4] + [l5] == [l1, l2, l3, l4, l5];
  }

  /** Nothing but blank lines and comments: no rules and no reports. */
  lemma ShouldSkipEmptyLinesAndComments()
    ensures FileRules(EmptyInput, []) == []
    ensures FileReports(EmptyInput, []) == []
  {
    EmptyLines();
    EmptyScan("", Comment1, Comment2, "", "");
  }

  // ---------------------------------------------------------------------------
  // "should throw an error for invalid lines" (__tests__/parse-file.test.ts:311-330)

  const InvalidInput: string := "valid line\n" + "***\n" + "another valid line"

  lemma InvalidLines()
    ensures SplitLines(InvalidInput) == ["valid line", "***", "another valid line"]
  {
    var lines := ["valid line", "***", "another valid line"];
    JoinCons("valid line", lines[1..], LF);
    JoinCons("***", lines[2..], LF);
    assert InvalidInput == "valid line" + [LF] + ("***" + [LF] + "another valid line");
    SplitLinesJoin(lines);
  }

  /** The first line: the rule `valid` owned by `line`. */
  lemma InvalidScan1(l1: string)
    requires l1 == "valid line"
    ensures Compile("valid").Success?
    ensures ScanLines([l1], []) == Scan([Rule("valid", Compile("valid").value, 1, ["line"])], [])
  {
    var ws := ["valid", "line"];
    assert Word("valid") && Word("line");
    assert l1 == Join(ws, ' ') by {
      JoinCons("valid", ws[1..], ' ');
    }
    assert !HasTripleAsterisk("valid");
    KeepStep([], l1, ws, [], Scan([], []));
    assert [] + [l1] == [l1];
  }

  /** The second line is `***`: its error text is reported and no rule is added. */
  lemma InvalidScan2(l1: string, l2: string, first: Rule)
    requires l1 == "valid line" && l2 == "***" && ScanLines([l1], []) == Scan([first], [])
    ensures ScanLines([l1, l2], []) == Scan([first], [ErrorText(2, TripleAsterisk)])
  {
    assert Word("***");
    assert Words(["***"]);
    assert l2[0] == '*' && l2[1] == '*' && l2[2] == '*';
    assert HasTripleAsterisk(l2);
    FailStep([l1], l2, ["***"], [], Scan([first], []));
    assert [l1] + [l2] == [l1, l2];
  }

  lemma AnotherWords(l3: string, ws: seq<string>)
    requires l3 == "another valid line" && ws == ["another", "valid", "line"]
    ensures Words(ws) && l3 == Join(ws, ' ') && !HasTripleAsterisk(ws[0])
  {
    assert Word("another") && Word("valid") && Word("line");
    JoinCons("another", ws[1..], ' ');
    JoinCons("valid", ws[2..], ' ');
  }

  /** The third line: the rule `another` owned by `valid` and `line`. */
  lemma InvalidScan3(l1: string, l2: string, l3: string, before: Scan)
    requires l3 == "another valid line" && ScanLines([l1, l2], []) == before
    ensures Compile("another").Success?
    ensures ScanLines([l1, l2, l3], []) ==
      Scan(before.rules + [Rule("another", Compile("another").value, 3, ["valid", "line"])], before.reports)
  {
    var ws := ["another", "valid", "line"];
    AnotherWords(l3, ws);
    KeepStep([l1, l2], l3, ws, [], before);
    assert [l1, l2] + [l3] == [l1, l2, l3];
  }

  lemma InvalidScan(l1: string, l2: string, l3: string)
    requires l1 == "valid line" && l2 == "***" && l3 == "another valid line"
    ensures Compile("valid").Success? && Compile("another").Success?
    ensures ScanLines([l1, l2, l3], []) ==
      Scan([Rule("valid", Compile("valid").value, 1, ["line"]), Rule("another", Compile("another").value, 3, ["valid", "line"])],
           [ErrorText(2, TripleAsterisk)])
  {
    InvalidScan1(l1);
    var first := Rule("valid", Compile("valid").value, 1, ["line"]);
    InvalidScan2(l1, l2, first);
    InvalidScan3(l1, l2, l3, Scan([first], [ErrorText(2, TripleAsterisk)]));
  }

  /**
   * The `***` line is reported as line 2 and dropped; the rules of lines 3
   * and 1 come out last line first.
   */
  lemma ShouldThrowAnErrorForInvalidLines()
    ensures Compile("valid").Success? && Compile("another").Success?
    ensures FileRules(InvalidInput, []) ==
      [Rule("another", Compile("another").value, 3, ["valid", "line"]), Rule("valid", Compile("valid").value, 1, ["line"])]
    ensures FileReports(InvalidInput, []) == [ErrorText(2, TripleAsterisk)]
  {
    assert !HasTripleAsterisk("valid") && !HasTripleAsterisk("another");
    var r1 := Rule("valid", Compile("valid").value, 1, ["line"]);
    var r3 := Rule("another", Compile("another").value, 3, ["valid", "line"]);
    InvalidFile(InvalidInput, "valid line", "***", "another valid line", r1, r3);
  }

  lemma InvalidFile(text: string, l1: string, l2: string, l3: string, r1: Rule, r3: Rule)
    requires text == InvalidInput && l1 == "valid line" && l2 == "***" && l3 == "another valid line"
    requires Compile("valid").Success? && Compile("another").Success?
    requires r1 == Rule("valid", Compile("valid").value, 1, ["line"])
    requires r3 == Rule("another", Compile("another").value, 3, ["valid", "line"])
    ensures FileRules(text, []) == [r3, r1]
    ensures FileReports(text, []) == [ErrorText(2, TripleAsterisk)]
  {
    InvalidLines();
    InvalidScan(l1, l2, l3);
    ReversePair(ScanLines([l1, l2, l3], []).rules, r1, r3);
  }

  lemma ReversePair<T>(s: seq<T>, x: T, y: T)
    requires s == [x, y]
    ensures Reverse(s) == [y, x]
  {
  }
}
