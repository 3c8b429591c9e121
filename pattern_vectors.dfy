/**
 * The pattern cases of the repository's own test suite
 * (__tests__/parse-pattern.test.ts), each path with the verdict the suite
 * expects, checked against the compiled tokens and the matcher.
 */
module PatternVectors {
  import opened Text
  import opened Regex
  import opened Results
  import opened ParsePattern

  /**
   * The compiled tokens of a pattern without `***` that splits at its
   * slashes into `pieces`, rewritten to `segs`.
   */
  lemma CompileOf(p: string, pieces: seq<string>, segs: seq<string>)
    requires forall i :: 0 <= i && i + 2 < |p| ==> p[i] != '*' || p[i + 1] != '*' || p[i + 2] != '*'
    requires p != [] && p != "/"
    requires |pieces| >= 1 && (forall i :: 0 <= i < |pieces| ==> Sep !in pieces[i])
    requires Join(pieces, Sep) == p && Rewrite(pieces) == segs
    ensures Compile(p) == Success(EmitFrom(segs, 0, false))
  {
    SplitJoin(pieces, Sep);
  }

  // "foo": the case "single-segment pattern" (__tests__/parse-pattern.test.ts:5-22)
  const SingleSegmentPatternPattern: string := "foo"
  const SingleSegmentPatternTokens: seq<Token> := [OptPrefixDirs, Char('f'), Char('o'), Char('o'), OptDescendants]

  lemma SingleSegmentPatternSegments()
    ensures Compile(SingleSegmentPatternPattern) == Success(EmitFrom(["**", "foo"], 0, false))
  {
    CompileOf(SingleSegmentPatternPattern, ["foo"], ["**", "foo"]);
  }

  lemma SingleSegmentPatternEmitted1()
    ensures EmitFrom(["**", "foo"], 1, false) == [Char('f'), Char('o'), Char('o'), OptDescendants]
  {
  }

  lemma SingleSegmentPatternEmitted()
    ensures EmitFrom(["**", "foo"], 0, false) == SingleSegmentPatternTokens
  {
    SingleSegmentPatternEmitted1();
  }

  lemma SingleSegmentPatternCompiled()
    ensures Compile(SingleSegmentPatternPattern) == Success(SingleSegmentPatternTokens)
  {
    SingleSegmentPatternSegments();
    SingleSegmentPatternEmitted();
  }

  lemma SingleSegmentPatternPath1(s: string)
    requires s == "foo"
    ensures Matches(SingleSegmentPatternTokens, s)
  {
    assert Step(SingleSegmentPatternTokens, 5, s, 3, 0);
    assert Step(SingleSegmentPatternTokens, 4, s, 3, 0);
    assert Step(SingleSegmentPatternTokens, 3, s, 2, 0);
    assert Step(SingleSegmentPatternTokens, 2, s, 1, 0);
    assert Step(SingleSegmentPatternTokens, 1, s, 0, 0);
  }

  lemma SingleSegmentPatternPath2Part1(s: string)
    requires s == "foo.txt"
    ensures !Step(SingleSegmentPatternTokens, 0, s, 3, 1)
    ensures !Step(SingleSegmentPatternTokens, 3, s, 2, 0)
  {
    assert !Step(SingleSegmentPatternTokens, 0, s, 7, 1);
    assert !Step(SingleSegmentPatternTokens, 0, s, 6, 1);
    assert !Step(SingleSegmentPatternTokens, 0, s, 5, 1);
    assert !Step(SingleSegmentPatternTokens, 0, s, 4, 1);
    assert !Step(SingleSegmentPatternTokens, 5, s, 3, 0);
    assert !Step(SingleSegmentPatternTokens, 4, s, 3, 0);
    assert !Step(SingleSegmentPatternTokens, 0, s, 3, 1);
    assert !Step(SingleSegmentPatternTokens, 3, s, 2, 0);
  }

  lemma SingleSegmentPatternPath2Part2(s: string)
    requires s == "foo.txt"
    requires !Step(SingleSegmentPatternTokens, 0, s, 3, 1)
    requires !Step(SingleSegmentPatternTokens, 3, s, 2, 0)
    ensures !Step(SingleSegmentPatternTokens, 0, s, 1, 1)
    ensures !Step(SingleSegmentPatternTokens, 1, s, 0, 0)
  {
    assert !Step(SingleSegmentPatternTokens, 0, s, 2, 1);
    assert !Step(SingleSegmentPatternTokens, 2, s, 1, 0);
    assert !Step(SingleSegmentPatternTokens, 0, s, 1, 1);
    assert !Step(SingleSegmentPatternTokens, 1, s, 0, 0);
  }

  lemma SingleSegmentPatternPath2(s: string)
    requires s == "foo.txt"
    ensures !Matches(SingleSegmentPatternTokens, s)
  {
    SingleSegmentPatternPath2Part1(s);
    SingleSegmentPatternPath2Part2(s);
  }

  lemma SingleSegmentPatternPath3(s: string)
    requires s == "foo/bar"
    ensures Matches(SingleSegmentPatternTokens, s)
  {
    assert Step(SingleSegmentPatternTokens, 5, s, 7, 0);
    assert Step(SingleSegmentPatternTokens, 4, s, 7, 1);
    assert Step(SingleSegmentPatternTokens, 4, s, 6, 1);
    assert Step(SingleSegmentPatternTokens, 4, s, 5, 1);
    assert Step(SingleSegmentPatternTokens, 4, s, 4, 1);
    assert Step(SingleSegmentPatternTokens, 4, s, 3, 0);
    assert Step(SingleSegmentPatternTokens, 3, s, 2, 0);
    assert Step(SingleSegmentPatternTokens, 2, s, 1, 0);
    assert Step(SingleSegmentPatternTokens, 1, s, 0, 0);
  }

  lemma SingleSegmentPatternPath4(s: string)
    requires s == "bar/foo"
    ensures Matches(SingleSegmentPatternTokens, s)
  {
    assert Step(SingleSegmentPatternTokens, 5, s, 7, 0);
    assert Step(SingleSegmentPatternTokens, 4, s, 7, 0);
    assert Step(SingleSegmentPatternTokens, 3, s, 6, 0);
    assert Step(SingleSegmentPatternTokens, 2, s, 5, 0);
    assert Step(SingleSegmentPatternTokens, 1, s, 4, 0);
    assert Step(SingleSegmentPatternTokens, 0, s, 3, 1);
    assert Step(SingleSegmentPatternTokens, 0, s, 2, 1);
    assert Step(SingleSegmentPatternTokens, 0, s, 1, 1);
  }

  lemma SingleSegmentPatternPath5Part1(s: string)
    requires s == "bar/foo.txt"
    ensures !Step(SingleSegmentPatternTokens, 0, s, 7, 1)
    ensures !Step(SingleSegmentPatternTokens, 3, s, 6, 0)
  {
    assert !Step(SingleSegmentPatternTokens, 0, s, 11, 1);
    assert !Step(SingleSegmentPatternTokens, 0, s, 10, 1);
    assert !Step(SingleSegmentPatternTokens, 0, s, 9, 1);
    assert !Step(SingleSegmentPatternTokens, 0, s, 8, 1);
    assert !Step(SingleSegmentPatternTokens, 5, s, 7, 0);
    assert !Step(SingleSegmentPatternTokens, 4, s, 7, 0);
    assert !Step(SingleSegmentPatternTokens, 0, s, 7, 1);
    assert !Step(SingleSegmentPatternTokens, 3, s, 6, 0);
  }

  lemma SingleSegmentPatternPath5Part2(s: string)
    requires s == "bar/foo.txt"
    requires !Step(SingleSegmentPatternTokens, 0, s, 7, 1)
    requires !Step(SingleSegmentPatternTokens, 3, s, 6, 0)
    ensures !Step(SingleSegmentPatternTokens, 0, s, 1, 1)
  {
    assert !Step(SingleSegmentPatternTokens, 0, s, 6, 1);
    assert !Step(SingleSegmentPatternTokens, 2, s, 5, 0);
    assert !Step(SingleSegmentPatternTokens, 0, s, 5, 1);
    assert !Step(SingleSegmentPatternTokens, 1, s, 4, 0);
    assert !Step(SingleSegmentPatternTokens, 0, s, 4, 1);
    assert !Step(SingleSegmentPatternTokens, 0, s, 3, 1);
    assert !Step(SingleSegmentPatternTokens, 0, s, 2, 1);
    assert !Step(SingleSegmentPatternTokens, 0, s, 1, 1);
  }

  lemma SingleSegmentPatternPath5Part3(s: string)
    requires s == "bar/foo.txt"
    ensures !Step(SingleSegmentPatternTokens, 1, s, 0, 0)
  {
    assert !Step(SingleSegmentPatternTokens, 1, s, 0, 0);
  }

  lemma SingleSegmentPatternPath5(s: string)
    requires s == "bar/foo.txt"
    ensures !Matches(SingleSegmentPatternTokens, s)
  {
    SingleSegmentPatternPath5Part1(s);
    SingleSegmentPatternPath5Part2(s);
    SingleSegmentPatternPath5Part3(s);
  }

  lemma SingleSegmentPatternPath6(s: string)
    requires s == "bar/baz"
    ensures !Matches(SingleSegmentPatternTokens, s)
  {
    assert !Step(SingleSegmentPatternTokens, 0, s, 7, 1);
    assert !Step(SingleSegmentPatternTokens, 0, s, 6, 1);
    assert !Step(SingleSegmentPatternTokens, 0, s, 5, 1);
    assert !Step(SingleSegmentPatternTokens, 1, s, 4, 0);
    assert !Step(SingleSegmentPatternTokens, 0, s, 4, 1);
    assert !Step(SingleSegmentPatternTokens, 0, s, 3, 1);
    assert !Step(SingleSegmentPatternTokens, 0, s, 2, 1);
    assert !Step(SingleSegmentPatternTokens, 0, s, 1, 1);
    assert !Step(SingleSegmentPatternTokens, 1, s, 0, 0);
  }

  lemma SingleSegmentPatternPath7Part1(s: string)
    requires s == "bar/foo/baz"
    ensures Step(SingleSegmentPatternTokens, 2, s, 5, 0)
  {
    assert Step(SingleSegmentPatternTokens, 5, s, 11, 0);
    assert Step(SingleSegmentPatternTokens, 4, s, 11, 1);
    assert Step(SingleSegmentPatternTokens, 4, s, 10, 1);
    assert Step(SingleSegmentPatternTokens, 4, s, 9, 1);
    assert Step(SingleSegmentPatternTokens, 4, s, 8, 1);
    assert Step(SingleSegmentPatternTokens, 4, s, 7, 0);
    assert Step(SingleSegmentPatternTokens, 3, s, 6, 0);
    assert Step(SingleSegmentPatternTokens, 2, s, 5, 0);
  }

  lemma SingleSegmentPatternPath7Part2(s: string)
    requires s == "bar/foo/baz"
    requires Step(SingleSegmentPatternTokens, 2, s, 5, 0)
    ensures Step(SingleSegmentPatternTokens, 0, s, 1, 1)
  {
    assert Step(SingleSegmentPatternTokens, 1, s, 4, 0);
    assert Step(SingleSegmentPatternTokens, 0, s, 3, 1);
    assert Step(SingleSegmentPatternTokens, 0, s, 2, 1);
    assert Step(SingleSegmentPatternTokens, 0, s, 1, 1);
  }

  lemma SingleSegmentPatternPath7(s: string)
    requires s == "bar/foo/baz"
    ensures Matches(SingleSegmentPatternTokens, s)
  {
    SingleSegmentPatternPath7Part1(s);
    SingleSegmentPatternPath7Part2(s);
  }

  /** The verdicts the case expects for its paths. */
  lemma SingleSegmentPatternPaths()
    ensures Matches(SingleSegmentPatternTokens, "foo")
    ensures !Matches(SingleSegmentPatternTokens, "foo.txt")
    ensures Matches(SingleSegmentPatternTokens, "foo/bar")
    ensures Matches(SingleSegmentPatternTokens, "bar/foo")
    ensures !Matches(SingleSegmentPatternTokens, "bar/foo.txt")
    ensures !Matches(SingleSegmentPatternTokens, "bar/baz")
    ensures Matches(SingleSegmentPatternTokens, "bar/foo/baz")
  {
    SingleSegmentPatternPath1("foo");
    SingleSegmentPatternPath2("foo.txt");
    SingleSegmentPatternPath3("foo/bar");
    SingleSegmentPatternPath4("bar/foo");
    SingleSegmentPatternPath5("bar/foo.txt");
    SingleSegmentPatternPath6("bar/baz");
    SingleSegmentPatternPath7("bar/foo/baz");
  }

  // "/foo": the case "single-segment pattern with leading slash" (__tests__/parse-pattern.test.ts:24-41)
  const SingleSegmentPatternWithLeadingSlashPattern: string := "/foo"
  const SingleSegmentPatternWithLeadingSlashTokens: seq<Token> := [Char('f'), Char('o'), Char('o'), OptDescendants]

  lemma SingleSegmentPatternWithLeadingSlashSegments()
    ensures Compile(SingleSegmentPatternWithLeadingSlashPattern) == Success(EmitFrom(["foo"], 0, false))
  {
    CompileOf(SingleSegmentPatternWithLeadingSlashPattern, ["", "foo"], ["foo"]);
  }

  lemma SingleSegmentPatternWithLeadingSlashEmitted()
    ensures EmitFrom(["foo"], 0, false) == SingleSegmentPatternWithLeadingSlashTokens
  {
  }

  lemma SingleSegmentPatternWithLeadingSlashCompiled()
    ensures Compile(SingleSegmentPatternWithLeadingSlashPattern) == Success(SingleSegmentPatternWithLeadingSlashTokens)
  {
    SingleSegmentPatternWithLeadingSlashSegments();
    SingleSegmentPatternWithLeadingSlashEmitted();
  }

  lemma SingleSegmentPatternWithLeadingSlashPath1(s: string)
    requires s == "foo"
    ensures Matches(SingleSegmentPatternWithLeadingSlashTokens, s)
  {
    assert Step(SingleSegmentPatternWithLeadingSlashTokens, 4, s, 3, 0);
    assert Step(SingleSegmentPatternWithLeadingSlashTokens, 3, s, 3, 0);
    assert Step(SingleSegmentPatternWithLeadingSlashTokens, 2, s, 2, 0);
    assert Step(SingleSegmentPatternWithLeadingSlashTokens, 1, s, 1, 0);
  }

  lemma SingleSegmentPatternWithLeadingSlashPath2(s: string)
    requires s == "fool.txt"
    ensures !Matches(SingleSegmentPatternWithLeadingSlashTokens, s)
  {
    assert !Step(SingleSegmentPatternWithLeadingSlashTokens, 4, s, 3, 0);
    assert !Step(SingleSegmentPatternWithLeadingSlashTokens, 3, s, 3, 0);
    assert !Step(SingleSegmentPatternWithLeadingSlashTokens, 2, s, 2, 0);
    assert !Step(SingleSegmentPatternWithLeadingSlashTokens, 1, s, 1, 0);
  }

  lemma SingleSegmentPatternWithLeadingSlashPath3(s: string)
    requires s == "foo/bar"
    ensures Matches(SingleSegmentPatternWithLeadingSlashTokens, s)
  {
    assert Step(SingleSegmentPatternWithLeadingSlashTokens, 4, s, 7, 0);
    assert Step(SingleSegmentPatternWithLeadingSlashTokens, 3, s, 7, 1);
    assert Step(SingleSegmentPatternWithLeadingSlashTokens, 3, s, 6, 1);
    assert Step(SingleSegmentPatternWithLeadingSlashTokens, 3, s, 5, 1);
    assert Step(SingleSegmentPatternWithLeadingSlashTokens, 3, s, 4, 1);
    assert Step(SingleSegmentPatternWithLeadingSlashTokens, 3, s, 3, 0);
    assert Step(SingleSegmentPatternWithLeadingSlashTokens, 2, s, 2, 0);
    assert Step(SingleSegmentPatternWithLeadingSlashTokens, 1, s, 1, 0);
  }

  lemma SingleSegmentPatternWithLeadingSlashPath4(s: string)
    requires s == "bar/foo"
    ensures !Matches(SingleSegmentPatternWithLeadingSlashTokens, s)
  {
  }

  lemma SingleSegmentPatternWithLeadingSlashPath5(s: string)
    requires s == "bar/baz"
    ensures !Matches(SingleSegmentPatternWithLeadingSlashTokens, s)
  {
  }

  lemma SingleSegmentPatternWithLeadingSlashPath6Part1(s: string)
    requires s == "foo/bar/baz"
    ensures Step(SingleSegmentPatternWithLeadingSlashTokens, 3, s, 5, 1)
  {
    assert Step(SingleSegmentPatternWithLeadingSlashTokens, 4, s, 11, 0);
    assert Step(SingleSegmentPatternWithLeadingSlashTokens, 3, s, 11, 1);
    assert Step(SingleSegmentPatternWithLeadingSlashTokens, 3, s, 10, 1);
    assert Step(SingleSegmentPatternWithLeadingSlashTokens, 3, s, 9, 1);
    assert Step(SingleSegmentPatternWithLeadingSlashTokens, 3, s, 8, 1);
    assert Step(SingleSegmentPatternWithLeadingSlashTokens, 3, s, 7, 1);
    assert Step(SingleSegmentPatternWithLeadingSlashTokens, 3, s, 6, 1);
    assert Step(SingleSegmentPatternWithLeadingSlashTokens, 3, s, 5, 1);
  }

  lemma SingleSegmentPatternWithLeadingSlashPath6Part2(s: string)
    requires s == "foo/bar/baz"
    requires Step(SingleSegmentPatternWithLeadingSlashTokens, 3, s, 5, 1)
    ensures Step(SingleSegmentPatternWithLeadingSlashTokens, 1, s, 1, 0)
  {
    assert Step(SingleSegmentPatternWithLeadingSlashTokens, 3, s, 4, 1);
    assert Step(SingleSegmentPatternWithLeadingSlashTokens, 3, s, 3, 0);
    assert Step(SingleSegmentPatternWithLeadingSlashTokens, 2, s, 2, 0);
    assert Step(SingleSegmentPatternWithLeadingSlashTokens, 1, s, 1, 0);
  }

  lemma SingleSegmentPatternWithLeadingSlashPath6(s: string)
    requires s == "foo/bar/baz"
    ensures Matches(SingleSegmentPatternWithLeadingSlashTokens, s)
  {
    SingleSegmentPatternWithLeadingSlashPath6Part1(s);
    SingleSegmentPatternWithLeadingSlashPath6Part2(s);
  }

  lemma SingleSegmentPatternWithLeadingSlashPath7(s: string)
    requires s == "bar/foo/baz"
    ensures !Matches(SingleSegmentPatternWithLeadingSlashTokens, s)
  {
  }

  /** The verdicts the case expects for its paths. */
  lemma SingleSegmentPatternWithLeadingSlashPaths()
    ensures Matches(SingleSegmentPatternWithLeadingSlashTokens, "foo")
    ensures !Matches(SingleSegmentPatternWithLeadingSlashTokens, "fool.txt")
    ensures Matches(SingleSegmentPatternWithLeadingSlashTokens, "foo/bar")
    ensures !Matches(SingleSegmentPatternWithLeadingSlashTokens, "bar/foo")
    ensures !Matches(SingleSegmentPatternWithLeadingSlashTokens, "bar/baz")
    ensures Matches(SingleSegmentPatternWithLeadingSlashTokens, "foo/bar/baz")
    ensures !Matches(SingleSegmentPatternWithLeadingSlashTokens, "bar/foo/baz")
  {
    SingleSegmentPatternWithLeadingSlashPath1("foo");
    SingleSegmentPatternWithLeadingSlashPath2("fool.txt");
    SingleSegmentPatternWithLeadingSlashPath3("foo/bar");
    SingleSegmentPatternWithLeadingSlashPath4("bar/foo");
    SingleSegmentPatternWithLeadingSlashPath5("bar/baz");
    SingleSegmentPatternWithLeadingSlashPath6("foo/bar/baz");
    SingleSegmentPatternWithLeadingSlashPath7("bar/foo/baz");
  }

  // "foo/": the case "single-segment pattern with trailing slash" (__tests__/parse-pattern.test.ts:43-60)
  const SingleSegmentPatternWithTrailingSlashPattern: string := "foo/"
  const SingleSegmentPatternWithTrailingSlashTokens: seq<Token> := [OptPrefixDirs, Char('f'), Char('o'), Char('o'), Char('/'), AnyStar]

  lemma SingleSegmentPatternWithTrailingSlashSegments()
    ensures Compile(SingleSegmentPatternWithTrailingSlashPattern) == Success(EmitFrom(["**", "foo", "**"], 0, false))
  {
    CompileOf(SingleSegmentPatternWithTrailingSlashPattern, ["foo", ""], ["**", "foo", "**"]);
  }

  lemma SingleSegmentPatternWithTrailingSlashEmitted2()
    ensures EmitFrom(["**", "foo", "**"], 2, true) == [Char('/'), AnyStar]
  {
  }

  lemma SingleSegmentPatternWithTrailingSlashEmitted1()
    ensures EmitFrom(["**", "foo", "**"], 1, false) == [Char('f'), Char('o'), Char('o'), Char('/'), AnyStar]
  {
    SingleSegmentPatternWithTrailingSlashEmitted2();
  }

  lemma SingleSegmentPatternWithTrailingSlashEmitted()
    ensures EmitFrom(["**", "foo", "**"], 0, false) == SingleSegmentPatternWithTrailingSlashTokens
  {
    SingleSegmentPatternWithTrailingSlashEmitted1();
  }

  lemma SingleSegmentPatternWithTrailingSlashCompiled()
    ensures Compile(SingleSegmentPatternWithTrailingSlashPattern) == Success(SingleSegmentPatternWithTrailingSlashTokens)
  {
    SingleSegmentPatternWithTrailingSlashSegments();
    SingleSegmentPatternWithTrailingSlashEmitted();
  }

  lemma SingleSegmentPatternWithTrailingSlashPath1(s: string)
    requires s == "foo"
    ensures !Matches(SingleSegmentPatternWithTrailingSlashTokens, s)
  {
    assert !Step(SingleSegmentPatternWithTrailingSlashTokens, 4, s, 3, 0);
    assert !Step(SingleSegmentPatternWithTrailingSlashTokens, 0, s, 3, 1);
    assert !Step(SingleSegmentPatternWithTrailingSlashTokens, 3, s, 2, 0);
    assert !Step(SingleSegmentPatternWithTrailingSlashTokens, 0, s, 2, 1);
    assert !Step(SingleSegmentPatternWithTrailingSlashTokens, 2, s, 1, 0);
    assert !Step(SingleSegmentPatternWithTrailingSlashTokens, 0, s, 1, 1);
    assert !Step(SingleSegmentPatternWithTrailingSlashTokens, 1, s, 0, 0);
  }

  lemma SingleSegmentPatternWithTrailingSlashPath2(s: string)
    requires s == "foo/bar"
    ensures Matches(SingleSegmentPatternWithTrailingSlashTokens, s)
  {
    assert Step(SingleSegmentPatternWithTrailingSlashTokens, 6, s, 7, 0);
    assert Step(SingleSegmentPatternWithTrailingSlashTokens, 5, s, 7, 0);
    assert Step(SingleSegmentPatternWithTrailingSlashTokens, 5, s, 6, 0);
    assert Step(SingleSegmentPatternWithTrailingSlashTokens, 5, s, 5, 0);
    assert Step(SingleSegmentPatternWithTrailingSlashTokens, 5, s, 4, 0);
    assert Step(SingleSegmentPatternWithTrailingSlashTokens, 4, s, 3, 0);
    assert Step(SingleSegmentPatternWithTrailingSlashTokens, 3, s, 2, 0);
    assert Step(SingleSegmentPatternWithTrailingSlashTokens, 2, s, 1, 0);
    assert Step(SingleSegmentPatternWithTrailingSlashTokens, 1, s, 0, 0);
  }

  lemma SingleSegmentPatternWithTrailingSlashPath3Part1(s: string)
    requires s == "foo/bar/baz"
    ensures Step(SingleSegmentPatternWithTrailingSlashTokens, 5, s, 5, 0)
  {
    assert Step(SingleSegmentPatternWithTrailingSlashTokens, 6, s, 11, 0);
    assert Step(SingleSegmentPatternWithTrailingSlashTokens, 5, s, 11, 0);
    assert Step(SingleSegmentPatternWithTrailingSlashTokens, 5, s, 10, 0);
    assert Step(SingleSegmentPatternWithTrailingSlashTokens, 5, s, 9, 0);
    assert Step(SingleSegmentPatternWithTrailingSlashTokens, 5, s, 8, 0);
    assert Step(SingleSegmentPatternWithTrailingSlashTokens, 5, s, 7, 0);
    assert Step(SingleSegmentPatternWithTrailingSlashTokens, 5, s, 6, 0);
    assert Step(SingleSegmentPatternWithTrailingSlashTokens, 5, s, 5, 0);
  }

  lemma SingleSegmentPatternWithTrailingSlashPath3Part2(s: string)
    requires s == "foo/bar/baz"
    requires Step(SingleSegmentPatternWithTrailingSlashTokens, 5, s, 5, 0)
    ensures Step(SingleSegmentPatternWithTrailingSlashTokens, 1, s, 0, 0)
  {
    assert Step(SingleSegmentPatternWithTrailingSlashTokens, 5, s, 4, 0);
    assert Step(SingleSegmentPatternWithTrailingSlashTokens, 4, s, 3, 0);
    assert Step(SingleSegmentPatternWithTrailingSlashTokens, 3, s, 2, 0);
    assert Step(SingleSegmentPatternWithTrailingSlashTokens, 2, s, 1, 0);
    assert Step(SingleSegmentPatternWithTrailingSlashTokens, 1, s, 0, 0);
  }

  lemma SingleSegmentPatternWithTrailingSlashPath3(s: string)
    requires s == "foo/bar/baz"
    ensures Matches(SingleSegmentPatternWithTrailingSlashTokens, s)
  {
    SingleSegmentPatternWithTrailingSlashPath3Part1(s);
    SingleSegmentPatternWithTrailingSlashPath3Part2(s);
  }

  lemma SingleSegmentPatternWithTrailingSlashPath4Part1(s: string)
    requires s == "bar/foo"
    ensures !Step(SingleSegmentPatternWithTrailingSlashTokens, 1, s, 4, 0)
    ensures !Step(SingleSegmentPatternWithTrailingSlashTokens, 0, s, 4, 1)
  {
    assert !Step(SingleSegmentPatternWithTrailingSlashTokens, 4, s, 7, 0);
    assert !Step(SingleSegmentPatternWithTrailingSlashTokens, 0, s, 7, 1);
    assert !Step(SingleSegmentPatternWithTrailingSlashTokens, 3, s, 6, 0);
    assert !Step(SingleSegmentPatternWithTrailingSlashTokens, 0, s, 6, 1);
    assert !Step(SingleSegmentPatternWithTrailingSlashTokens, 2, s, 5, 0);
    assert !Step(SingleSegmentPatternWithTrailingSlashTokens, 0, s, 5, 1);
    assert !Step(SingleSegmentPatternWithTrailingSlashTokens, 1, s, 4, 0);
    assert !Step(SingleSegmentPatternWithTrailingSlashTokens, 0, s, 4, 1);
  }

  lemma SingleSegmentPatternWithTrailingSlashPath4Part2(s: string)
    requires s == "bar/foo"
    requires !Step(SingleSegmentPatternWithTrailingSlashTokens, 1, s, 4, 0)
    requires !Step(SingleSegmentPatternWithTrailingSlashTokens, 0, s, 4, 1)
    ensures !Step(SingleSegmentPatternWithTrailingSlashTokens, 0, s, 1, 1)
    ensures !Step(SingleSegmentPatternWithTrailingSlashTokens, 1, s, 0, 0)
  {
    assert !Step(SingleSegmentPatternWithTrailingSlashTokens, 0, s, 3, 1);
    assert !Step(SingleSegmentPatternWithTrailingSlashTokens, 0, s, 2, 1);
    assert !Step(SingleSegmentPatternWithTrailingSlashTokens, 0, s, 1, 1);
    assert !Step(SingleSegmentPatternWithTrailingSlashTokens, 1, s, 0, 0);
  }

  lemma SingleSegmentPatternWithTrailingSlashPath4(s: string)
    requires s == "bar/foo"
    ensures !Matches(SingleSegmentPatternWithTrailingSlashTokens, s)
  {
    SingleSegmentPatternWithTrailingSlashPath4Part1(s);
    SingleSegmentPatternWithTrailingSlashPath4Part2(s);
  }

  lemma SingleSegmentPatternWithTrailingSlashPath5(s: string)
    requires s == "bar/baz"
    ensures !Matches(SingleSegmentPatternWithTrailingSlashTokens, s)
  {
    assert !Step(SingleSegmentPatternWithTrailingSlashTokens, 0, s, 7, 1);
    assert !Step(SingleSegmentPatternWithTrailingSlashTokens, 0, s, 6, 1);
    assert !Step(SingleSegmentPatternWithTrailingSlashTokens, 0, s, 5, 1);
    assert !Step(SingleSegmentPatternWithTrailingSlashTokens, 1, s, 4, 0);
    assert !Step(SingleSegmentPatternWithTrailingSlashTokens, 0, s, 4, 1);
    assert !Step(SingleSegmentPatternWithTrailingSlashTokens, 0, s, 3, 1);
    assert !Step(SingleSegmentPatternWithTrailingSlashTokens, 0, s, 2, 1);
    assert !Step(SingleSegmentPatternWithTrailingSlashTokens, 0, s, 1, 1);
    assert !Step(SingleSegmentPatternWithTrailingSlashTokens, 1, s, 0, 0);
  }

  lemma SingleSegmentPatternWithTrailingSlashPath6Part1(s: string)
    requires s == "bar/foo/baz"
    ensures Step(SingleSegmentPatternWithTrailingSlashTokens, 2, s, 5, 0)
  {
    assert Step(SingleSegmentPatternWithTrailingSlashTokens, 6, s, 11, 0);
    assert Step(SingleSegmentPatternWithTrailingSlashTokens, 5, s, 11, 0);
    assert Step(SingleSegmentPatternWithTrailingSlashTokens, 5, s, 10, 0);
    assert Step(SingleSegmentPatternWithTrailingSlashTokens, 5, s, 9, 0);
    assert Step(SingleSegmentPatternWithTrailingSlashTokens, 5, s, 8, 0);
    assert Step(SingleSegmentPatternWithTrailingSlashTokens, 4, s, 7, 0);
    assert Step(SingleSegmentPatternWithTrailingSlashTokens, 3, s, 6, 0);
    assert Step(SingleSegmentPatternWithTrailingSlashTokens, 2, s, 5, 0);
  }

  lemma SingleSegmentPatternWithTrailingSlashPath6Part2(s: string)
    requires s == "bar/foo/baz"
    requires Step(SingleSegmentPatternWithTrailingSlashTokens, 2, s, 5, 0)
    ensures Step(SingleSegmentPatternWithTrailingSlashTokens, 0, s, 1, 1)
  {
    assert Step(SingleSegmentPatternWithTrailingSlashTokens, 1, s, 4, 0);
    assert Step(SingleSegmentPatternWithTrailingSlashTokens, 0, s, 3, 1);
    assert Step(SingleSegmentPatternWithTrailingSlashTokens, 0, s, 2, 1);
    assert Step(SingleSegmentPatternWithTrailingSlashTokens, 0, s, 1, 1);
  }

  lemma SingleSegmentPatternWithTrailingSlashPath6(s: string)
    requires s == "bar/foo/baz"
    ensures Matches(SingleSegmentPatternWithTrailingSlashTokens, s)
  {
    SingleSegmentPatternWithTrailingSlashPath6Part1(s);
    SingleSegmentPatternWithTrailingSlashPath6Part2(s);
  }

  lemma SingleSegmentPatternWithTrailingSlashPath7Part1(s: string)
    requires s == "bar/foo/baz/qux"
    ensures Step(SingleSegmentPatternWithTrailingSlashTokens, 5, s, 9, 0)
  {
    assert Step(SingleSegmentPatternWithTrailingSlashTokens, 6, s, 15, 0);
    assert Step(SingleSegmentPatternWithTrailingSlashTokens, 5, s, 15, 0);
    assert Step(SingleSegmentPatternWithTrailingSlashTokens, 5, s, 14, 0);
    assert Step(SingleSegmentPatternWithTrailingSlashTokens, 5, s, 13, 0);
    assert Step(SingleSegmentPatternWithTrailingSlashTokens, 5, s, 12, 0);
    assert Step(SingleSegmentPatternWithTrailingSlashTokens, 5, s, 11, 0);
    assert Step(SingleSegmentPatternWithTrailingSlashTokens, 5, s, 10, 0);
    assert Step(SingleSegmentPatternWithTrailingSlashTokens, 5, s, 9, 0);
  }

  lemma SingleSegmentPatternWithTrailingSlashPath7Part2(s: string)
    requires s == "bar/foo/baz/qux"
    requires Step(SingleSegmentPatternWithTrailingSlashTokens, 5, s, 9, 0)
    ensures Step(SingleSegmentPatternWithTrailingSlashTokens, 0, s, 1, 1)
  {
    assert Step(SingleSegmentPatternWithTrailingSlashTokens, 5, s, 8, 0);
    assert Step(SingleSegmentPatternWithTrailingSlashTokens, 4, s, 7, 0);
    assert Step(SingleSegmentPatternWithTrailingSlashTokens, 3, s, 6, 0);
    assert Step(SingleSegmentPatternWithTrailingSlashTokens, 2, s, 5, 0);
    assert Step(SingleSegmentPatternWithTrailingSlashTokens, 1, s, 4, 0);
    assert Step(SingleSegmentPatternWithTrailingSlashTokens, 0, s, 3, 1);
    assert Step(SingleSegmentPatternWithTrailingSlashTokens, 0, s, 2, 1);
    assert Step(SingleSegmentPatternWithTrailingSlashTokens, 0, s, 1, 1);
  }

  lemma SingleSegmentPatternWithTrailingSlashPath7(s: string)
    requires s == "bar/foo/baz/qux"
    ensures Matches(SingleSegmentPatternWithTrailingSlashTokens, s)
  {
    SingleSegmentPatternWithTrailingSlashPath7Part1(s);
    SingleSegmentPatternWithTrailingSlashPath7Part2(s);
  }

  /** The verdicts the case expects for its paths. */
  lemma SingleSegmentPatternWithTrailingSlashPaths()
    ensures !Matches(SingleSegmentPatternWithTrailingSlashTokens, "foo")
    ensures Matches(SingleSegmentPatternWithTrailingSlashTokens, "foo/bar")
    ensures Matches(SingleSegmentPatternWithTrailingSlashTokens, "foo/bar/baz")
    ensures !Matches(SingleSegmentPatternWithTrailingSlashTokens, "bar/foo")
    ensures !Matches(SingleSegmentPatternWithTrailingSlashTokens, "bar/baz")
    ensures Matches(SingleSegmentPatternWithTrailingSlashTokens, "bar/foo/baz")
    ensures Matches(SingleSegmentPatternWithTrailingSlashTokens, "bar/foo/baz/qux")
  {
    SingleSegmentPatternWithTrailingSlashPath1("foo");
    SingleSegmentPatternWithTrailingSlashPath2("foo/bar");
    SingleSegmentPatternWithTrailingSlashPath3("foo/bar/baz");
    SingleSegmentPatternWithTrailingSlashPath4("bar/foo");
    SingleSegmentPatternWithTrailingSlashPath5("bar/baz");
    SingleSegmentPatternWithTrailingSlashPath6("bar/foo/baz");
    SingleSegmentPatternWithTrailingSlashPath7("bar/foo/baz/qux");
  }

  // "/foo/": the case "single-segment pattern with leading and trailing slash" (__tests__/parse-pattern.test.ts:62-79)
  const SingleSegmentPatternWithLeadingAndTrailingSlashPattern: string := "/foo/"
  const SingleSegmentPatternWithLeadingAndTrailingSlashTokens: seq<Token> := [Char('f'), Char('o'), Char('o'), Char('/'), AnyStar]

  lemma SingleSegmentPatternWithLeadingAndTrailingSlashSegments()
    ensures Compile(SingleSegmentPatternWithLeadingAndTrailingSlashPattern) == Success(EmitFrom(["foo", "**"], 0, false))
  {
    assert Join(["foo", ""], Sep) == "foo/";
    CompileOf(SingleSegmentPatternWithLeadingAndTrailingSlashPattern, ["", "foo", ""], ["foo", "**"]);
  }

  lemma SingleSegmentPatternWithLeadingAndTrailingSlashEmitted1()
    ensures EmitFrom(["foo", "**"], 1, true) == [Char('/'), AnyStar]
  {
  }

  lemma SingleSegmentPatternWithLeadingAndTrailingSlashEmitted()
    ensures EmitFrom(["foo", "**"], 0, false) == SingleSegmentPatternWithLeadingAndTrailingSlashTokens
  {
    SingleSegmentPatternWithLeadingAndTrailingSlashEmitted1();
  }

  lemma SingleSegmentPatternWithLeadingAndTrailingSlashCompiled()
    ensures Compile(SingleSegmentPatternWithLeadingAndTrailingSlashPattern) == Success(SingleSegmentPatternWithLeadingAndTrailingSlashTokens)
  {
    SingleSegmentPatternWithLeadingAndTrailingSlashSegments();
    SingleSegmentPatternWithLeadingAndTrailingSlashEmitted();
  }

  lemma SingleSegmentPatternWithLeadingAndTrailingSlashPath1(s: string)
    requires s == "foo"
    ensures !Matches(SingleSegmentPatternWithLeadingAndTrailingSlashTokens, s)
  {
    assert !Step(SingleSegmentPatternWithLeadingAndTrailingSlashTokens, 3, s, 3, 0);
    assert !Step(SingleSegmentPatternWithLeadingAndTrailingSlashTokens, 2, s, 2, 0);
    assert !Step(SingleSegmentPatternWithLeadingAndTrailingSlashTokens, 1, s, 1, 0);
  }

  lemma SingleSegmentPatternWithLeadingAndTrailingSlashPath2(s: string)
    requires s == "foo/bar"
    ensures Matches(SingleSegmentPatternWithLeadingAndTrailingSlashTokens, s)
  {
    assert Step(SingleSegmentPatternWithLeadingAndTrailingSlashTokens, 5, s, 7, 0);
    assert Step(SingleSegmentPatternWithLeadingAndTrailingSlashTokens, 4, s, 7, 0);
    assert Step(SingleSegmentPatternWithLeadingAndTrailingSlashTokens, 4, s, 6, 0);
    assert Step(SingleSegmentPatternWithLeadingAndTrailingSlashTokens, 4, s, 5, 0);
    assert Step(SingleSegmentPatternWithLeadingAndTrailingSlashTokens, 4, s, 4, 0);
    assert Step(SingleSegmentPatternWithLeadingAndTrailingSlashTokens, 3, s, 3, 0);
    assert Step(SingleSegmentPatternWithLeadingAndTrailingSlashTokens, 2, s, 2, 0);
    assert Step(SingleSegmentPatternWithLeadingAndTrailingSlashTokens, 1, s, 1, 0);
  }

  lemma SingleSegmentPatternWithLeadingAndTrailingSlashPath3Part1(s: string)
    requires s == "foo/bar/baz"
    ensures Step(SingleSegmentPatternWithLeadingAndTrailingSlashTokens, 4, s, 5, 0)
  {
    assert Step(SingleSegmentPatternWithLeadingAndTrailingSlashTokens, 5, s, 11, 0);
    assert Step(SingleSegmentPatternWithLeadingAndTrailingSlashTokens, 4, s, 11, 0);
    assert Step(SingleSegmentPatternWithLeadingAndTrailingSlashTokens, 4, s, 10, 0);
    assert Step(SingleSegmentPatternWithLeadingAndTrailingSlashTokens, 4, s, 9, 0);
    assert Step(SingleSegmentPatternWithLeadingAndTrailingSlashTokens, 4, s, 8, 0);
    assert Step(SingleSegmentPatternWithLeadingAndTrailingSlashTokens, 4, s, 7, 0);
    assert Step(SingleSegmentPatternWithLeadingAndTrailingSlashTokens, 4, s, 6, 0);
    assert Step(SingleSegmentPatternWithLeadingAndTrailingSlashTokens, 4, s, 5, 0);
  }

  lemma SingleSegmentPatternWithLeadingAndTrailingSlashPath3Part2(s: string)
    requires s == "foo/bar/baz"
    requires Step(SingleSegmentPatternWithLeadingAndTrailingSlashTokens, 4, s, 5, 0)
    ensures Step(SingleSegmentPatternWithLeadingAndTrailingSlashTokens, 1, s, 1, 0)
  {
    assert Step(SingleSegmentPatternWithLeadingAndTrailingSlashTokens, 4, s, 4, 0);
    assert Step(SingleSegmentPatternWithLeadingAndTrailingSlashTokens, 3, s, 3, 0);
    assert Step(SingleSegmentPatternWithLeadingAndTrailingSlashTokens, 2, s, 2, 0);
    assert Step(SingleSegmentPatternWithLeadingAndTrailingSlashTokens, 1, s, 1, 0);
  }

  lemma SingleSegmentPatternWithLeadingAndTrailingSlashPath3(s: string)
    requires s == "foo/bar/baz"
    ensures Matches(SingleSegmentPatternWithLeadingAndTrailingSlashTokens, s)
  {
    SingleSegmentPatternWithLeadingAndTrailingSlashPath3Part1(s);
    SingleSegmentPatternWithLeadingAndTrailingSlashPath3Part2(s);
  }

  lemma SingleSegmentPatternWithLeadingAndTrailingSlashPath4(s: string)
    requires s == "bar/foo"
    ensures !Matches(SingleSegmentPatternWithLeadingAndTrailingSlashTokens, s)
  {
  }

  lemma SingleSegmentPatternWithLeadingAndTrailingSlashPath5(s: string)
    requires s == "bar/baz"
    ensures !Matches(SingleSegmentPatternWithLeadingAndTrailingSlashTokens, s)
  {
  }

  lemma SingleSegmentPatternWithLeadingAndTrailingSlashPath6(s: string)
    requires s == "bar/foo/baz"
    ensures !Matches(SingleSegmentPatternWithLeadingAndTrailingSlashTokens, s)
  {
  }

  lemma SingleSegmentPatternWithLeadingAndTrailingSlashPath7(s: string)
    requires s == "bar/foo/baz/qux"
    ensures !Matches(SingleSegmentPatternWithLeadingAndTrailingSlashTokens, s)
  {
  }

  /** The verdicts the case expects for its paths. */
  lemma SingleSegmentPatternWithLeadingAndTrailingSlashPaths()
    ensures !Matches(SingleSegmentPatternWithLeadingAndTrailingSlashTokens, "foo")
    ensures Matches(SingleSegmentPatternWithLeadingAndTrailingSlashTokens, "foo/bar")
    ensures Matches(SingleSegmentPatternWithLeadingAndTrailingSlashTokens, "foo/bar/baz")
    ensures !Matches(SingleSegmentPatternWithLeadingAndTrailingSlashTokens, "bar/foo")
    ensures !Matches(SingleSegmentPatternWithLeadingAndTrailingSlashTokens, "bar/baz")
    ensures !Matches(SingleSegmentPatternWithLeadingAndTrailingSlashTokens, "bar/foo/baz")
    ensures !Matches(SingleSegmentPatternWithLeadingAndTrailingSlashTokens, "bar/foo/baz/qux")
  {
    SingleSegmentPatternWithLeadingAndTrailingSlashPath1("foo");
    SingleSegmentPatternWithLeadingAndTrailingSlashPath2("foo/bar");
    SingleSegmentPatternWithLeadingAndTrailingSlashPath3("foo/bar/baz");
    SingleSegmentPatternWithLeadingAndTrailingSlashPath4("bar/foo");
    SingleSegmentPatternWithLeadingAndTrailingSlashPath5("bar/baz");
    SingleSegmentPatternWithLeadingAndTrailingSlashPath6("bar/foo/baz");
    SingleSegmentPatternWithLeadingAndTrailingSlashPath7("bar/foo/baz/qux");
  }

  // "foo/bar": the case "multi-segment (implicitly left-anchored) pattern" (__tests__/parse-pattern.test.ts:81-96)
  const MultiSegmentImplicitlyLeftAnchoredPatternPattern: string := "foo/bar"
  const MultiSegmentImplicitlyLeftAnchoredPatternTokens: seq<Token> := [Char('f'), Char('o'), Char('o'), Char('/'), Char('b'), Char('a'), Char('r'), OptDescendants]

  lemma MultiSegmentImplicitlyLeftAnchoredPatternSegments()
    ensures Compile(MultiSegmentImplicitlyLeftAnchoredPatternPattern) == Success(EmitFrom(["foo", "bar"], 0, false))
  {
    CompileOf(MultiSegmentImplicitlyLeftAnchoredPatternPattern, ["foo", "bar"], ["foo", "bar"]);
  }

  lemma MultiSegmentImplicitlyLeftAnchoredPatternEmitted1()
    ensures EmitFrom(["foo", "bar"], 1, true) == [Char('/'), Char('b'), Char('a'), Char('r'), OptDescendants]
  {
  }

  lemma MultiSegmentImplicitlyLeftAnchoredPatternEmitted()
    ensures EmitFrom(["foo", "bar"], 0, false) == MultiSegmentImplicitlyLeftAnchoredPatternTokens
  {
    MultiSegmentImplicitlyLeftAnchoredPatternEmitted1();
  }

  lemma MultiSegmentImplicitlyLeftAnchoredPatternCompiled()
    ensures Compile(MultiSegmentImplicitlyLeftAnchoredPatternPattern) == Success(MultiSegmentImplicitlyLeftAnchoredPatternTokens)
  {
    MultiSegmentImplicitlyLeftAnchoredPatternSegments();
    MultiSegmentImplicitlyLeftAnchoredPatternEmitted();
  }

  lemma MultiSegmentImplicitlyLeftAnchoredPatternPath1(s: string)
    requires s == "foo/bar"
    ensures Matches(MultiSegmentImplicitlyLeftAnchoredPatternTokens, s)
  {
    assert Step(MultiSegmentImplicitlyLeftAnchoredPatternTokens, 8, s, 7, 0);
    assert Step(MultiSegmentImplicitlyLeftAnchoredPatternTokens, 7, s, 7, 0);
    assert Step(MultiSegmentImplicitlyLeftAnchoredPatternTokens, 6, s, 6, 0);
    assert Step(MultiSegmentImplicitlyLeftAnchoredPatternTokens, 5, s, 5, 0);
    assert Step(MultiSegmentImplicitlyLeftAnchoredPatternTokens, 4, s, 4, 0);
    assert Step(MultiSegmentImplicitlyLeftAnchoredPatternTokens, 3, s, 3, 0);
    assert Step(MultiSegmentImplicitlyLeftAnchoredPatternTokens, 2, s, 2, 0);
    assert Step(MultiSegmentImplicitlyLeftAnchoredPatternTokens, 1, s, 1, 0);
  }

  lemma MultiSegmentImplicitlyLeftAnchoredPatternPath2(s: string)
    requires s == "foo/bart"
    ensures !Matches(MultiSegmentImplicitlyLeftAnchoredPatternTokens, s)
  {
    assert !Step(MultiSegmentImplicitlyLeftAnchoredPatternTokens, 8, s, 7, 0);
    assert !Step(MultiSegmentImplicitlyLeftAnchoredPatternTokens, 7, s, 7, 0);
    assert !Step(MultiSegmentImplicitlyLeftAnchoredPatternTokens, 6, s, 6, 0);
    assert !Step(MultiSegmentImplicitlyLeftAnchoredPatternTokens, 5, s, 5, 0);
    assert !Step(MultiSegmentImplicitlyLeftAnchoredPatternTokens, 4, s, 4, 0);
    assert !Step(MultiSegmentImplicitlyLeftAnchoredPatternTokens, 3, s, 3, 0);
    assert !Step(MultiSegmentImplicitlyLeftAnchoredPatternTokens, 2, s, 2, 0);
    assert !Step(MultiSegmentImplicitlyLeftAnchoredPatternTokens, 1, s, 1, 0);
  }

  lemma MultiSegmentImplicitlyLeftAnchoredPatternPath3Part1(s: string)
    requires s == "foo/bar/baz"
    ensures Step(MultiSegmentImplicitlyLeftAnchoredPatternTokens, 5, s, 5, 0)
  {
    assert Step(MultiSegmentImplicitlyLeftAnchoredPatternTokens, 8, s, 11, 0);
    assert Step(MultiSegmentImplicitlyLeftAnchoredPatternTokens, 7, s, 11, 1);
    assert Step(MultiSegmentImplicitlyLeftAnchoredPatternTokens, 7, s, 10, 1);
    assert Step(MultiSegmentImplicitlyLeftAnchoredPatternTokens, 7, s, 9, 1);
    assert Step(MultiSegmentImplicitlyLeftAnchoredPatternTokens, 7, s, 8, 1);
    assert Step(MultiSegmentImplicitlyLeftAnchoredPatternTokens, 7, s, 7, 0);
    assert Step(MultiSegmentImplicitlyLeftAnchoredPatternTokens, 6, s, 6, 0);
    assert Step(MultiSegmentImplicitlyLeftAnchoredPatternTokens, 5, s, 5, 0);
  }

  lemma MultiSegmentImplicitlyLeftAnchoredPatternPath3Part2(s: string)
    requires s == "foo/bar/baz"
    requires Step(MultiSegmentImplicitlyLeftAnchoredPatternTokens, 5, s, 5, 0)
    ensures Step(MultiSegmentImplicitlyLeftAnchoredPatternTokens, 1, s, 1, 0)
  {
    assert Step(MultiSegmentImplicitlyLeftAnchoredPatternTokens, 4, s, 4, 0);
    assert Step(MultiSegmentImplicitlyLeftAnchoredPatternTokens, 3, s, 3, 0);
    assert Step(MultiSegmentImplicitlyLeftAnchoredPatternTokens, 2, s, 2, 0);
    assert Step(MultiSegmentImplicitlyLeftAnchoredPatternTokens, 1, s, 1, 0);
  }

  lemma MultiSegmentImplicitlyLeftAnchoredPatternPath3(s: string)
    requires s == "foo/bar/baz"
    ensures Matches(MultiSegmentImplicitlyLeftAnchoredPatternTokens, s)
  {
    MultiSegmentImplicitlyLeftAnchoredPatternPath3Part1(s);
    MultiSegmentImplicitlyLeftAnchoredPatternPath3Part2(s);
  }

  lemma MultiSegmentImplicitlyLeftAnchoredPatternPath4(s: string)
    requires s == "baz/foo/bar"
    ensures !Matches(MultiSegmentImplicitlyLeftAnchoredPatternTokens, s)
  {
  }

  lemma MultiSegmentImplicitlyLeftAnchoredPatternPath5(s: string)
    requires s == "baz/foo/bar/qux"
    ensures !Matches(MultiSegmentImplicitlyLeftAnchoredPatternTokens, s)
  {
  }

  /** The verdicts the case expects for its paths. */
  lemma MultiSegmentImplicitlyLeftAnchoredPatternPaths()
    ensures Matches(MultiSegmentImplicitlyLeftAnchoredPatternTokens, "foo/bar")
    ensures !Matches(MultiSegmentImplicitlyLeftAnchoredPatternTokens, "foo/bart")
    ensures Matches(MultiSegmentImplicitlyLeftAnchoredPatternTokens, "foo/bar/baz")
    ensures !Matches(MultiSegmentImplicitlyLeftAnchoredPatternTokens, "baz/foo/bar")
    ensures !Matches(MultiSegmentImplicitlyLeftAnchoredPatternTokens, "baz/foo/bar/qux")
  {
    MultiSegmentImplicitlyLeftAnchoredPatternPath1("foo/bar");
    MultiSegmentImplicitlyLeftAnchoredPatternPath2("foo/bart");
    MultiSegmentImplicitlyLeftAnchoredPatternPath3("foo/bar/baz");
    MultiSegmentImplicitlyLeftAnchoredPatternPath4("baz/foo/bar");
    MultiSegmentImplicitlyLeftAnchoredPatternPath5("baz/foo/bar/qux");
  }

  // "/foo/bar": the case "multi-segment pattern with leading slash" (__tests__/parse-pattern.test.ts:98-113)
  const MultiSegmentPatternWithLeadingSlashPattern: string := "/foo/bar"
  const MultiSegmentPatternWithLeadingSlashTokens: seq<Token> := [Char('f'), Char('o'), Char('o'), Char('/'), Char('b'), Char('a'), Char('r'), OptDescendants]

  lemma MultiSegmentPatternWithLeadingSlashSegments()
    ensures Compile(MultiSegmentPatternWithLeadingSlashPattern) == Success(EmitFrom(["foo", "bar"], 0, false))
  {
    assert Join(["foo", "bar"], Sep) == "foo/bar";
    CompileOf(MultiSegmentPatternWithLeadingSlashPattern, ["", "foo", "bar"], ["foo", "bar"]);
  }

  lemma MultiSegmentPatternWithLeadingSlashEmitted1()
    ensures EmitFrom(["foo", "bar"], 1, true) == [Char('/'), Char('b'), Char('a'), Char('r'), OptDescendants]
  {
  }

  lemma MultiSegmentPatternWithLeadingSlashEmitted()
    ensures EmitFrom(["foo", "bar"], 0, false) == MultiSegmentPatternWithLeadingSlashTokens
  {
    MultiSegmentPatternWithLeadingSlashEmitted1();
  }

  lemma MultiSegmentPatternWithLeadingSlashCompiled()
    ensures Compile(MultiSegmentPatternWithLeadingSlashPattern) == Success(MultiSegmentPatternWithLeadingSlashTokens)
  {
    MultiSegmentPatternWithLeadingSlashSegments();
    MultiSegmentPatternWithLeadingSlashEmitted();
  }

  lemma MultiSegmentPatternWithLeadingSlashPath1(s: string)
    requires s == "foo/bar"
    ensures Matches(MultiSegmentPatternWithLeadingSlashTokens, s)
  {
    assert Step(MultiSegmentPatternWithLeadingSlashTokens, 8, s, 7, 0);
    assert Step(MultiSegmentPatternWithLeadingSlashTokens, 7, s, 7, 0);
    assert Step(MultiSegmentPatternWithLeadingSlashTokens, 6, s, 6, 0);
    assert Step(MultiSegmentPatternWithLeadingSlashTokens, 5, s, 5, 0);
    assert Step(MultiSegmentPatternWithLeadingSlashTokens, 4, s, 4, 0);
    assert Step(MultiSegmentPatternWithLeadingSlashTokens, 3, s, 3, 0);
    assert Step(MultiSegmentPatternWithLeadingSlashTokens, 2, s, 2, 0);
    assert Step(MultiSegmentPatternWithLeadingSlashTokens, 1, s, 1, 0);
  }

  lemma MultiSegmentPatternWithLeadingSlashPath2(s: string)
    requires s == "foo/bart"
    ensures !Matches(MultiSegmentPatternWithLeadingSlashTokens, s)
  {
    assert !Step(MultiSegmentPatternWithLeadingSlashTokens, 8, s, 7, 0);
    assert !Step(MultiSegmentPatternWithLeadingSlashTokens, 7, s, 7, 0);
    assert !Step(MultiSegmentPatternWithLeadingSlashTokens, 6, s, 6, 0);
    assert !Step(MultiSegmentPatternWithLeadingSlashTokens, 5, s, 5, 0);
    assert !Step(MultiSegmentPatternWithLeadingSlashTokens, 4, s, 4, 0);
    assert !Step(MultiSegmentPatternWithLeadingSlashTokens, 3, s, 3, 0);
    assert !Step(MultiSegmentPatternWithLeadingSlashTokens, 2, s, 2, 0);
    assert !Step(MultiSegmentPatternWithLeadingSlashTokens, 1, s, 1, 0);
  }

  lemma MultiSegmentPatternWithLeadingSlashPath3Part1(s: string)
    requires s == "foo/bar/baz"
    ensures Step(MultiSegmentPatternWithLeadingSlashTokens, 5, s, 5, 0)
  {
    assert Step(MultiSegmentPatternWithLeadingSlashTokens, 8, s, 11, 0);
    assert Step(MultiSegmentPatternWithLeadingSlashTokens, 7, s, 11, 1);
    assert Step(MultiSegmentPatternWithLeadingSlashTokens, 7, s, 10, 1);
    assert Step(MultiSegmentPatternWithLeadingSlashTokens, 7, s, 9, 1);
    assert Step(MultiSegmentPatternWithLeadingSlashTokens, 7, s, 8, 1);
    assert Step(MultiSegmentPatternWithLeadingSlashTokens, 7, s, 7, 0);
    assert Step(MultiSegmentPatternWithLeadingSlashTokens, 6, s, 6, 0);
    assert Step(MultiSegmentPatternWithLeadingSlashTokens, 5, s, 5, 0);
  }

  lemma MultiSegmentPatternWithLeadingSlashPath3Part2(s: string)
    requires s == "foo/bar/baz"
    requires Step(MultiSegmentPatternWithLeadingSlashTokens, 5, s, 5, 0)
    ensures Step(MultiSegmentPatternWithLeadingSlashTokens, 1, s, 1, 0)
  {
    assert Step(MultiSegmentPatternWithLeadingSlashTokens, 4, s, 4, 0);
    assert Step(MultiSegmentPatternWithLeadingSlashTokens, 3, s, 3, 0);
    assert Step(MultiSegmentPatternWithLeadingSlashTokens, 2, s, 2, 0);
    assert Step(MultiSegmentPatternWithLeadingSlashTokens, 1, s, 1, 0);
  }

  lemma MultiSegmentPatternWithLeadingSlashPath3(s: string)
    requires s == "foo/bar/baz"
    ensures Matches(MultiSegmentPatternWithLeadingSlashTokens, s)
  {
    MultiSegmentPatternWithLeadingSlashPath3Part1(s);
    MultiSegmentPatternWithLeadingSlashPath3Part2(s);
  }

  lemma MultiSegmentPatternWithLeadingSlashPath4(s: string)
    requires s == "baz/foo/bar"
    ensures !Matches(MultiSegmentPatternWithLeadingSlashTokens, s)
  {
  }

  lemma MultiSegmentPatternWithLeadingSlashPath5(s: string)
    requires s == "baz/foo/bar/qux"
    ensures !Matches(MultiSegmentPatternWithLeadingSlashTokens, s)
  {
  }

  /** The verdicts the case expects for its paths. */
  lemma MultiSegmentPatternWithLeadingSlashPaths()
    ensures Matches(MultiSegmentPatternWithLeadingSlashTokens, "foo/bar")
    ensures !Matches(MultiSegmentPatternWithLeadingSlashTokens, "foo/bart")
    ensures Matches(MultiSegmentPatternWithLeadingSlashTokens, "foo/bar/baz")
    ensures !Matches(MultiSegmentPatternWithLeadingSlashTokens, "baz/foo/bar")
    ensures !Matches(MultiSegmentPatternWithLeadingSlashTokens, "baz/foo/bar/qux")
  {
    MultiSegmentPatternWithLeadingSlashPath1("foo/bar");
    MultiSegmentPatternWithLeadingSlashPath2("foo/bart");
    MultiSegmentPatternWithLeadingSlashPath3("foo/bar/baz");
    MultiSegmentPatternWithLeadingSlashPath4("baz/foo/bar");
    MultiSegmentPatternWithLeadingSlashPath5("baz/foo/bar/qux");
  }

  // "foo/bar/": the case "multi-segment pattern with trailing slash" (__tests__/parse-pattern.test.ts:115-130)
  const MultiSegmentPatternWithTrailingSlashPattern: string := "foo/bar/"
  const MultiSegmentPatternWithTrailingSlashTokens: seq<Token> := [Char('f'), Char('o'), Char('o'), Char('/'), Char('b'), Char('a'), Char('r'), Char('/'), AnyStar]

  lemma MultiSegmentPatternWithTrailingSlashSegments()
    ensures Compile(MultiSegmentPatternWithTrailingSlashPattern) == Success(EmitFrom(["foo", "bar", "**"], 0, false))
  {
    assert Join(["bar", ""], Sep) == "bar/";
    CompileOf(MultiSegmentPatternWithTrailingSlashPattern, ["foo", "bar", ""], ["foo", "bar", "**"]);
  }

  lemma MultiSegmentPatternWithTrailingSlashEmitted2()
    ensures EmitFrom(["foo", "bar", "**"], 2, true) == [Char('/'), AnyStar]
  {
  }

  lemma MultiSegmentPatternWithTrailingSlashEmitted1()
    ensures EmitFrom(["foo", "bar", "**"], 1, true) == [Char('/'), Char('b'), Char('a'), Char('r'), Char('/'), AnyStar]
  {
    MultiSegmentPatternWithTrailingSlashEmitted2();
  }

  lemma MultiSegmentPatternWithTrailingSlashEmitted()
    ensures EmitFrom(["foo", "bar", "**"], 0, false) == MultiSegmentPatternWithTrailingSlashTokens
  {
    MultiSegmentPatternWithTrailingSlashEmitted1();
  }

  lemma MultiSegmentPatternWithTrailingSlashCompiled()
    ensures Compile(MultiSegmentPatternWithTrailingSlashPattern) == Success(MultiSegmentPatternWithTrailingSlashTokens)
  {
    MultiSegmentPatternWithTrailingSlashSegments();
    MultiSegmentPatternWithTrailingSlashEmitted();
  }

  lemma MultiSegmentPatternWithTrailingSlashPath1(s: string)
    requires s == "foo/bar"
    ensures !Matches(MultiSegmentPatternWithTrailingSlashTokens, s)
  {
    assert !Step(MultiSegmentPatternWithTrailingSlashTokens, 7, s, 7, 0);
    assert !Step(MultiSegmentPatternWithTrailingSlashTokens, 6, s, 6, 0);
    assert !Step(MultiSegmentPatternWithTrailingSlashTokens, 5, s, 5, 0);
    assert !Step(MultiSegmentPatternWithTrailingSlashTokens, 4, s, 4, 0);
    assert !Step(MultiSegmentPatternWithTrailingSlashTokens, 3, s, 3, 0);
    assert !Step(MultiSegmentPatternWithTrailingSlashTokens, 2, s, 2, 0);
    assert !Step(MultiSegmentPatternWithTrailingSlashTokens, 1, s, 1, 0);
  }

  lemma MultiSegmentPatternWithTrailingSlashPath2(s: string)
    requires s == "foo/bart"
    ensures !Matches(MultiSegmentPatternWithTrailingSlashTokens, s)
  {
    assert !Step(MultiSegmentPatternWithTrailingSlashTokens, 7, s, 7, 0);
    assert !Step(MultiSegmentPatternWithTrailingSlashTokens, 6, s, 6, 0);
    assert !Step(MultiSegmentPatternWithTrailingSlashTokens, 5, s, 5, 0);
    assert !Step(MultiSegmentPatternWithTrailingSlashTokens, 4, s, 4, 0);
    assert !Step(MultiSegmentPatternWithTrailingSlashTokens, 3, s, 3, 0);
    assert !Step(MultiSegmentPatternWithTrailingSlashTokens, 2, s, 2, 0);
    assert !Step(MultiSegmentPatternWithTrailingSlashTokens, 1, s, 1, 0);
  }

  lemma MultiSegmentPatternWithTrailingSlashPath3Part1(s: string)
    requires s == "foo/bar/baz"
    ensures Step(MultiSegmentPatternWithTrailingSlashTokens, 5, s, 5, 0)
  {
    assert Step(MultiSegmentPatternWithTrailingSlashTokens, 9, s, 11, 0);
    assert Step(MultiSegmentPatternWithTrailingSlashTokens, 8, s, 11, 0);
    assert Step(MultiSegmentPatternWithTrailingSlashTokens, 8, s, 10, 0);
    assert Step(MultiSegmentPatternWithTrailingSlashTokens, 8, s, 9, 0);
    assert Step(MultiSegmentPatternWithTrailingSlashTokens, 8, s, 8, 0);
    assert Step(MultiSegmentPatternWithTrailingSlashTokens, 7, s, 7, 0);
    assert Step(MultiSegmentPatternWithTrailingSlashTokens, 6, s, 6, 0);
    assert Step(MultiSegmentPatternWithTrailingSlashTokens, 5, s, 5, 0);
  }

  lemma MultiSegmentPatternWithTrailingSlashPath3Part2(s: string)
    requires s == "foo/bar/baz"
    requires Step(MultiSegmentPatternWithTrailingSlashTokens, 5, s, 5, 0)
    ensures Step(MultiSegmentPatternWithTrailingSlashTokens, 1, s, 1, 0)
  {
    assert Step(MultiSegmentPatternWithTrailingSlashTokens, 4, s, 4, 0);
    assert Step(MultiSegmentPatternWithTrailingSlashTokens, 3, s, 3, 0);
    assert Step(MultiSegmentPatternWithTrailingSlashTokens, 2, s, 2, 0);
    assert Step(MultiSegmentPatternWithTrailingSlashTokens, 1, s, 1, 0);
  }

  lemma MultiSegmentPatternWithTrailingSlashPath3(s: string)
    requires s == "foo/bar/baz"
    ensures Matches(MultiSegmentPatternWithTrailingSlashTokens, s)
  {
    MultiSegmentPatternWithTrailingSlashPath3Part1(s);
    MultiSegmentPatternWithTrailingSlashPath3Part2(s);
  }

  lemma MultiSegmentPatternWithTrailingSlashPath4(s: string)
    requires s == "baz/foo/bar"
    ensures !Matches(MultiSegmentPatternWithTrailingSlashTokens, s)
  {
  }

  lemma MultiSegmentPatternWithTrailingSlashPath5(s: string)
    requires s == "baz/foo/bar/qux"
    ensures !Matches(MultiSegmentPatternWithTrailingSlashTokens, s)
  {
  }

  /** The verdicts the case expects for its paths. */
  lemma MultiSegmentPatternWithTrailingSlashPaths()
    ensures !Matches(MultiSegmentPatternWithTrailingSlashTokens, "foo/bar")
    ensures !Matches(MultiSegmentPatternWithTrailingSlashTokens, "foo/bart")
    ensures Matches(MultiSegmentPatternWithTrailingSlashTokens, "foo/bar/baz")
    ensures !Matches(MultiSegmentPatternWithTrailingSlashTokens, "baz/foo/bar")
    ensures !Matches(MultiSegmentPatternWithTrailingSlashTokens, "baz/foo/bar/qux")
  {
    MultiSegmentPatternWithTrailingSlashPath1("foo/bar");
    MultiSegmentPatternWithTrailingSlashPath2("foo/bart");
    MultiSegmentPatternWithTrailingSlashPath3("foo/bar/baz");
    MultiSegmentPatternWithTrailingSlashPath4("baz/foo/bar");
    MultiSegmentPatternWithTrailingSlashPath5("baz/foo/bar/qux");
  }

  // "/foo/bar/": the case "multi-segment pattern with leading and trailing slash" (__tests__/parse-pattern.test.ts:132-148)
  const MultiSegmentPatternWithLeadingAndTrailingSlashPattern: string := "/foo/bar/"
  const MultiSegmentPatternWithLeadingAndTrailingSlashTokens: seq<Token> := [Char('f'), Char('o'), Char('o'), Char('/'), Char('b'), Char('a'), Char('r'), Char('/'), AnyStar]

  lemma MultiSegmentPatternWithLeadingAndTrailingSlashSegments()
    ensures Compile(MultiSegmentPatternWithLeadingAndTrailingSlashPattern) == Success(EmitFrom(["foo", "bar", "**"], 0, false))
  {
    assert Join(["bar", ""], Sep) == "bar/";
    assert Join(["foo", "bar", ""], Sep) == "foo/bar/";
    CompileOf(MultiSegmentPatternWithLeadingAndTrailingSlashPattern, ["", "foo", "bar", ""], ["foo", "bar", "**"]);
  }

  lemma MultiSegmentPatternWithLeadingAndTrailingSlashEmitted2()
    ensures EmitFrom(["foo", "bar", "**"], 2, true) == [Char('/'), AnyStar]
  {
  }

  lemma MultiSegmentPatternWithLeadingAndTrailingSlashEmitted1()
    ensures EmitFrom(["foo", "bar", "**"], 1, true) == [Char('/'), Char('b'), Char('a'), Char('r'), Char('/'), AnyStar]
  {
    MultiSegmentPatternWithLeadingAndTrailingSlashEmitted2();
  }

  lemma MultiSegmentPatternWithLeadingAndTrailingSlashEmitted()
    ensures EmitFrom(["foo", "bar", "**"], 0, false) == MultiSegmentPatternWithLeadingAndTrailingSlashTokens
  {
    MultiSegmentPatternWithLeadingAndTrailingSlashEmitted1();
  }

  lemma MultiSegmentPatternWithLeadingAndTrailingSlashCompiled()
    ensures Compile(MultiSegmentPatternWithLeadingAndTrailingSlashPattern) == Success(MultiSegmentPatternWithLeadingAndTrailingSlashTokens)
  {
    MultiSegmentPatternWithLeadingAndTrailingSlashSegments();
    MultiSegmentPatternWithLeadingAndTrailingSlashEmitted();
  }

  lemma MultiSegmentPatternWithLeadingAndTrailingSlashPath1(s: string)
    requires s == "foo/bar"
    ensures !Matches(MultiSegmentPatternWithLeadingAndTrailingSlashTokens, s)
  {
    assert !Step(MultiSegmentPatternWithLeadingAndTrailingSlashTokens, 7, s, 7, 0);
    assert !Step(MultiSegmentPatternWithLeadingAndTrailingSlashTokens, 6, s, 6, 0);
    assert !Step(MultiSegmentPatternWithLeadingAndTrailingSlashTokens, 5, s, 5, 0);
    assert !Step(MultiSegmentPatternWithLeadingAndTrailingSlashTokens, 4, s, 4, 0);
    assert !Step(MultiSegmentPatternWithLeadingAndTrailingSlashTokens, 3, s, 3, 0);
    assert !Step(MultiSegmentPatternWithLeadingAndTrailingSlashTokens, 2, s, 2, 0);
    assert !Step(MultiSegmentPatternWithLeadingAndTrailingSlashTokens, 1, s, 1, 0);
  }

  lemma MultiSegmentPatternWithLeadingAndTrailingSlashPath2(s: string)
    requires s == "foo/bart"
    ensures !Matches(MultiSegmentPatternWithLeadingAndTrailingSlashTokens, s)
  {
    assert !Step(MultiSegmentPatternWithLeadingAndTrailingSlashTokens, 7, s, 7, 0);
    assert !Step(MultiSegmentPatternWithLeadingAndTrailingSlashTokens, 6, s, 6, 0);
    assert !Step(MultiSegmentPatternWithLeadingAndTrailingSlashTokens, 5, s, 5, 0);
    assert !Step(MultiSegmentPatternWithLeadingAndTrailingSlashTokens, 4, s, 4, 0);
    assert !Step(MultiSegmentPatternWithLeadingAndTrailingSlashTokens, 3, s, 3, 0);
    assert !Step(MultiSegmentPatternWithLeadingAndTrailingSlashTokens, 2, s, 2, 0);
    assert !Step(MultiSegmentPatternWithLeadingAndTrailingSlashTokens, 1, s, 1, 0);
  }

  lemma MultiSegmentPatternWithLeadingAndTrailingSlashPath3Part1(s: string)
    requires s == "foo/bar/baz"
    ensures Step(MultiSegmentPatternWithLeadingAndTrailingSlashTokens, 5, s, 5, 0)
  {
    assert Step(MultiSegmentPatternWithLeadingAndTrailingSlashTokens, 9, s, 11, 0);
    assert Step(MultiSegmentPatternWithLeadingAndTrailingSlashTokens, 8, s, 11, 0);
    assert Step(MultiSegmentPatternWithLeadingAndTrailingSlashTokens, 8, s, 10, 0);
    assert Step(MultiSegmentPatternWithLeadingAndTrailingSlashTokens, 8, s, 9, 0);
    assert Step(MultiSegmentPatternWithLeadingAndTrailingSlashTokens, 8, s, 8, 0);
    assert Step(MultiSegmentPatternWithLeadingAndTrailingSlashTokens, 7, s, 7, 0);
    assert Step(MultiSegmentPatternWithLeadingAndTrailingSlashTokens, 6, s, 6, 0);
    assert Step(MultiSegmentPatternWithLeadingAndTrailingSlashTokens, 5, s, 5, 0);
  }

  lemma MultiSegmentPatternWithLeadingAndTrailingSlashPath3Part2(s: string)
    requires s == "foo/bar/baz"
    requires Step(MultiSegmentPatternWithLeadingAndTrailingSlashTokens, 5, s, 5, 0)
    ensures Step(MultiSegmentPatternWithLeadingAndTrailingSlashTokens, 1, s, 1, 0)
  {
    assert Step(MultiSegmentPatternWithLeadingAndTrailingSlashTokens, 4, s, 4, 0);
    assert Step(MultiSegmentPatternWithLeadingAndTrailingSlashTokens, 3, s, 3, 0);
    assert Step(MultiSegmentPatternWithLeadingAndTrailingSlashTokens, 2, s, 2, 0);
    assert Step(MultiSegmentPatternWithLeadingAndTrailingSlashTokens, 1, s, 1, 0);
  }

  lemma MultiSegmentPatternWithLeadingAndTrailingSlashPath3(s: string)
    requires s == "foo/bar/baz"
    ensures Matches(MultiSegmentPatternWithLeadingAndTrailingSlashTokens, s)
  {
    MultiSegmentPatternWithLeadingAndTrailingSlashPath3Part1(s);
    MultiSegmentPatternWithLeadingAndTrailingSlashPath3Part2(s);
  }

  lemma MultiSegmentPatternWithLeadingAndTrailingSlashPath4Part1(s: string)
    requires s == "foo/bar/baz/qux"
    ensures Step(MultiSegmentPatternWithLeadingAndTrailingSlashTokens, 8, s, 9, 0)
  {
    assert Step(MultiSegmentPatternWithLeadingAndTrailingSlashTokens, 9, s, 15, 0);
    assert Step(MultiSegmentPatternWithLeadingAndTrailingSlashTokens, 8, s, 15, 0);
    assert Step(MultiSegmentPatternWithLeadingAndTrailingSlashTokens, 8, s, 14, 0);
    assert Step(MultiSegmentPatternWithLeadingAndTrailingSlashTokens, 8, s, 13, 0);
    assert Step(MultiSegmentPatternWithLeadingAndTrailingSlashTokens, 8, s, 12, 0);
    assert Step(MultiSegmentPatternWithLeadingAndTrailingSlashTokens, 8, s, 11, 0);
    assert Step(MultiSegmentPatternWithLeadingAndTrailingSlashTokens, 8, s, 10, 0);
    assert Step(MultiSegmentPatternWithLeadingAndTrailingSlashTokens, 8, s, 9, 0);
  }

  lemma MultiSegmentPatternWithLeadingAndTrailingSlashPath4Part2(s: string)
    requires s == "foo/bar/baz/qux"
    requires Step(MultiSegmentPatternWithLeadingAndTrailingSlashTokens, 8, s, 9, 0)
    ensures Step(MultiSegmentPatternWithLeadingAndTrailingSlashTokens, 1, s, 1, 0)
  {
    assert Step(MultiSegmentPatternWithLeadingAndTrailingSlashTokens, 8, s, 8, 0);
    assert Step(MultiSegmentPatternWithLeadingAndTrailingSlashTokens, 7, s, 7, 0);
    assert Step(MultiSegmentPatternWithLeadingAndTrailingSlashTokens, 6, s, 6, 0);
    assert Step(MultiSegmentPatternWithLeadingAndTrailingSlashTokens, 5, s, 5, 0);
    assert Step(MultiSegmentPatternWithLeadingAndTrailingSlashTokens, 4, s, 4, 0);
    assert Step(MultiSegmentPatternWithLeadingAndTrailingSlashTokens, 3, s, 3, 0);
    assert Step(MultiSegmentPatternWithLeadingAndTrailingSlashTokens, 2, s, 2, 0);
    assert Step(MultiSegmentPatternWithLeadingAndTrailingSlashTokens, 1, s, 1, 0);
  }

  lemma MultiSegmentPatternWithLeadingAndTrailingSlashPath4(s: string)
    requires s == "foo/bar/baz/qux"
    ensures Matches(MultiSegmentPatternWithLeadingAndTrailingSlashTokens, s)
  {
    MultiSegmentPatternWithLeadingAndTrailingSlashPath4Part1(s);
    MultiSegmentPatternWithLeadingAndTrailingSlashPath4Part2(s);
  }

  lemma MultiSegmentPatternWithLeadingAndTrailingSlashPath5(s: string)
    requires s == "baz/foo/bar"
    ensures !Matches(MultiSegmentPatternWithLeadingAndTrailingSlashTokens, s)
  {
  }

  lemma MultiSegmentPatternWithLeadingAndTrailingSlashPath6(s: string)
    requires s == "baz/foo/bar/qux"
    ensures !Matches(MultiSegmentPatternWithLeadingAndTrailingSlashTokens, s)
  {
  }

  /** The verdicts the case expects for its paths. */
  lemma MultiSegmentPatternWithLeadingAndTrailingSlashPaths()
    ensures !Matches(MultiSegmentPatternWithLeadingAndTrailingSlashTokens, "foo/bar")
    ensures !Matches(MultiSegmentPatternWithLeadingAndTrailingSlashTokens, "foo/bart")
    ensures Matches(MultiSegmentPatternWithLeadingAndTrailingSlashTokens, "foo/bar/baz")
    ensures Matches(MultiSegmentPatternWithLeadingAndTrailingSlashTokens, "foo/bar/baz/qux")
    ensures !Matches(MultiSegmentPatternWithLeadingAndTrailingSlashTokens, "baz/foo/bar")
    ensures !Matches(MultiSegmentPatternWithLeadingAndTrailingSlashTokens, "baz/foo/bar/qux")
  {
    MultiSegmentPatternWithLeadingAndTrailingSlashPath1("foo/bar");
    MultiSegmentPatternWithLeadingAndTrailingSlashPath2("foo/bart");
    MultiSegmentPatternWithLeadingAndTrailingSlashPath3("foo/bar/baz");
    MultiSegmentPatternWithLeadingAndTrailingSlashPath4("foo/bar/baz/qux");
    MultiSegmentPatternWithLeadingAndTrailingSlashPath5("baz/foo/bar");
    MultiSegmentPatternWithLeadingAndTrailingSlashPath6("baz/foo/bar/qux");
  }

  // "*": the case "single segment lone wildcard" (__tests__/parse-pattern.test.ts:150-166)
  const SingleSegmentLoneWildcardPattern: string := "*"
  const SingleSegmentLoneWildcardTokens: seq<Token> := [OptPrefixDirs, NotSepPlus]

  lemma SingleSegmentLoneWildcardSegments()
    ensures Compile(SingleSegmentLoneWildcardPattern) == Success(EmitFrom(["**", "*"], 0, false))
  {
    CompileOf(SingleSegmentLoneWildcardPattern, ["*"], ["**", "*"]);
  }

  lemma SingleSegmentLoneWildcardEmitted1()
    ensures EmitFrom(["**", "*"], 1, false) == [NotSepPlus]
  {
  }

  lemma SingleSegmentLoneWildcardEmitted()
    ensures EmitFrom(["**", "*"], 0, false) == SingleSegmentLoneWildcardTokens
  {
    SingleSegmentLoneWildcardEmitted1();
  }

  lemma SingleSegmentLoneWildcardCompiled()
    ensures Compile(SingleSegmentLoneWildcardPattern) == Success(SingleSegmentLoneWildcardTokens)
  {
    SingleSegmentLoneWildcardSegments();
    SingleSegmentLoneWildcardEmitted();
  }

  lemma SingleSegmentLoneWildcardPath1(s: string)
    requires s == "foo"
    ensures Matches(SingleSegmentLoneWildcardTokens, s)
  {
    assert Step(SingleSegmentLoneWildcardTokens, 2, s, 3, 0);
    assert Step(SingleSegmentLoneWildcardTokens, 1, s, 3, 1);
    assert Step(SingleSegmentLoneWildcardTokens, 1, s, 2, 1);
    assert Step(SingleSegmentLoneWildcardTokens, 1, s, 1, 1);
    assert Step(SingleSegmentLoneWildcardTokens, 1, s, 0, 0);
  }

  lemma SingleSegmentLoneWildcardPath2(s: string)
    requires s == "foo/bar"
    ensures Matches(SingleSegmentLoneWildcardTokens, s)
  {
    assert Step(SingleSegmentLoneWildcardTokens, 2, s, 7, 0);
    assert Step(SingleSegmentLoneWildcardTokens, 1, s, 7, 1);
    assert Step(SingleSegmentLoneWildcardTokens, 1, s, 6, 1);
    assert Step(SingleSegmentLoneWildcardTokens, 1, s, 5, 1);
    assert Step(SingleSegmentLoneWildcardTokens, 1, s, 4, 0);
    assert Step(SingleSegmentLoneWildcardTokens, 0, s, 3, 1);
    assert Step(SingleSegmentLoneWildcardTokens, 0, s, 2, 1);
    assert Step(SingleSegmentLoneWildcardTokens, 0, s, 1, 1);
  }

  lemma SingleSegmentLoneWildcardPath3(s: string)
    requires s == "bar/foo"
    ensures Matches(SingleSegmentLoneWildcardTokens, s)
  {
    assert Step(SingleSegmentLoneWildcardTokens, 2, s, 7, 0);
    assert Step(SingleSegmentLoneWildcardTokens, 1, s, 7, 1);
    assert Step(SingleSegmentLoneWildcardTokens, 1, s, 6, 1);
    assert Step(SingleSegmentLoneWildcardTokens, 1, s, 5, 1);
    assert Step(SingleSegmentLoneWildcardTokens, 1, s, 4, 0);
    assert Step(SingleSegmentLoneWildcardTokens, 0, s, 3, 1);
    assert Step(SingleSegmentLoneWildcardTokens, 0, s, 2, 1);
    assert Step(SingleSegmentLoneWildcardTokens, 0, s, 1, 1);
  }

  lemma SingleSegmentLoneWildcardPath4Part1(s: string)
    requires s == "bar/foo/baz"
    ensures Step(SingleSegmentLoneWildcardTokens, 0, s, 5, 1)
  {
    assert Step(SingleSegmentLoneWildcardTokens, 2, s, 11, 0);
    assert Step(SingleSegmentLoneWildcardTokens, 1, s, 11, 1);
    assert Step(SingleSegmentLoneWildcardTokens, 1, s, 10, 1);
    assert Step(SingleSegmentLoneWildcardTokens, 1, s, 9, 1);
    assert Step(SingleSegmentLoneWildcardTokens, 1, s, 8, 0);
    assert Step(SingleSegmentLoneWildcardTokens, 0, s, 7, 1);
    assert Step(SingleSegmentLoneWildcardTokens, 0, s, 6, 1);
    assert Step(SingleSegmentLoneWildcardTokens, 0, s, 5, 1);
  }

  lemma SingleSegmentLoneWildcardPath4Part2(s: string)
    requires s == "bar/foo/baz"
    requires Step(SingleSegmentLoneWildcardTokens, 0, s, 5, 1)
    ensures Step(SingleSegmentLoneWildcardTokens, 0, s, 1, 1)
  {
    assert Step(SingleSegmentLoneWildcardTokens, 0, s, 4, 1);
    assert Step(SingleSegmentLoneWildcardTokens, 0, s, 3, 1);
    assert Step(SingleSegmentLoneWildcardTokens, 0, s, 2, 1);
    assert Step(SingleSegmentLoneWildcardTokens, 0, s, 1, 1);
  }

  lemma SingleSegmentLoneWildcardPath4(s: string)
    requires s == "bar/foo/baz"
    ensures Matches(SingleSegmentLoneWildcardTokens, s)
  {
    SingleSegmentLoneWildcardPath4Part1(s);
    SingleSegmentLoneWildcardPath4Part2(s);
  }

  lemma SingleSegmentLoneWildcardPath5(s: string)
    requires s == "bar/baz"
    ensures Matches(SingleSegmentLoneWildcardTokens, s)
  {
    assert Step(SingleSegmentLoneWildcardTokens, 2, s, 7, 0);
    assert Step(SingleSegmentLoneWildcardTokens, 1, s, 7, 1);
    assert Step(SingleSegmentLoneWildcardTokens, 1, s, 6, 1);
    assert Step(SingleSegmentLoneWildcardTokens, 1, s, 5, 1);
    assert Step(SingleSegmentLoneWildcardTokens, 1, s, 4, 0);
    assert Step(SingleSegmentLoneWildcardTokens, 0, s, 3, 1);
    assert Step(SingleSegmentLoneWildcardTokens, 0, s, 2, 1);
    assert Step(SingleSegmentLoneWildcardTokens, 0, s, 1, 1);
  }

  lemma SingleSegmentLoneWildcardPath6(s: string)
    requires s == "xfoo"
    ensures Matches(SingleSegmentLoneWildcardTokens, s)
  {
    assert Step(SingleSegmentLoneWildcardTokens, 2, s, 4, 0);
    assert Step(SingleSegmentLoneWildcardTokens, 1, s, 4, 1);
    assert Step(SingleSegmentLoneWildcardTokens, 1, s, 3, 1);
    assert Step(SingleSegmentLoneWildcardTokens, 1, s, 2, 1);
    assert Step(SingleSegmentLoneWildcardTokens, 1, s, 1, 1);
    assert Step(SingleSegmentLoneWildcardTokens, 1, s, 0, 0);
  }

  /** The verdicts the case expects for its paths. */
  lemma SingleSegmentLoneWildcardPaths()
    ensures Matches(SingleSegmentLoneWildcardTokens, "foo")
    ensures Matches(SingleSegmentLoneWildcardTokens, "foo/bar")
    ensures Matches(SingleSegmentLoneWildcardTokens, "bar/foo")
    ensures Matches(SingleSegmentLoneWildcardTokens, "bar/foo/baz")
    ensures Matches(SingleSegmentLoneWildcardTokens, "bar/baz")
    ensures Matches(SingleSegmentLoneWildcardTokens, "xfoo")
  {
    SingleSegmentLoneWildcardPath1("foo");
    SingleSegmentLoneWildcardPath2("foo/bar");
    SingleSegmentLoneWildcardPath3("bar/foo");
    SingleSegmentLoneWildcardPath4("bar/foo/baz");
    SingleSegmentLoneWildcardPath5("bar/baz");
    SingleSegmentLoneWildcardPath6("xfoo");
  }

  // "f*": the case "single segment pattern with wildcard" (__tests__/parse-pattern.test.ts:168-185)
  const SingleSegmentPatternWithWildcardPattern: string := "f*"
  const SingleSegmentPatternWithWildcardTokens: seq<Token> := [OptPrefixDirs, Char('f'), NotSepStar, OptDescendants]

  lemma SingleSegmentPatternWithWildcardSegments()
    ensures Compile(SingleSegmentPatternWithWildcardPattern) == Success(EmitFrom(["**", "f*"], 0, false))
  {
    CompileOf(SingleSegmentPatternWithWildcardPattern, ["f*"], ["**", "f*"]);
  }

  lemma SingleSegmentPatternWithWildcardEmitted1()
    ensures EmitFrom(["**", "f*"], 1, false) == [Char('f'), NotSepStar, OptDescendants]
  {
  }

  lemma SingleSegmentPatternWithWildcardEmitted()
    ensures EmitFrom(["**", "f*"], 0, false) == SingleSegmentPatternWithWildcardTokens
  {
    SingleSegmentPatternWithWildcardEmitted1();
  }

  lemma SingleSegmentPatternWithWildcardCompiled()
    ensures Compile(SingleSegmentPatternWithWildcardPattern) == Success(SingleSegmentPatternWithWildcardTokens)
  {
    SingleSegmentPatternWithWildcardSegments();
    SingleSegmentPatternWithWildcardEmitted();
  }

  lemma SingleSegmentPatternWithWildcardPath1(s: string)
    requires s == "foo"
    ensures Matches(SingleSegmentPatternWithWildcardTokens, s)
  {
    assert Step(SingleSegmentPatternWithWildcardTokens, 4, s, 3, 0);
    assert Step(SingleSegmentPatternWithWildcardTokens, 3, s, 3, 0);
    assert Step(SingleSegmentPatternWithWildcardTokens, 2, s, 3, 0);
    assert Step(SingleSegmentPatternWithWildcardTokens, 2, s, 2, 0);
    assert Step(SingleSegmentPatternWithWildcardTokens, 2, s, 1, 0);
    assert Step(SingleSegmentPatternWithWildcardTokens, 1, s, 0, 0);
  }

  lemma SingleSegmentPatternWithWildcardPath2(s: string)
    requires s == "foo/bar"
    ensures Matches(SingleSegmentPatternWithWildcardTokens, s)
  {
    assert Step(SingleSegmentPatternWithWildcardTokens, 4, s, 7, 0);
    assert Step(SingleSegmentPatternWithWildcardTokens, 3, s, 7, 1);
    assert Step(SingleSegmentPatternWithWildcardTokens, 3, s, 6, 1);
    assert Step(SingleSegmentPatternWithWildcardTokens, 3, s, 5, 1);
    assert Step(SingleSegmentPatternWithWildcardTokens, 3, s, 4, 1);
    assert Step(SingleSegmentPatternWithWildcardTokens, 3, s, 3, 0);
    assert Step(SingleSegmentPatternWithWildcardTokens, 2, s, 3, 0);
    assert Step(SingleSegmentPatternWithWildcardTokens, 2, s, 2, 0);
    assert Step(SingleSegmentPatternWithWildcardTokens, 2, s, 1, 0);
    assert Step(SingleSegmentPatternWithWildcardTokens, 1, s, 0, 0);
  }

  lemma SingleSegmentPatternWithWildcardPath3Part1(s: string)
    requires s == "foo/bar/baz"
    ensures Step(SingleSegmentPatternWithWildcardTokens, 3, s, 5, 1)
  {
    assert Step(SingleSegmentPatternWithWildcardTokens, 4, s, 11, 0);
    assert Step(SingleSegmentPatternWithWildcardTokens, 3, s, 11, 1);
    assert Step(SingleSegmentPatternWithWildcardTokens, 3, s, 10, 1);
    assert Step(SingleSegmentPatternWithWildcardTokens, 3, s, 9, 1);
    assert Step(SingleSegmentPatternWithWildcardTokens, 3, s, 8, 1);
    assert Step(SingleSegmentPatternWithWildcardTokens, 3, s, 7, 1);
    assert Step(SingleSegmentPatternWithWildcardTokens, 3, s, 6, 1);
    assert Step(SingleSegmentPatternWithWildcardTokens, 3, s, 5, 1);
  }

  lemma SingleSegmentPatternWithWildcardPath3Part2(s: string)
    requires s == "foo/bar/baz"
    requires Step(SingleSegmentPatternWithWildcardTokens, 3, s, 5, 1)
    ensures Step(SingleSegmentPatternWithWildcardTokens, 1, s, 0, 0)
  {
    assert Step(SingleSegmentPatternWithWildcardTokens, 3, s, 4, 1);
    assert Step(SingleSegmentPatternWithWildcardTokens, 3, s, 3, 0);
    assert Step(SingleSegmentPatternWithWildcardTokens, 2, s, 3, 0);
    assert Step(SingleSegmentPatternWithWildcardTokens, 2, s, 2, 0);
    assert Step(SingleSegmentPatternWithWildcardTokens, 2, s, 1, 0);
    assert Step(SingleSegmentPatternWithWildcardTokens, 1, s, 0, 0);
  }

  lemma SingleSegmentPatternWithWildcardPath3(s: string)
    requires s == "foo/bar/baz"
    ensures Matches(SingleSegmentPatternWithWildcardTokens, s)
  {
    SingleSegmentPatternWithWildcardPath3Part1(s);
    SingleSegmentPatternWithWildcardPath3Part2(s);
  }

  lemma SingleSegmentPatternWithWildcardPath4(s: string)
    requires s == "bar/foo"
    ensures Matches(SingleSegmentPatternWithWildcardTokens, s)
  {
    assert Step(SingleSegmentPatternWithWildcardTokens, 4, s, 7, 0);
    assert Step(SingleSegmentPatternWithWildcardTokens, 3, s, 7, 0);
    assert Step(SingleSegmentPatternWithWildcardTokens, 2, s, 7, 0);
    assert Step(SingleSegmentPatternWithWildcardTokens, 2, s, 6, 0);
    assert Step(SingleSegmentPatternWithWildcardTokens, 2, s, 5, 0);
    assert Step(SingleSegmentPatternWithWildcardTokens, 1, s, 4, 0);
    assert Step(SingleSegmentPatternWithWildcardTokens, 0, s, 3, 1);
    assert Step(SingleSegmentPatternWithWildcardTokens, 0, s, 2, 1);
    assert Step(SingleSegmentPatternWithWildcardTokens, 0, s, 1, 1);
  }

  lemma SingleSegmentPatternWithWildcardPath5Part1(s: string)
    requires s == "bar/foo/baz"
    ensures Step(SingleSegmentPatternWithWildcardTokens, 2, s, 6, 0)
  {
    assert Step(SingleSegmentPatternWithWildcardTokens, 4, s, 11, 0);
    assert Step(SingleSegmentPatternWithWildcardTokens, 3, s, 11, 1);
    assert Step(SingleSegmentPatternWithWildcardTokens, 3, s, 10, 1);
    assert Step(SingleSegmentPatternWithWildcardTokens, 3, s, 9, 1);
    assert Step(SingleSegmentPatternWithWildcardTokens, 3, s, 8, 1);
    assert Step(SingleSegmentPatternWithWildcardTokens, 3, s, 7, 0);
    assert Step(SingleSegmentPatternWithWildcardTokens, 2, s, 7, 0);
    assert Step(SingleSegmentPatternWithWildcardTokens, 2, s, 6, 0);
  }

  lemma SingleSegmentPatternWithWildcardPath5Part2(s: string)
    requires s == "bar/foo/baz"
    requires Step(SingleSegmentPatternWithWildcardTokens, 2, s, 6, 0)
    ensures Step(SingleSegmentPatternWithWildcardTokens, 0, s, 1, 1)
  {
    assert Step(SingleSegmentPatternWithWildcardTokens, 2, s, 5, 0);
    assert Step(SingleSegmentPatternWithWildcardTokens, 1, s, 4, 0);
    assert Step(SingleSegmentPatternWithWildcardTokens, 0, s, 3, 1);
    assert Step(SingleSegmentPatternWithWildcardTokens, 0, s, 2, 1);
    assert Step(SingleSegmentPatternWithWildcardTokens, 0, s, 1, 1);
  }

  lemma SingleSegmentPatternWithWildcardPath5(s: string)
    requires s == "bar/foo/baz"
    ensures Matches(SingleSegmentPatternWithWildcardTokens, s)
  {
    SingleSegmentPatternWithWildcardPath5Part1(s);
    SingleSegmentPatternWithWildcardPath5Part2(s);
  }

  lemma SingleSegmentPatternWithWildcardPath6(s: string)
    requires s == "bar/baz"
    ensures !Matches(SingleSegmentPatternWithWildcardTokens, s)
  {
    assert !Step(SingleSegmentPatternWithWildcardTokens, 0, s, 7, 1);
    assert !Step(SingleSegmentPatternWithWildcardTokens, 0, s, 6, 1);
    assert !Step(SingleSegmentPatternWithWildcardTokens, 0, s, 5, 1);
    assert !Step(SingleSegmentPatternWithWildcardTokens, 1, s, 4, 0);
    assert !Step(SingleSegmentPatternWithWildcardTokens, 0, s, 4, 1);
    assert !Step(SingleSegmentPatternWithWildcardTokens, 0, s, 3, 1);
    assert !Step(SingleSegmentPatternWithWildcardTokens, 0, s, 2, 1);
    assert !Step(SingleSegmentPatternWithWildcardTokens, 0, s, 1, 1);
    assert !Step(SingleSegmentPatternWithWildcardTokens, 1, s, 0, 0);
  }

  lemma SingleSegmentPatternWithWildcardPath7(s: string)
    requires s == "xfoo"
    ensures !Matches(SingleSegmentPatternWithWildcardTokens, s)
  {
    assert !Step(SingleSegmentPatternWithWildcardTokens, 0, s, 4, 1);
    assert !Step(SingleSegmentPatternWithWildcardTokens, 0, s, 3, 1);
    assert !Step(SingleSegmentPatternWithWildcardTokens, 0, s, 2, 1);
    assert !Step(SingleSegmentPatternWithWildcardTokens, 0, s, 1, 1);
    assert !Step(SingleSegmentPatternWithWildcardTokens, 1, s, 0, 0);
  }

  /** The verdicts the case expects for its paths. */
  lemma SingleSegmentPatternWithWildcardPaths()
    ensures Matches(SingleSegmentPatternWithWildcardTokens, "foo")
    ensures Matches(SingleSegmentPatternWithWildcardTokens, "foo/bar")
    ensures Matches(SingleSegmentPatternWithWildcardTokens, "foo/bar/baz")
    ensures Matches(SingleSegmentPatternWithWildcardTokens, "bar/foo")
    ensures Matches(SingleSegmentPatternWithWildcardTokens, "bar/foo/baz")
    ensures !Matches(SingleSegmentPatternWithWildcardTokens, "bar/baz")
    ensures !Matches(SingleSegmentPatternWithWildcardTokens, "xfoo")
  {
    SingleSegmentPatternWithWildcardPath1("foo");
    SingleSegmentPatternWithWildcardPath2("foo/bar");
    SingleSegmentPatternWithWildcardPath3("foo/bar/baz");
    SingleSegmentPatternWithWildcardPath4("bar/foo");
    SingleSegmentPatternWithWildcardPath5("bar/foo/baz");
    SingleSegmentPatternWithWildcardPath6("bar/baz");
    SingleSegmentPatternWithWildcardPath7("xfoo");
  }

  // "/*": the case "single segment pattern with leading slash and lone wildcard" (__tests__/parse-pattern.test.ts:187-201)
  const SingleSegmentPatternWithLeadingSlashAndLoneWildcardPattern: string := "/*"
  const SingleSegmentPatternWithLeadingSlashAndLoneWildcardTokens: seq<Token> := [NotSepPlus]

  lemma SingleSegmentPatternWithLeadingSlashAndLoneWildcardSegments()
    ensures Compile(SingleSegmentPatternWithLeadingSlashAndLoneWildcardPattern) == Success(EmitFrom(["*"], 0, false))
  {
    CompileOf(SingleSegmentPatternWithLeadingSlashAndLoneWildcardPattern, ["", "*"], ["*"]);
  }

  lemma SingleSegmentPatternWithLeadingSlashAndLoneWildcardEmitted()
    ensures EmitFrom(["*"], 0, false) == SingleSegmentPatternWithLeadingSlashAndLoneWildcardTokens
  {
  }

  lemma SingleSegmentPatternWithLeadingSlashAndLoneWildcardCompiled()
    ensures Compile(SingleSegmentPatternWithLeadingSlashAndLoneWildcardPattern) == Success(SingleSegmentPatternWithLeadingSlashAndLoneWildcardTokens)
  {
    SingleSegmentPatternWithLeadingSlashAndLoneWildcardSegments();
    SingleSegmentPatternWithLeadingSlashAndLoneWildcardEmitted();
  }

  lemma SingleSegmentPatternWithLeadingSlashAndLoneWildcardPath1(s: string)
    requires s == "foo"
    ensures Matches(SingleSegmentPatternWithLeadingSlashAndLoneWildcardTokens, s)
  {
    assert Step(SingleSegmentPatternWithLeadingSlashAndLoneWildcardTokens, 1, s, 3, 0);
    assert Step(SingleSegmentPatternWithLeadingSlashAndLoneWildcardTokens, 0, s, 3, 1);
    assert Step(SingleSegmentPatternWithLeadingSlashAndLoneWildcardTokens, 0, s, 2, 1);
    assert Step(SingleSegmentPatternWithLeadingSlashAndLoneWildcardTokens, 0, s, 1, 1);
  }

  lemma SingleSegmentPatternWithLeadingSlashAndLoneWildcardPath2(s: string)
    requires s == "bar"
    ensures Matches(SingleSegmentPatternWithLeadingSlashAndLoneWildcardTokens, s)
  {
    assert Step(SingleSegmentPatternWithLeadingSlashAndLoneWildcardTokens, 1, s, 3, 0);
    assert Step(SingleSegmentPatternWithLeadingSlashAndLoneWildcardTokens, 0, s, 3, 1);
    assert Step(SingleSegmentPatternWithLeadingSlashAndLoneWildcardTokens, 0, s, 2, 1);
    assert Step(SingleSegmentPatternWithLeadingSlashAndLoneWildcardTokens, 0, s, 1, 1);
  }

  lemma SingleSegmentPatternWithLeadingSlashAndLoneWildcardPath3(s: string)
    requires s == "foo/bar"
    ensures !Matches(SingleSegmentPatternWithLeadingSlashAndLoneWildcardTokens, s)
  {
    assert !Step(SingleSegmentPatternWithLeadingSlashAndLoneWildcardTokens, 1, s, 3, 0);
    assert !Step(SingleSegmentPatternWithLeadingSlashAndLoneWildcardTokens, 0, s, 3, 1);
    assert !Step(SingleSegmentPatternWithLeadingSlashAndLoneWildcardTokens, 1, s, 2, 0);
    assert !Step(SingleSegmentPatternWithLeadingSlashAndLoneWildcardTokens, 0, s, 2, 1);
    assert !Step(SingleSegmentPatternWithLeadingSlashAndLoneWildcardTokens, 1, s, 1, 0);
    assert !Step(SingleSegmentPatternWithLeadingSlashAndLoneWildcardTokens, 0, s, 1, 1);
  }

  lemma SingleSegmentPatternWithLeadingSlashAndLoneWildcardPath4(s: string)
    requires s == "foo/bar/baz"
    ensures !Matches(SingleSegmentPatternWithLeadingSlashAndLoneWildcardTokens, s)
  {
    assert !Step(SingleSegmentPatternWithLeadingSlashAndLoneWildcardTokens, 1, s, 3, 0);
    assert !Step(SingleSegmentPatternWithLeadingSlashAndLoneWildcardTokens, 0, s, 3, 1);
    assert !Step(SingleSegmentPatternWithLeadingSlashAndLoneWildcardTokens, 1, s, 2, 0);
    assert !Step(SingleSegmentPatternWithLeadingSlashAndLoneWildcardTokens, 0, s, 2, 1);
    assert !Step(SingleSegmentPatternWithLeadingSlashAndLoneWildcardTokens, 1, s, 1, 0);
    assert !Step(SingleSegmentPatternWithLeadingSlashAndLoneWildcardTokens, 0, s, 1, 1);
  }

  /** The verdicts the case expects for its paths. */
  lemma SingleSegmentPatternWithLeadingSlashAndLoneWildcardPaths()
    ensures Matches(SingleSegmentPatternWithLeadingSlashAndLoneWildcardTokens, "foo")
    ensures Matches(SingleSegmentPatternWithLeadingSlashAndLoneWildcardTokens, "bar")
    ensures !Matches(SingleSegmentPatternWithLeadingSlashAndLoneWildcardTokens, "foo/bar")
    ensures !Matches(SingleSegmentPatternWithLeadingSlashAndLoneWildcardTokens, "foo/bar/baz")
  {
    SingleSegmentPatternWithLeadingSlashAndLoneWildcardPath1("foo");
    SingleSegmentPatternWithLeadingSlashAndLoneWildcardPath2("bar");
    SingleSegmentPatternWithLeadingSlashAndLoneWildcardPath3("foo/bar");
    SingleSegmentPatternWithLeadingSlashAndLoneWildcardPath4("foo/bar/baz");
  }

  // "/f*": the case "single segment pattern with leading slash and wildcard" (__tests__/parse-pattern.test.ts:203-220)
  const SingleSegmentPatternWithLeadingSlashAndWildcardPattern: string := "/f*"
  const SingleSegmentPatternWithLeadingSlashAndWildcardTokens: seq<Token> := [Char('f'), NotSepStar, OptDescendants]

  lemma SingleSegmentPatternWithLeadingSlashAndWildcardSegments()
    ensures Compile(SingleSegmentPatternWithLeadingSlashAndWildcardPattern) == Success(EmitFrom(["f*"], 0, false))
  {
    CompileOf(SingleSegmentPatternWithLeadingSlashAndWildcardPattern, ["", "f*"], ["f*"]);
  }

  lemma SingleSegmentPatternWithLeadingSlashAndWildcardEmitted()
    ensures EmitFrom(["f*"], 0, false) == SingleSegmentPatternWithLeadingSlashAndWildcardTokens
  {
  }

  lemma SingleSegmentPatternWithLeadingSlashAndWildcardCompiled()
    ensures Compile(SingleSegmentPatternWithLeadingSlashAndWildcardPattern) == Success(SingleSegmentPatternWithLeadingSlashAndWildcardTokens)
  {
    SingleSegmentPatternWithLeadingSlashAndWildcardSegments();
    SingleSegmentPatternWithLeadingSlashAndWildcardEmitted();
  }

  lemma SingleSegmentPatternWithLeadingSlashAndWildcardPath1(s: string)
    requires s == "foo"
    ensures Matches(SingleSegmentPatternWithLeadingSlashAndWildcardTokens, s)
  {
    assert Step(SingleSegmentPatternWithLeadingSlashAndWildcardTokens, 3, s, 3, 0);
    assert Step(SingleSegmentPatternWithLeadingSlashAndWildcardTokens, 2, s, 3, 0);
    assert Step(SingleSegmentPatternWithLeadingSlashAndWildcardTokens, 1, s, 3, 0);
    assert Step(SingleSegmentPatternWithLeadingSlashAndWildcardTokens, 1, s, 2, 0);
    assert Step(SingleSegmentPatternWithLeadingSlashAndWildcardTokens, 1, s, 1, 0);
  }

  lemma SingleSegmentPatternWithLeadingSlashAndWildcardPath2(s: string)
    requires s == "foo/bar"
    ensures Matches(SingleSegmentPatternWithLeadingSlashAndWildcardTokens, s)
  {
    assert Step(SingleSegmentPatternWithLeadingSlashAndWildcardTokens, 3, s, 7, 0);
    assert Step(SingleSegmentPatternWithLeadingSlashAndWildcardTokens, 2, s, 7, 1);
    assert Step(SingleSegmentPatternWithLeadingSlashAndWildcardTokens, 2, s, 6, 1);
    assert Step(SingleSegmentPatternWithLeadingSlashAndWildcardTokens, 2, s, 5, 1);
    assert Step(SingleSegmentPatternWithLeadingSlashAndWildcardTokens, 2, s, 4, 1);
    assert Step(SingleSegmentPatternWithLeadingSlashAndWildcardTokens, 2, s, 3, 0);
    assert Step(SingleSegmentPatternWithLeadingSlashAndWildcardTokens, 1, s, 3, 0);
    assert Step(SingleSegmentPatternWithLeadingSlashAndWildcardTokens, 1, s, 2, 0);
    assert Step(SingleSegmentPatternWithLeadingSlashAndWildcardTokens, 1, s, 1, 0);
  }

  lemma SingleSegmentPatternWithLeadingSlashAndWildcardPath3Part1(s: string)
    requires s == "foo/bar/baz"
    ensures Step(SingleSegmentPatternWithLeadingSlashAndWildcardTokens, 2, s, 5, 1)
  {
    assert Step(SingleSegmentPatternWithLeadingSlashAndWildcardTokens, 3, s, 11, 0);
    assert Step(SingleSegmentPatternWithLeadingSlashAndWildcardTokens, 2, s, 11, 1);
    assert Step(SingleSegmentPatternWithLeadingSlashAndWildcardTokens, 2, s, 10, 1);
    assert Step(SingleSegmentPatternWithLeadingSlashAndWildcardTokens, 2, s, 9, 1);
    assert Step(SingleSegmentPatternWithLeadingSlashAndWildcardTokens, 2, s, 8, 1);
    assert Step(SingleSegmentPatternWithLeadingSlashAndWildcardTokens, 2, s, 7, 1);
    assert Step(SingleSegmentPatternWithLeadingSlashAndWildcardTokens, 2, s, 6, 1);
    assert Step(SingleSegmentPatternWithLeadingSlashAndWildcardTokens, 2, s, 5, 1);
  }

  lemma SingleSegmentPatternWithLeadingSlashAndWildcardPath3Part2(s: string)
    requires s == "foo/bar/baz"
    requires Step(SingleSegmentPatternWithLeadingSlashAndWildcardTokens, 2, s, 5, 1)
    ensures Step(SingleSegmentPatternWithLeadingSlashAndWildcardTokens, 1, s, 1, 0)
  {
    assert Step(SingleSegmentPatternWithLeadingSlashAndWildcardTokens, 2, s, 4, 1);
    assert Step(SingleSegmentPatternWithLeadingSlashAndWildcardTokens, 2, s, 3, 0);
    assert Step(SingleSegmentPatternWithLeadingSlashAndWildcardTokens, 1, s, 3, 0);
    assert Step(SingleSegmentPatternWithLeadingSlashAndWildcardTokens, 1, s, 2, 0);
    assert Step(SingleSegmentPatternWithLeadingSlashAndWildcardTokens, 1, s, 1, 0);
  }

  lemma SingleSegmentPatternWithLeadingSlashAndWildcardPath3(s: string)
    requires s == "foo/bar/baz"
    ensures Matches(SingleSegmentPatternWithLeadingSlashAndWildcardTokens, s)
  {
    SingleSegmentPatternWithLeadingSlashAndWildcardPath3Part1(s);
    SingleSegmentPatternWithLeadingSlashAndWildcardPath3Part2(s);
  }

  lemma SingleSegmentPatternWithLeadingSlashAndWildcardPath4(s: string)
    requires s == "bar/foo"
    ensures !Matches(SingleSegmentPatternWithLeadingSlashAndWildcardTokens, s)
  {
  }

  lemma SingleSegmentPatternWithLeadingSlashAndWildcardPath5(s: string)
    requires s == "bar/foo/baz"
    ensures !Matches(SingleSegmentPatternWithLeadingSlashAndWildcardTokens, s)
  {
  }

  lemma SingleSegmentPatternWithLeadingSlashAndWildcardPath6(s: string)
    requires s == "bar/baz"
    ensures !Matches(SingleSegmentPatternWithLeadingSlashAndWildcardTokens, s)
  {
  }

  lemma SingleSegmentPatternWithLeadingSlashAndWildcardPath7(s: string)
    requires s == "xfoo"
    ensures !Matches(SingleSegmentPatternWithLeadingSlashAndWildcardTokens, s)
  {
  }

  /** The verdicts the case expects for its paths. */
  lemma SingleSegmentPatternWithLeadingSlashAndWildcardPaths()
    ensures Matches(SingleSegmentPatternWithLeadingSlashAndWildcardTokens, "foo")
    ensures Matches(SingleSegmentPatternWithLeadingSlashAndWildcardTokens, "foo/bar")
    ensures Matches(SingleSegmentPatternWithLeadingSlashAndWildcardTokens, "foo/bar/baz")
    ensures !Matches(SingleSegmentPatternWithLeadingSlashAndWildcardTokens, "bar/foo")
    ensures !Matches(SingleSegmentPatternWithLeadingSlashAndWildcardTokens, "bar/foo/baz")
    ensures !Matches(SingleSegmentPatternWithLeadingSlashAndWildcardTokens, "bar/baz")
    ensures !Matches(SingleSegmentPatternWithLeadingSlashAndWildcardTokens, "xfoo")
  {
    SingleSegmentPatternWithLeadingSlashAndWildcardPath1("foo");
    SingleSegmentPatternWithLeadingSlashAndWildcardPath2("foo/bar");
    SingleSegmentPatternWithLeadingSlashAndWildcardPath3("foo/bar/baz");
    SingleSegmentPatternWithLeadingSlashAndWildcardPath4("bar/foo");
    SingleSegmentPatternWithLeadingSlashAndWildcardPath5("bar/foo/baz");
    SingleSegmentPatternWithLeadingSlashAndWildcardPath6("bar/baz");
    SingleSegmentPatternWithLeadingSlashAndWildcardPath7("xfoo");
  }

  // "f*/": the case "single segment pattern with trailing slash and wildcard" (__tests__/parse-pattern.test.ts:222-238)
  const SingleSegmentPatternWithTrailingSlashAndWildcardPattern: string := "f*/"
  const SingleSegmentPatternWithTrailingSlashAndWildcardTokens: seq<Token> := [OptPrefixDirs, Char('f'), NotSepStar, Char('/'), AnyStar]

  lemma SingleSegmentPatternWithTrailingSlashAndWildcardSegments()
    ensures Compile(SingleSegmentPatternWithTrailingSlashAndWildcardPattern) == Success(EmitFrom(["**", "f*", "**"], 0, false))
  {
    CompileOf(SingleSegmentPatternWithTrailingSlashAndWildcardPattern, ["f*", ""], ["**", "f*", "**"]);
  }

  lemma SingleSegmentPatternWithTrailingSlashAndWildcardEmitted2()
    ensures EmitFrom(["**", "f*", "**"], 2, true) == [Char('/'), AnyStar]
  {
  }

  lemma SingleSegmentPatternWithTrailingSlashAndWildcardEmitted1()
    ensures EmitFrom(["**", "f*", "**"], 1, false) == [Char('f'), NotSepStar, Char('/'), AnyStar]
  {
    SingleSegmentPatternWithTrailingSlashAndWildcardEmitted2();
  }

  lemma SingleSegmentPatternWithTrailingSlashAndWildcardEmitted()
    ensures EmitFrom(["**", "f*", "**"], 0, false) == SingleSegmentPatternWithTrailingSlashAndWildcardTokens
  {
    SingleSegmentPatternWithTrailingSlashAndWildcardEmitted1();
  }

  lemma SingleSegmentPatternWithTrailingSlashAndWildcardCompiled()
    ensures Compile(SingleSegmentPatternWithTrailingSlashAndWildcardPattern) == Success(SingleSegmentPatternWithTrailingSlashAndWildcardTokens)
  {
    SingleSegmentPatternWithTrailingSlashAndWildcardSegments();
    SingleSegmentPatternWithTrailingSlashAndWildcardEmitted();
  }

  lemma SingleSegmentPatternWithTrailingSlashAndWildcardPath1(s: string)
    requires s == "foo"
    ensures !Matches(SingleSegmentPatternWithTrailingSlashAndWildcardTokens, s)
  {
    assert !Step(SingleSegmentPatternWithTrailingSlashAndWildcardTokens, 3, s, 3, 0);
    assert !Step(SingleSegmentPatternWithTrailingSlashAndWildcardTokens, 2, s, 3, 0);
    assert !Step(SingleSegmentPatternWithTrailingSlashAndWildcardTokens, 0, s, 3, 1);
    assert !Step(SingleSegmentPatternWithTrailingSlashAndWildcardTokens, 3, s, 2, 0);
    assert !Step(SingleSegmentPatternWithTrailingSlashAndWildcardTokens, 2, s, 2, 0);
    assert !Step(SingleSegmentPatternWithTrailingSlashAndWildcardTokens, 0, s, 2, 1);
    assert !Step(SingleSegmentPatternWithTrailingSlashAndWildcardTokens, 3, s, 1, 0);
    assert !Step(SingleSegmentPatternWithTrailingSlashAndWildcardTokens, 2, s, 1, 0);
    assert !Step(SingleSegmentPatternWithTrailingSlashAndWildcardTokens, 0, s, 1, 1);
    assert !Step(SingleSegmentPatternWithTrailingSlashAndWildcardTokens, 1, s, 0, 0);
  }

  lemma SingleSegmentPatternWithTrailingSlashAndWildcardPath2(s: string)
    requires s == "foo/bar"
    ensures Matches(SingleSegmentPatternWithTrailingSlashAndWildcardTokens, s)
  {
    assert Step(SingleSegmentPatternWithTrailingSlashAndWildcardTokens, 5, s, 7, 0);
    assert Step(SingleSegmentPatternWithTrailingSlashAndWildcardTokens, 4, s, 7, 0);
    assert Step(SingleSegmentPatternWithTrailingSlashAndWildcardTokens, 4, s, 6, 0);
    assert Step(SingleSegmentPatternWithTrailingSlashAndWildcardTokens, 4, s, 5, 0);
    assert Step(SingleSegmentPatternWithTrailingSlashAndWildcardTokens, 4, s, 4, 0);
    assert Step(SingleSegmentPatternWithTrailingSlashAndWildcardTokens, 3, s, 3, 0);
    assert Step(SingleSegmentPatternWithTrailingSlashAndWildcardTokens, 2, s, 3, 0);
    assert Step(SingleSegmentPatternWithTrailingSlashAndWildcardTokens, 2, s, 2, 0);
    assert Step(SingleSegmentPatternWithTrailingSlashAndWildcardTokens, 2, s, 1, 0);
    assert Step(SingleSegmentPatternWithTrailingSlashAndWildcardTokens, 1, s, 0, 0);
  }

  lemma SingleSegmentPatternWithTrailingSlashAndWildcardPath3Part1(s: string)
    requires s == "bar/foo"
    ensures !Step(SingleSegmentPatternWithTrailingSlashAndWildcardTokens, 0, s, 6, 1)
    ensures !Step(SingleSegmentPatternWithTrailingSlashAndWildcardTokens, 2, s, 5, 0)
  {
    assert !Step(SingleSegmentPatternWithTrailingSlashAndWildcardTokens, 3, s, 7, 0);
    assert !Step(SingleSegmentPatternWithTrailingSlashAndWildcardTokens, 2, s, 7, 0);
    assert !Step(SingleSegmentPatternWithTrailingSlashAndWildcardTokens, 0, s, 7, 1);
    assert !Step(SingleSegmentPatternWithTrailingSlashAndWildcardTokens, 3, s, 6, 0);
    assert !Step(SingleSegmentPatternWithTrailingSlashAndWildcardTokens, 2, s, 6, 0);
    assert !Step(SingleSegmentPatternWithTrailingSlashAndWildcardTokens, 0, s, 6, 1);
    assert !Step(SingleSegmentPatternWithTrailingSlashAndWildcardTokens, 3, s, 5, 0);
    assert !Step(SingleSegmentPatternWithTrailingSlashAndWildcardTokens, 2, s, 5, 0);
  }

  lemma SingleSegmentPatternWithTrailingSlashAndWildcardPath3Part2(s: string)
    requires s == "bar/foo"
    requires !Step(SingleSegmentPatternWithTrailingSlashAndWildcardTokens, 0, s, 6, 1)
    requires !Step(SingleSegmentPatternWithTrailingSlashAndWildcardTokens, 2, s, 5, 0)
    ensures !Step(SingleSegmentPatternWithTrailingSlashAndWildcardTokens, 0, s, 1, 1)
    ensures !Step(SingleSegmentPatternWithTrailingSlashAndWildcardTokens, 1, s, 0, 0)
  {
    assert !Step(SingleSegmentPatternWithTrailingSlashAndWildcardTokens, 0, s, 5, 1);
    assert !Step(SingleSegmentPatternWithTrailingSlashAndWildcardTokens, 1, s, 4, 0);
    assert !Step(SingleSegmentPatternWithTrailingSlashAndWildcardTokens, 0, s, 4, 1);
    assert !Step(SingleSegmentPatternWithTrailingSlashAndWildcardTokens, 0, s, 3, 1);
    assert !Step(SingleSegmentPatternWithTrailingSlashAndWildcardTokens, 0, s, 2, 1);
    assert !Step(SingleSegmentPatternWithTrailingSlashAndWildcardTokens, 0, s, 1, 1);
    assert !Step(SingleSegmentPatternWithTrailingSlashAndWildcardTokens, 1, s, 0, 0);
  }

  lemma SingleSegmentPatternWithTrailingSlashAndWildcardPath3(s: string)
    requires s == "bar/foo"
    ensures !Matches(SingleSegmentPatternWithTrailingSlashAndWildcardTokens, s)
  {
    SingleSegmentPatternWithTrailingSlashAndWildcardPath3Part1(s);
    SingleSegmentPatternWithTrailingSlashAndWildcardPath3Part2(s);
  }

  lemma SingleSegmentPatternWithTrailingSlashAndWildcardPath4Part1(s: string)
    requires s == "bar/foo/baz"
    ensures Step(SingleSegmentPatternWithTrailingSlashAndWildcardTokens, 2, s, 6, 0)
  {
    assert Step(SingleSegmentPatternWithTrailingSlashAndWildcardTokens, 5, s, 11, 0);
    assert Step(SingleSegmentPatternWithTrailingSlashAndWildcardTokens, 4, s, 11, 0);
    assert Step(SingleSegmentPatternWithTrailingSlashAndWildcardTokens, 4, s, 10, 0);
    assert Step(SingleSegmentPatternWithTrailingSlashAndWildcardTokens, 4, s, 9, 0);
    assert Step(SingleSegmentPatternWithTrailingSlashAndWildcardTokens, 4, s, 8, 0);
    assert Step(SingleSegmentPatternWithTrailingSlashAndWildcardTokens, 3, s, 7, 0);
    assert Step(SingleSegmentPatternWithTrailingSlashAndWildcardTokens, 2, s, 7, 0);
    assert Step(SingleSegmentPatternWithTrailingSlashAndWildcardTokens, 2, s, 6, 0);
  }

  lemma SingleSegmentPatternWithTrailingSlashAndWildcardPath4Part2(s: string)
    requires s == "bar/foo/baz"
    requires Step(SingleSegmentPatternWithTrailingSlashAndWildcardTokens, 2, s, 6, 0)
    ensures Step(SingleSegmentPatternWithTrailingSlashAndWildcardTokens, 0, s, 1, 1)
  {
    assert Step(SingleSegmentPatternWithTrailingSlashAndWildcardTokens, 2, s, 5, 0);
    assert Step(SingleSegmentPatternWithTrailingSlashAndWildcardTokens, 1, s, 4, 0);
    assert Step(SingleSegmentPatternWithTrailingSlashAndWildcardTokens, 0, s, 3, 1);
    assert Step(SingleSegmentPatternWithTrailingSlashAndWildcardTokens, 0, s, 2, 1);
    assert Step(SingleSegmentPatternWithTrailingSlashAndWildcardTokens, 0, s, 1, 1);
  }

  lemma SingleSegmentPatternWithTrailingSlashAndWildcardPath4(s: string)
    requires s == "bar/foo/baz"
    ensures Matches(SingleSegmentPatternWithTrailingSlashAndWildcardTokens, s)
  {
    SingleSegmentPatternWithTrailingSlashAndWildcardPath4Part1(s);
    SingleSegmentPatternWithTrailingSlashAndWildcardPath4Part2(s);
  }

  lemma SingleSegmentPatternWithTrailingSlashAndWildcardPath5(s: string)
    requires s == "bar/baz"
    ensures !Matches(SingleSegmentPatternWithTrailingSlashAndWildcardTokens, s)
  {
    assert !Step(SingleSegmentPatternWithTrailingSlashAndWildcardTokens, 0, s, 7, 1);
    assert !Step(SingleSegmentPatternWithTrailingSlashAndWildcardTokens, 0, s, 6, 1);
    assert !Step(SingleSegmentPatternWithTrailingSlashAndWildcardTokens, 0, s, 5, 1);
    assert !Step(SingleSegmentPatternWithTrailingSlashAndWildcardTokens, 1, s, 4, 0);
    assert !Step(SingleSegmentPatternWithTrailingSlashAndWildcardTokens, 0, s, 4, 1);
    assert !Step(SingleSegmentPatternWithTrailingSlashAndWildcardTokens, 0, s, 3, 1);
    assert !Step(SingleSegmentPatternWithTrailingSlashAndWildcardTokens, 0, s, 2, 1);
    assert !Step(SingleSegmentPatternWithTrailingSlashAndWildcardTokens, 0, s, 1, 1);
    assert !Step(SingleSegmentPatternWithTrailingSlashAndWildcardTokens, 1, s, 0, 0);
  }

  lemma SingleSegmentPatternWithTrailingSlashAndWildcardPath6(s: string)
    requires s == "xfoo"
    ensures !Matches(SingleSegmentPatternWithTrailingSlashAndWildcardTokens, s)
  {
    assert !Step(SingleSegmentPatternWithTrailingSlashAndWildcardTokens, 0, s, 4, 1);
    assert !Step(SingleSegmentPatternWithTrailingSlashAndWildcardTokens, 0, s, 3, 1);
    assert !Step(SingleSegmentPatternWithTrailingSlashAndWildcardTokens, 0, s, 2, 1);
    assert !Step(SingleSegmentPatternWithTrailingSlashAndWildcardTokens, 0, s, 1, 1);
    assert !Step(SingleSegmentPatternWithTrailingSlashAndWildcardTokens, 1, s, 0, 0);
  }

  /** The verdicts the case expects for its paths. */
  lemma SingleSegmentPatternWithTrailingSlashAndWildcardPaths()
    ensures !Matches(SingleSegmentPatternWithTrailingSlashAndWildcardTokens, "foo")
    ensures Matches(SingleSegmentPatternWithTrailingSlashAndWildcardTokens, "foo/bar")
    ensures !Matches(SingleSegmentPatternWithTrailingSlashAndWildcardTokens, "bar/foo")
    ensures Matches(SingleSegmentPatternWithTrailingSlashAndWildcardTokens, "bar/foo/baz")
    ensures !Matches(SingleSegmentPatternWithTrailingSlashAndWildcardTokens, "bar/baz")
    ensures !Matches(SingleSegmentPatternWithTrailingSlashAndWildcardTokens, "xfoo")
  {
    SingleSegmentPatternWithTrailingSlashAndWildcardPath1("foo");
    SingleSegmentPatternWithTrailingSlashAndWildcardPath2("foo/bar");
    SingleSegmentPatternWithTrailingSlashAndWildcardPath3("bar/foo");
    SingleSegmentPatternWithTrailingSlashAndWildcardPath4("bar/foo/baz");
    SingleSegmentPatternWithTrailingSlashAndWildcardPath5("bar/baz");
    SingleSegmentPatternWithTrailingSlashAndWildcardPath6("xfoo");
  }

  // "/*/": the case "single segment pattern with leading and trailing slash and lone wildcard" (__tests__/parse-pattern.test.ts:240-254)
  const SingleSegmentPatternWithLeadingAndTrailingSlashAndLoneWildcardPattern: string := "/*/"
  const SingleSegmentPatternWithLeadingAndTrailingSlashAndLoneWildcardTokens: seq<Token> := [NotSepPlus, Char('/'), AnyStar]

  lemma SingleSegmentPatternWithLeadingAndTrailingSlashAndLoneWildcardSegments()
    ensures Compile(SingleSegmentPatternWithLeadingAndTrailingSlashAndLoneWildcardPattern) == Success(EmitFrom(["*", "**"], 0, false))
  {
    assert Join(["*", ""], Sep) == "*/";
    CompileOf(SingleSegmentPatternWithLeadingAndTrailingSlashAndLoneWildcardPattern, ["", "*", ""], ["*", "**"]);
  }

  lemma SingleSegmentPatternWithLeadingAndTrailingSlashAndLoneWildcardEmitted1()
    ensures EmitFrom(["*", "**"], 1, true) == [Char('/'), AnyStar]
  {
  }

  lemma SingleSegmentPatternWithLeadingAndTrailingSlashAndLoneWildcardEmitted()
    ensures EmitFrom(["*", "**"], 0, false) == SingleSegmentPatternWithLeadingAndTrailingSlashAndLoneWildcardTokens
  {
    SingleSegmentPatternWithLeadingAndTrailingSlashAndLoneWildcardEmitted1();
  }

  lemma SingleSegmentPatternWithLeadingAndTrailingSlashAndLoneWildcardCompiled()
    ensures Compile(SingleSegmentPatternWithLeadingAndTrailingSlashAndLoneWildcardPattern) == Success(SingleSegmentPatternWithLeadingAndTrailingSlashAndLoneWildcardTokens)
  {
    SingleSegmentPatternWithLeadingAndTrailingSlashAndLoneWildcardSegments();
    SingleSegmentPatternWithLeadingAndTrailingSlashAndLoneWildcardEmitted();
  }

  lemma SingleSegmentPatternWithLeadingAndTrailingSlashAndLoneWildcardPath1(s: string)
    requires s == "foo"
    ensures !Matches(SingleSegmentPatternWithLeadingAndTrailingSlashAndLoneWildcardTokens, s)
  {
    assert !Step(SingleSegmentPatternWithLeadingAndTrailingSlashAndLoneWildcardTokens, 1, s, 3, 0);
    assert !Step(SingleSegmentPatternWithLeadingAndTrailingSlashAndLoneWildcardTokens, 0, s, 3, 1);
    assert !Step(SingleSegmentPatternWithLeadingAndTrailingSlashAndLoneWildcardTokens, 1, s, 2, 0);
    assert !Step(SingleSegmentPatternWithLeadingAndTrailingSlashAndLoneWildcardTokens, 0, s, 2, 1);
    assert !Step(SingleSegmentPatternWithLeadingAndTrailingSlashAndLoneWildcardTokens, 1, s, 1, 0);
    assert !Step(SingleSegmentPatternWithLeadingAndTrailingSlashAndLoneWildcardTokens, 0, s, 1, 1);
  }

  lemma SingleSegmentPatternWithLeadingAndTrailingSlashAndLoneWildcardPath2(s: string)
    requires s == "foo/bar"
    ensures Matches(SingleSegmentPatternWithLeadingAndTrailingSlashAndLoneWildcardTokens, s)
  {
    assert Step(SingleSegmentPatternWithLeadingAndTrailingSlashAndLoneWildcardTokens, 3, s, 7, 0);
    assert Step(SingleSegmentPatternWithLeadingAndTrailingSlashAndLoneWildcardTokens, 2, s, 7, 0);
    assert Step(SingleSegmentPatternWithLeadingAndTrailingSlashAndLoneWildcardTokens, 2, s, 6, 0);
    assert Step(SingleSegmentPatternWithLeadingAndTrailingSlashAndLoneWildcardTokens, 2, s, 5, 0);
    assert Step(SingleSegmentPatternWithLeadingAndTrailingSlashAndLoneWildcardTokens, 2, s, 4, 0);
    assert Step(SingleSegmentPatternWithLeadingAndTrailingSlashAndLoneWildcardTokens, 1, s, 3, 0);
    assert Step(SingleSegmentPatternWithLeadingAndTrailingSlashAndLoneWildcardTokens, 0, s, 3, 1);
    assert Step(SingleSegmentPatternWithLeadingAndTrailingSlashAndLoneWildcardTokens, 0, s, 2, 1);
    assert Step(SingleSegmentPatternWithLeadingAndTrailingSlashAndLoneWildcardTokens, 0, s, 1, 1);
  }

  lemma SingleSegmentPatternWithLeadingAndTrailingSlashAndLoneWildcardPath3(s: string)
    requires s == "bar/foo"
    ensures Matches(SingleSegmentPatternWithLeadingAndTrailingSlashAndLoneWildcardTokens, s)
  {
    assert Step(SingleSegmentPatternWithLeadingAndTrailingSlashAndLoneWildcardTokens, 3, s, 7, 0);
    assert Step(SingleSegmentPatternWithLeadingAndTrailingSlashAndLoneWildcardTokens, 2, s, 7, 0);
    assert Step(SingleSegmentPatternWithLeadingAndTrailingSlashAndLoneWildcardTokens, 2, s, 6, 0);
    assert Step(SingleSegmentPatternWithLeadingAndTrailingSlashAndLoneWildcardTokens, 2, s, 5, 0);
    assert Step(SingleSegmentPatternWithLeadingAndTrailingSlashAndLoneWildcardTokens, 2, s, 4, 0);
    assert Step(SingleSegmentPatternWithLeadingAndTrailingSlashAndLoneWildcardTokens, 1, s, 3, 0);
    assert Step(SingleSegmentPatternWithLeadingAndTrailingSlashAndLoneWildcardTokens, 0, s, 3, 1);
    assert Step(SingleSegmentPatternWithLeadingAndTrailingSlashAndLoneWildcardTokens, 0, s, 2, 1);
    assert Step(SingleSegmentPatternWithLeadingAndTrailingSlashAndLoneWildcardTokens, 0, s, 1, 1);
  }

  lemma SingleSegmentPatternWithLeadingAndTrailingSlashAndLoneWildcardPath4Part1(s: string)
    requires s == "bar/foo/baz"
    ensures Step(SingleSegmentPatternWithLeadingAndTrailingSlashAndLoneWildcardTokens, 2, s, 5, 0)
  {
    assert Step(SingleSegmentPatternWithLeadingAndTrailingSlashAndLoneWildcardTokens, 3, s, 11, 0);
    assert Step(SingleSegmentPatternWithLeadingAndTrailingSlashAndLoneWildcardTokens, 2, s, 11, 0);
    assert Step(SingleSegmentPatternWithLeadingAndTrailingSlashAndLoneWildcardTokens, 2, s, 10, 0);
    assert Step(SingleSegmentPatternWithLeadingAndTrailingSlashAndLoneWildcardTokens, 2, s, 9, 0);
    assert Step(SingleSegmentPatternWithLeadingAndTrailingSlashAndLoneWildcardTokens, 2, s, 8, 0);
    assert Step(SingleSegmentPatternWithLeadingAndTrailingSlashAndLoneWildcardTokens, 2, s, 7, 0);
    assert Step(SingleSegmentPatternWithLeadingAndTrailingSlashAndLoneWildcardTokens, 2, s, 6, 0);
    assert Step(SingleSegmentPatternWithLeadingAndTrailingSlashAndLoneWildcardTokens, 2, s, 5, 0);
  }

  lemma SingleSegmentPatternWithLeadingAndTrailingSlashAndLoneWildcardPath4Part2(s: string)
    requires s == "bar/foo/baz"
    requires Step(SingleSegmentPatternWithLeadingAndTrailingSlashAndLoneWildcardTokens, 2, s, 5, 0)
    ensures Step(SingleSegmentPatternWithLeadingAndTrailingSlashAndLoneWildcardTokens, 0, s, 1, 1)
  {
    assert Step(SingleSegmentPatternWithLeadingAndTrailingSlashAndLoneWildcardTokens, 2, s, 4, 0);
    assert Step(SingleSegmentPatternWithLeadingAndTrailingSlashAndLoneWildcardTokens, 1, s, 3, 0);
    assert Step(SingleSegmentPatternWithLeadingAndTrailingSlashAndLoneWildcardTokens, 0, s, 3, 1);
    assert Step(SingleSegmentPatternWithLeadingAndTrailingSlashAndLoneWildcardTokens, 0, s, 2, 1);
    assert Step(SingleSegmentPatternWithLeadingAndTrailingSlashAndLoneWildcardTokens, 0, s, 1, 1);
  }

  lemma SingleSegmentPatternWithLeadingAndTrailingSlashAndLoneWildcardPath4(s: string)
    requires s == "bar/foo/baz"
    ensures Matches(SingleSegmentPatternWithLeadingAndTrailingSlashAndLoneWildcardTokens, s)
  {
    SingleSegmentPatternWithLeadingAndTrailingSlashAndLoneWildcardPath4Part1(s);
    SingleSegmentPatternWithLeadingAndTrailingSlashAndLoneWildcardPath4Part2(s);
  }

  /** The verdicts the case expects for its paths. */
  lemma SingleSegmentPatternWithLeadingAndTrailingSlashAndLoneWildcardPaths()
    ensures !Matches(SingleSegmentPatternWithLeadingAndTrailingSlashAndLoneWildcardTokens, "foo")
    ensures Matches(SingleSegmentPatternWithLeadingAndTrailingSlashAndLoneWildcardTokens, "foo/bar")
    ensures Matches(SingleSegmentPatternWithLeadingAndTrailingSlashAndLoneWildcardTokens, "bar/foo")
    ensures Matches(SingleSegmentPatternWithLeadingAndTrailingSlashAndLoneWildcardTokens, "bar/foo/baz")
  {
    SingleSegmentPatternWithLeadingAndTrailingSlashAndLoneWildcardPath1("foo");
    SingleSegmentPatternWithLeadingAndTrailingSlashAndLoneWildcardPath2("foo/bar");
    SingleSegmentPatternWithLeadingAndTrailingSlashAndLoneWildcardPath3("bar/foo");
    SingleSegmentPatternWithLeadingAndTrailingSlashAndLoneWildcardPath4("bar/foo/baz");
  }

  // "/f*/": the case "single segment pattern with leading and trailing slash and wildcard" (__tests__/parse-pattern.test.ts:256-272)
  const SingleSegmentPatternWithLeadingAndTrailingSlashAndWildcardPattern: string := "/f*/"
  const SingleSegmentPatternWithLeadingAndTrailingSlashAndWildcardTokens: seq<Token> := [Char('f'), NotSepStar, Char('/'), AnyStar]

  lemma SingleSegmentPatternWithLeadingAndTrailingSlashAndWildcardSegments()
    ensures Compile(SingleSegmentPatternWithLeadingAndTrailingSlashAndWildcardPattern) == Success(EmitFrom(["f*", "**"], 0, false))
  {
    assert Join(["f*", ""], Sep) == "f*/";
    CompileOf(SingleSegmentPatternWithLeadingAndTrailingSlashAndWildcardPattern, ["", "f*", ""], ["f*", "**"]);
  }

  lemma SingleSegmentPatternWithLeadingAndTrailingSlashAndWildcardEmitted1()
    ensures EmitFrom(["f*", "**"], 1, true) == [Char('/'), AnyStar]
  {
  }

  lemma SingleSegmentPatternWithLeadingAndTrailingSlashAndWildcardEmitted()
    ensures EmitFrom(["f*", "**"], 0, false) == SingleSegmentPatternWithLeadingAndTrailingSlashAndWildcardTokens
  {
    SingleSegmentPatternWithLeadingAndTrailingSlashAndWildcardEmitted1();
  }

  lemma SingleSegmentPatternWithLeadingAndTrailingSlashAndWildcardCompiled()
    ensures Compile(SingleSegmentPatternWithLeadingAndTrailingSlashAndWildcardPattern) == Success(SingleSegmentPatternWithLeadingAndTrailingSlashAndWildcardTokens)
  {
    SingleSegmentPatternWithLeadingAndTrailingSlashAndWildcardSegments();
    SingleSegmentPatternWithLeadingAndTrailingSlashAndWildcardEmitted();
  }

  lemma SingleSegmentPatternWithLeadingAndTrailingSlashAndWildcardPath1(s: string)
    requires s == "foo"
    ensures !Matches(SingleSegmentPatternWithLeadingAndTrailingSlashAndWildcardTokens, s)
  {
    assert !Step(SingleSegmentPatternWithLeadingAndTrailingSlashAndWildcardTokens, 2, s, 3, 0);
    assert !Step(SingleSegmentPatternWithLeadingAndTrailingSlashAndWildcardTokens, 1, s, 3, 0);
    assert !Step(SingleSegmentPatternWithLeadingAndTrailingSlashAndWildcardTokens, 2, s, 2, 0);
    assert !Step(SingleSegmentPatternWithLeadingAndTrailingSlashAndWildcardTokens, 1, s, 2, 0);
    assert !Step(SingleSegmentPatternWithLeadingAndTrailingSlashAndWildcardTokens, 2, s, 1, 0);
    assert !Step(SingleSegmentPatternWithLeadingAndTrailingSlashAndWildcardTokens, 1, s, 1, 0);
  }

  lemma SingleSegmentPatternWithLeadingAndTrailingSlashAndWildcardPath2(s: string)
    requires s == "foo/bar"
    ensures Matches(SingleSegmentPatternWithLeadingAndTrailingSlashAndWildcardTokens, s)
  {
    assert Step(SingleSegmentPatternWithLeadingAndTrailingSlashAndWildcardTokens, 4, s, 7, 0);
    assert Step(SingleSegmentPatternWithLeadingAndTrailingSlashAndWildcardTokens, 3, s, 7, 0);
    assert Step(SingleSegmentPatternWithLeadingAndTrailingSlashAndWildcardTokens, 3, s, 6, 0);
    assert Step(SingleSegmentPatternWithLeadingAndTrailingSlashAndWildcardTokens, 3, s, 5, 0);
    assert Step(SingleSegmentPatternWithLeadingAndTrailingSlashAndWildcardTokens, 3, s, 4, 0);
    assert Step(SingleSegmentPatternWithLeadingAndTrailingSlashAndWildcardTokens, 2, s, 3, 0);
    assert Step(SingleSegmentPatternWithLeadingAndTrailingSlashAndWildcardTokens, 1, s, 3, 0);
    assert Step(SingleSegmentPatternWithLeadingAndTrailingSlashAndWildcardTokens, 1, s, 2, 0);
    assert Step(SingleSegmentPatternWithLeadingAndTrailingSlashAndWildcardTokens, 1, s, 1, 0);
  }

  lemma SingleSegmentPatternWithLeadingAndTrailingSlashAndWildcardPath3(s: string)
    requires s == "bar/foo"
    ensures !Matches(SingleSegmentPatternWithLeadingAndTrailingSlashAndWildcardTokens, s)
  {
  }

  lemma SingleSegmentPatternWithLeadingAndTrailingSlashAndWildcardPath4(s: string)
    requires s == "bar/foo/baz"
    ensures !Matches(SingleSegmentPatternWithLeadingAndTrailingSlashAndWildcardTokens, s)
  {
  }

  lemma SingleSegmentPatternWithLeadingAndTrailingSlashAndWildcardPath5(s: string)
    requires s == "bar/baz"
    ensures !Matches(SingleSegmentPatternWithLeadingAndTrailingSlashAndWildcardTokens, s)
  {
  }

  lemma SingleSegmentPatternWithLeadingAndTrailingSlashAndWildcardPath6(s: string)
    requires s == "xfoo"
    ensures !Matches(SingleSegmentPatternWithLeadingAndTrailingSlashAndWildcardTokens, s)
  {
  }

  /** The verdicts the case expects for its paths. */
  lemma SingleSegmentPatternWithLeadingAndTrailingSlashAndWildcardPaths()
    ensures !Matches(SingleSegmentPatternWithLeadingAndTrailingSlashAndWildcardTokens, "foo")
    ensures Matches(SingleSegmentPatternWithLeadingAndTrailingSlashAndWildcardTokens, "foo/bar")
    ensures !Matches(SingleSegmentPatternWithLeadingAndTrailingSlashAndWildcardTokens, "bar/foo")
    ensures !Matches(SingleSegmentPatternWithLeadingAndTrailingSlashAndWildcardTokens, "bar/foo/baz")
    ensures !Matches(SingleSegmentPatternWithLeadingAndTrailingSlashAndWildcardTokens, "bar/baz")
    ensures !Matches(SingleSegmentPatternWithLeadingAndTrailingSlashAndWildcardTokens, "xfoo")
  {
    SingleSegmentPatternWithLeadingAndTrailingSlashAndWildcardPath1("foo");
    SingleSegmentPatternWithLeadingAndTrailingSlashAndWildcardPath2("foo/bar");
    SingleSegmentPatternWithLeadingAndTrailingSlashAndWildcardPath3("bar/foo");
    SingleSegmentPatternWithLeadingAndTrailingSlashAndWildcardPath4("bar/foo/baz");
    SingleSegmentPatternWithLeadingAndTrailingSlashAndWildcardPath5("bar/baz");
    SingleSegmentPatternWithLeadingAndTrailingSlashAndWildcardPath6("xfoo");
  }

  // "f\\*o": the case "single segment pattern with escaped wildcard" (__tests__/parse-pattern.test.ts:274-286)
  const SingleSegmentPatternWithEscapedWildcardPattern: string := "f\\*o"
  const SingleSegmentPatternWithEscapedWildcardTokens: seq<Token> := [OptPrefixDirs, Char('f'), Char('*'), Char('o'), OptDescendants]

  lemma SingleSegmentPatternWithEscapedWildcardSegments()
    ensures Compile(SingleSegmentPatternWithEscapedWildcardPattern) == Success(EmitFrom(["**", "f\\*o"], 0, false))
  {
    CompileOf(SingleSegmentPatternWithEscapedWildcardPattern, ["f\\*o"], ["**", "f\\*o"]);
  }

  lemma SingleSegmentPatternWithEscapedWildcardEmitted1()
    ensures EmitFrom(["**", "f\\*o"], 1, false) == [Char('f'), Char('*'), Char('o'), OptDescendants]
  {
  }

  lemma SingleSegmentPatternWithEscapedWildcardEmitted()
    ensures EmitFrom(["**", "f\\*o"], 0, false) == SingleSegmentPatternWithEscapedWildcardTokens
  {
    SingleSegmentPatternWithEscapedWildcardEmitted1();
  }

  lemma SingleSegmentPatternWithEscapedWildcardCompiled()
    ensures Compile(SingleSegmentPatternWithEscapedWildcardPattern) == Success(SingleSegmentPatternWithEscapedWildcardTokens)
  {
    SingleSegmentPatternWithEscapedWildcardSegments();
    SingleSegmentPatternWithEscapedWildcardEmitted();
  }

  lemma SingleSegmentPatternWithEscapedWildcardPath1(s: string)
    requires s == "foo"
    ensures !Matches(SingleSegmentPatternWithEscapedWildcardTokens, s)
  {
    assert !Step(SingleSegmentPatternWithEscapedWildcardTokens, 0, s, 3, 1);
    assert !Step(SingleSegmentPatternWithEscapedWildcardTokens, 0, s, 2, 1);
    assert !Step(SingleSegmentPatternWithEscapedWildcardTokens, 2, s, 1, 0);
    assert !Step(SingleSegmentPatternWithEscapedWildcardTokens, 0, s, 1, 1);
    assert !Step(SingleSegmentPatternWithEscapedWildcardTokens, 1, s, 0, 0);
  }

  lemma SingleSegmentPatternWithEscapedWildcardPath2(s: string)
    requires s == "f*o"
    ensures Matches(SingleSegmentPatternWithEscapedWildcardTokens, s)
  {
    assert Step(SingleSegmentPatternWithEscapedWildcardTokens, 5, s, 3, 0);
    assert Step(SingleSegmentPatternWithEscapedWildcardTokens, 4, s, 3, 0);
    assert Step(SingleSegmentPatternWithEscapedWildcardTokens, 3, s, 2, 0);
    assert Step(SingleSegmentPatternWithEscapedWildcardTokens, 2, s, 1, 0);
    assert Step(SingleSegmentPatternWithEscapedWildcardTokens, 1, s, 0, 0);
  }

  /** The verdicts the case expects for its paths. */
  lemma SingleSegmentPatternWithEscapedWildcardPaths()
    ensures !Matches(SingleSegmentPatternWithEscapedWildcardTokens, "foo")
    ensures Matches(SingleSegmentPatternWithEscapedWildcardTokens, "f*o")
  {
    SingleSegmentPatternWithEscapedWildcardPath1("foo");
    SingleSegmentPatternWithEscapedWildcardPath2("f*o");
  }

  // "foo/*": the case "pattern with trailing wildcard segment" (__tests__/parse-pattern.test.ts:288-305)
  const PatternWithTrailingWildcardSegmentPattern: string := "foo/*"
  const PatternWithTrailingWildcardSegmentTokens: seq<Token> := [Char('f'), Char('o'), Char('o'), Char('/'), NotSepPlus]

  lemma PatternWithTrailingWildcardSegmentSegments()
    ensures Compile(PatternWithTrailingWildcardSegmentPattern) == Success(EmitFrom(["foo", "*"], 0, false))
  {
    CompileOf(PatternWithTrailingWildcardSegmentPattern, ["foo", "*"], ["foo", "*"]);
  }

  lemma PatternWithTrailingWildcardSegmentEmitted1()
    ensures EmitFrom(["foo", "*"], 1, true) == [Char('/'), NotSepPlus]
  {
  }

  lemma PatternWithTrailingWildcardSegmentEmitted()
    ensures EmitFrom(["foo", "*"], 0, false) == PatternWithTrailingWildcardSegmentTokens
  {
    PatternWithTrailingWildcardSegmentEmitted1();
  }

  lemma PatternWithTrailingWildcardSegmentCompiled()
    ensures Compile(PatternWithTrailingWildcardSegmentPattern) == Success(PatternWithTrailingWildcardSegmentTokens)
  {
    PatternWithTrailingWildcardSegmentSegments();
    PatternWithTrailingWildcardSegmentEmitted();
  }

  lemma PatternWithTrailingWildcardSegmentPath1(s: string)
    requires s == "foo"
    ensures !Matches(PatternWithTrailingWildcardSegmentTokens, s)
  {
    assert !Step(PatternWithTrailingWildcardSegmentTokens, 3, s, 3, 0);
    assert !Step(PatternWithTrailingWildcardSegmentTokens, 2, s, 2, 0);
    assert !Step(PatternWithTrailingWildcardSegmentTokens, 1, s, 1, 0);
  }

  lemma PatternWithTrailingWildcardSegmentPath2(s: string)
    requires s == "foo/bar"
    ensures Matches(PatternWithTrailingWildcardSegmentTokens, s)
  {
    assert Step(PatternWithTrailingWildcardSegmentTokens, 5, s, 7, 0);
    assert Step(PatternWithTrailingWildcardSegmentTokens, 4, s, 7, 1);
    assert Step(PatternWithTrailingWildcardSegmentTokens, 4, s, 6, 1);
    assert Step(PatternWithTrailingWildcardSegmentTokens, 4, s, 5, 1);
    assert Step(PatternWithTrailingWildcardSegmentTokens, 4, s, 4, 0);
    assert Step(PatternWithTrailingWildcardSegmentTokens, 3, s, 3, 0);
    assert Step(PatternWithTrailingWildcardSegmentTokens, 2, s, 2, 0);
    assert Step(PatternWithTrailingWildcardSegmentTokens, 1, s, 1, 0);
  }

  lemma PatternWithTrailingWildcardSegmentPath3(s: string)
    requires s == "foo/bar/baz"
    ensures !Matches(PatternWithTrailingWildcardSegmentTokens, s)
  {
    assert !Step(PatternWithTrailingWildcardSegmentTokens, 5, s, 7, 0);
    assert !Step(PatternWithTrailingWildcardSegmentTokens, 4, s, 7, 1);
    assert !Step(PatternWithTrailingWildcardSegmentTokens, 5, s, 6, 0);
    assert !Step(PatternWithTrailingWildcardSegmentTokens, 4, s, 6, 1);
    assert !Step(PatternWithTrailingWildcardSegmentTokens, 5, s, 5, 0);
    assert !Step(PatternWithTrailingWildcardSegmentTokens, 4, s, 5, 1);
    assert !Step(PatternWithTrailingWildcardSegmentTokens, 4, s, 4, 0);
    assert !Step(PatternWithTrailingWildcardSegmentTokens, 3, s, 3, 0);
    assert !Step(PatternWithTrailingWildcardSegmentTokens, 2, s, 2, 0);
    assert !Step(PatternWithTrailingWildcardSegmentTokens, 1, s, 1, 0);
  }

  lemma PatternWithTrailingWildcardSegmentPath4(s: string)
    requires s == "bar/foo"
    ensures !Matches(PatternWithTrailingWildcardSegmentTokens, s)
  {
  }

  lemma PatternWithTrailingWildcardSegmentPath5(s: string)
    requires s == "bar/foo/baz"
    ensures !Matches(PatternWithTrailingWildcardSegmentTokens, s)
  {
  }

  lemma PatternWithTrailingWildcardSegmentPath6(s: string)
    requires s == "bar/baz"
    ensures !Matches(PatternWithTrailingWildcardSegmentTokens, s)
  {
  }

  lemma PatternWithTrailingWildcardSegmentPath7(s: string)
    requires s == "xfoo"
    ensures !Matches(PatternWithTrailingWildcardSegmentTokens, s)
  {
  }

  /** The verdicts the case expects for its paths. */
  lemma PatternWithTrailingWildcardSegmentPaths()
    ensures !Matches(PatternWithTrailingWildcardSegmentTokens, "foo")
    ensures Matches(PatternWithTrailingWildcardSegmentTokens, "foo/bar")
    ensures !Matches(PatternWithTrailingWildcardSegmentTokens, "foo/bar/baz")
    ensures !Matches(PatternWithTrailingWildcardSegmentTokens, "bar/foo")
    ensures !Matches(PatternWithTrailingWildcardSegmentTokens, "bar/foo/baz")
    ensures !Matches(PatternWithTrailingWildcardSegmentTokens, "bar/baz")
    ensures !Matches(PatternWithTrailingWildcardSegmentTokens, "xfoo")
  {
    PatternWithTrailingWildcardSegmentPath1("foo");
    PatternWithTrailingWildcardSegmentPath2("foo/bar");
    PatternWithTrailingWildcardSegmentPath3("foo/bar/baz");
    PatternWithTrailingWildcardSegmentPath4("bar/foo");
    PatternWithTrailingWildcardSegmentPath5("bar/foo/baz");
    PatternWithTrailingWildcardSegmentPath6("bar/baz");
    PatternWithTrailingWildcardSegmentPath7("xfoo");
  }

  // "foo/*.txt": the case "multi-segment pattern with wildcard" (__tests__/parse-pattern.test.ts:307-322)
  const MultiSegmentPatternWithWildcardPattern: string := "foo/*.txt"
  const MultiSegmentPatternWithWildcardTokens: seq<Token> := [Char('f'), Char('o'), Char('o'), Char('/'), NotSepStar, Char('.'), Char('t'), Char('x'), Char('t'), OptDescendants]

  lemma MultiSegmentPatternWithWildcardSegments()
    ensures Compile(MultiSegmentPatternWithWildcardPattern) == Success(EmitFrom(["foo", "*.txt"], 0, false))
  {
    CompileOf(MultiSegmentPatternWithWildcardPattern, ["foo", "*.txt"], ["foo", "*.txt"]);
  }

  lemma MultiSegmentPatternWithWildcardEmitted1()
    ensures EmitFrom(["foo", "*.txt"], 1, true) == [Char('/'), NotSepStar, Char('.'), Char('t'), Char('x'), Char('t'), OptDescendants]
  {
  }

  lemma MultiSegmentPatternWithWildcardEmitted()
    ensures EmitFrom(["foo", "*.txt"], 0, false) == MultiSegmentPatternWithWildcardTokens
  {
    MultiSegmentPatternWithWildcardEmitted1();
  }

  lemma MultiSegmentPatternWithWildcardCompiled()
    ensures Compile(MultiSegmentPatternWithWildcardPattern) == Success(MultiSegmentPatternWithWildcardTokens)
  {
    MultiSegmentPatternWithWildcardSegments();
    MultiSegmentPatternWithWildcardEmitted();
  }

  lemma MultiSegmentPatternWithWildcardPath1(s: string)
    requires s == "foo"
    ensures !Matches(MultiSegmentPatternWithWildcardTokens, s)
  {
    assert !Step(MultiSegmentPatternWithWildcardTokens, 3, s, 3, 0);
    assert !Step(MultiSegmentPatternWithWildcardTokens, 2, s, 2, 0);
    assert !Step(MultiSegmentPatternWithWildcardTokens, 1, s, 1, 0);
  }

  lemma MultiSegmentPatternWithWildcardPath2Part1(s: string)
    requires s == "foo/bar.txt"
    ensures Step(MultiSegmentPatternWithWildcardTokens, 4, s, 6, 0)
  {
    assert Step(MultiSegmentPatternWithWildcardTokens, 10, s, 11, 0);
    assert Step(MultiSegmentPatternWithWildcardTokens, 9, s, 11, 0);
    assert Step(MultiSegmentPatternWithWildcardTokens, 8, s, 10, 0);
    assert Step(MultiSegmentPatternWithWildcardTokens, 7, s, 9, 0);
    assert Step(MultiSegmentPatternWithWildcardTokens, 6, s, 8, 0);
    assert Step(MultiSegmentPatternWithWildcardTokens, 5, s, 7, 0);
    assert Step(MultiSegmentPatternWithWildcardTokens, 4, s, 7, 0);
    assert Step(MultiSegmentPatternWithWildcardTokens, 4, s, 6, 0);
  }

  lemma MultiSegmentPatternWithWildcardPath2Part2(s: string)
    requires s == "foo/bar.txt"
    requires Step(MultiSegmentPatternWithWildcardTokens, 4, s, 6, 0)
    ensures Step(MultiSegmentPatternWithWildcardTokens, 1, s, 1, 0)
  {
    assert Step(MultiSegmentPatternWithWildcardTokens, 4, s, 5, 0);
    assert Step(MultiSegmentPatternWithWildcardTokens, 4, s, 4, 0);
    assert Step(MultiSegmentPatternWithWildcardTokens, 3, s, 3, 0);
    assert Step(MultiSegmentPatternWithWildcardTokens, 2, s, 2, 0);
    assert Step(MultiSegmentPatternWithWildcardTokens, 1, s, 1, 0);
  }

  lemma MultiSegmentPatternWithWildcardPath2(s: string)
    requires s == "foo/bar.txt"
    ensures Matches(MultiSegmentPatternWithWildcardTokens, s)
  {
    MultiSegmentPatternWithWildcardPath2Part1(s);
    MultiSegmentPatternWithWildcardPath2Part2(s);
  }

  lemma MultiSegmentPatternWithWildcardPath3Part1(s: string)
    requires s == "foo/bar/baz.txt"
    ensures !Step(MultiSegmentPatternWithWildcardTokens, 4, s, 4, 0)
  {
    assert !Step(MultiSegmentPatternWithWildcardTokens, 5, s, 7, 0);
    assert !Step(MultiSegmentPatternWithWildcardTokens, 4, s, 7, 0);
    assert !Step(MultiSegmentPatternWithWildcardTokens, 5, s, 6, 0);
    assert !Step(MultiSegmentPatternWithWildcardTokens, 4, s, 6, 0);
    assert !Step(MultiSegmentPatternWithWildcardTokens, 5, s, 5, 0);
    assert !Step(MultiSegmentPatternWithWildcardTokens, 4, s, 5, 0);
    assert !Step(MultiSegmentPatternWithWildcardTokens, 5, s, 4, 0);
    assert !Step(MultiSegmentPatternWithWildcardTokens, 4, s, 4, 0);
  }

  lemma MultiSegmentPatternWithWildcardPath3Part2(s: string)
    requires s == "foo/bar/baz.txt"
    requires !Step(MultiSegmentPatternWithWildcardTokens, 4, s, 4, 0)
    ensures !Step(MultiSegmentPatternWithWildcardTokens, 1, s, 1, 0)
  {
    assert !Step(MultiSegmentPatternWithWildcardTokens, 3, s, 3, 0);
    assert !Step(MultiSegmentPatternWithWildcardTokens, 2, s, 2, 0);
    assert !Step(MultiSegmentPatternWithWildcardTokens, 1, s, 1, 0);
  }

  lemma MultiSegmentPatternWithWildcardPath3(s: string)
    requires s == "foo/bar/baz.txt"
    ensures !Matches(MultiSegmentPatternWithWildcardTokens, s)
  {
    MultiSegmentPatternWithWildcardPath3Part1(s);
    MultiSegmentPatternWithWildcardPath3Part2(s);
  }

  lemma MultiSegmentPatternWithWildcardPath4(s: string)
    requires s == "qux/foo/bar.txt"
    ensures !Matches(MultiSegmentPatternWithWildcardTokens, s)
  {
  }

  lemma MultiSegmentPatternWithWildcardPath5(s: string)
    requires s == "qux/foo/bar/baz.txt"
    ensures !Matches(MultiSegmentPatternWithWildcardTokens, s)
  {
  }

  /** The verdicts the case expects for its paths. */
  lemma MultiSegmentPatternWithWildcardPaths()
    ensures !Matches(MultiSegmentPatternWithWildcardTokens, "foo")
    ensures Matches(MultiSegmentPatternWithWildcardTokens, "foo/bar.txt")
    ensures !Matches(MultiSegmentPatternWithWildcardTokens, "foo/bar/baz.txt")
    ensures !Matches(MultiSegmentPatternWithWildcardTokens, "qux/foo/bar.txt")
    ensures !Matches(MultiSegmentPatternWithWildcardTokens, "qux/foo/bar/baz.txt")
  {
    MultiSegmentPatternWithWildcardPath1("foo");
    MultiSegmentPatternWithWildcardPath2("foo/bar.txt");
    MultiSegmentPatternWithWildcardPath3("foo/bar/baz.txt");
    MultiSegmentPatternWithWildcardPath4("qux/foo/bar.txt");
    MultiSegmentPatternWithWildcardPath5("qux/foo/bar/baz.txt");
  }

  // "foo/*/baz": the case "multi-segment pattern with lone wildcard" (__tests__/parse-pattern.test.ts:324-339)
  const MultiSegmentPatternWithLoneWildcardPattern: string := "foo/*/baz"
  const MultiSegmentPatternWithLoneWildcardTokens: seq<Token> := [Char('f'), Char('o'), Char('o'), Char('/'), NotSepPlus, Char('/'), Char('b'), Char('a'), Char('z'), OptDescendants]

  lemma MultiSegmentPatternWithLoneWildcardSegments()
    ensures Compile(MultiSegmentPatternWithLoneWildcardPattern) == Success(EmitFrom(["foo", "*", "baz"], 0, false))
  {
    assert Join(["*", "baz"], Sep) == "*/baz";
    CompileOf(MultiSegmentPatternWithLoneWildcardPattern, ["foo", "*", "baz"], ["foo", "*", "baz"]);
  }

  lemma MultiSegmentPatternWithLoneWildcardEmitted2()
    ensures EmitFrom(["foo", "*", "baz"], 2, true) == [Char('/'), Char('b'), Char('a'), Char('z'), OptDescendants]
  {
  }

  lemma MultiSegmentPatternWithLoneWildcardEmitted1()
    ensures EmitFrom(["foo", "*", "baz"], 1, true) == [Char('/'), NotSepPlus, Char('/'), Char('b'), Char('a'), Char('z'), OptDescendants]
  {
    MultiSegmentPatternWithLoneWildcardEmitted2();
  }

  lemma MultiSegmentPatternWithLoneWildcardEmitted()
    ensures EmitFrom(["foo", "*", "baz"], 0, false) == MultiSegmentPatternWithLoneWildcardTokens
  {
    MultiSegmentPatternWithLoneWildcardEmitted1();
  }

  lemma MultiSegmentPatternWithLoneWildcardCompiled()
    ensures Compile(MultiSegmentPatternWithLoneWildcardPattern) == Success(MultiSegmentPatternWithLoneWildcardTokens)
  {
    MultiSegmentPatternWithLoneWildcardSegments();
    MultiSegmentPatternWithLoneWildcardEmitted();
  }

  lemma MultiSegmentPatternWithLoneWildcardPath1(s: string)
    requires s == "foo"
    ensures !Matches(MultiSegmentPatternWithLoneWildcardTokens, s)
  {
    assert !Step(MultiSegmentPatternWithLoneWildcardTokens, 3, s, 3, 0);
    assert !Step(MultiSegmentPatternWithLoneWildcardTokens, 2, s, 2, 0);
    assert !Step(MultiSegmentPatternWithLoneWildcardTokens, 1, s, 1, 0);
  }

  lemma MultiSegmentPatternWithLoneWildcardPath2(s: string)
    requires s == "foo/bar"
    ensures !Matches(MultiSegmentPatternWithLoneWildcardTokens, s)
  {
    assert !Step(MultiSegmentPatternWithLoneWildcardTokens, 5, s, 7, 0);
    assert !Step(MultiSegmentPatternWithLoneWildcardTokens, 4, s, 7, 1);
    assert !Step(MultiSegmentPatternWithLoneWildcardTokens, 5, s, 6, 0);
    assert !Step(MultiSegmentPatternWithLoneWildcardTokens, 4, s, 6, 1);
    assert !Step(MultiSegmentPatternWithLoneWildcardTokens, 5, s, 5, 0);
    assert !Step(MultiSegmentPatternWithLoneWildcardTokens, 4, s, 5, 1);
    assert !Step(MultiSegmentPatternWithLoneWildcardTokens, 4, s, 4, 0);
    assert !Step(MultiSegmentPatternWithLoneWildcardTokens, 3, s, 3, 0);
    assert !Step(MultiSegmentPatternWithLoneWildcardTokens, 2, s, 2, 0);
    assert !Step(MultiSegmentPatternWithLoneWildcardTokens, 1, s, 1, 0);
  }

  lemma MultiSegmentPatternWithLoneWildcardPath3(s: string)
    requires s == "foo/baz"
    ensures !Matches(MultiSegmentPatternWithLoneWildcardTokens, s)
  {
    assert !Step(MultiSegmentPatternWithLoneWildcardTokens, 5, s, 7, 0);
    assert !Step(MultiSegmentPatternWithLoneWildcardTokens, 4, s, 7, 1);
    assert !Step(MultiSegmentPatternWithLoneWildcardTokens, 5, s, 6, 0);
    assert !Step(MultiSegmentPatternWithLoneWildcardTokens, 4, s, 6, 1);
    assert !Step(MultiSegmentPatternWithLoneWildcardTokens, 5, s, 5, 0);
    assert !Step(MultiSegmentPatternWithLoneWildcardTokens, 4, s, 5, 1);
    assert !Step(MultiSegmentPatternWithLoneWildcardTokens, 4, s, 4, 0);
    assert !Step(MultiSegmentPatternWithLoneWildcardTokens, 3, s, 3, 0);
    assert !Step(MultiSegmentPatternWithLoneWildcardTokens, 2, s, 2, 0);
    assert !Step(MultiSegmentPatternWithLoneWildcardTokens, 1, s, 1, 0);
  }

  lemma MultiSegmentPatternWithLoneWildcardPath4Part1(s: string)
    requires s == "foo/bar/baz"
    ensures Step(MultiSegmentPatternWithLoneWildcardTokens, 4, s, 6, 1)
  {
    assert Step(MultiSegmentPatternWithLoneWildcardTokens, 10, s, 11, 0);
    assert Step(MultiSegmentPatternWithLoneWildcardTokens, 9, s, 11, 0);
    assert Step(MultiSegmentPatternWithLoneWildcardTokens, 8, s, 10, 0);
    assert Step(MultiSegmentPatternWithLoneWildcardTokens, 7, s, 9, 0);
    assert Step(MultiSegmentPatternWithLoneWildcardTokens, 6, s, 8, 0);
    assert Step(MultiSegmentPatternWithLoneWildcardTokens, 5, s, 7, 0);
    assert Step(MultiSegmentPatternWithLoneWildcardTokens, 4, s, 7, 1);
    assert Step(MultiSegmentPatternWithLoneWildcardTokens, 4, s, 6, 1);
  }

  lemma MultiSegmentPatternWithLoneWildcardPath4Part2(s: string)
    requires s == "foo/bar/baz"
    requires Step(MultiSegmentPatternWithLoneWildcardTokens, 4, s, 6, 1)
    ensures Step(MultiSegmentPatternWithLoneWildcardTokens, 1, s, 1, 0)
  {
    assert Step(MultiSegmentPatternWithLoneWildcardTokens, 4, s, 5, 1);
    assert Step(MultiSegmentPatternWithLoneWildcardTokens, 4, s, 4, 0);
    assert Step(MultiSegmentPatternWithLoneWildcardTokens, 3, s, 3, 0);
    assert Step(MultiSegmentPatternWithLoneWildcardTokens, 2, s, 2, 0);
    assert Step(MultiSegmentPatternWithLoneWildcardTokens, 1, s, 1, 0);
  }

  lemma MultiSegmentPatternWithLoneWildcardPath4(s: string)
    requires s == "foo/bar/baz"
    ensures Matches(MultiSegmentPatternWithLoneWildcardTokens, s)
  {
    MultiSegmentPatternWithLoneWildcardPath4Part1(s);
    MultiSegmentPatternWithLoneWildcardPath4Part2(s);
  }

  lemma MultiSegmentPatternWithLoneWildcardPath5Part1(s: string)
    requires s == "foo/bar/baz/qux"
    ensures Step(MultiSegmentPatternWithLoneWildcardTokens, 7, s, 9, 0)
  {
    assert Step(MultiSegmentPatternWithLoneWildcardTokens, 10, s, 15, 0);
    assert Step(MultiSegmentPatternWithLoneWildcardTokens, 9, s, 15, 1);
    assert Step(MultiSegmentPatternWithLoneWildcardTokens, 9, s, 14, 1);
    assert Step(MultiSegmentPatternWithLoneWildcardTokens, 9, s, 13, 1);
    assert Step(MultiSegmentPatternWithLoneWildcardTokens, 9, s, 12, 1);
    assert Step(MultiSegmentPatternWithLoneWildcardTokens, 9, s, 11, 0);
    assert Step(MultiSegmentPatternWithLoneWildcardTokens, 8, s, 10, 0);
    assert Step(MultiSegmentPatternWithLoneWildcardTokens, 7, s, 9, 0);
  }

  lemma MultiSegmentPatternWithLoneWildcardPath5Part2(s: string)
    requires s == "foo/bar/baz/qux"
    requires Step(MultiSegmentPatternWithLoneWildcardTokens, 7, s, 9, 0)
    ensures Step(MultiSegmentPatternWithLoneWildcardTokens, 2, s, 2, 0)
  {
    assert Step(MultiSegmentPatternWithLoneWildcardTokens, 6, s, 8, 0);
    assert Step(MultiSegmentPatternWithLoneWildcardTokens, 5, s, 7, 0);
    assert Step(MultiSegmentPatternWithLoneWildcardTokens, 4, s, 7, 1);
    assert Step(MultiSegmentPatternWithLoneWildcardTokens, 4, s, 6, 1);
    assert Step(MultiSegmentPatternWithLoneWildcardTokens, 4, s, 5, 1);
    assert Step(MultiSegmentPatternWithLoneWildcardTokens, 4, s, 4, 0);
    assert Step(MultiSegmentPatternWithLoneWildcardTokens, 3, s, 3, 0);
    assert Step(MultiSegmentPatternWithLoneWildcardTokens, 2, s, 2, 0);
  }

  lemma MultiSegmentPatternWithLoneWildcardPath5Part3(s: string)
    requires s == "foo/bar/baz/qux"
    requires Step(MultiSegmentPatternWithLoneWildcardTokens, 2, s, 2, 0)
    ensures Step(MultiSegmentPatternWithLoneWildcardTokens, 1, s, 1, 0)
  {
    assert Step(MultiSegmentPatternWithLoneWildcardTokens, 1, s, 1, 0);
  }

  lemma MultiSegmentPatternWithLoneWildcardPath5(s: string)
    requires s == "foo/bar/baz/qux"
    ensures Matches(MultiSegmentPatternWithLoneWildcardTokens, s)
  {
    MultiSegmentPatternWithLoneWildcardPath5Part1(s);
    MultiSegmentPatternWithLoneWildcardPath5Part2(s);
    MultiSegmentPatternWithLoneWildcardPath5Part3(s);
  }

  /** The verdicts the case expects for its paths. */
  lemma MultiSegmentPatternWithLoneWildcardPaths()
    ensures !Matches(MultiSegmentPatternWithLoneWildcardTokens, "foo")
    ensures !Matches(MultiSegmentPatternWithLoneWildcardTokens, "foo/bar")
    ensures !Matches(MultiSegmentPatternWithLoneWildcardTokens, "foo/baz")
    ensures Matches(MultiSegmentPatternWithLoneWildcardTokens, "foo/bar/baz")
    ensures Matches(MultiSegmentPatternWithLoneWildcardTokens, "foo/bar/baz/qux")
  {
    MultiSegmentPatternWithLoneWildcardPath1("foo");
    MultiSegmentPatternWithLoneWildcardPath2("foo/bar");
    MultiSegmentPatternWithLoneWildcardPath3("foo/baz");
    MultiSegmentPatternWithLoneWildcardPath4("foo/bar/baz");
    MultiSegmentPatternWithLoneWildcardPath5("foo/bar/baz/qux");
  }

  // "f?o": the case "single segment pattern with single-character wildcard" (__tests__/parse-pattern.test.ts:341-354)
  const SingleSegmentPatternWithSingleCharacterWildcardPattern: string := "f?o"
  const SingleSegmentPatternWithSingleCharacterWildcardTokens: seq<Token> := [OptPrefixDirs, Char('f'), NotSep, Char('o'), OptDescendants]

  lemma SingleSegmentPatternWithSingleCharacterWildcardSegments()
    ensures Compile(SingleSegmentPatternWithSingleCharacterWildcardPattern) == Success(EmitFrom(["**", "f?o"], 0, false))
  {
    CompileOf(SingleSegmentPatternWithSingleCharacterWildcardPattern, ["f?o"], ["**", "f?o"]);
  }

  lemma SingleSegmentPatternWithSingleCharacterWildcardEmitted1()
    ensures EmitFrom(["**", "f?o"], 1, false) == [Char('f'), NotSep, Char('o'), OptDescendants]
  {
  }

  lemma SingleSegmentPatternWithSingleCharacterWildcardEmitted()
    ensures EmitFrom(["**", "f?o"], 0, false) == SingleSegmentPatternWithSingleCharacterWildcardTokens
  {
    SingleSegmentPatternWithSingleCharacterWildcardEmitted1();
  }

  lemma SingleSegmentPatternWithSingleCharacterWildcardCompiled()
    ensures Compile(SingleSegmentPatternWithSingleCharacterWildcardPattern) == Success(SingleSegmentPatternWithSingleCharacterWildcardTokens)
  {
    SingleSegmentPatternWithSingleCharacterWildcardSegments();
    SingleSegmentPatternWithSingleCharacterWildcardEmitted();
  }

  lemma SingleSegmentPatternWithSingleCharacterWildcardPath1(s: string)
    requires s == "foo"
    ensures Matches(SingleSegmentPatternWithSingleCharacterWildcardTokens, s)
  {
    assert Step(SingleSegmentPatternWithSingleCharacterWildcardTokens, 5, s, 3, 0);
    assert Step(SingleSegmentPatternWithSingleCharacterWildcardTokens, 4, s, 3, 0);
    assert Step(SingleSegmentPatternWithSingleCharacterWildcardTokens, 3, s, 2, 0);
    assert Step(SingleSegmentPatternWithSingleCharacterWildcardTokens, 2, s, 1, 0);
    assert Step(SingleSegmentPatternWithSingleCharacterWildcardTokens, 1, s, 0, 0);
  }

  lemma SingleSegmentPatternWithSingleCharacterWildcardPath2(s: string)
    requires s == "fo"
    ensures !Matches(SingleSegmentPatternWithSingleCharacterWildcardTokens, s)
  {
    assert !Step(SingleSegmentPatternWithSingleCharacterWildcardTokens, 3, s, 2, 0);
    assert !Step(SingleSegmentPatternWithSingleCharacterWildcardTokens, 0, s, 2, 1);
    assert !Step(SingleSegmentPatternWithSingleCharacterWildcardTokens, 2, s, 1, 0);
    assert !Step(SingleSegmentPatternWithSingleCharacterWildcardTokens, 0, s, 1, 1);
    assert !Step(SingleSegmentPatternWithSingleCharacterWildcardTokens, 1, s, 0, 0);
  }

  lemma SingleSegmentPatternWithSingleCharacterWildcardPath3(s: string)
    requires s == "fooo"
    ensures !Matches(SingleSegmentPatternWithSingleCharacterWildcardTokens, s)
  {
    assert !Step(SingleSegmentPatternWithSingleCharacterWildcardTokens, 0, s, 4, 1);
    assert !Step(SingleSegmentPatternWithSingleCharacterWildcardTokens, 5, s, 3, 0);
    assert !Step(SingleSegmentPatternWithSingleCharacterWildcardTokens, 4, s, 3, 0);
    assert !Step(SingleSegmentPatternWithSingleCharacterWildcardTokens, 0, s, 3, 1);
    assert !Step(SingleSegmentPatternWithSingleCharacterWildcardTokens, 3, s, 2, 0);
    assert !Step(SingleSegmentPatternWithSingleCharacterWildcardTokens, 0, s, 2, 1);
    assert !Step(SingleSegmentPatternWithSingleCharacterWildcardTokens, 2, s, 1, 0);
    assert !Step(SingleSegmentPatternWithSingleCharacterWildcardTokens, 0, s, 1, 1);
    assert !Step(SingleSegmentPatternWithSingleCharacterWildcardTokens, 1, s, 0, 0);
  }

  /** The verdicts the case expects for its paths. */
  lemma SingleSegmentPatternWithSingleCharacterWildcardPaths()
    ensures Matches(SingleSegmentPatternWithSingleCharacterWildcardTokens, "foo")
    ensures !Matches(SingleSegmentPatternWithSingleCharacterWildcardTokens, "fo")
    ensures !Matches(SingleSegmentPatternWithSingleCharacterWildcardTokens, "fooo")
  {
    SingleSegmentPatternWithSingleCharacterWildcardPath1("foo");
    SingleSegmentPatternWithSingleCharacterWildcardPath2("fo");
    SingleSegmentPatternWithSingleCharacterWildcardPath3("fooo");
  }

  // "f\\?o": the case "single segment pattern with escaped single-character wildcard" (__tests__/parse-pattern.test.ts:356-368)
  const SingleSegmentPatternWithEscapedSingleCharacterWildcardPattern: string := "f\\?o"
  const SingleSegmentPatternWithEscapedSingleCharacterWildcardTokens: seq<Token> := [OptPrefixDirs, Char('f'), Char('?'), Char('o'), OptDescendants]

  lemma SingleSegmentPatternWithEscapedSingleCharacterWildcardSegments()
    ensures Compile(SingleSegmentPatternWithEscapedSingleCharacterWildcardPattern) == Success(EmitFrom(["**", "f\\?o"], 0, false))
  {
    CompileOf(SingleSegmentPatternWithEscapedSingleCharacterWildcardPattern, ["f\\?o"], ["**", "f\\?o"]);
  }

  lemma SingleSegmentPatternWithEscapedSingleCharacterWildcardEmitted1()
    ensures EmitFrom(["**", "f\\?o"], 1, false) == [Char('f'), Char('?'), Char('o'), OptDescendants]
  {
  }

  lemma SingleSegmentPatternWithEscapedSingleCharacterWildcardEmitted()
    ensures EmitFrom(["**", "f\\?o"], 0, false) == SingleSegmentPatternWithEscapedSingleCharacterWildcardTokens
  {
    SingleSegmentPatternWithEscapedSingleCharacterWildcardEmitted1();
  }

  lemma SingleSegmentPatternWithEscapedSingleCharacterWildcardCompiled()
    ensures Compile(SingleSegmentPatternWithEscapedSingleCharacterWildcardPattern) == Success(SingleSegmentPatternWithEscapedSingleCharacterWildcardTokens)
  {
    SingleSegmentPatternWithEscapedSingleCharacterWildcardSegments();
    SingleSegmentPatternWithEscapedSingleCharacterWildcardEmitted();
  }

  lemma SingleSegmentPatternWithEscapedSingleCharacterWildcardPath1(s: string)
    requires s == "foo"
    ensures !Matches(SingleSegmentPatternWithEscapedSingleCharacterWildcardTokens, s)
  {
    assert !Step(SingleSegmentPatternWithEscapedSingleCharacterWildcardTokens, 0, s, 3, 1);
    assert !Step(SingleSegmentPatternWithEscapedSingleCharacterWildcardTokens, 0, s, 2, 1);
    assert !Step(SingleSegmentPatternWithEscapedSingleCharacterWildcardTokens, 2, s, 1, 0);
    assert !Step(SingleSegmentPatternWithEscapedSingleCharacterWildcardTokens, 0, s, 1, 1);
    assert !Step(SingleSegmentPatternWithEscapedSingleCharacterWildcardTokens, 1, s, 0, 0);
  }

  lemma SingleSegmentPatternWithEscapedSingleCharacterWildcardPath2(s: string)
    requires s == "f?o"
    ensures Matches(SingleSegmentPatternWithEscapedSingleCharacterWildcardTokens, s)
  {
    assert Step(SingleSegmentPatternWithEscapedSingleCharacterWildcardTokens, 5, s, 3, 0);
    assert Step(SingleSegmentPatternWithEscapedSingleCharacterWildcardTokens, 4, s, 3, 0);
    assert Step(SingleSegmentPatternWithEscapedSingleCharacterWildcardTokens, 3, s, 2, 0);
    assert Step(SingleSegmentPatternWithEscapedSingleCharacterWildcardTokens, 2, s, 1, 0);
    assert Step(SingleSegmentPatternWithEscapedSingleCharacterWildcardTokens, 1, s, 0, 0);
  }

  /** The verdicts the case expects for its paths. */
  lemma SingleSegmentPatternWithEscapedSingleCharacterWildcardPaths()
    ensures !Matches(SingleSegmentPatternWithEscapedSingleCharacterWildcardTokens, "foo")
    ensures Matches(SingleSegmentPatternWithEscapedSingleCharacterWildcardTokens, "f?o")
  {
    SingleSegmentPatternWithEscapedSingleCharacterWildcardPath1("foo");
    SingleSegmentPatternWithEscapedSingleCharacterWildcardPath2("f?o");
  }

  // "**/foo/bar": the case "leading double-asterisk wildcard" (__tests__/parse-pattern.test.ts:370-385)
  const LeadingDoubleAsteriskWildcardPattern: string := "**/foo/bar"
  const LeadingDoubleAsteriskWildcardTokens: seq<Token> := [OptPrefixDirs, Char('f'), Char('o'), Char('o'), Char('/'), Char('b'), Char('a'), Char('r'), OptDescendants]

  lemma LeadingDoubleAsteriskWildcardSegments()
    ensures Compile(LeadingDoubleAsteriskWildcardPattern) == Success(EmitFrom(["**", "foo", "bar"], 0, false))
  {
    assert Join(["foo", "bar"], Sep) == "foo/bar";
    CompileOf(LeadingDoubleAsteriskWildcardPattern, ["**", "foo", "bar"], ["**", "foo", "bar"]);
  }

  lemma LeadingDoubleAsteriskWildcardEmitted2()
    ensures EmitFrom(["**", "foo", "bar"], 2, true) == [Char('/'), Char('b'), Char('a'), Char('r'), OptDescendants]
  {
  }

  lemma LeadingDoubleAsteriskWildcardEmitted1()
    ensures EmitFrom(["**", "foo", "bar"], 1, false) == [Char('f'), Char('o'), Char('o'), Char('/'), Char('b'), Char('a'), Char('r'), OptDescendants]
  {
    LeadingDoubleAsteriskWildcardEmitted2();
  }

  lemma LeadingDoubleAsteriskWildcardEmitted()
    ensures EmitFrom(["**", "foo", "bar"], 0, false) == LeadingDoubleAsteriskWildcardTokens
  {
    LeadingDoubleAsteriskWildcardEmitted1();
  }

  lemma LeadingDoubleAsteriskWildcardCompiled()
    ensures Compile(LeadingDoubleAsteriskWildcardPattern) == Success(LeadingDoubleAsteriskWildcardTokens)
  {
    LeadingDoubleAsteriskWildcardSegments();
    LeadingDoubleAsteriskWildcardEmitted();
  }

  lemma LeadingDoubleAsteriskWildcardPath1(s: string)
    requires s == "foo/bar"
    ensures Matches(LeadingDoubleAsteriskWildcardTokens, s)
  {
    assert Step(LeadingDoubleAsteriskWildcardTokens, 9, s, 7, 0);
    assert Step(LeadingDoubleAsteriskWildcardTokens, 8, s, 7, 0);
    assert Step(LeadingDoubleAsteriskWildcardTokens, 7, s, 6, 0);
    assert Step(LeadingDoubleAsteriskWildcardTokens, 6, s, 5, 0);
    assert Step(LeadingDoubleAsteriskWildcardTokens, 5, s, 4, 0);
    assert Step(LeadingDoubleAsteriskWildcardTokens, 4, s, 3, 0);
    assert Step(LeadingDoubleAsteriskWildcardTokens, 3, s, 2, 0);
    assert Step(LeadingDoubleAsteriskWildcardTokens, 2, s, 1, 0);
    assert Step(LeadingDoubleAsteriskWildcardTokens, 1, s, 0, 0);
  }

  lemma LeadingDoubleAsteriskWildcardPath2Part1(s: string)
    requires s == "qux/foo/bar"
    ensures Step(LeadingDoubleAsteriskWildcardTokens, 2, s, 5, 0)
  {
    assert Step(LeadingDoubleAsteriskWildcardTokens, 9, s, 11, 0);
    assert Step(LeadingDoubleAsteriskWildcardTokens, 8, s, 11, 0);
    assert Step(LeadingDoubleAsteriskWildcardTokens, 7, s, 10, 0);
    assert Step(LeadingDoubleAsteriskWildcardTokens, 6, s, 9, 0);
    assert Step(LeadingDoubleAsteriskWildcardTokens, 5, s, 8, 0);
    assert Step(LeadingDoubleAsteriskWildcardTokens, 4, s, 7, 0);
    assert Step(LeadingDoubleAsteriskWildcardTokens, 3, s, 6, 0);
    assert Step(LeadingDoubleAsteriskWildcardTokens, 2, s, 5, 0);
  }

  lemma LeadingDoubleAsteriskWildcardPath2Part2(s: string)
    requires s == "qux/foo/bar"
    requires Step(LeadingDoubleAsteriskWildcardTokens, 2, s, 5, 0)
    ensures Step(LeadingDoubleAsteriskWildcardTokens, 0, s, 1, 1)
  {
    assert Step(LeadingDoubleAsteriskWildcardTokens, 1, s, 4, 0);
    assert Step(LeadingDoubleAsteriskWildcardTokens, 0, s, 3, 1);
    assert Step(LeadingDoubleAsteriskWildcardTokens, 0, s, 2, 1);
    assert Step(LeadingDoubleAsteriskWildcardTokens, 0, s, 1, 1);
  }

  lemma LeadingDoubleAsteriskWildcardPath2(s: string)
    requires s == "qux/foo/bar"
    ensures Matches(LeadingDoubleAsteriskWildcardTokens, s)
  {
    LeadingDoubleAsteriskWildcardPath2Part1(s);
    LeadingDoubleAsteriskWildcardPath2Part2(s);
  }

  lemma LeadingDoubleAsteriskWildcardPath3Part1(s: string)
    requires s == "qux/foo/bar/baz"
    ensures Step(LeadingDoubleAsteriskWildcardTokens, 6, s, 9, 0)
  {
    assert Step(LeadingDoubleAsteriskWildcardTokens, 9, s, 15, 0);
    assert Step(LeadingDoubleAsteriskWildcardTokens, 8, s, 15, 1);
    assert Step(LeadingDoubleAsteriskWildcardTokens, 8, s, 14, 1);
    assert Step(LeadingDoubleAsteriskWildcardTokens, 8, s, 13, 1);
    assert Step(LeadingDoubleAsteriskWildcardTokens, 8, s, 12, 1);
    assert Step(LeadingDoubleAsteriskWildcardTokens, 8, s, 11, 0);
    assert Step(LeadingDoubleAsteriskWildcardTokens, 7, s, 10, 0);
    assert Step(LeadingDoubleAsteriskWildcardTokens, 6, s, 9, 0);
  }

  lemma LeadingDoubleAsteriskWildcardPath3Part2(s: string)
    requires s == "qux/foo/bar/baz"
    requires Step(LeadingDoubleAsteriskWildcardTokens, 6, s, 9, 0)
    ensures Step(LeadingDoubleAsteriskWildcardTokens, 0, s, 1, 1)
  {
    assert Step(LeadingDoubleAsteriskWildcardTokens, 5, s, 8, 0);
    assert Step(LeadingDoubleAsteriskWildcardTokens, 4, s, 7, 0);
    assert Step(LeadingDoubleAsteriskWildcardTokens, 3, s, 6, 0);
    assert Step(LeadingDoubleAsteriskWildcardTokens, 2, s, 5, 0);
    assert Step(LeadingDoubleAsteriskWildcardTokens, 1, s, 4, 0);
    assert Step(LeadingDoubleAsteriskWildcardTokens, 0, s, 3, 1);
    assert Step(LeadingDoubleAsteriskWildcardTokens, 0, s, 2, 1);
    assert Step(LeadingDoubleAsteriskWildcardTokens, 0, s, 1, 1);
  }

  lemma LeadingDoubleAsteriskWildcardPath3(s: string)
    requires s == "qux/foo/bar/baz"
    ensures Matches(LeadingDoubleAsteriskWildcardTokens, s)
  {
    LeadingDoubleAsteriskWildcardPath3Part1(s);
    LeadingDoubleAsteriskWildcardPath3Part2(s);
  }

  lemma LeadingDoubleAsteriskWildcardPath4Part1(s: string)
    requires s == "foo/baz/bar"
    ensures !Step(LeadingDoubleAsteriskWildcardTokens, 7, s, 6, 0)
    ensures !Step(LeadingDoubleAsteriskWildcardTokens, 0, s, 6, 1)
  {
    assert !Step(LeadingDoubleAsteriskWildcardTokens, 0, s, 11, 1);
    assert !Step(LeadingDoubleAsteriskWildcardTokens, 0, s, 10, 1);
    assert !Step(LeadingDoubleAsteriskWildcardTokens, 0, s, 9, 1);
    assert !Step(LeadingDoubleAsteriskWildcardTokens, 1, s, 8, 0);
    assert !Step(LeadingDoubleAsteriskWildcardTokens, 0, s, 8, 1);
    assert !Step(LeadingDoubleAsteriskWildcardTokens, 0, s, 7, 1);
    assert !Step(LeadingDoubleAsteriskWildcardTokens, 7, s, 6, 0);
    assert !Step(LeadingDoubleAsteriskWildcardTokens, 0, s, 6, 1);
  }

  lemma LeadingDoubleAsteriskWildcardPath4Part2(s: string)
    requires s == "foo/baz/bar"
    requires !Step(LeadingDoubleAsteriskWildcardTokens, 7, s, 6, 0)
    requires !Step(LeadingDoubleAsteriskWildcardTokens, 0, s, 6, 1)
    ensures !Step(LeadingDoubleAsteriskWildcardTokens, 0, s, 3, 1)
    ensures !Step(LeadingDoubleAsteriskWildcardTokens, 3, s, 2, 0)
  {
    assert !Step(LeadingDoubleAsteriskWildcardTokens, 6, s, 5, 0);
    assert !Step(LeadingDoubleAsteriskWildcardTokens, 0, s, 5, 1);
    assert !Step(LeadingDoubleAsteriskWildcardTokens, 5, s, 4, 0);
    assert !Step(LeadingDoubleAsteriskWildcardTokens, 1, s, 4, 0);
    assert !Step(LeadingDoubleAsteriskWildcardTokens, 0, s, 4, 1);
    assert !Step(LeadingDoubleAsteriskWildcardTokens, 4, s, 3, 0);
    assert !Step(LeadingDoubleAsteriskWildcardTokens, 0, s, 3, 1);
    assert !Step(LeadingDoubleAsteriskWildcardTokens, 3, s, 2, 0);
  }

  lemma LeadingDoubleAsteriskWildcardPath4Part3(s: string)
    requires s == "foo/baz/bar"
    requires !Step(LeadingDoubleAsteriskWildcardTokens, 0, s, 3, 1)
    requires !Step(LeadingDoubleAsteriskWildcardTokens, 3, s, 2, 0)
    ensures !Step(LeadingDoubleAsteriskWildcardTokens, 0, s, 1, 1)
    ensures !Step(LeadingDoubleAsteriskWildcardTokens, 1, s, 0, 0)
  {
    assert !Step(LeadingDoubleAsteriskWildcardTokens, 0, s, 2, 1);
    assert !Step(LeadingDoubleAsteriskWildcardTokens, 2, s, 1, 0);
    assert !Step(LeadingDoubleAsteriskWildcardTokens, 0, s, 1, 1);
    assert !Step(LeadingDoubleAsteriskWildcardTokens, 1, s, 0, 0);
  }

  lemma LeadingDoubleAsteriskWildcardPath4(s: string)
    requires s == "foo/baz/bar"
    ensures !Matches(LeadingDoubleAsteriskWildcardTokens, s)
  {
    LeadingDoubleAsteriskWildcardPath4Part1(s);
    LeadingDoubleAsteriskWildcardPath4Part2(s);
    LeadingDoubleAsteriskWildcardPath4Part3(s);
  }

  lemma LeadingDoubleAsteriskWildcardPath5Part1(s: string)
    requires s == "qux/foo/baz/bar"
    ensures !Step(LeadingDoubleAsteriskWildcardTokens, 7, s, 10, 0)
    ensures !Step(LeadingDoubleAsteriskWildcardTokens, 0, s, 10, 1)
  {
    assert !Step(LeadingDoubleAsteriskWildcardTokens, 0, s, 15, 1);
    assert !Step(LeadingDoubleAsteriskWildcardTokens, 0, s, 14, 1);
    assert !Step(LeadingDoubleAsteriskWildcardTokens, 0, s, 13, 1);
    assert !Step(LeadingDoubleAsteriskWildcardTokens, 1, s, 12, 0);
    assert !Step(LeadingDoubleAsteriskWildcardTokens, 0, s, 12, 1);
    assert !Step(LeadingDoubleAsteriskWildcardTokens, 0, s, 11, 1);
    assert !Step(LeadingDoubleAsteriskWildcardTokens, 7, s, 10, 0);
    assert !Step(LeadingDoubleAsteriskWildcardTokens, 0, s, 10, 1);
  }

  lemma LeadingDoubleAsteriskWildcardPath5Part2(s: string)
    requires s == "qux/foo/baz/bar"
    requires !Step(LeadingDoubleAsteriskWildcardTokens, 7, s, 10, 0)
    requires !Step(LeadingDoubleAsteriskWildcardTokens, 0, s, 10, 1)
    ensures !Step(LeadingDoubleAsteriskWildcardTokens, 0, s, 7, 1)
    ensures !Step(LeadingDoubleAsteriskWildcardTokens, 3, s, 6, 0)
  {
    assert !Step(LeadingDoubleAsteriskWildcardTokens, 6, s, 9, 0);
    assert !Step(LeadingDoubleAsteriskWildcardTokens, 0, s, 9, 1);
    assert !Step(LeadingDoubleAsteriskWildcardTokens, 5, s, 8, 0);
    assert !Step(LeadingDoubleAsteriskWildcardTokens, 1, s, 8, 0);
    assert !Step(LeadingDoubleAsteriskWildcardTokens, 0, s, 8, 1);
    assert !Step(LeadingDoubleAsteriskWildcardTokens, 4, s, 7, 0);
    assert !Step(LeadingDoubleAsteriskWildcardTokens, 0, s, 7, 1);
    assert !Step(LeadingDoubleAsteriskWildcardTokens, 3, s, 6, 0);
  }

  lemma LeadingDoubleAsteriskWildcardPath5Part3(s: string)
    requires s == "qux/foo/baz/bar"
    requires !Step(LeadingDoubleAsteriskWildcardTokens, 0, s, 7, 1)
    requires !Step(LeadingDoubleAsteriskWildcardTokens, 3, s, 6, 0)
    ensures !Step(LeadingDoubleAsteriskWildcardTokens, 0, s, 1, 1)
  {
    assert !Step(LeadingDoubleAsteriskWildcardTokens, 0, s, 6, 1);
    assert !Step(LeadingDoubleAsteriskWildcardTokens, 2, s, 5, 0);
    assert !Step(LeadingDoubleAsteriskWildcardTokens, 0, s, 5, 1);
    assert !Step(LeadingDoubleAsteriskWildcardTokens, 1, s, 4, 0);
    assert !Step(LeadingDoubleAsteriskWildcardTokens, 0, s, 4, 1);
    assert !Step(LeadingDoubleAsteriskWildcardTokens, 0, s, 3, 1);
    assert !Step(LeadingDoubleAsteriskWildcardTokens, 0, s, 2, 1);
    assert !Step(LeadingDoubleAsteriskWildcardTokens, 0, s, 1, 1);
  }

  lemma LeadingDoubleAsteriskWildcardPath5Part4(s: string)
    requires s == "qux/foo/baz/bar"
    ensures !Step(LeadingDoubleAsteriskWildcardTokens, 1, s, 0, 0)
  {
    assert !Step(LeadingDoubleAsteriskWildcardTokens, 1, s, 0, 0);
  }

  lemma LeadingDoubleAsteriskWildcardPath5(s: string)
    requires s == "qux/foo/baz/bar"
    ensures !Matches(LeadingDoubleAsteriskWildcardTokens, s)
  {
    LeadingDoubleAsteriskWildcardPath5Part1(s);
    LeadingDoubleAsteriskWildcardPath5Part2(s);
    LeadingDoubleAsteriskWildcardPath5Part3(s);
    LeadingDoubleAsteriskWildcardPath5Part4(s);
  }

  /** The verdicts the case expects for its paths. */
  lemma LeadingDoubleAsteriskWildcardPaths()
    ensures Matches(LeadingDoubleAsteriskWildcardTokens, "foo/bar")
    ensures Matches(LeadingDoubleAsteriskWildcardTokens, "qux/foo/bar")
    ensures Matches(LeadingDoubleAsteriskWildcardTokens, "qux/foo/bar/baz")
    ensures !Matches(LeadingDoubleAsteriskWildcardTokens, "foo/baz/bar")
    ensures !Matches(LeadingDoubleAsteriskWildcardTokens, "qux/foo/baz/bar")
  {
    LeadingDoubleAsteriskWildcardPath1("foo/bar");
    LeadingDoubleAsteriskWildcardPath2("qux/foo/bar");
    LeadingDoubleAsteriskWildcardPath3("qux/foo/bar/baz");
    LeadingDoubleAsteriskWildcardPath4("foo/baz/bar");
    LeadingDoubleAsteriskWildcardPath5("qux/foo/baz/bar");
  }

  // "**/*bar*": the case "leading double-asterisk wildcard with regular wildcard" (__tests__/parse-pattern.test.ts:387-402)
  const LeadingDoubleAsteriskWildcardWithRegularWildcardPattern: string := "**/*bar*"
  const LeadingDoubleAsteriskWildcardWithRegularWildcardTokens: seq<Token> := [OptPrefixDirs, NotSepStar, Char('b'), Char('a'), Char('r'), NotSepStar, OptDescendants]

  lemma LeadingDoubleAsteriskWildcardWithRegularWildcardSegments()
    ensures Compile(LeadingDoubleAsteriskWildcardWithRegularWildcardPattern) == Success(EmitFrom(["**", "*bar*"], 0, false))
  {
    CompileOf(LeadingDoubleAsteriskWildcardWithRegularWildcardPattern, ["**", "*bar*"], ["**", "*bar*"]);
  }

  lemma LeadingDoubleAsteriskWildcardWithRegularWildcardEmitted1()
    ensures EmitFrom(["**", "*bar*"], 1, false) == [NotSepStar, Char('b'), Char('a'), Char('r'), NotSepStar, OptDescendants]
  {
  }

  lemma LeadingDoubleAsteriskWildcardWithRegularWildcardEmitted()
    ensures EmitFrom(["**", "*bar*"], 0, false) == LeadingDoubleAsteriskWildcardWithRegularWildcardTokens
  {
    LeadingDoubleAsteriskWildcardWithRegularWildcardEmitted1();
  }

  lemma LeadingDoubleAsteriskWildcardWithRegularWildcardCompiled()
    ensures Compile(LeadingDoubleAsteriskWildcardWithRegularWildcardPattern) == Success(LeadingDoubleAsteriskWildcardWithRegularWildcardTokens)
  {
    LeadingDoubleAsteriskWildcardWithRegularWildcardSegments();
    LeadingDoubleAsteriskWildcardWithRegularWildcardEmitted();
  }

  lemma LeadingDoubleAsteriskWildcardWithRegularWildcardPath1(s: string)
    requires s == "bar"
    ensures Matches(LeadingDoubleAsteriskWildcardWithRegularWildcardTokens, s)
  {
    assert Step(LeadingDoubleAsteriskWildcardWithRegularWildcardTokens, 7, s, 3, 0);
    assert Step(LeadingDoubleAsteriskWildcardWithRegularWildcardTokens, 6, s, 3, 0);
    assert Step(LeadingDoubleAsteriskWildcardWithRegularWildcardTokens, 5, s, 3, 0);
    assert Step(LeadingDoubleAsteriskWildcardWithRegularWildcardTokens, 4, s, 2, 0);
    assert Step(LeadingDoubleAsteriskWildcardWithRegularWildcardTokens, 3, s, 1, 0);
    assert Step(LeadingDoubleAsteriskWildcardWithRegularWildcardTokens, 2, s, 0, 0);
    assert Step(LeadingDoubleAsteriskWildcardWithRegularWildcardTokens, 1, s, 0, 0);
  }

  lemma LeadingDoubleAsteriskWildcardWithRegularWildcardPath2(s: string)
    requires s == "foo/bar"
    ensures Matches(LeadingDoubleAsteriskWildcardWithRegularWildcardTokens, s)
  {
    assert Step(LeadingDoubleAsteriskWildcardWithRegularWildcardTokens, 7, s, 7, 0);
    assert Step(LeadingDoubleAsteriskWildcardWithRegularWildcardTokens, 6, s, 7, 0);
    assert Step(LeadingDoubleAsteriskWildcardWithRegularWildcardTokens, 5, s, 7, 0);
    assert Step(LeadingDoubleAsteriskWildcardWithRegularWildcardTokens, 4, s, 6, 0);
    assert Step(LeadingDoubleAsteriskWildcardWithRegularWildcardTokens, 3, s, 5, 0);
    assert Step(LeadingDoubleAsteriskWildcardWithRegularWildcardTokens, 2, s, 4, 0);
    assert Step(LeadingDoubleAsteriskWildcardWithRegularWildcardTokens, 1, s, 4, 0);
    assert Step(LeadingDoubleAsteriskWildcardWithRegularWildcardTokens, 0, s, 3, 1);
    assert Step(LeadingDoubleAsteriskWildcardWithRegularWildcardTokens, 0, s, 2, 1);
    assert Step(LeadingDoubleAsteriskWildcardWithRegularWildcardTokens, 0, s, 1, 1);
  }

  lemma LeadingDoubleAsteriskWildcardWithRegularWildcardPath3Part1(s: string)
    requires s == "foo/rebar"
    ensures Step(LeadingDoubleAsteriskWildcardWithRegularWildcardTokens, 1, s, 5, 0)
  {
    assert Step(LeadingDoubleAsteriskWildcardWithRegularWildcardTokens, 7, s, 9, 0);
    assert Step(LeadingDoubleAsteriskWildcardWithRegularWildcardTokens, 6, s, 9, 0);
    assert Step(LeadingDoubleAsteriskWildcardWithRegularWildcardTokens, 5, s, 9, 0);
    assert Step(LeadingDoubleAsteriskWildcardWithRegularWildcardTokens, 4, s, 8, 0);
    assert Step(LeadingDoubleAsteriskWildcardWithRegularWildcardTokens, 3, s, 7, 0);
    assert Step(LeadingDoubleAsteriskWildcardWithRegularWildcardTokens, 2, s, 6, 0);
    assert Step(LeadingDoubleAsteriskWildcardWithRegularWildcardTokens, 1, s, 6, 0);
    assert Step(LeadingDoubleAsteriskWildcardWithRegularWildcardTokens, 1, s, 5, 0);
  }

  lemma LeadingDoubleAsteriskWildcardWithRegularWildcardPath3Part2(s: string)
    requires s == "foo/rebar"
    requires Step(LeadingDoubleAsteriskWildcardWithRegularWildcardTokens, 1, s, 5, 0)
    ensures Step(LeadingDoubleAsteriskWildcardWithRegularWildcardTokens, 0, s, 1, 1)
  {
    assert Step(LeadingDoubleAsteriskWildcardWithRegularWildcardTokens, 1, s, 4, 0);
    assert Step(LeadingDoubleAsteriskWildcardWithRegularWildcardTokens, 0, s, 3, 1);
    assert Step(LeadingDoubleAsteriskWildcardWithRegularWildcardTokens, 0, s, 2, 1);
    assert Step(LeadingDoubleAsteriskWildcardWithRegularWildcardTokens, 0, s, 1, 1);
  }

  lemma LeadingDoubleAsteriskWildcardWithRegularWildcardPath3(s: string)
    requires s == "foo/rebar"
    ensures Matches(LeadingDoubleAsteriskWildcardWithRegularWildcardTokens, s)
  {
    LeadingDoubleAsteriskWildcardWithRegularWildcardPath3Part1(s);
    LeadingDoubleAsteriskWildcardWithRegularWildcardPath3Part2(s);
  }

  lemma LeadingDoubleAsteriskWildcardWithRegularWildcardPath4Part1(s: string)
    requires s == "foo/barrio"
    ensures Step(LeadingDoubleAsteriskWildcardWithRegularWildcardTokens, 3, s, 5, 0)
  {
    assert Step(LeadingDoubleAsteriskWildcardWithRegularWildcardTokens, 7, s, 10, 0);
    assert Step(LeadingDoubleAsteriskWildcardWithRegularWildcardTokens, 6, s, 10, 0);
    assert Step(LeadingDoubleAsteriskWildcardWithRegularWildcardTokens, 5, s, 10, 0);
    assert Step(LeadingDoubleAsteriskWildcardWithRegularWildcardTokens, 5, s, 9, 0);
    assert Step(LeadingDoubleAsteriskWildcardWithRegularWildcardTokens, 5, s, 8, 0);
    assert Step(LeadingDoubleAsteriskWildcardWithRegularWildcardTokens, 5, s, 7, 0);
    assert Step(LeadingDoubleAsteriskWildcardWithRegularWildcardTokens, 4, s, 6, 0);
    assert Step(LeadingDoubleAsteriskWildcardWithRegularWildcardTokens, 3, s, 5, 0);
  }

  lemma LeadingDoubleAsteriskWildcardWithRegularWildcardPath4Part2(s: string)
    requires s == "foo/barrio"
    requires Step(LeadingDoubleAsteriskWildcardWithRegularWildcardTokens, 3, s, 5, 0)
    ensures Step(LeadingDoubleAsteriskWildcardWithRegularWildcardTokens, 0, s, 1, 1)
  {
    assert Step(LeadingDoubleAsteriskWildcardWithRegularWildcardTokens, 2, s, 4, 0);
    assert Step(LeadingDoubleAsteriskWildcardWithRegularWildcardTokens, 1, s, 4, 0);
    assert Step(LeadingDoubleAsteriskWildcardWithRegularWildcardTokens, 0, s, 3, 1);
    assert Step(LeadingDoubleAsteriskWildcardWithRegularWildcardTokens, 0, s, 2, 1);
    assert Step(LeadingDoubleAsteriskWildcardWithRegularWildcardTokens, 0, s, 1, 1);
  }

  lemma LeadingDoubleAsteriskWildcardWithRegularWildcardPath4(s: string)
    requires s == "foo/barrio"
    ensures Matches(LeadingDoubleAsteriskWildcardWithRegularWildcardTokens, s)
  {
    LeadingDoubleAsteriskWildcardWithRegularWildcardPath4Part1(s);
    LeadingDoubleAsteriskWildcardWithRegularWildcardPath4Part2(s);
  }

  lemma LeadingDoubleAsteriskWildcardWithRegularWildcardPath5Part1(s: string)
    requires s == "foo/qux/bar"
    ensures Step(LeadingDoubleAsteriskWildcardWithRegularWildcardTokens, 0, s, 7, 1)
  {
    assert Step(LeadingDoubleAsteriskWildcardWithRegularWildcardTokens, 7, s, 11, 0);
    assert Step(LeadingDoubleAsteriskWildcardWithRegularWildcardTokens, 6, s, 11, 0);
    assert Step(LeadingDoubleAsteriskWildcardWithRegularWildcardTokens, 5, s, 11, 0);
    assert Step(LeadingDoubleAsteriskWildcardWithRegularWildcardTokens, 4, s, 10, 0);
    assert Step(LeadingDoubleAsteriskWildcardWithRegularWildcardTokens, 3, s, 9, 0);
    assert Step(LeadingDoubleAsteriskWildcardWithRegularWildcardTokens, 2, s, 8, 0);
    assert Step(LeadingDoubleAsteriskWildcardWithRegularWildcardTokens, 1, s, 8, 0);
    assert Step(LeadingDoubleAsteriskWildcardWithRegularWildcardTokens, 0, s, 7, 1);
  }

  lemma LeadingDoubleAsteriskWildcardWithRegularWildcardPath5Part2(s: string)
    requires s == "foo/qux/bar"
    requires Step(LeadingDoubleAsteriskWildcardWithRegularWildcardTokens, 0, s, 7, 1)
    ensures Step(LeadingDoubleAsteriskWildcardWithRegularWildcardTokens, 0, s, 1, 1)
  {
    assert Step(LeadingDoubleAsteriskWildcardWithRegularWildcardTokens, 0, s, 6, 1);
    assert Step(LeadingDoubleAsteriskWildcardWithRegularWildcardTokens, 0, s, 5, 1);
    assert Step(LeadingDoubleAsteriskWildcardWithRegularWildcardTokens, 0, s, 4, 1);
    assert Step(LeadingDoubleAsteriskWildcardWithRegularWildcardTokens, 0, s, 3, 1);
    assert Step(LeadingDoubleAsteriskWildcardWithRegularWildcardTokens, 0, s, 2, 1);
    assert Step(LeadingDoubleAsteriskWildcardWithRegularWildcardTokens, 0, s, 1, 1);
  }

  lemma LeadingDoubleAsteriskWildcardWithRegularWildcardPath5(s: string)
    requires s == "foo/qux/bar"
    ensures Matches(LeadingDoubleAsteriskWildcardWithRegularWildcardTokens, s)
  {
    LeadingDoubleAsteriskWildcardWithRegularWildcardPath5Part1(s);
    LeadingDoubleAsteriskWildcardWithRegularWildcardPath5Part2(s);
  }

  /** The verdicts the case expects for its paths. */
  lemma LeadingDoubleAsteriskWildcardWithRegularWildcardPaths()
    ensures Matches(LeadingDoubleAsteriskWildcardWithRegularWildcardTokens, "bar")
    ensures Matches(LeadingDoubleAsteriskWildcardWithRegularWildcardTokens, "foo/bar")
    ensures Matches(LeadingDoubleAsteriskWildcardWithRegularWildcardTokens, "foo/rebar")
    ensures Matches(LeadingDoubleAsteriskWildcardWithRegularWildcardTokens, "foo/barrio")
    ensures Matches(LeadingDoubleAsteriskWildcardWithRegularWildcardTokens, "foo/qux/bar")
  {
    LeadingDoubleAsteriskWildcardWithRegularWildcardPath1("bar");
    LeadingDoubleAsteriskWildcardWithRegularWildcardPath2("foo/bar");
    LeadingDoubleAsteriskWildcardWithRegularWildcardPath3("foo/rebar");
    LeadingDoubleAsteriskWildcardWithRegularWildcardPath4("foo/barrio");
    LeadingDoubleAsteriskWildcardWithRegularWildcardPath5("foo/qux/bar");
  }

  // "foo/bar/**": the case "trailing double-asterisk wildcard" (__tests__/parse-pattern.test.ts:404-419)
  const TrailingDoubleAsteriskWildcardPattern: string := "foo/bar/**"
  const TrailingDoubleAsteriskWildcardTokens: seq<Token> := [Char('f'), Char('o'), Char('o'), Char('/'), Char('b'), Char('a'), Char('r'), Char('/'), AnyStar]

  lemma TrailingDoubleAsteriskWildcardSegments()
    ensures Compile(TrailingDoubleAsteriskWildcardPattern) == Success(EmitFrom(["foo", "bar", "**"], 0, false))
  {
    assert Join(["bar", "**"], Sep) == "bar/**";
    CompileOf(TrailingDoubleAsteriskWildcardPattern, ["foo", "bar", "**"], ["foo", "bar", "**"]);
  }

  lemma TrailingDoubleAsteriskWildcardEmitted2()
    ensures EmitFrom(["foo", "bar", "**"], 2, true) == [Char('/'), AnyStar]
  {
  }

  lemma TrailingDoubleAsteriskWildcardEmitted1()
    ensures EmitFrom(["foo", "bar", "**"], 1, true) == [Char('/'), Char('b'), Char('a'), Char('r'), Char('/'), AnyStar]
  {
    TrailingDoubleAsteriskWildcardEmitted2();
  }

  lemma TrailingDoubleAsteriskWildcardEmitted()
    ensures EmitFrom(["foo", "bar", "**"], 0, false) == TrailingDoubleAsteriskWildcardTokens
  {
    TrailingDoubleAsteriskWildcardEmitted1();
  }

  lemma TrailingDoubleAsteriskWildcardCompiled()
    ensures Compile(TrailingDoubleAsteriskWildcardPattern) == Success(TrailingDoubleAsteriskWildcardTokens)
  {
    TrailingDoubleAsteriskWildcardSegments();
    TrailingDoubleAsteriskWildcardEmitted();
  }

  lemma TrailingDoubleAsteriskWildcardPath1(s: string)
    requires s == "foo/bar"
    ensures !Matches(TrailingDoubleAsteriskWildcardTokens, s)
  {
    assert !Step(TrailingDoubleAsteriskWildcardTokens, 7, s, 7, 0);
    assert !Step(TrailingDoubleAsteriskWildcardTokens, 6, s, 6, 0);
    assert !Step(TrailingDoubleAsteriskWildcardTokens, 5, s, 5, 0);
    assert !Step(TrailingDoubleAsteriskWildcardTokens, 4, s, 4, 0);
    assert !Step(TrailingDoubleAsteriskWildcardTokens, 3, s, 3, 0);
    assert !Step(TrailingDoubleAsteriskWildcardTokens, 2, s, 2, 0);
    assert !Step(TrailingDoubleAsteriskWildcardTokens, 1, s, 1, 0);
  }

  lemma TrailingDoubleAsteriskWildcardPath2Part1(s: string)
    requires s == "foo/bar/baz"
    ensures Step(TrailingDoubleAsteriskWildcardTokens, 5, s, 5, 0)
  {
    assert Step(TrailingDoubleAsteriskWildcardTokens, 9, s, 11, 0);
    assert Step(TrailingDoubleAsteriskWildcardTokens, 8, s, 11, 0);
    assert Step(TrailingDoubleAsteriskWildcardTokens, 8, s, 10, 0);
    assert Step(TrailingDoubleAsteriskWildcardTokens, 8, s, 9, 0);
    assert Step(TrailingDoubleAsteriskWildcardTokens, 8, s, 8, 0);
    assert Step(TrailingDoubleAsteriskWildcardTokens, 7, s, 7, 0);
    assert Step(TrailingDoubleAsteriskWildcardTokens, 6, s, 6, 0);
    assert Step(TrailingDoubleAsteriskWildcardTokens, 5, s, 5, 0);
  }

  lemma TrailingDoubleAsteriskWildcardPath2Part2(s: string)
    requires s == "foo/bar/baz"
    requires Step(TrailingDoubleAsteriskWildcardTokens, 5, s, 5, 0)
    ensures Step(TrailingDoubleAsteriskWildcardTokens, 1, s, 1, 0)
  {
    assert Step(TrailingDoubleAsteriskWildcardTokens, 4, s, 4, 0);
    assert Step(TrailingDoubleAsteriskWildcardTokens, 3, s, 3, 0);
    assert Step(TrailingDoubleAsteriskWildcardTokens, 2, s, 2, 0);
    assert Step(TrailingDoubleAsteriskWildcardTokens, 1, s, 1, 0);
  }

  lemma TrailingDoubleAsteriskWildcardPath2(s: string)
    requires s == "foo/bar/baz"
    ensures Matches(TrailingDoubleAsteriskWildcardTokens, s)
  {
    TrailingDoubleAsteriskWildcardPath2Part1(s);
    TrailingDoubleAsteriskWildcardPath2Part2(s);
  }

  lemma TrailingDoubleAsteriskWildcardPath3Part1(s: string)
    requires s == "foo/bar/baz/qux"
    ensures Step(TrailingDoubleAsteriskWildcardTokens, 8, s, 9, 0)
  {
    assert Step(TrailingDoubleAsteriskWildcardTokens, 9, s, 15, 0);
    assert Step(TrailingDoubleAsteriskWildcardTokens, 8, s, 15, 0);
    assert Step(TrailingDoubleAsteriskWildcardTokens, 8, s, 14, 0);
    assert Step(TrailingDoubleAsteriskWildcardTokens, 8, s, 13, 0);
    assert Step(TrailingDoubleAsteriskWildcardTokens, 8, s, 12, 0);
    assert Step(TrailingDoubleAsteriskWildcardTokens, 8, s, 11, 0);
    assert Step(TrailingDoubleAsteriskWildcardTokens, 8, s, 10, 0);
    assert Step(TrailingDoubleAsteriskWildcardTokens, 8, s, 9, 0);
  }

  lemma TrailingDoubleAsteriskWildcardPath3Part2(s: string)
    requires s == "foo/bar/baz/qux"
    requires Step(TrailingDoubleAsteriskWildcardTokens, 8, s, 9, 0)
    ensures Step(TrailingDoubleAsteriskWildcardTokens, 1, s, 1, 0)
  {
    assert Step(TrailingDoubleAsteriskWildcardTokens, 8, s, 8, 0);
    assert Step(TrailingDoubleAsteriskWildcardTokens, 7, s, 7, 0);
    assert Step(TrailingDoubleAsteriskWildcardTokens, 6, s, 6, 0);
    assert Step(TrailingDoubleAsteriskWildcardTokens, 5, s, 5, 0);
    assert Step(TrailingDoubleAsteriskWildcardTokens, 4, s, 4, 0);
    assert Step(TrailingDoubleAsteriskWildcardTokens, 3, s, 3, 0);
    assert Step(TrailingDoubleAsteriskWildcardTokens, 2, s, 2, 0);
    assert Step(TrailingDoubleAsteriskWildcardTokens, 1, s, 1, 0);
  }

  lemma TrailingDoubleAsteriskWildcardPath3(s: string)
    requires s == "foo/bar/baz/qux"
    ensures Matches(TrailingDoubleAsteriskWildcardTokens, s)
  {
    TrailingDoubleAsteriskWildcardPath3Part1(s);
    TrailingDoubleAsteriskWildcardPath3Part2(s);
  }

  lemma TrailingDoubleAsteriskWildcardPath4(s: string)
    requires s == "qux/foo/bar"
    ensures !Matches(TrailingDoubleAsteriskWildcardTokens, s)
  {
  }

  lemma TrailingDoubleAsteriskWildcardPath5(s: string)
    requires s == "qux/foo/bar/baz"
    ensures !Matches(TrailingDoubleAsteriskWildcardTokens, s)
  {
  }

  /** The verdicts the case expects for its paths. */
  lemma TrailingDoubleAsteriskWildcardPaths()
    ensures !Matches(TrailingDoubleAsteriskWildcardTokens, "foo/bar")
    ensures Matches(TrailingDoubleAsteriskWildcardTokens, "foo/bar/baz")
    ensures Matches(TrailingDoubleAsteriskWildcardTokens, "foo/bar/baz/qux")
    ensures !Matches(TrailingDoubleAsteriskWildcardTokens, "qux/foo/bar")
    ensures !Matches(TrailingDoubleAsteriskWildcardTokens, "qux/foo/bar/baz")
  {
    TrailingDoubleAsteriskWildcardPath1("foo/bar");
    TrailingDoubleAsteriskWildcardPath2("foo/bar/baz");
    TrailingDoubleAsteriskWildcardPath3("foo/bar/baz/qux");
    TrailingDoubleAsteriskWildcardPath4("qux/foo/bar");
    TrailingDoubleAsteriskWildcardPath5("qux/foo/bar/baz");
  }

  // "foo/**/bar": the case "middle double-asterisk wildcard" (__tests__/parse-pattern.test.ts:421-438)
  const MiddleDoubleAsteriskWildcardPattern: string := "foo/**/bar"
  const MiddleDoubleAsteriskWildcardTokens: seq<Token> := [Char('f'), Char('o'), Char('o'), OptInnerDirs, Char('/'), Char('b'), Char('a'), Char('r'), OptDescendants]

  lemma MiddleDoubleAsteriskWildcardSegments()
    ensures Compile(MiddleDoubleAsteriskWildcardPattern) == Success(EmitFrom(["foo", "**", "bar"], 0, false))
  {
    assert Join(["**", "bar"], Sep) == "**/bar";
    CompileOf(MiddleDoubleAsteriskWildcardPattern, ["foo", "**", "bar"], ["foo", "**", "bar"]);
  }

  lemma MiddleDoubleAsteriskWildcardEmitted2()
    ensures EmitFrom(["foo", "**", "bar"], 2, true) == [Char('/'), Char('b'), Char('a'), Char('r'), OptDescendants]
  {
  }

  lemma MiddleDoubleAsteriskWildcardEmitted1()
    ensures EmitFrom(["foo", "**", "bar"], 1, true) == [OptInnerDirs, Char('/'), Char('b'), Char('a'), Char('r'), OptDescendants]
  {
    MiddleDoubleAsteriskWildcardEmitted2();
  }

  lemma MiddleDoubleAsteriskWildcardEmitted()
    ensures EmitFrom(["foo", "**", "bar"], 0, false) == MiddleDoubleAsteriskWildcardTokens
  {
    MiddleDoubleAsteriskWildcardEmitted1();
  }

  lemma MiddleDoubleAsteriskWildcardCompiled()
    ensures Compile(MiddleDoubleAsteriskWildcardPattern) == Success(MiddleDoubleAsteriskWildcardTokens)
  {
    MiddleDoubleAsteriskWildcardSegments();
    MiddleDoubleAsteriskWildcardEmitted();
  }

  lemma MiddleDoubleAsteriskWildcardPath1(s: string)
    requires s == "foo/bar"
    ensures Matches(MiddleDoubleAsteriskWildcardTokens, s)
  {
    assert Step(MiddleDoubleAsteriskWildcardTokens, 9, s, 7, 0);
    assert Step(MiddleDoubleAsteriskWildcardTokens, 8, s, 7, 0);
    assert Step(MiddleDoubleAsteriskWildcardTokens, 7, s, 6, 0);
    assert Step(MiddleDoubleAsteriskWildcardTokens, 6, s, 5, 0);
    assert Step(MiddleDoubleAsteriskWildcardTokens, 5, s, 4, 0);
    assert Step(MiddleDoubleAsteriskWildcardTokens, 4, s, 3, 0);
    assert Step(MiddleDoubleAsteriskWildcardTokens, 3, s, 3, 0);
    assert Step(MiddleDoubleAsteriskWildcardTokens, 2, s, 2, 0);
    assert Step(MiddleDoubleAsteriskWildcardTokens, 1, s, 1, 0);
  }

  lemma MiddleDoubleAsteriskWildcardPath2Part1(s: string)
    requires s == "foo/bar/baz"
    ensures Step(MiddleDoubleAsteriskWildcardTokens, 6, s, 5, 0)
  {
    assert Step(MiddleDoubleAsteriskWildcardTokens, 9, s, 11, 0);
    assert Step(MiddleDoubleAsteriskWildcardTokens, 8, s, 11, 1);
    assert Step(MiddleDoubleAsteriskWildcardTokens, 8, s, 10, 1);
    assert Step(MiddleDoubleAsteriskWildcardTokens, 8, s, 9, 1);
    assert Step(MiddleDoubleAsteriskWildcardTokens, 8, s, 8, 1);
    assert Step(MiddleDoubleAsteriskWildcardTokens, 8, s, 7, 0);
    assert Step(MiddleDoubleAsteriskWildcardTokens, 7, s, 6, 0);
    assert Step(MiddleDoubleAsteriskWildcardTokens, 6, s, 5, 0);
  }

  lemma MiddleDoubleAsteriskWildcardPath2Part2(s: string)
    requires s == "foo/bar/baz"
    requires Step(MiddleDoubleAsteriskWildcardTokens, 6, s, 5, 0)
    ensures Step(MiddleDoubleAsteriskWildcardTokens, 1, s, 1, 0)
  {
    assert Step(MiddleDoubleAsteriskWildcardTokens, 5, s, 4, 0);
    assert Step(MiddleDoubleAsteriskWildcardTokens, 4, s, 3, 0);
    assert Step(MiddleDoubleAsteriskWildcardTokens, 3, s, 3, 0);
    assert Step(MiddleDoubleAsteriskWildcardTokens, 2, s, 2, 0);
    assert Step(MiddleDoubleAsteriskWildcardTokens, 1, s, 1, 0);
  }

  lemma MiddleDoubleAsteriskWildcardPath2(s: string)
    requires s == "foo/bar/baz"
    ensures Matches(MiddleDoubleAsteriskWildcardTokens, s)
  {
    MiddleDoubleAsteriskWildcardPath2Part1(s);
    MiddleDoubleAsteriskWildcardPath2Part2(s);
  }

  lemma MiddleDoubleAsteriskWildcardPath3Part1(s: string)
    requires s == "foo/qux/bar/baz"
    ensures Step(MiddleDoubleAsteriskWildcardTokens, 6, s, 9, 0)
  {
    assert Step(MiddleDoubleAsteriskWildcardTokens, 9, s, 15, 0);
    assert Step(MiddleDoubleAsteriskWildcardTokens, 8, s, 15, 1);
    assert Step(MiddleDoubleAsteriskWildcardTokens, 8, s, 14, 1);
    assert Step(MiddleDoubleAsteriskWildcardTokens, 8, s, 13, 1);
    assert Step(MiddleDoubleAsteriskWildcardTokens, 8, s, 12, 1);
    assert Step(MiddleDoubleAsteriskWildcardTokens, 8, s, 11, 0);
    assert Step(MiddleDoubleAsteriskWildcardTokens, 7, s, 10, 0);
    assert Step(MiddleDoubleAsteriskWildcardTokens, 6, s, 9, 0);
  }

  lemma MiddleDoubleAsteriskWildcardPath3Part2(s: string)
    requires s == "foo/qux/bar/baz"
    requires Step(MiddleDoubleAsteriskWildcardTokens, 6, s, 9, 0)
    ensures Step(MiddleDoubleAsteriskWildcardTokens, 2, s, 2, 0)
  {
    assert Step(MiddleDoubleAsteriskWildcardTokens, 5, s, 8, 0);
    assert Step(MiddleDoubleAsteriskWildcardTokens, 4, s, 7, 0);
    assert Step(MiddleDoubleAsteriskWildcardTokens, 3, s, 7, 2);
    assert Step(MiddleDoubleAsteriskWildcardTokens, 3, s, 6, 2);
    assert Step(MiddleDoubleAsteriskWildcardTokens, 3, s, 5, 2);
    assert Step(MiddleDoubleAsteriskWildcardTokens, 3, s, 4, 1);
    assert Step(MiddleDoubleAsteriskWildcardTokens, 3, s, 3, 0);
    assert Step(MiddleDoubleAsteriskWildcardTokens, 2, s, 2, 0);
  }

  lemma MiddleDoubleAsteriskWildcardPath3Part3(s: string)
    requires s == "foo/qux/bar/baz"
    requires Step(MiddleDoubleAsteriskWildcardTokens, 2, s, 2, 0)
    ensures Step(MiddleDoubleAsteriskWildcardTokens, 1, s, 1, 0)
  {
    assert Step(MiddleDoubleAsteriskWildcardTokens, 1, s, 1, 0);
  }

  lemma MiddleDoubleAsteriskWildcardPath3(s: string)
    requires s == "foo/qux/bar/baz"
    ensures Matches(MiddleDoubleAsteriskWildcardTokens, s)
  {
    MiddleDoubleAsteriskWildcardPath3Part1(s);
    MiddleDoubleAsteriskWildcardPath3Part2(s);
    MiddleDoubleAsteriskWildcardPath3Part3(s);
  }

  lemma MiddleDoubleAsteriskWildcardPath4Part1(s: string)
    requires s == "foo/qux/quux/bar/baz"
    ensures Step(MiddleDoubleAsteriskWildcardTokens, 6, s, 14, 0)
  {
    assert Step(MiddleDoubleAsteriskWildcardTokens, 9, s, 20, 0);
    assert Step(MiddleDoubleAsteriskWildcardTokens, 8, s, 20, 1);
    assert Step(MiddleDoubleAsteriskWildcardTokens, 8, s, 19, 1);
    assert Step(MiddleDoubleAsteriskWildcardTokens, 8, s, 18, 1);
    assert Step(MiddleDoubleAsteriskWildcardTokens, 8, s, 17, 1);
    assert Step(MiddleDoubleAsteriskWildcardTokens, 8, s, 16, 0);
    assert Step(MiddleDoubleAsteriskWildcardTokens, 7, s, 15, 0);
    assert Step(MiddleDoubleAsteriskWildcardTokens, 6, s, 14, 0);
  }

  lemma MiddleDoubleAsteriskWildcardPath4Part2(s: string)
    requires s == "foo/qux/quux/bar/baz"
    requires Step(MiddleDoubleAsteriskWildcardTokens, 6, s, 14, 0)
    ensures Step(MiddleDoubleAsteriskWildcardTokens, 3, s, 7, 2)
  {
    assert Step(MiddleDoubleAsteriskWildcardTokens, 5, s, 13, 0);
    assert Step(MiddleDoubleAsteriskWildcardTokens, 4, s, 12, 0);
    assert Step(MiddleDoubleAsteriskWildcardTokens, 3, s, 12, 2);
    assert Step(MiddleDoubleAsteriskWildcardTokens, 3, s, 11, 2);
    assert Step(MiddleDoubleAsteriskWildcardTokens, 3, s, 10, 2);
    assert Step(MiddleDoubleAsteriskWildcardTokens, 3, s, 9, 2);
    assert Step(MiddleDoubleAsteriskWildcardTokens, 3, s, 8, 2);
    assert Step(MiddleDoubleAsteriskWildcardTokens, 3, s, 7, 2);
  }

  lemma MiddleDoubleAsteriskWildcardPath4Part3(s: string)
    requires s == "foo/qux/quux/bar/baz"
    requires Step(MiddleDoubleAsteriskWildcardTokens, 3, s, 7, 2)
    ensures Step(MiddleDoubleAsteriskWildcardTokens, 1, s, 1, 0)
  {
    assert Step(MiddleDoubleAsteriskWildcardTokens, 3, s, 6, 2);
    assert Step(MiddleDoubleAsteriskWildcardTokens, 3, s, 5, 2);
    assert Step(MiddleDoubleAsteriskWildcardTokens, 3, s, 4, 1);
    assert Step(MiddleDoubleAsteriskWildcardTokens, 3, s, 3, 0);
    assert Step(MiddleDoubleAsteriskWildcardTokens, 2, s, 2, 0);
    assert Step(MiddleDoubleAsteriskWildcardTokens, 1, s, 1, 0);
  }

  lemma MiddleDoubleAsteriskWildcardPath4(s: string)
    requires s == "foo/qux/quux/bar/baz"
    ensures Matches(MiddleDoubleAsteriskWildcardTokens, s)
  {
    MiddleDoubleAsteriskWildcardPath4Part1(s);
    MiddleDoubleAsteriskWildcardPath4Part2(s);
    MiddleDoubleAsteriskWildcardPath4Part3(s);
  }

  lemma MiddleDoubleAsteriskWildcardPath5Part1(s: string)
    requires s == "foo/bar/baz/qux"
    ensures Step(MiddleDoubleAsteriskWildcardTokens, 8, s, 9, 1)
  {
    assert Step(MiddleDoubleAsteriskWildcardTokens, 9, s, 15, 0);
    assert Step(MiddleDoubleAsteriskWildcardTokens, 8, s, 15, 1);
    assert Step(MiddleDoubleAsteriskWildcardTokens, 8, s, 14, 1);
    assert Step(MiddleDoubleAsteriskWildcardTokens, 8, s, 13, 1);
    assert Step(MiddleDoubleAsteriskWildcardTokens, 8, s, 12, 1);
    assert Step(MiddleDoubleAsteriskWildcardTokens, 8, s, 11, 1);
    assert Step(MiddleDoubleAsteriskWildcardTokens, 8, s, 10, 1);
    assert Step(MiddleDoubleAsteriskWildcardTokens, 8, s, 9, 1);
  }

  lemma MiddleDoubleAsteriskWildcardPath5Part2(s: string)
    requires s == "foo/bar/baz/qux"
    requires Step(MiddleDoubleAsteriskWildcardTokens, 8, s, 9, 1)
    ensures Step(MiddleDoubleAsteriskWildcardTokens, 2, s, 2, 0)
  {
    assert Step(MiddleDoubleAsteriskWildcardTokens, 8, s, 8, 1);
    assert Step(MiddleDoubleAsteriskWildcardTokens, 8, s, 7, 0);
    assert Step(MiddleDoubleAsteriskWildcardTokens, 7, s, 6, 0);
    assert Step(MiddleDoubleAsteriskWildcardTokens, 6, s, 5, 0);
    assert Step(MiddleDoubleAsteriskWildcardTokens, 5, s, 4, 0);
    assert Step(MiddleDoubleAsteriskWildcardTokens, 4, s, 3, 0);
    assert Step(MiddleDoubleAsteriskWildcardTokens, 3, s, 3, 0);
    assert Step(MiddleDoubleAsteriskWildcardTokens, 2, s, 2, 0);
  }

  lemma MiddleDoubleAsteriskWildcardPath5Part3(s: string)
    requires s == "foo/bar/baz/qux"
    requires Step(MiddleDoubleAsteriskWildcardTokens, 2, s, 2, 0)
    ensures Step(MiddleDoubleAsteriskWildcardTokens, 1, s, 1, 0)
  {
    assert Step(MiddleDoubleAsteriskWildcardTokens, 1, s, 1, 0);
  }

  lemma MiddleDoubleAsteriskWildcardPath5(s: string)
    requires s == "foo/bar/baz/qux"
    ensures Matches(MiddleDoubleAsteriskWildcardTokens, s)
  {
    MiddleDoubleAsteriskWildcardPath5Part1(s);
    MiddleDoubleAsteriskWildcardPath5Part2(s);
    MiddleDoubleAsteriskWildcardPath5Part3(s);
  }

  lemma MiddleDoubleAsteriskWildcardPath6(s: string)
    requires s == "qux/foo/bar"
    ensures !Matches(MiddleDoubleAsteriskWildcardTokens, s)
  {
  }

  lemma MiddleDoubleAsteriskWildcardPath7(s: string)
    requires s == "qux/foo/bar/baz"
    ensures !Matches(MiddleDoubleAsteriskWildcardTokens, s)
  {
  }

  /** The verdicts the case expects for its paths. */
  lemma MiddleDoubleAsteriskWildcardPaths()
    ensures Matches(MiddleDoubleAsteriskWildcardTokens, "foo/bar")
    ensures Matches(MiddleDoubleAsteriskWildcardTokens, "foo/bar/baz")
    ensures Matches(MiddleDoubleAsteriskWildcardTokens, "foo/qux/bar/baz")
    ensures Matches(MiddleDoubleAsteriskWildcardTokens, "foo/qux/quux/bar/baz")
    ensures Matches(MiddleDoubleAsteriskWildcardTokens, "foo/bar/baz/qux")
    ensures !Matches(MiddleDoubleAsteriskWildcardTokens, "qux/foo/bar")
    ensures !Matches(MiddleDoubleAsteriskWildcardTokens, "qux/foo/bar/baz")
  {
    MiddleDoubleAsteriskWildcardPath1("foo/bar");
    MiddleDoubleAsteriskWildcardPath2("foo/bar/baz");
    MiddleDoubleAsteriskWildcardPath3("foo/qux/bar/baz");
    MiddleDoubleAsteriskWildcardPath4("foo/qux/quux/bar/baz");
    MiddleDoubleAsteriskWildcardPath5("foo/bar/baz/qux");
    MiddleDoubleAsteriskWildcardPath6("qux/foo/bar");
    MiddleDoubleAsteriskWildcardPath7("qux/foo/bar/baz");
  }

  // "foo/**/": the case "middle double-asterisk wildcard with trailing slash" (__tests__/parse-pattern.test.ts:440-454)
  const MiddleDoubleAsteriskWildcardWithTrailingSlashPattern: string := "foo/**/"
  const MiddleDoubleAsteriskWildcardWithTrailingSlashTokens: seq<Token> := [Char('f'), Char('o'), Char('o'), OptInnerDirs, Char('/'), AnyStar]

  lemma MiddleDoubleAsteriskWildcardWithTrailingSlashSegments()
    ensures Compile(MiddleDoubleAsteriskWildcardWithTrailingSlashPattern) == Success(EmitFrom(["foo", "**", "**"], 0, false))
  {
    assert Join(["**", ""], Sep) == "**/";
    CompileOf(MiddleDoubleAsteriskWildcardWithTrailingSlashPattern, ["foo", "**", ""], ["foo", "**", "**"]);
  }

  lemma MiddleDoubleAsteriskWildcardWithTrailingSlashEmitted2()
    ensures EmitFrom(["foo", "**", "**"], 2, true) == [Char('/'), AnyStar]
  {
  }

  lemma MiddleDoubleAsteriskWildcardWithTrailingSlashEmitted1()
    ensures EmitFrom(["foo", "**", "**"], 1, true) == [OptInnerDirs, Char('/'), AnyStar]
  {
    MiddleDoubleAsteriskWildcardWithTrailingSlashEmitted2();
  }

  lemma MiddleDoubleAsteriskWildcardWithTrailingSlashEmitted()
    ensures EmitFrom(["foo", "**", "**"], 0, false) == MiddleDoubleAsteriskWildcardWithTrailingSlashTokens
  {
    MiddleDoubleAsteriskWildcardWithTrailingSlashEmitted1();
  }

  lemma MiddleDoubleAsteriskWildcardWithTrailingSlashCompiled()
    ensures Compile(MiddleDoubleAsteriskWildcardWithTrailingSlashPattern) == Success(MiddleDoubleAsteriskWildcardWithTrailingSlashTokens)
  {
    MiddleDoubleAsteriskWildcardWithTrailingSlashSegments();
    MiddleDoubleAsteriskWildcardWithTrailingSlashEmitted();
  }

  lemma MiddleDoubleAsteriskWildcardWithTrailingSlashPath1(s: string)
    requires s == "foo"
    ensures !Matches(MiddleDoubleAsteriskWildcardWithTrailingSlashTokens, s)
  {
    assert !Step(MiddleDoubleAsteriskWildcardWithTrailingSlashTokens, 4, s, 3, 0);
    assert !Step(MiddleDoubleAsteriskWildcardWithTrailingSlashTokens, 3, s, 3, 0);
    assert !Step(MiddleDoubleAsteriskWildcardWithTrailingSlashTokens, 2, s, 2, 0);
    assert !Step(MiddleDoubleAsteriskWildcardWithTrailingSlashTokens, 1, s, 1, 0);
  }

  lemma MiddleDoubleAsteriskWildcardWithTrailingSlashPath2(s: string)
    requires s == "foo/bar"
    ensures Matches(MiddleDoubleAsteriskWildcardWithTrailingSlashTokens, s)
  {
    assert Step(MiddleDoubleAsteriskWildcardWithTrailingSlashTokens, 6, s, 7, 0);
    assert Step(MiddleDoubleAsteriskWildcardWithTrailingSlashTokens, 5, s, 7, 0);
    assert Step(MiddleDoubleAsteriskWildcardWithTrailingSlashTokens, 5, s, 6, 0);
    assert Step(MiddleDoubleAsteriskWildcardWithTrailingSlashTokens, 5, s, 5, 0);
    assert Step(MiddleDoubleAsteriskWildcardWithTrailingSlashTokens, 5, s, 4, 0);
    assert Step(MiddleDoubleAsteriskWildcardWithTrailingSlashTokens, 4, s, 3, 0);
    assert Step(MiddleDoubleAsteriskWildcardWithTrailingSlashTokens, 3, s, 3, 0);
    assert Step(MiddleDoubleAsteriskWildcardWithTrailingSlashTokens, 2, s, 2, 0);
    assert Step(MiddleDoubleAsteriskWildcardWithTrailingSlashTokens, 1, s, 1, 0);
  }

  lemma MiddleDoubleAsteriskWildcardWithTrailingSlashPath3(s: string)
    requires s == "foo/bar/"
    ensures Matches(MiddleDoubleAsteriskWildcardWithTrailingSlashTokens, s)
  {
    assert Step(MiddleDoubleAsteriskWildcardWithTrailingSlashTokens, 6, s, 8, 0);
    assert Step(MiddleDoubleAsteriskWildcardWithTrailingSlashTokens, 5, s, 8, 0);
    assert Step(MiddleDoubleAsteriskWildcardWithTrailingSlashTokens, 5, s, 7, 0);
    assert Step(MiddleDoubleAsteriskWildcardWithTrailingSlashTokens, 5, s, 6, 0);
    assert Step(MiddleDoubleAsteriskWildcardWithTrailingSlashTokens, 5, s, 5, 0);
    assert Step(MiddleDoubleAsteriskWildcardWithTrailingSlashTokens, 5, s, 4, 0);
    assert Step(MiddleDoubleAsteriskWildcardWithTrailingSlashTokens, 4, s, 3, 0);
    assert Step(MiddleDoubleAsteriskWildcardWithTrailingSlashTokens, 3, s, 3, 0);
    assert Step(MiddleDoubleAsteriskWildcardWithTrailingSlashTokens, 2, s, 2, 0);
    assert Step(MiddleDoubleAsteriskWildcardWithTrailingSlashTokens, 1, s, 1, 0);
  }

  lemma MiddleDoubleAsteriskWildcardWithTrailingSlashPath4Part1(s: string)
    requires s == "foo/bar/baz"
    ensures Step(MiddleDoubleAsteriskWildcardWithTrailingSlashTokens, 5, s, 5, 0)
  {
    assert Step(MiddleDoubleAsteriskWildcardWithTrailingSlashTokens, 6, s, 11, 0);
    assert Step(MiddleDoubleAsteriskWildcardWithTrailingSlashTokens, 5, s, 11, 0);
    assert Step(MiddleDoubleAsteriskWildcardWithTrailingSlashTokens, 5, s, 10, 0);
    assert Step(MiddleDoubleAsteriskWildcardWithTrailingSlashTokens, 5, s, 9, 0);
    assert Step(MiddleDoubleAsteriskWildcardWithTrailingSlashTokens, 5, s, 8, 0);
    assert Step(MiddleDoubleAsteriskWildcardWithTrailingSlashTokens, 5, s, 7, 0);
    assert Step(MiddleDoubleAsteriskWildcardWithTrailingSlashTokens, 5, s, 6, 0);
    assert Step(MiddleDoubleAsteriskWildcardWithTrailingSlashTokens, 5, s, 5, 0);
  }

  lemma MiddleDoubleAsteriskWildcardWithTrailingSlashPath4Part2(s: string)
    requires s == "foo/bar/baz"
    requires Step(MiddleDoubleAsteriskWildcardWithTrailingSlashTokens, 5, s, 5, 0)
    ensures Step(MiddleDoubleAsteriskWildcardWithTrailingSlashTokens, 1, s, 1, 0)
  {
    assert Step(MiddleDoubleAsteriskWildcardWithTrailingSlashTokens, 5, s, 4, 0);
    assert Step(MiddleDoubleAsteriskWildcardWithTrailingSlashTokens, 4, s, 3, 0);
    assert Step(MiddleDoubleAsteriskWildcardWithTrailingSlashTokens, 3, s, 3, 0);
    assert Step(MiddleDoubleAsteriskWildcardWithTrailingSlashTokens, 2, s, 2, 0);
    assert Step(MiddleDoubleAsteriskWildcardWithTrailingSlashTokens, 1, s, 1, 0);
  }

  lemma MiddleDoubleAsteriskWildcardWithTrailingSlashPath4(s: string)
    requires s == "foo/bar/baz"
    ensures Matches(MiddleDoubleAsteriskWildcardWithTrailingSlashTokens, s)
  {
    MiddleDoubleAsteriskWildcardWithTrailingSlashPath4Part1(s);
    MiddleDoubleAsteriskWildcardWithTrailingSlashPath4Part2(s);
  }

  /** The verdicts the case expects for its paths. */
  lemma MiddleDoubleAsteriskWildcardWithTrailingSlashPaths()
    ensures !Matches(MiddleDoubleAsteriskWildcardWithTrailingSlashTokens, "foo")
    ensures Matches(MiddleDoubleAsteriskWildcardWithTrailingSlashTokens, "foo/bar")
    ensures Matches(MiddleDoubleAsteriskWildcardWithTrailingSlashTokens, "foo/bar/")
    ensures Matches(MiddleDoubleAsteriskWildcardWithTrailingSlashTokens, "foo/bar/baz")
  {
    MiddleDoubleAsteriskWildcardWithTrailingSlashPath1("foo");
    MiddleDoubleAsteriskWildcardWithTrailingSlashPath2("foo/bar");
    MiddleDoubleAsteriskWildcardWithTrailingSlashPath3("foo/bar/");
    MiddleDoubleAsteriskWildcardWithTrailingSlashPath4("foo/bar/baz");
  }

  // "foo/**/bar/b*": the case "middle double-asterisk wildcard with trailing wildcard" (__tests__/parse-pattern.test.ts:456-472)
  const MiddleDoubleAsteriskWildcardWithTrailingWildcardPattern: string := "foo/**/bar/b*"
  const MiddleDoubleAsteriskWildcardWithTrailingWildcardTokens: seq<Token> := [Char('f'), Char('o'), Char('o'), OptInnerDirs, Char('/'), Char('b'), Char('a'), Char('r'), Char('/'), Char('b'), NotSepStar, OptDescendants]

  lemma MiddleDoubleAsteriskWildcardWithTrailingWildcardSegments()
    ensures Compile(MiddleDoubleAsteriskWildcardWithTrailingWildcardPattern) == Success(EmitFrom(["foo", "**", "bar", "b*"], 0, false))
  {
    assert Join(["bar", "b*"], Sep) == "bar/b*";
    assert Join(["**", "bar", "b*"], Sep) == "**/bar/b*";
    CompileOf(MiddleDoubleAsteriskWildcardWithTrailingWildcardPattern, ["foo", "**", "bar", "b*"], ["foo", "**", "bar", "b*"]);
  }

  lemma MiddleDoubleAsteriskWildcardWithTrailingWildcardEmitted3()
    ensures EmitFrom(["foo", "**", "bar", "b*"], 3, true) == [Char('/'), Char('b'), NotSepStar, OptDescendants]
  {
  }

  lemma MiddleDoubleAsteriskWildcardWithTrailingWildcardEmitted2()
    ensures EmitFrom(["foo", "**", "bar", "b*"], 2, true) == [Char('/'), Char('b'), Char('a'), Char('r'), Char('/'), Char('b'), NotSepStar, OptDescendants]
  {
    MiddleDoubleAsteriskWildcardWithTrailingWildcardEmitted3();
  }

  lemma MiddleDoubleAsteriskWildcardWithTrailingWildcardEmitted1()
    ensures EmitFrom(["foo", "**", "bar", "b*"], 1, true) == [OptInnerDirs, Char('/'), Char('b'), Char('a'), Char('r'), Char('/'), Char('b'), NotSepStar, OptDescendants]
  {
    MiddleDoubleAsteriskWildcardWithTrailingWildcardEmitted2();
  }

  lemma MiddleDoubleAsteriskWildcardWithTrailingWildcardEmitted()
    ensures EmitFrom(["foo", "**", "bar", "b*"], 0, false) == MiddleDoubleAsteriskWildcardWithTrailingWildcardTokens
  {
    MiddleDoubleAsteriskWildcardWithTrailingWildcardEmitted1();
  }

  lemma MiddleDoubleAsteriskWildcardWithTrailingWildcardCompiled()
    ensures Compile(MiddleDoubleAsteriskWildcardWithTrailingWildcardPattern) == Success(MiddleDoubleAsteriskWildcardWithTrailingWildcardTokens)
  {
    MiddleDoubleAsteriskWildcardWithTrailingWildcardSegments();
    MiddleDoubleAsteriskWildcardWithTrailingWildcardEmitted();
  }

  lemma MiddleDoubleAsteriskWildcardWithTrailingWildcardPath1Part1(s: string)
    requires s == "foo/bar"
    ensures !Step(MiddleDoubleAsteriskWildcardWithTrailingWildcardTokens, 3, s, 6, 2)
    ensures !Step(MiddleDoubleAsteriskWildcardWithTrailingWildcardTokens, 6, s, 5, 0)
    ensures !Step(MiddleDoubleAsteriskWildcardWithTrailingWildcardTokens, 4, s, 5, 0)
  {
    assert !Step(MiddleDoubleAsteriskWildcardWithTrailingWildcardTokens, 8, s, 7, 0);
    assert !Step(MiddleDoubleAsteriskWildcardWithTrailingWildcardTokens, 4, s, 7, 0);
    assert !Step(MiddleDoubleAsteriskWildcardWithTrailingWildcardTokens, 3, s, 7, 2);
    assert !Step(MiddleDoubleAsteriskWildcardWithTrailingWildcardTokens, 7, s, 6, 0);
    assert !Step(MiddleDoubleAsteriskWildcardWithTrailingWildcardTokens, 4, s, 6, 0);
    assert !Step(MiddleDoubleAsteriskWildcardWithTrailingWildcardTokens, 3, s, 6, 2);
    assert !Step(MiddleDoubleAsteriskWildcardWithTrailingWildcardTokens, 6, s, 5, 0);
    assert !Step(MiddleDoubleAsteriskWildcardWithTrailingWildcardTokens, 4, s, 5, 0);
  }

  lemma MiddleDoubleAsteriskWildcardWithTrailingWildcardPath1Part2(s: string)
    requires s == "foo/bar"
    requires !Step(MiddleDoubleAsteriskWildcardWithTrailingWildcardTokens, 3, s, 6, 2)
    requires !Step(MiddleDoubleAsteriskWildcardWithTrailingWildcardTokens, 6, s, 5, 0)
    requires !Step(MiddleDoubleAsteriskWildcardWithTrailingWildcardTokens, 4, s, 5, 0)
    ensures !Step(MiddleDoubleAsteriskWildcardWithTrailingWildcardTokens, 1, s, 1, 0)
  {
    assert !Step(MiddleDoubleAsteriskWildcardWithTrailingWildcardTokens, 3, s, 5, 2);
    assert !Step(MiddleDoubleAsteriskWildcardWithTrailingWildcardTokens, 5, s, 4, 0);
    assert !Step(MiddleDoubleAsteriskWildcardWithTrailingWildcardTokens, 3, s, 4, 1);
    assert !Step(MiddleDoubleAsteriskWildcardWithTrailingWildcardTokens, 4, s, 3, 0);
    assert !Step(MiddleDoubleAsteriskWildcardWithTrailingWildcardTokens, 3, s, 3, 0);
    assert !Step(MiddleDoubleAsteriskWildcardWithTrailingWildcardTokens, 2, s, 2, 0);
    assert !Step(MiddleDoubleAsteriskWildcardWithTrailingWildcardTokens, 1, s, 1, 0);
  }

  lemma MiddleDoubleAsteriskWildcardWithTrailingWildcardPath1(s: string)
    requires s == "foo/bar"
    ensures !Matches(MiddleDoubleAsteriskWildcardWithTrailingWildcardTokens, s)
  {
    MiddleDoubleAsteriskWildcardWithTrailingWildcardPath1Part1(s);
    MiddleDoubleAsteriskWildcardWithTrailingWildcardPath1Part2(s);
  }

  lemma MiddleDoubleAsteriskWildcardWithTrailingWildcardPath2Part1(s: string)
    requires s == "foo/bar/baz"
    ensures Step(MiddleDoubleAsteriskWildcardWithTrailingWildcardTokens, 7, s, 6, 0)
  {
    assert Step(MiddleDoubleAsteriskWildcardWithTrailingWildcardTokens, 12, s, 11, 0);
    assert Step(MiddleDoubleAsteriskWildcardWithTrailingWildcardTokens, 11, s, 11, 0);
    assert Step(MiddleDoubleAsteriskWildcardWithTrailingWildcardTokens, 10, s, 11, 0);
    assert Step(MiddleDoubleAsteriskWildcardWithTrailingWildcardTokens, 10, s, 10, 0);
    assert Step(MiddleDoubleAsteriskWildcardWithTrailingWildcardTokens, 10, s, 9, 0);
    assert Step(MiddleDoubleAsteriskWildcardWithTrailingWildcardTokens, 9, s, 8, 0);
    assert Step(MiddleDoubleAsteriskWildcardWithTrailingWildcardTokens, 8, s, 7, 0);
    assert Step(MiddleDoubleAsteriskWildcardWithTrailingWildcardTokens, 7, s, 6, 0);
  }

  lemma MiddleDoubleAsteriskWildcardWithTrailingWildcardPath2Part2(s: string)
    requires s == "foo/bar/baz"
    requires Step(MiddleDoubleAsteriskWildcardWithTrailingWildcardTokens, 7, s, 6, 0)
    ensures Step(MiddleDoubleAsteriskWildcardWithTrailingWildcardTokens, 1, s, 1, 0)
  {
    assert Step(MiddleDoubleAsteriskWildcardWithTrailingWildcardTokens, 6, s, 5, 0);
    assert Step(MiddleDoubleAsteriskWildcardWithTrailingWildcardTokens, 5, s, 4, 0);
    assert Step(MiddleDoubleAsteriskWildcardWithTrailingWildcardTokens, 4, s, 3, 0);
    assert Step(MiddleDoubleAsteriskWildcardWithTrailingWildcardTokens, 3, s, 3, 0);
    assert Step(MiddleDoubleAsteriskWildcardWithTrailingWildcardTokens, 2, s, 2, 0);
    assert Step(MiddleDoubleAsteriskWildcardWithTrailingWildcardTokens, 1, s, 1, 0);
  }

  lemma MiddleDoubleAsteriskWildcardWithTrailingWildcardPath2(s: string)
    requires s == "foo/bar/baz"
    ensures Matches(MiddleDoubleAsteriskWildcardWithTrailingWildcardTokens, s)
  {
    MiddleDoubleAsteriskWildcardWithTrailingWildcardPath2Part1(s);
    MiddleDoubleAsteriskWildcardWithTrailingWildcardPath2Part2(s);
  }

  lemma MiddleDoubleAsteriskWildcardWithTrailingWildcardPath3Part1(s: string)
    requires s == "foo/bar/qux"
    ensures !Step(MiddleDoubleAsteriskWildcardWithTrailingWildcardTokens, 3, s, 9, 2)
    ensures !Step(MiddleDoubleAsteriskWildcardWithTrailingWildcardTokens, 9, s, 8, 0)
    ensures !Step(MiddleDoubleAsteriskWildcardWithTrailingWildcardTokens, 5, s, 8, 0)
  {
    assert !Step(MiddleDoubleAsteriskWildcardWithTrailingWildcardTokens, 4, s, 11, 0);
    assert !Step(MiddleDoubleAsteriskWildcardWithTrailingWildcardTokens, 3, s, 11, 2);
    assert !Step(MiddleDoubleAsteriskWildcardWithTrailingWildcardTokens, 4, s, 10, 0);
    assert !Step(MiddleDoubleAsteriskWildcardWithTrailingWildcardTokens, 3, s, 10, 2);
    assert !Step(MiddleDoubleAsteriskWildcardWithTrailingWildcardTokens, 4, s, 9, 0);
    assert !Step(MiddleDoubleAsteriskWildcardWithTrailingWildcardTokens, 3, s, 9, 2);
    assert !Step(MiddleDoubleAsteriskWildcardWithTrailingWildcardTokens, 9, s, 8, 0);
    assert !Step(MiddleDoubleAsteriskWildcardWithTrailingWildcardTokens, 5, s, 8, 0);
  }

  lemma MiddleDoubleAsteriskWildcardWithTrailingWildcardPath3Part2(s: string)
    requires s == "foo/bar/qux"
    requires !Step(MiddleDoubleAsteriskWildcardWithTrailingWildcardTokens, 3, s, 9, 2)
    requires !Step(MiddleDoubleAsteriskWildcardWithTrailingWildcardTokens, 9, s, 8, 0)
    requires !Step(MiddleDoubleAsteriskWildcardWithTrailingWildcardTokens, 5, s, 8, 0)
    ensures !Step(MiddleDoubleAsteriskWildcardWithTrailingWildcardTokens, 7, s, 6, 0)
    ensures !Step(MiddleDoubleAsteriskWildcardWithTrailingWildcardTokens, 3, s, 6, 2)
  {
    assert !Step(MiddleDoubleAsteriskWildcardWithTrailingWildcardTokens, 4, s, 8, 0);
    assert !Step(MiddleDoubleAsteriskWildcardWithTrailingWildcardTokens, 3, s, 8, 2);
    assert !Step(MiddleDoubleAsteriskWildcardWithTrailingWildcardTokens, 8, s, 7, 0);
    assert !Step(MiddleDoubleAsteriskWildcardWithTrailingWildcardTokens, 4, s, 7, 0);
    assert !Step(MiddleDoubleAsteriskWildcardWithTrailingWildcardTokens, 3, s, 7, 2);
    assert !Step(MiddleDoubleAsteriskWildcardWithTrailingWildcardTokens, 7, s, 6, 0);
    assert !Step(MiddleDoubleAsteriskWildcardWithTrailingWildcardTokens, 4, s, 6, 0);
    assert !Step(MiddleDoubleAsteriskWildcardWithTrailingWildcardTokens, 3, s, 6, 2);
  }

  lemma MiddleDoubleAsteriskWildcardWithTrailingWildcardPath3Part3(s: string)
    requires s == "foo/bar/qux"
    requires !Step(MiddleDoubleAsteriskWildcardWithTrailingWildcardTokens, 7, s, 6, 0)
    requires !Step(MiddleDoubleAsteriskWildcardWithTrailingWildcardTokens, 3, s, 6, 2)
    ensures !Step(MiddleDoubleAsteriskWildcardWithTrailingWildcardTokens, 2, s, 2, 0)
  {
    assert !Step(MiddleDoubleAsteriskWildcardWithTrailingWildcardTokens, 6, s, 5, 0);
    assert !Step(MiddleDoubleAsteriskWildcardWithTrailingWildcardTokens, 4, s, 5, 0);
    assert !Step(MiddleDoubleAsteriskWildcardWithTrailingWildcardTokens, 3, s, 5, 2);
    assert !Step(MiddleDoubleAsteriskWildcardWithTrailingWildcardTokens, 5, s, 4, 0);
    assert !Step(MiddleDoubleAsteriskWildcardWithTrailingWildcardTokens, 3, s, 4, 1);
    assert !Step(MiddleDoubleAsteriskWildcardWithTrailingWildcardTokens, 4, s, 3, 0);
    assert !Step(MiddleDoubleAsteriskWildcardWithTrailingWildcardTokens, 3, s, 3, 0);
    assert !Step(MiddleDoubleAsteriskWildcardWithTrailingWildcardTokens, 2, s, 2, 0);
  }

  lemma MiddleDoubleAsteriskWildcardWithTrailingWildcardPath3Part4(s: string)
    requires s == "foo/bar/qux"
    requires !Step(MiddleDoubleAsteriskWildcardWithTrailingWildcardTokens, 2, s, 2, 0)
    ensures !Step(MiddleDoubleAsteriskWildcardWithTrailingWildcardTokens, 1, s, 1, 0)
  {
    assert !Step(MiddleDoubleAsteriskWildcardWithTrailingWildcardTokens, 1, s, 1, 0);
  }

  lemma MiddleDoubleAsteriskWildcardWithTrailingWildcardPath3(s: string)
    requires s == "foo/bar/qux"
    ensures !Matches(MiddleDoubleAsteriskWildcardWithTrailingWildcardTokens, s)
  {
    MiddleDoubleAsteriskWildcardWithTrailingWildcardPath3Part1(s);
    MiddleDoubleAsteriskWildcardWithTrailingWildcardPath3Part2(s);
    MiddleDoubleAsteriskWildcardWithTrailingWildcardPath3Part3(s);
    MiddleDoubleAsteriskWildcardWithTrailingWildcardPath3Part4(s);
  }

  lemma MiddleDoubleAsteriskWildcardWithTrailingWildcardPath4Part1(s: string)
    requires s == "foo/qux/bar"
    ensures !Step(MiddleDoubleAsteriskWildcardWithTrailingWildcardTokens, 3, s, 10, 2)
    ensures !Step(MiddleDoubleAsteriskWildcardWithTrailingWildcardTokens, 6, s, 9, 0)
    ensures !Step(MiddleDoubleAsteriskWildcardWithTrailingWildcardTokens, 4, s, 9, 0)
  {
    assert !Step(MiddleDoubleAsteriskWildcardWithTrailingWildcardTokens, 8, s, 11, 0);
    assert !Step(MiddleDoubleAsteriskWildcardWithTrailingWildcardTokens, 4, s, 11, 0);
    assert !Step(MiddleDoubleAsteriskWildcardWithTrailingWildcardTokens, 3, s, 11, 2);
    assert !Step(MiddleDoubleAsteriskWildcardWithTrailingWildcardTokens, 7, s, 10, 0);
    assert !Step(MiddleDoubleAsteriskWildcardWithTrailingWildcardTokens, 4, s, 10, 0);
    assert !Step(MiddleDoubleAsteriskWildcardWithTrailingWildcardTokens, 3, s, 10, 2);
    assert !Step(MiddleDoubleAsteriskWildcardWithTrailingWildcardTokens, 6, s, 9, 0);
    assert !Step(MiddleDoubleAsteriskWildcardWithTrailingWildcardTokens, 4, s, 9, 0);
  }

  lemma MiddleDoubleAsteriskWildcardWithTrailingWildcardPath4Part2(s: string)
    requires s == "foo/qux/bar"
    requires !Step(MiddleDoubleAsteriskWildcardWithTrailingWildcardTokens, 3, s, 10, 2)
    requires !Step(MiddleDoubleAsteriskWildcardWithTrailingWildcardTokens, 6, s, 9, 0)
    requires !Step(MiddleDoubleAsteriskWildcardWithTrailingWildcardTokens, 4, s, 9, 0)
    ensures !Step(MiddleDoubleAsteriskWildcardWithTrailingWildcardTokens, 3, s, 6, 2)
  {
    assert !Step(MiddleDoubleAsteriskWildcardWithTrailingWildcardTokens, 3, s, 9, 2);
    assert !Step(MiddleDoubleAsteriskWildcardWithTrailingWildcardTokens, 5, s, 8, 0);
    assert !Step(MiddleDoubleAsteriskWildcardWithTrailingWildcardTokens, 4, s, 8, 0);
    assert !Step(MiddleDoubleAsteriskWildcardWithTrailingWildcardTokens, 3, s, 8, 2);
    assert !Step(MiddleDoubleAsteriskWildcardWithTrailingWildcardTokens, 4, s, 7, 0);
    assert !Step(MiddleDoubleAsteriskWildcardWithTrailingWildcardTokens, 3, s, 7, 2);
    assert !Step(MiddleDoubleAsteriskWildcardWithTrailingWildcardTokens, 4, s, 6, 0);
    assert !Step(MiddleDoubleAsteriskWildcardWithTrailingWildcardTokens, 3, s, 6, 2);
  }

  lemma MiddleDoubleAsteriskWildcardWithTrailingWildcardPath4Part3(s: string)
    requires s == "foo/qux/bar"
    requires !Step(MiddleDoubleAsteriskWildcardWithTrailingWildcardTokens, 3, s, 6, 2)
    ensures !Step(MiddleDoubleAsteriskWildcardWithTrailingWildcardTokens, 1, s, 1, 0)
  {
    assert !Step(MiddleDoubleAsteriskWildcardWithTrailingWildcardTokens, 4, s, 5, 0);
    assert !Step(MiddleDoubleAsteriskWildcardWithTrailingWildcardTokens, 3, s, 5, 2);
    assert !Step(MiddleDoubleAsteriskWildcardWithTrailingWildcardTokens, 5, s, 4, 0);
    assert !Step(MiddleDoubleAsteriskWildcardWithTrailingWildcardTokens, 3, s, 4, 1);
    assert !Step(MiddleDoubleAsteriskWildcardWithTrailingWildcardTokens, 4, s, 3, 0);
    assert !Step(MiddleDoubleAsteriskWildcardWithTrailingWildcardTokens, 3, s, 3, 0);
    assert !Step(MiddleDoubleAsteriskWildcardWithTrailingWildcardTokens, 2, s, 2, 0);
    assert !Step(MiddleDoubleAsteriskWildcardWithTrailingWildcardTokens, 1, s, 1, 0);
  }

  lemma MiddleDoubleAsteriskWildcardWithTrailingWildcardPath4(s: string)
    requires s == "foo/qux/bar"
    ensures !Matches(MiddleDoubleAsteriskWildcardWithTrailingWildcardTokens, s)
  {
    MiddleDoubleAsteriskWildcardWithTrailingWildcardPath4Part1(s);
    MiddleDoubleAsteriskWildcardWithTrailingWildcardPath4Part2(s);
    MiddleDoubleAsteriskWildcardWithTrailingWildcardPath4Part3(s);
  }

  lemma MiddleDoubleAsteriskWildcardWithTrailingWildcardPath5Part1(s: string)
    requires s == "foo/qux/bar/baz"
    ensures Step(MiddleDoubleAsteriskWildcardWithTrailingWildcardTokens, 7, s, 10, 0)
  {
    assert Step(MiddleDoubleAsteriskWildcardWithTrailingWildcardTokens, 12, s, 15, 0);
    assert Step(MiddleDoubleAsteriskWildcardWithTrailingWildcardTokens, 11, s, 15, 0);
    assert Step(MiddleDoubleAsteriskWildcardWithTrailingWildcardTokens, 10, s, 15, 0);
    assert Step(MiddleDoubleAsteriskWildcardWithTrailingWildcardTokens, 10, s, 14, 0);
    assert Step(MiddleDoubleAsteriskWildcardWithTrailingWildcardTokens, 10, s, 13, 0);
    assert Step(MiddleDoubleAsteriskWildcardWithTrailingWildcardTokens, 9, s, 12, 0);
    assert Step(MiddleDoubleAsteriskWildcardWithTrailingWildcardTokens, 8, s, 11, 0);
    assert Step(MiddleDoubleAsteriskWildcardWithTrailingWildcardTokens, 7, s, 10, 0);
  }

  lemma MiddleDoubleAsteriskWildcardWithTrailingWildcardPath5Part2(s: string)
    requires s == "foo/qux/bar/baz"
    requires Step(MiddleDoubleAsteriskWildcardWithTrailingWildcardTokens, 7, s, 10, 0)
    ensures Step(MiddleDoubleAsteriskWildcardWithTrailingWildcardTokens, 3, s, 3, 0)
  {
    assert Step(MiddleDoubleAsteriskWildcardWithTrailingWildcardTokens, 6, s, 9, 0);
    assert Step(MiddleDoubleAsteriskWildcardWithTrailingWildcardTokens, 5, s, 8, 0);
    assert Step(MiddleDoubleAsteriskWildcardWithTrailingWildcardTokens, 4, s, 7, 0);
    assert Step(MiddleDoubleAsteriskWildcardWithTrailingWildcardTokens, 3, s, 7, 2);
    assert Step(MiddleDoubleAsteriskWildcardWithTrailingWildcardTokens, 3, s, 6, 2);
    assert Step(MiddleDoubleAsteriskWildcardWithTrailingWildcardTokens, 3, s, 5, 2);
    assert Step(MiddleDoubleAsteriskWildcardWithTrailingWildcardTokens, 3, s, 4, 1);
    assert Step(MiddleDoubleAsteriskWildcardWithTrailingWildcardTokens, 3, s, 3, 0);
  }

  lemma MiddleDoubleAsteriskWildcardWithTrailingWildcardPath5Part3(s: string)
    requires s == "foo/qux/bar/baz"
    requires Step(MiddleDoubleAsteriskWildcardWithTrailingWildcardTokens, 3, s, 3, 0)
    ensures Step(MiddleDoubleAsteriskWildcardWithTrailingWildcardTokens, 1, s, 1, 0)
  {
    assert Step(MiddleDoubleAsteriskWildcardWithTrailingWildcardTokens, 2, s, 2, 0);
    assert Step(MiddleDoubleAsteriskWildcardWithTrailingWildcardTokens, 1, s, 1, 0);
  }

  lemma MiddleDoubleAsteriskWildcardWithTrailingWildcardPath5(s: string)
    requires s == "foo/qux/bar/baz"
    ensures Matches(MiddleDoubleAsteriskWildcardWithTrailingWildcardTokens, s)
  {
    MiddleDoubleAsteriskWildcardWithTrailingWildcardPath5Part1(s);
    MiddleDoubleAsteriskWildcardWithTrailingWildcardPath5Part2(s);
    MiddleDoubleAsteriskWildcardWithTrailingWildcardPath5Part3(s);
  }

  lemma MiddleDoubleAsteriskWildcardWithTrailingWildcardPath6Part1(s: string)
    requires s == "foo/qux/bar/qux"
    ensures !Step(MiddleDoubleAsteriskWildcardWithTrailingWildcardTokens, 3, s, 13, 2)
    ensures !Step(MiddleDoubleAsteriskWildcardWithTrailingWildcardTokens, 9, s, 12, 0)
    ensures !Step(MiddleDoubleAsteriskWildcardWithTrailingWildcardTokens, 5, s, 12, 0)
  {
    assert !Step(MiddleDoubleAsteriskWildcardWithTrailingWildcardTokens, 4, s, 15, 0);
    assert !Step(MiddleDoubleAsteriskWildcardWithTrailingWildcardTokens, 3, s, 15, 2);
    assert !Step(MiddleDoubleAsteriskWildcardWithTrailingWildcardTokens, 4, s, 14, 0);
    assert !Step(MiddleDoubleAsteriskWildcardWithTrailingWildcardTokens, 3, s, 14, 2);
    assert !Step(MiddleDoubleAsteriskWildcardWithTrailingWildcardTokens, 4, s, 13, 0);
    assert !Step(MiddleDoubleAsteriskWildcardWithTrailingWildcardTokens, 3, s, 13, 2);
    assert !Step(MiddleDoubleAsteriskWildcardWithTrailingWildcardTokens, 9, s, 12, 0);
    assert !Step(MiddleDoubleAsteriskWildcardWithTrailingWildcardTokens, 5, s, 12, 0);
  }

  lemma MiddleDoubleAsteriskWildcardWithTrailingWildcardPath6Part2(s: string)
    requires s == "foo/qux/bar/qux"
    requires !Step(MiddleDoubleAsteriskWildcardWithTrailingWildcardTokens, 3, s, 13, 2)
    requires !Step(MiddleDoubleAsteriskWildcardWithTrailingWildcardTokens, 9, s, 12, 0)
    requires !Step(MiddleDoubleAsteriskWildcardWithTrailingWildcardTokens, 5, s, 12, 0)
    ensures !Step(MiddleDoubleAsteriskWildcardWithTrailingWildcardTokens, 7, s, 10, 0)
    ensures !Step(MiddleDoubleAsteriskWildcardWithTrailingWildcardTokens, 3, s, 10, 2)
  {
    assert !Step(MiddleDoubleAsteriskWildcardWithTrailingWildcardTokens, 4, s, 12, 0);
    assert !Step(MiddleDoubleAsteriskWildcardWithTrailingWildcardTokens, 3, s, 12, 2);
    assert !Step(MiddleDoubleAsteriskWildcardWithTrailingWildcardTokens, 8, s, 11, 0);
    assert !Step(MiddleDoubleAsteriskWildcardWithTrailingWildcardTokens, 4, s, 11, 0);
    assert !Step(MiddleDoubleAsteriskWildcardWithTrailingWildcardTokens, 3, s, 11, 2);
    assert !Step(MiddleDoubleAsteriskWildcardWithTrailingWildcardTokens, 7, s, 10, 0);
    assert !Step(MiddleDoubleAsteriskWildcardWithTrailingWildcardTokens, 4, s, 10, 0);
    assert !Step(MiddleDoubleAsteriskWildcardWithTrailingWildcardTokens, 3, s, 10, 2);
  }

  lemma MiddleDoubleAsteriskWildcardWithTrailingWildcardPath6Part3(s: string)
    requires s == "foo/qux/bar/qux"
    requires !Step(MiddleDoubleAsteriskWildcardWithTrailingWildcardTokens, 7, s, 10, 0)
    requires !Step(MiddleDoubleAsteriskWildcardWithTrailingWildcardTokens, 3, s, 10, 2)
    ensures !Step(MiddleDoubleAsteriskWildcardWithTrailingWildcardTokens, 3, s, 7, 2)
  {
    assert !Step(MiddleDoubleAsteriskWildcardWithTrailingWildcardTokens, 6, s, 9, 0);
    assert !Step(MiddleDoubleAsteriskWildcardWithTrailingWildcardTokens, 4, s, 9, 0);
    assert !Step(MiddleDoubleAsteriskWildcardWithTrailingWildcardTokens, 3, s, 9, 2);
    assert !Step(MiddleDoubleAsteriskWildcardWithTrailingWildcardTokens, 5, s, 8, 0);
    assert !Step(MiddleDoubleAsteriskWildcardWithTrailingWildcardTokens, 4, s, 8, 0);
    assert !Step(MiddleDoubleAsteriskWildcardWithTrailingWildcardTokens, 3, s, 8, 2);
    assert !Step(MiddleDoubleAsteriskWildcardWithTrailingWildcardTokens, 4, s, 7, 0);
    assert !Step(MiddleDoubleAsteriskWildcardWithTrailingWildcardTokens, 3, s, 7, 2);
  }

  lemma MiddleDoubleAsteriskWildcardWithTrailingWildcardPath6Part4(s: string)
    requires s == "foo/qux/bar/qux"
    requires !Step(MiddleDoubleAsteriskWildcardWithTrailingWildcardTokens, 3, s, 7, 2)
    ensures !Step(MiddleDoubleAsteriskWildcardWithTrailingWildcardTokens, 3, s, 3, 0)
  {
    assert !Step(MiddleDoubleAsteriskWildcardWithTrailingWildcardTokens, 4, s, 6, 0);
    assert !Step(MiddleDoubleAsteriskWildcardWithTrailingWildcardTokens, 3, s, 6, 2);
    assert !Step(MiddleDoubleAsteriskWildcardWithTrailingWildcardTokens, 4, s, 5, 0);
    assert !Step(MiddleDoubleAsteriskWildcardWithTrailingWildcardTokens, 3, s, 5, 2);
    assert !Step(MiddleDoubleAsteriskWildcardWithTrailingWildcardTokens, 5, s, 4, 0);
    assert !Step(MiddleDoubleAsteriskWildcardWithTrailingWildcardTokens, 3, s, 4, 1);
    assert !Step(MiddleDoubleAsteriskWildcardWithTrailingWildcardTokens, 4, s, 3, 0);
    assert !Step(MiddleDoubleAsteriskWildcardWithTrailingWildcardTokens, 3, s, 3, 0);
  }

  lemma MiddleDoubleAsteriskWildcardWithTrailingWildcardPath6Part5(s: string)
    requires s == "foo/qux/bar/qux"
    requires !Step(MiddleDoubleAsteriskWildcardWithTrailingWildcardTokens, 3, s, 3, 0)
    ensures !Step(MiddleDoubleAsteriskWildcardWithTrailingWildcardTokens, 1, s, 1, 0)
  {
    assert !Step(MiddleDoubleAsteriskWildcardWithTrailingWildcardTokens, 2, s, 2, 0);
    assert !Step(MiddleDoubleAsteriskWildcardWithTrailingWildcardTokens, 1, s, 1, 0);
  }

  lemma MiddleDoubleAsteriskWildcardWithTrailingWildcardPath6(s: string)
    requires s == "foo/qux/bar/qux"
    ensures !Matches(MiddleDoubleAsteriskWildcardWithTrailingWildcardTokens, s)
  {
    MiddleDoubleAsteriskWildcardWithTrailingWildcardPath6Part1(s);
    MiddleDoubleAsteriskWildcardWithTrailingWildcardPath6Part2(s);
    MiddleDoubleAsteriskWildcardWithTrailingWildcardPath6Part3(s);
    MiddleDoubleAsteriskWildcardWithTrailingWildcardPath6Part4(s);
    MiddleDoubleAsteriskWildcardWithTrailingWildcardPath6Part5(s);
  }

  /** The verdicts the case expects for its paths. */
  lemma MiddleDoubleAsteriskWildcardWithTrailingWildcardPaths()
    ensures !Matches(MiddleDoubleAsteriskWildcardWithTrailingWildcardTokens, "foo/bar")
    ensures Matches(MiddleDoubleAsteriskWildcardWithTrailingWildcardTokens, "foo/bar/baz")
    ensures !Matches(MiddleDoubleAsteriskWildcardWithTrailingWildcardTokens, "foo/bar/qux")
    ensures !Matches(MiddleDoubleAsteriskWildcardWithTrailingWildcardTokens, "foo/qux/bar")
    ensures Matches(MiddleDoubleAsteriskWildcardWithTrailingWildcardTokens, "foo/qux/bar/baz")
    ensures !Matches(MiddleDoubleAsteriskWildcardWithTrailingWildcardTokens, "foo/qux/bar/qux")
  {
    MiddleDoubleAsteriskWildcardWithTrailingWildcardPath1("foo/bar");
    MiddleDoubleAsteriskWildcardWithTrailingWildcardPath2("foo/bar/baz");
    MiddleDoubleAsteriskWildcardWithTrailingWildcardPath3("foo/bar/qux");
    MiddleDoubleAsteriskWildcardWithTrailingWildcardPath4("foo/qux/bar");
    MiddleDoubleAsteriskWildcardWithTrailingWildcardPath5("foo/qux/bar/baz");
    MiddleDoubleAsteriskWildcardWithTrailingWildcardPath6("foo/qux/bar/qux");
  }

}
