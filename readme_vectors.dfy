/**
 * The README example, as the repository's test suites use it: the CODEOWNERS
 * file of __tests__/parse-file.test.ts:6-55, parsed into its six rules with
 * their compiled expressions, and those rules resolved against the changed
 * paths of __tests__/filename-match.test.ts:80-149.
 */
module ReadmeVectors {
  import opened Text
  import opened Regex
  import opened Results
  import opened ParsePattern
  import opened LineParser
  import opened FileParser
  import opened Sorting
  import opened Resolver
  import opened FileVectors
  import opened PatternVectors
  import opened PatternProperties
  import opened ResolverVectors

  // ---------------------------------------------------------------------------
  // The six patterns and their compiled expressions.

  const PackagePattern: string := "/package.json"
  const PackageTokens: seq<Token> := [Char('p'), Char('a'), Char('c'), Char('k'), Char('a'), Char('g'), Char('e'), Char('.'), Char('j'), Char('s'), Char('o'), Char('n'), OptDescendants]

  lemma PackageSegments()
    ensures Compile(PackagePattern) == Success(EmitFrom(["package.json"], 0, false))
  {
    assert Join(["", "package.json"], Sep) == "/package.json";
    CompileOf(PackagePattern, ["", "package.json"], ["package.json"]);
  }

  lemma PackageChars0(w: string)
    requires w == "package.json"
    ensures SegmentChars(w, false) == [Char('p'), Char('a'), Char('c'), Char('k'), Char('a'), Char('g'), Char('e'), Char('.'), Char('j'), Char('s'), Char('o'), Char('n')]
  {
    PlainChars(w);
  }

  lemma PackageEmitted()
    ensures EmitFrom(["package.json"], 0, false) == PackageTokens
  {
    PackageChars0("package.json");
  }

  // `/package.json` compiles to the expression the test expects.
  lemma PackageCompiled()
    ensures Compile(PackagePattern) == Success(PackageTokens)
  {
    PackageSegments();
    PackageEmitted();
  }

  const TestsUnitPattern: string := "/tests/unit/*"
  const TestsUnitTokens: seq<Token> := [Char('t'), Char('e'), Char('s'), Char('t'), Char('s'), Char('/'), Char('u'), Char('n'), Char('i'), Char('t'), Char('/'), NotSepPlus]

  lemma TestsUnitSegments()
    ensures Compile(TestsUnitPattern) == Success(EmitFrom(["tests", "unit", "*"], 0, false))
  {
    assert Join(["unit", "*"], Sep) == "unit/*";
    assert Join(["tests", "unit", "*"], Sep) == "tests/unit/*";
    assert Join(["", "tests", "unit", "*"], Sep) == "/tests/unit/*";
    CompileOf(TestsUnitPattern, ["", "tests", "unit", "*"], ["tests", "unit", "*"]);
  }

  lemma TestsUnitChars1(w: string)
    requires w == "unit"
    ensures SegmentChars(w, false) == [Char('u'), Char('n'), Char('i'), Char('t')]
  {
    PlainChars(w);
  }

  lemma TestsUnitChars0(w: string)
    requires w == "tests"
    ensures SegmentChars(w, false) == [Char('t'), Char('e'), Char('s'), Char('t'), Char('s')]
  {
    PlainChars(w);
  }

  lemma TestsUnitEmitted2()
    ensures EmitFrom(["tests", "unit", "*"], 2, true) == [Char('/'), NotSepPlus]
  {
  }

  lemma TestsUnitEmitted1()
    ensures EmitFrom(["tests", "unit", "*"], 1, true) == [Char('/'), Char('u'), Char('n'), Char('i'), Char('t'), Char('/'), NotSepPlus]
  {
    TestsUnitChars1("unit");
    TestsUnitEmitted2();
  }

  lemma TestsUnitEmitted()
    ensures EmitFrom(["tests", "unit", "*"], 0, false) == TestsUnitTokens
  {
    TestsUnitChars0("tests");
    TestsUnitEmitted1();
    EmitFromUnfold(["tests", "unit", "*"], 0, false);
  }

  // `/tests/unit/*` compiles to the expression the test expects.
  lemma TestsUnitCompiled()
    ensures Compile(TestsUnitPattern) == Success(TestsUnitTokens)
  {
    TestsUnitSegments();
    TestsUnitEmitted();
  }

  const DocsPattern: string := "/docs/*"
  const DocsTokens: seq<Token> := [Char('d'), Char('o'), Char('c'), Char('s'), Char('/'), NotSepPlus]

  lemma DocsSegments()
    ensures Compile(DocsPattern) == Success(EmitFrom(["docs", "*"], 0, false))
  {
    assert Join(["docs", "*"], Sep) == "docs/*";
    assert Join(["", "docs", "*"], Sep) == "/docs/*";
    CompileOf(DocsPattern, ["", "docs", "*"], ["docs", "*"]);
  }

  lemma DocsChars0(w: string)
    requires w == "docs"
    ensures SegmentChars(w, false) == [Char('d'), Char('o'), Char('c'), Char('s')]
  {
    PlainChars(w);
  }

  lemma DocsEmitted1()
    ensures EmitFrom(["docs", "*"], 1, true) == [Char('/'), NotSepPlus]
  {
  }

  lemma DocsEmitted()
    ensures EmitFrom(["docs", "*"], 0, false) == DocsTokens
  {
    DocsChars0("docs");
    DocsEmitted1();
  }

  // `/docs/*` compiles to the expression the test expects.
  lemma DocsCompiled()
    ensures Compile(DocsPattern) == Success(DocsTokens)
  {
    DocsSegments();
    DocsEmitted();
  }

  const SrcUtilsPattern: string := "/src/utils/*"
  const SrcUtilsTokens: seq<Token> := [Char('s'), Char('r'), Char('c'), Char('/'), Char('u'), Char('t'), Char('i'), Char('l'), Char('s'), Char('/'), NotSepPlus]

  lemma SrcUtilsSegments()
    ensures Compile(SrcUtilsPattern) == Success(EmitFrom(["src", "utils", "*"], 0, false))
  {
    assert Join(["utils", "*"], Sep) == "utils/*";
    assert Join(["src", "utils", "*"], Sep) == "src/utils/*";
    assert Join(["", "src", "utils", "*"], Sep) == "/src/utils/*";
    CompileOf(SrcUtilsPattern, ["", "src", "utils", "*"], ["src", "utils", "*"]);
  }

  lemma SrcUtilsChars1(w: string)
    requires w == "utils"
    ensures SegmentChars(w, false) == [Char('u'), Char('t'), Char('i'), Char('l'), Char('s')]
  {
    PlainChars(w);
  }

  lemma SrcUtilsChars0(w: string)
    requires w == "src"
    ensures SegmentChars(w, false) == [Char('s'), Char('r'), Char('c')]
  {
    PlainChars(w);
  }

  lemma SrcUtilsEmitted2()
    ensures EmitFrom(["src", "utils", "*"], 2, true) == [Char('/'), NotSepPlus]
  {
  }

  lemma SrcUtilsEmitted1()
    ensures EmitFrom(["src", "utils", "*"], 1, true) == [Char('/'), Char('u'), Char('t'), Char('i'), Char('l'), Char('s'), Char('/'), NotSepPlus]
  {
    SrcUtilsChars1("utils");
    SrcUtilsEmitted2();
  }

  lemma SrcUtilsEmitted()
    ensures EmitFrom(["src", "utils", "*"], 0, false) == SrcUtilsTokens
  {
    SrcUtilsChars0("src");
    SrcUtilsEmitted1();
  }

  // `/src/utils/*` compiles to the expression the test expects.
  lemma SrcUtilsCompiled()
    ensures Compile(SrcUtilsPattern) == Success(SrcUtilsTokens)
  {
    SrcUtilsSegments();
    SrcUtilsEmitted();
  }

  const SrcPattern: string := "/src/*"
  const SrcTokens: seq<Token> := [Char('s'), Char('r'), Char('c'), Char('/'), NotSepPlus]

  lemma SrcSegments()
    ensures Compile(SrcPattern) == Success(EmitFrom(["src", "*"], 0, false))
  {
    assert Join(["src", "*"], Sep) == "src/*";
    assert Join(["", "src", "*"], Sep) == "/src/*";
    CompileOf(SrcPattern, ["", "src", "*"], ["src", "*"]);
  }

  lemma SrcChars0(w: string)
    requires w == "src"
    ensures SegmentChars(w, false) == [Char('s'), Char('r'), Char('c')]
  {
    PlainChars(w);
  }

  lemma SrcEmitted1()
    ensures EmitFrom(["src", "*"], 1, true) == [Char('/'), NotSepPlus]
  {
  }

  lemma SrcEmitted()
    ensures EmitFrom(["src", "*"], 0, false) == SrcTokens
  {
    SrcChars0("src");
    SrcEmitted1();
  }

  // `/src/*` compiles to the expression the test expects.
  lemma SrcCompiled()
    ensures Compile(SrcPattern) == Success(SrcTokens)
  {
    SrcSegments();
    SrcEmitted();
  }

  const AllJsPattern: string := "/**/*.js"
  const AllJsTokens: seq<Token> := [OptPrefixDirs, NotSepStar, Char('.'), Char('j'), Char('s'), OptDescendants]

  lemma AllJsSegments()
    ensures Compile(AllJsPattern) == Success(EmitFrom(["**", "*.js"], 0, false))
  {
    assert Join(["**", "*.js"], Sep) == "**/*.js";
    assert Join(["", "**", "*.js"], Sep) == "/**/*.js";
    CompileOf(AllJsPattern, ["", "**", "*.js"], ["**", "*.js"]);
  }

  lemma AllJsChars1(w: string)
    requires w == "*.js"
    ensures SegmentChars(w, false) == [NotSepStar, Char('.'), Char('j'), Char('s')]
  {
    assert SegmentChars("s", false) == [Char('s')];
    assert SegmentChars("js", false) == [Char('j'), Char('s')];
    assert SegmentChars(".js", false) == [Char('.'), Char('j'), Char('s')];
  }

  lemma AllJsEmitted1()
    ensures EmitFrom(["**", "*.js"], 1, false) == [NotSepStar, Char('.'), Char('j'), Char('s'), OptDescendants]
  {
    AllJsChars1("*.js");
  }

  lemma AllJsEmitted()
    ensures EmitFrom(["**", "*.js"], 0, false) == AllJsTokens
  {
    AllJsEmitted1();
  }

  // `/**/*.js` compiles to the expression the test expects.
  lemma AllJsCompiled()
    ensures Compile(AllJsPattern) == Success(AllJsTokens)
  {
    AllJsSegments();
    AllJsEmitted();
  }

  // ---------------------------------------------------------------------------
  // The changed paths against the rules the resolver tries before it finds the winner.

  const Path1: string := "src/file.js"
  const Path2: string := "src/utils/helper.js"
  const Path3: string := "docs/guide.md"
  const Path4: string := "docs/setup/config.md"
  const Path5: string := "tests/unit/test.spec.js"
  const Path6: string := "package.json"

  lemma PackageOnPath1(s: string)
    requires s == "src/file.js"
    ensures !Matches(PackageTokens, s)
  {
    assert !Step(PackageTokens, 0, s, 0, 0);
  }

  lemma TestsUnitOnPath1(s: string)
    requires s == "src/file.js"
    ensures !Matches(TestsUnitTokens, s)
  {
    assert !Step(TestsUnitTokens, 0, s, 0, 0);
  }

  lemma DocsOnPath1(s: string)
    requires s == "src/file.js"
    ensures !Matches(DocsTokens, s)
  {
    assert !Step(DocsTokens, 0, s, 0, 0);
  }

  lemma SrcUtilsOnPath1(s: string)
    requires s == "src/file.js"
    ensures !Matches(SrcUtilsTokens, s)
  {
    assert !Step(SrcUtilsTokens, 4, s, 4, 0);
    assert !Step(SrcUtilsTokens, 3, s, 3, 0);
    assert !Step(SrcUtilsTokens, 2, s, 2, 0);
    assert !Step(SrcUtilsTokens, 1, s, 1, 0);
    assert !Step(SrcUtilsTokens, 0, s, 0, 0);
  }

  lemma SrcOnPath1Part1(s: string)
    requires s == "src/file.js"
    ensures Step(SrcTokens, 3, s, 3, 0)
  {
    assert Step(SrcTokens, 5, s, 11, 0);
    assert Step(SrcTokens, 4, s, 11, 1);
    assert Step(SrcTokens, 4, s, 10, 1);
    assert Step(SrcTokens, 4, s, 9, 1);
    assert Step(SrcTokens, 4, s, 8, 1);
    assert Step(SrcTokens, 4, s, 7, 1);
    assert Step(SrcTokens, 4, s, 6, 1);
    assert Step(SrcTokens, 4, s, 5, 1);
    assert Step(SrcTokens, 4, s, 4, 0);
    assert Step(SrcTokens, 3, s, 3, 0);
  }

  lemma SrcOnPath1(s: string)
    requires s == "src/file.js"
    ensures Matches(SrcTokens, s)
  {
    SrcOnPath1Part1(s);
    assert Step(SrcTokens, 2, s, 2, 0);
    assert Step(SrcTokens, 1, s, 1, 0);
    assert Step(SrcTokens, 0, s, 0, 0);
  }

  lemma PackageOnPath2(s: string)
    requires s == "src/utils/helper.js"
    ensures !Matches(PackageTokens, s)
  {
    assert !Step(PackageTokens, 0, s, 0, 0);
  }

  lemma TestsUnitOnPath2(s: string)
    requires s == "src/utils/helper.js"
    ensures !Matches(TestsUnitTokens, s)
  {
    assert !Step(TestsUnitTokens, 0, s, 0, 0);
  }

  lemma DocsOnPath2(s: string)
    requires s == "src/utils/helper.js"
    ensures !Matches(DocsTokens, s)
  {
    assert !Step(DocsTokens, 0, s, 0, 0);
  }

  lemma SrcUtilsOnPath2Part1(s: string)
    requires s == "src/utils/helper.js"
    ensures Step(SrcUtilsTokens, 10, s, 11, 1)
  {
    assert Step(SrcUtilsTokens, 11, s, 19, 0);
    assert Step(SrcUtilsTokens, 10, s, 19, 1);
    assert Step(SrcUtilsTokens, 10, s, 18, 1);
    assert Step(SrcUtilsTokens, 10, s, 17, 1);
    assert Step(SrcUtilsTokens, 10, s, 16, 1);
    assert Step(SrcUtilsTokens, 10, s, 15, 1);
    assert Step(SrcUtilsTokens, 10, s, 14, 1);
    assert Step(SrcUtilsTokens, 10, s, 13, 1);
    assert Step(SrcUtilsTokens, 10, s, 12, 1);
    assert Step(SrcUtilsTokens, 10, s, 11, 1);
  }

  lemma SrcUtilsOnPath2Part2(s: string)
    requires s == "src/utils/helper.js"
    ensures Step(SrcUtilsTokens, 1, s, 1, 0)
  {
    SrcUtilsOnPath2Part1(s);
    assert Step(SrcUtilsTokens, 10, s, 10, 0);
    assert Step(SrcUtilsTokens, 9, s, 9, 0);
    assert Step(SrcUtilsTokens, 8, s, 8, 0);
    assert Step(SrcUtilsTokens, 7, s, 7, 0);
    assert Step(SrcUtilsTokens, 6, s, 6, 0);
    assert Step(SrcUtilsTokens, 5, s, 5, 0);
    assert Step(SrcUtilsTokens, 4, s, 4, 0);
    assert Step(SrcUtilsTokens, 3, s, 3, 0);
    assert Step(SrcUtilsTokens, 2, s, 2, 0);
    assert Step(SrcUtilsTokens, 1, s, 1, 0);
  }

  lemma SrcUtilsOnPath2(s: string)
    requires s == "src/utils/helper.js"
    ensures Matches(SrcUtilsTokens, s)
  {
    SrcUtilsOnPath2Part2(s);
    assert Step(SrcUtilsTokens, 0, s, 0, 0);
  }

  lemma PackageOnPath3(s: string)
    requires s == "docs/guide.md"
    ensures !Matches(PackageTokens, s)
  {
    assert !Step(PackageTokens, 0, s, 0, 0);
  }

  lemma TestsUnitOnPath3(s: string)
    requires s == "docs/guide.md"
    ensures !Matches(TestsUnitTokens, s)
  {
    assert !Step(TestsUnitTokens, 0, s, 0, 0);
  }

  lemma DocsOnPath3Part1(s: string)
    requires s == "docs/guide.md"
    ensures Step(DocsTokens, 5, s, 5, 0)
  {
    assert Step(DocsTokens, 6, s, 13, 0);
    assert Step(DocsTokens, 5, s, 13, 1);
    assert Step(DocsTokens, 5, s, 12, 1);
    assert Step(DocsTokens, 5, s, 11, 1);
    assert Step(DocsTokens, 5, s, 10, 1);
    assert Step(DocsTokens, 5, s, 9, 1);
    assert Step(DocsTokens, 5, s, 8, 1);
    assert Step(DocsTokens, 5, s, 7, 1);
    assert Step(DocsTokens, 5, s, 6, 1);
    assert Step(DocsTokens, 5, s, 5, 0);
  }

  lemma DocsOnPath3(s: string)
    requires s == "docs/guide.md"
    ensures Matches(DocsTokens, s)
  {
    DocsOnPath3Part1(s);
    assert Step(DocsTokens, 4, s, 4, 0);
    assert Step(DocsTokens, 3, s, 3, 0);
    assert Step(DocsTokens, 2, s, 2, 0);
    assert Step(DocsTokens, 1, s, 1, 0);
    assert Step(DocsTokens, 0, s, 0, 0);
  }

  lemma PackageOnPath4(s: string)
    requires s == "docs/setup/config.md"
    ensures !Matches(PackageTokens, s)
  {
    assert !Step(PackageTokens, 0, s, 0, 0);
  }

  lemma TestsUnitOnPath4(s: string)
    requires s == "docs/setup/config.md"
    ensures !Matches(TestsUnitTokens, s)
  {
    assert !Step(TestsUnitTokens, 0, s, 0, 0);
  }

  lemma DocsOnPath4Part1(s: string)
    requires s == "docs/setup/config.md"
    ensures !Step(DocsTokens, 5, s, 6, 1)
  {
    assert !Step(DocsTokens, 6, s, 10, 0);
    assert !Step(DocsTokens, 5, s, 10, 1);
    assert !Step(DocsTokens, 6, s, 9, 0);
    assert !Step(DocsTokens, 5, s, 9, 1);
    assert !Step(DocsTokens, 6, s, 8, 0);
    assert !Step(DocsTokens, 5, s, 8, 1);
    assert !Step(DocsTokens, 6, s, 7, 0);
    assert !Step(DocsTokens, 5, s, 7, 1);
    assert !Step(DocsTokens, 6, s, 6, 0);
    assert !Step(DocsTokens, 5, s, 6, 1);
  }

  lemma DocsOnPath4(s: string)
    requires s == "docs/setup/config.md"
    ensures !Matches(DocsTokens, s)
  {
    DocsOnPath4Part1(s);
    assert !Step(DocsTokens, 5, s, 5, 0);
    assert !Step(DocsTokens, 4, s, 4, 0);
    assert !Step(DocsTokens, 3, s, 3, 0);
    assert !Step(DocsTokens, 2, s, 2, 0);
    assert !Step(DocsTokens, 1, s, 1, 0);
    assert !Step(DocsTokens, 0, s, 0, 0);
  }

  lemma SrcUtilsOnPath4(s: string)
    requires s == "docs/setup/config.md"
    ensures !Matches(SrcUtilsTokens, s)
  {
    assert !Step(SrcUtilsTokens, 0, s, 0, 0);
  }

  lemma SrcOnPath4(s: string)
    requires s == "docs/setup/config.md"
    ensures !Matches(SrcTokens, s)
  {
    assert !Step(SrcTokens, 0, s, 0, 0);
  }

  lemma AllJsOnPath4Part1(s: string)
    requires s == "docs/setup/config.md"
    ensures !Step(AllJsTokens, 3, s, 18, 0)
    ensures !Step(AllJsTokens, 1, s, 18, 0)
    ensures !Step(AllJsTokens, 0, s, 18, 1)
  {
    assert !Step(AllJsTokens, 2, s, 20, 0);
    assert !Step(AllJsTokens, 1, s, 20, 0);
    assert !Step(AllJsTokens, 0, s, 20, 1);
    assert !Step(AllJsTokens, 2, s, 19, 0);
    assert !Step(AllJsTokens, 1, s, 19, 0);
    assert !Step(AllJsTokens, 0, s, 19, 1);
    assert !Step(AllJsTokens, 3, s, 18, 0);
    assert !Step(AllJsTokens, 2, s, 18, 0);
    assert !Step(AllJsTokens, 1, s, 18, 0);
    assert !Step(AllJsTokens, 0, s, 18, 1);
  }

  lemma AllJsOnPath4Part2(s: string)
    requires s == "docs/setup/config.md"
    ensures !Step(AllJsTokens, 1, s, 15, 0)
    ensures !Step(AllJsTokens, 0, s, 15, 1)
    ensures !Step(AllJsTokens, 2, s, 14, 0)
  {
    AllJsOnPath4Part1(s);
    assert !Step(AllJsTokens, 2, s, 17, 0);
    assert !Step(AllJsTokens, 1, s, 17, 0);
    assert !Step(AllJsTokens, 0, s, 17, 1);
    assert !Step(AllJsTokens, 2, s, 16, 0);
    assert !Step(AllJsTokens, 1, s, 16, 0);
    assert !Step(AllJsTokens, 0, s, 16, 1);
    assert !Step(AllJsTokens, 2, s, 15, 0);
    assert !Step(AllJsTokens, 1, s, 15, 0);
    assert !Step(AllJsTokens, 0, s, 15, 1);
    assert !Step(AllJsTokens, 2, s, 14, 0);
  }

  lemma AllJsOnPath4Part3(s: string)
    requires s == "docs/setup/config.md"
    ensures !Step(AllJsTokens, 0, s, 12, 1)
    ensures !Step(AllJsTokens, 1, s, 11, 0)
  {
    AllJsOnPath4Part2(s);
    assert !Step(AllJsTokens, 1, s, 14, 0);
    assert !Step(AllJsTokens, 0, s, 14, 1);
    assert !Step(AllJsTokens, 2, s, 13, 0);
    assert !Step(AllJsTokens, 1, s, 13, 0);
    assert !Step(AllJsTokens, 0, s, 13, 1);
    assert !Step(AllJsTokens, 2, s, 12, 0);
    assert !Step(AllJsTokens, 1, s, 12, 0);
    assert !Step(AllJsTokens, 0, s, 12, 1);
    assert !Step(AllJsTokens, 2, s, 11, 0);
    assert !Step(AllJsTokens, 1, s, 11, 0);
  }

  lemma AllJsOnPath4Part4(s: string)
    requires s == "docs/setup/config.md"
    ensures !Step(AllJsTokens, 1, s, 8, 0)
    ensures !Step(AllJsTokens, 0, s, 8, 1)
  {
    AllJsOnPath4Part3(s);
    assert !Step(AllJsTokens, 0, s, 11, 1);
    assert !Step(AllJsTokens, 2, s, 10, 0);
    assert !Step(AllJsTokens, 1, s, 10, 0);
    assert !Step(AllJsTokens, 0, s, 10, 1);
    assert !Step(AllJsTokens, 2, s, 9, 0);
    assert !Step(AllJsTokens, 1, s, 9, 0);
    assert !Step(AllJsTokens, 0, s, 9, 1);
    assert !Step(AllJsTokens, 2, s, 8, 0);
    assert !Step(AllJsTokens, 1, s, 8, 0);
    assert !Step(AllJsTokens, 0, s, 8, 1);
  }

  lemma AllJsOnPath4Part5(s: string)
    requires s == "docs/setup/config.md"
    ensures !Step(AllJsTokens, 1, s, 5, 0)
    ensures !Step(AllJsTokens, 0, s, 5, 1)
    ensures !Step(AllJsTokens, 2, s, 4, 0)
  {
    AllJsOnPath4Part4(s);
    assert !Step(AllJsTokens, 2, s, 7, 0);
    assert !Step(AllJsTokens, 1, s, 7, 0);
    assert !Step(AllJsTokens, 0, s, 7, 1);
    assert !Step(AllJsTokens, 2, s, 6, 0);
    assert !Step(AllJsTokens, 1, s, 6, 0);
    assert !Step(AllJsTokens, 0, s, 6, 1);
    assert !Step(AllJsTokens, 2, s, 5, 0);
    assert !Step(AllJsTokens, 1, s, 5, 0);
    assert !Step(AllJsTokens, 0, s, 5, 1);
    assert !Step(AllJsTokens, 2, s, 4, 0);
  }

  lemma AllJsOnPath4Part6(s: string)
    requires s == "docs/setup/config.md"
    ensures !Step(AllJsTokens, 0, s, 2, 1)
    ensures !Step(AllJsTokens, 1, s, 1, 0)
  {
    AllJsOnPath4Part5(s);
    assert !Step(AllJsTokens, 1, s, 4, 0);
    assert !Step(AllJsTokens, 0, s, 4, 1);
    assert !Step(AllJsTokens, 2, s, 3, 0);
    assert !Step(AllJsTokens, 1, s, 3, 0);
    assert !Step(AllJsTokens, 0, s, 3, 1);
    assert !Step(AllJsTokens, 2, s, 2, 0);
    assert !Step(AllJsTokens, 1, s, 2, 0);
    assert !Step(AllJsTokens, 0, s, 2, 1);
    assert !Step(AllJsTokens, 2, s, 1, 0);
    assert !Step(AllJsTokens, 1, s, 1, 0);
  }

  lemma AllJsOnPath4(s: string)
    requires s == "docs/setup/config.md"
    ensures !Matches(AllJsTokens, s)
  {
    AllJsOnPath4Part6(s);
    assert !Step(AllJsTokens, 0, s, 1, 1);
    assert !Step(AllJsTokens, 2, s, 0, 0);
    assert !Step(AllJsTokens, 1, s, 0, 0);
    assert !Step(AllJsTokens, 0, s, 0, 0);
  }

  lemma PackageOnPath5(s: string)
    requires s == "tests/unit/test.spec.js"
    ensures !Matches(PackageTokens, s)
  {
    assert !Step(PackageTokens, 0, s, 0, 0);
  }

  lemma TestsUnitOnPath5Part1(s: string)
    requires s == "tests/unit/test.spec.js"
    ensures Step(TestsUnitTokens, 11, s, 15, 1)
  {
    assert Step(TestsUnitTokens, 12, s, 23, 0);
    assert Step(TestsUnitTokens, 11, s, 23, 1);
    assert Step(TestsUnitTokens, 11, s, 22, 1);
    assert Step(TestsUnitTokens, 11, s, 21, 1);
    assert Step(TestsUnitTokens, 11, s, 20, 1);
    assert Step(TestsUnitTokens, 11, s, 19, 1);
    assert Step(TestsUnitTokens, 11, s, 18, 1);
    assert Step(TestsUnitTokens, 11, s, 17, 1);
    assert Step(TestsUnitTokens, 11, s, 16, 1);
    assert Step(TestsUnitTokens, 11, s, 15, 1);
  }

  lemma TestsUnitOnPath5Part2(s: string)
    requires s == "tests/unit/test.spec.js"
    ensures Step(TestsUnitTokens, 5, s, 5, 0)
  {
    TestsUnitOnPath5Part1(s);
    assert Step(TestsUnitTokens, 11, s, 14, 1);
    assert Step(TestsUnitTokens, 11, s, 13, 1);
    assert Step(TestsUnitTokens, 11, s, 12, 1);
    assert Step(TestsUnitTokens, 11, s, 11, 0);
    assert Step(TestsUnitTokens, 10, s, 10, 0);
    assert Step(TestsUnitTokens, 9, s, 9, 0);
    assert Step(TestsUnitTokens, 8, s, 8, 0);
    assert Step(TestsUnitTokens, 7, s, 7, 0);
    assert Step(TestsUnitTokens, 6, s, 6, 0);
    assert Step(TestsUnitTokens, 5, s, 5, 0);
  }

  lemma TestsUnitOnPath5(s: string)
    requires s == "tests/unit/test.spec.js"
    ensures Matches(TestsUnitTokens, s)
  {
    TestsUnitOnPath5Part2(s);
    assert Step(TestsUnitTokens, 4, s, 4, 0);
    assert Step(TestsUnitTokens, 3, s, 3, 0);
    assert Step(TestsUnitTokens, 2, s, 2, 0);
    assert Step(TestsUnitTokens, 1, s, 1, 0);
    assert Step(TestsUnitTokens, 0, s, 0, 0);
  }

  lemma PackageOnPath6Part1(s: string)
    requires s == "package.json"
    ensures Step(PackageTokens, 4, s, 4, 0)
  {
    assert Step(PackageTokens, 13, s, 12, 0);
    assert Step(PackageTokens, 12, s, 12, 0);
    assert Step(PackageTokens, 11, s, 11, 0);
    assert Step(PackageTokens, 10, s, 10, 0);
    assert Step(PackageTokens, 9, s, 9, 0);
    assert Step(PackageTokens, 8, s, 8, 0);
    assert Step(PackageTokens, 7, s, 7, 0);
    assert Step(PackageTokens, 6, s, 6, 0);
    assert Step(PackageTokens, 5, s, 5, 0);
    assert Step(PackageTokens, 4, s, 4, 0);
  }

  lemma PackageOnPath6(s: string)
    requires s == "package.json"
    ensures Matches(PackageTokens, s)
  {
    PackageOnPath6Part1(s);
    assert Step(PackageTokens, 3, s, 3, 0);
    assert Step(PackageTokens, 2, s, 2, 0);
    assert Step(PackageTokens, 1, s, 1, 0);
    assert Step(PackageTokens, 0, s, 0, 0);
  }

  // ---------------------------------------------------------------------------
  // The rules of the README example, as `parseFile` returns them.

  const TeamA: string := "@team-a"
  const TeamB: string := "@team-b"
  const TeamC: string := "@team-c"
  const TeamMaintainers: string := "@team-maintainers"
  const TeamGlobal: string := "@team-global"
  const User1: string := "@user1"
  const User2: string := "@user2"
  const User3: string := "@user3"

  const PackageRule: Rule := Rule(PackagePattern, PackageTokens, 7, [TeamMaintainers, User3])
  const TestsUnitRule: Rule := Rule(TestsUnitPattern, TestsUnitTokens, 6, [TeamA, User2])
  const DocsRule: Rule := Rule(DocsPattern, DocsTokens, 5, [TeamB, User1])
  const SrcUtilsRule: Rule := Rule(SrcUtilsPattern, SrcUtilsTokens, 4, [TeamC, User2, User3])
  const SrcRule: Rule := Rule(SrcPattern, SrcTokens, 3, [TeamA, User1])
  const AllJsRule: Rule := Rule(AllJsPattern, AllJsTokens, 2, [TeamGlobal])

  /** The rules last line first: the order in which the resolver tries them. */
  const ReadmeRules: seq<Rule> := [PackageRule, TestsUnitRule, DocsRule, SrcUtilsRule, SrcRule, AllJsRule]

  // ---------------------------------------------------------------------------
  // "should parse the README example" (__tests__/parse-file.test.ts:6-55)

  const ReadmeLine1: string := "# CODEOWNERS rules"
  const ReadmeLine2: string := "/**/*.js @team-global"
  const ReadmeLine3: string := "/src/* @team-a @user1"
  const ReadmeLine4: string := "/src/utils/* @team-c @user2 @user3"
  const ReadmeLine5: string := "/docs/* @team-b @user1"
  const ReadmeLine6: string := "/tests/unit/* @team-a @user2"
  const ReadmeLine7: string := "/package.json @team-maintainers @user3"

  /** The file of the test, one line after another, each ended by a newline. */
  const ReadmeInput: string :=
    ReadmeLine1 + "\n" +
    ReadmeLine2 + "\n" +
    ReadmeLine3 + "\n" +
    ReadmeLine4 + "\n" +
    ReadmeLine5 + "\n" +
    ReadmeLine6 + "\n" +
    ReadmeLine7 + "\n"

  lemma ReadmeJoined(l1: string, l2: string, l3: string, l4: string, l5: string, l6: string, l7: string)
    ensures Join([l1, l2, l3, l4, l5, l6, l7, ""], LF) == l1 + "\n" + l2 + "\n" + l3 + "\n" + l4 + "\n" + l5 + "\n" + l6 + "\n" + l7 + "\n"
  {
    var lines := [l1, l2, l3, l4, l5, l6, l7, ""];
    JoinCons(lines[0], lines[1..], LF);
    JoinCons(lines[1], lines[2..], LF);
    JoinCons(lines[2], lines[3..], LF);
    JoinCons(lines[3], lines[4..], LF);
    JoinCons(lines[4], lines[5..], LF);
    JoinCons(lines[5], lines[6..], LF);
    JoinCons(lines[6], lines[7..], LF);
    assert l1 + "\n" + l2 + "\n" + l3 + "\n" + l4 + "\n" + l5 + "\n" + l6 + "\n" + l7 + "\n" == l1 + [LF] + (l2 + [LF] + (l3 + [LF] + (l4 + [LF] + (l5 + [LF] + (l6 + [LF] + (l7 + [LF] + ""))))));
  }

  lemma ReadmeUnbroken(l1: string, l2: string, l3: string, l4: string, l5: string, l6: string, l7: string)
    requires l1 == ReadmeLine1 && l2 == ReadmeLine2 && l3 == ReadmeLine3 && l4 == ReadmeLine4 && l5 == ReadmeLine5 && l6 == ReadmeLine6 && l7 == ReadmeLine7
    ensures LF !in l1 && l1[|l1| - 1] != CR
    ensures LF !in l2 && l2[|l2| - 1] != CR
    ensures LF !in l3 && l3[|l3| - 1] != CR
    ensures LF !in l4 && l4[|l4| - 1] != CR
    ensures LF !in l5 && l5[|l5| - 1] != CR
    ensures LF !in l6 && l6[|l6| - 1] != CR
    ensures LF !in l7 && l7[|l7| - 1] != CR
  {
    ReadmeWords2(l2, ["/**/*.js", "@team-global"]);
    WordsLineUnbroken(l2, ["/**/*.js", "@team-global"]);
    ReadmeWords3(l3, ["/src/*", "@team-a", "@user1"]);
    WordsLineUnbroken(l3, ["/src/*", "@team-a", "@user1"]);
    ReadmeWords4(l4, ["/src/utils/*", "@team-c", "@user2", "@user3"]);
    WordsLineUnbroken(l4, ["/src/utils/*", "@team-c", "@user2", "@user3"]);
    ReadmeWords5(l5, ["/docs/*", "@team-b", "@user1"]);
    WordsLineUnbroken(l5, ["/docs/*", "@team-b", "@user1"]);
    ReadmeWords6(l6, ["/tests/unit/*", "@team-a", "@user2"]);
    WordsLineUnbroken(l6, ["/tests/unit/*", "@team-a", "@user2"]);
    ReadmeWords7(l7, ["/package.json", "@team-maintainers", "@user3"]);
    WordsLineUnbroken(l7, ["/package.json", "@team-maintainers", "@user3"]);
  }

  lemma ReadmeLines(l1: string, l2: string, l3: string, l4: string, l5: string, l6: string, l7: string)
    requires l1 == ReadmeLine1 && l2 == ReadmeLine2 && l3 == ReadmeLine3 && l4 == ReadmeLine4 && l5 == ReadmeLine5 && l6 == ReadmeLine6 && l7 == ReadmeLine7
    ensures SplitLines(l1 + "\n" + l2 + "\n" + l3 + "\n" + l4 + "\n" + l5 + "\n" + l6 + "\n" + l7 + "\n") == [l1, l2, l3, l4, l5, l6, l7, ""]
  {
    var lines := [l1, l2, l3, l4, l5, l6, l7, ""];
    ReadmeJoined(l1, l2, l3, l4, l5, l6, l7);
    ReadmeUnbroken(l1, l2, l3, l4, l5, l6, l7);
    forall k | 0 <= k < |lines| ensures LF !in lines[k] && (lines[k] == [] || lines[k][|lines[k]| - 1] != CR) {
      assert k == 0 || k == 1 || k == 2 || k == 3 || k == 4 || k == 5 || k == 6 || k == 7;
    }
    SplitLinesJoin(lines);
  }

  /** A line of words adds the rule whose pattern is its first word and whose owners are the others. */
  lemma RuleStep(lines: seq<string>, line: string, ws: seq<string>, before: Scan, rule: Rule)
    requires Words(ws) && line == Join(ws, ' ') && !HasTripleAsterisk(ws[0])
    requires ScanLines(lines, []) == before
    requires rule.pattern == ws[0] && Compile(rule.pattern) == Success(rule.regexPattern)
    requires rule.lineNumber == |lines| + 1 && rule.owners == ws[1..]
    ensures ScanLines(lines + [line], []) == Scan(before.rules + [rule], before.reports)
  {
    KeepStep(lines, line, ws, [], before);
  }

  /** The words of the rule lines. */
  lemma ReadmeWord1(x: string)
    requires x == "/**/*.js"
    ensures Word(x) && !HasTripleAsterisk(x)
  {
  }

  lemma ReadmeWord2(x: string)
    requires x == "@team-global"
    ensures Word(x) && !HasTripleAsterisk(x)
  {
  }

  lemma ReadmeWord3(x: string)
    requires x == "/src/*"
    ensures Word(x) && !HasTripleAsterisk(x)
  {
  }

  lemma ReadmeWord4(x: string)
    requires x == "@team-a"
    ensures Word(x) && !HasTripleAsterisk(x)
  {
  }

  lemma ReadmeWord5(x: string)
    requires x == "@user1"
    ensures Word(x) && !HasTripleAsterisk(x)
  {
  }

  lemma ReadmeWord6(x: string)
    requires x == "/src/utils/*"
    ensures Word(x) && !HasTripleAsterisk(x)
  {
  }

  lemma ReadmeWord7(x: string)
    requires x == "@team-c"
    ensures Word(x) && !HasTripleAsterisk(x)
  {
  }

  lemma ReadmeWord8(x: string)
    requires x == "@user2"
    ensures Word(x) && !HasTripleAsterisk(x)
  {
  }

  lemma ReadmeWord9(x: string)
    requires x == "@user3"
    ensures Word(x) && !HasTripleAsterisk(x)
  {
  }

  lemma ReadmeWord10(x: string)
    requires x == "/docs/*"
    ensures Word(x) && !HasTripleAsterisk(x)
  {
  }

  lemma ReadmeWord11(x: string)
    requires x == "@team-b"
    ensures Word(x) && !HasTripleAsterisk(x)
  {
  }

  lemma ReadmeWord12(x: string)
    requires x == "/tests/unit/*"
    ensures Word(x) && !HasTripleAsterisk(x)
  {
  }

  lemma ReadmeWord13(x: string)
    requires x == "/package.json"
    ensures Word(x) && !HasTripleAsterisk(x)
  {
  }

  lemma ReadmeWord14(x: string)
    requires x == "@team-maintainers"
    ensures Word(x) && !HasTripleAsterisk(x)
  {
  }

  lemma ReadmeWords2(line: string, ws: seq<string>)
    requires line == ReadmeLine2 && ws == ["/**/*.js", "@team-global"]
    ensures Words(ws) && line == Join(ws, ' ') && !HasTripleAsterisk(ws[0])
  {
    ReadmeWord1(ws[0]);
    ReadmeWord2(ws[1]);
    JoinCons(ws[0], ws[1..], ' ');
    assert ws[1..] == [ws[1]];
  }

  /** Line 2 adds `AllJsRule`. */
  lemma ReadmeRuleLine2(lines: seq<string>, line: string, before: Scan)
    requires |lines| == 1 && line == ReadmeLine2 && ScanLines(lines, []) == before
    ensures ScanLines(lines + [line], []) == Scan(before.rules + [AllJsRule], before.reports)
  {
    var ws := ["/**/*.js", "@team-global"];
    ReadmeWords2(line, ws);
    AllJsCompiled();
    RuleStep(lines, line, ws, before, AllJsRule);
  }

  lemma ReadmeWords3(line: string, ws: seq<string>)
    requires line == ReadmeLine3 && ws == ["/src/*", "@team-a", "@user1"]
    ensures Words(ws) && line == Join(ws, ' ') && !HasTripleAsterisk(ws[0])
  {
    ReadmeWord3(ws[0]);
    ReadmeWord4(ws[1]);
    ReadmeWord5(ws[2]);
    JoinCons(ws[1], ws[2..], ' ');
    JoinCons(ws[0], ws[1..], ' ');
    assert ws[2..] == [ws[2]];
  }

  /** Line 3 adds `SrcRule`. */
  lemma ReadmeRuleLine3(lines: seq<string>, line: string, before: Scan)
    requires |lines| == 2 && line == ReadmeLine3 && ScanLines(lines, []) == before
    ensures ScanLines(lines + [line], []) == Scan(before.rules + [SrcRule], before.reports)
  {
    var ws := ["/src/*", "@team-a", "@user1"];
    ReadmeWords3(line, ws);
    SrcCompiled();
    RuleStep(lines, line, ws, before, SrcRule);
  }

  lemma ReadmeWords4(line: string, ws: seq<string>)
    requires line == ReadmeLine4 && ws == ["/src/utils/*", "@team-c", "@user2", "@user3"]
    ensures Words(ws) && line == Join(ws, ' ') && !HasTripleAsterisk(ws[0])
  {
    ReadmeWord6(ws[0]);
    ReadmeWord7(ws[1]);
    ReadmeWord8(ws[2]);
    ReadmeWord9(ws[3]);
    JoinCons(ws[2], ws[3..], ' ');
    JoinCons(ws[1], ws[2..], ' ');
    JoinCons(ws[0], ws[1..], ' ');
    assert ws[3..] == [ws[3]];
  }

  /** Line 4 adds `SrcUtilsRule`. */
  lemma ReadmeRuleLine4(lines: seq<string>, line: string, before: Scan)
    requires |lines| == 3 && line == ReadmeLine4 && ScanLines(lines, []) == before
    ensures ScanLines(lines + [line], []) == Scan(before.rules + [SrcUtilsRule], before.reports)
  {
    var ws := ["/src/utils/*", "@team-c", "@user2", "@user3"];
    ReadmeWords4(line, ws);
    SrcUtilsCompiled();
    RuleStep(lines, line, ws, before, SrcUtilsRule);
  }

  lemma ReadmeWords5(line: string, ws: seq<string>)
    requires line == ReadmeLine5 && ws == ["/docs/*", "@team-b", "@user1"]
    ensures Words(ws) && line == Join(ws, ' ') && !HasTripleAsterisk(ws[0])
  {
    ReadmeWord10(ws[0]);
    ReadmeWord11(ws[1]);
    ReadmeWord5(ws[2]);
    JoinCons(ws[1], ws[2..], ' ');
    JoinCons(ws[0], ws[1..], ' ');
    assert ws[2..] == [ws[2]];
  }

  /** Line 5 adds `DocsRule`. */
  lemma ReadmeRuleLine5(lines: seq<string>, line: string, before: Scan)
    requires |lines| == 4 && line == ReadmeLine5 && ScanLines(lines, []) == before
    ensures ScanLines(lines + [line], []) == Scan(before.rules + [DocsRule], before.reports)
  {
    var ws := ["/docs/*", "@team-b", "@user1"];
    ReadmeWords5(line, ws);
    DocsCompiled();
    RuleStep(lines, line, ws, before, DocsRule);
  }

  lemma ReadmeWords6(line: string, ws: seq<string>)
    requires line == ReadmeLine6 && ws == ["/tests/unit/*", "@team-a", "@user2"]
    ensures Words(ws) && line == Join(ws, ' ') && !HasTripleAsterisk(ws[0])
  {
    ReadmeWord12(ws[0]);
    ReadmeWord4(ws[1]);
    ReadmeWord8(ws[2]);
    JoinCons(ws[1], ws[2..], ' ');
    JoinCons(ws[0], ws[1..], ' ');
    assert ws[2..] == [ws[2]];
  }

  /** Line 6 adds `TestsUnitRule`. */
  lemma ReadmeRuleLine6(lines: seq<string>, line: string, before: Scan)
    requires |lines| == 5 && line == ReadmeLine6 && ScanLines(lines, []) == before
    ensures ScanLines(lines + [line], []) == Scan(before.rules + [TestsUnitRule], before.reports)
  {
    var ws := ["/tests/unit/*", "@team-a", "@user2"];
    ReadmeWords6(line, ws);
    TestsUnitCompiled();
    RuleStep(lines, line, ws, before, TestsUnitRule);
  }

  lemma ReadmeWords7(line: string, ws: seq<string>)
    requires line == ReadmeLine7 && ws == ["/package.json", "@team-maintainers", "@user3"]
    ensures Words(ws) && line == Join(ws, ' ') && !HasTripleAsterisk(ws[0])
  {
    ReadmeWord13(ws[0]);
    ReadmeWord14(ws[1]);
    ReadmeWord9(ws[2]);
    JoinCons(ws[1], ws[2..], ' ');
    JoinCons(ws[0], ws[1..], ' ');
    assert ws[2..] == [ws[2]];
  }

  /** Line 7 adds `PackageRule`. */
  lemma ReadmeRuleLine7(lines: seq<string>, line: string, before: Scan)
    requires |lines| == 6 && line == ReadmeLine7 && ScanLines(lines, []) == before
    ensures ScanLines(lines + [line], []) == Scan(before.rules + [PackageRule], before.reports)
  {
    var ws := ["/package.json", "@team-maintainers", "@user3"];
    ReadmeWords7(line, ws);
    PackageCompiled();
    RuleStep(lines, line, ws, before, PackageRule);
  }

  lemma ReadmeScan1(l1: string)
    requires l1 == ReadmeLine1
    ensures ScanLines([l1], []) == Scan([], [])
  {
    CommentLine(l1, 1, []);
    SkipStep([], l1, [], Scan([], []));
    assert [] + [l1] == [l1];
  }

  lemma ReadmeScan2(l1: string, l2: string)
    requires l1 == ReadmeLine1 && l2 == ReadmeLine2
    ensures ScanLines([l1, l2], []) == Scan([AllJsRule], [])
  {
    ReadmeScan1(l1);
    ReadmeRuleLine2([l1], l2, Scan([], []));
    assert [l1] + [l2] == [l1, l2];
  }

  lemma ReadmeScan3(l1: string, l2: string, l3: string)
    requires l1 == ReadmeLine1 && l2 == ReadmeLine2 && l3 == ReadmeLine3
    ensures ScanLines([l1, l2, l3], []) == Scan([AllJsRule, SrcRule], [])
  {
    ReadmeScan2(l1, l2);
    ReadmeRuleLine3([l1, l2], l3, Scan([AllJsRule], []));
    assert [AllJsRule] + [SrcRule] == [AllJsRule, SrcRule];
    assert [l1, l2] + [l3] == [l1, l2, l3];
  }

  lemma ReadmeScan4(l1: string, l2: string, l3: string, l4: string)
    requires l1 == ReadmeLine1 && l2 == ReadmeLine2 && l3 == ReadmeLine3 && l4 == ReadmeLine4
    ensures ScanLines([l1, l2, l3, l4], []) == Scan([AllJsRule, SrcRule, SrcUtilsRule], [])
  {
    ReadmeScan3(l1, l2, l3);
    ReadmeRuleLine4([l1, l2, l3], l4, Scan([AllJsRule, SrcRule], []));
    assert [AllJsRule, SrcRule] + [SrcUtilsRule] == [AllJsRule, SrcRule, SrcUtilsRule];
    assert [l1, l2, l3] + [l4] == [l1, l2, l3, l4];
  }

  lemma ReadmeScan5(l1: string, l2: string, l3: string, l4: string, l5: string)
    requires l1 == ReadmeLine1 && l2 == ReadmeLine2 && l3 == ReadmeLine3 && l4 == ReadmeLine4 && l5 == ReadmeLine5
    ensures ScanLines([l1, l2, l3, l4, l5], []) == Scan([AllJsRule, SrcRule, SrcUtilsRule, DocsRule], [])
  {
    ReadmeScan4(l1, l2, l3, l4);
    ReadmeRuleLine5([l1, l2, l3, l4], l5, Scan([AllJsRule, SrcRule, SrcUtilsRule], []));
    assert [AllJsRule, SrcRule, SrcUtilsRule] + [DocsRule] == [AllJsRule, SrcRule, SrcUtilsRule, DocsRule];
    assert [l1, l2, l3, l4] + [l5] == [l1, l2, l3, l4, l5];
  }

  lemma ReadmeScan6(l1: string, l2: string, l3: string, l4: string, l5: string, l6: string)
    requires l1 == ReadmeLine1 && l2 == ReadmeLine2 && l3 == ReadmeLine3 && l4 == ReadmeLine4 && l5 == ReadmeLine5 && l6 == ReadmeLine6
    ensures ScanLines([l1, l2, l3, l4, l5, l6], []) == Scan([AllJsRule, SrcRule, SrcUtilsRule, DocsRule, TestsUnitRule], [])
  {
    ReadmeScan5(l1, l2, l3, l4, l5);
    ReadmeRuleLine6([l1, l2, l3, l4, l5], l6, Scan([AllJsRule, SrcRule, SrcUtilsRule, DocsRule], []));
    assert [AllJsRule, SrcRule, SrcUtilsRule, DocsRule] + [TestsUnitRule] == [AllJsRule, SrcRule, SrcUtilsRule, DocsRule, TestsUnitRule];
    assert [l1, l2, l3, l4, l5] + [l6] == [l1, l2, l3, l4, l5, l6];
  }

  lemma ReadmeScan7(l1: string, l2: string, l3: string, l4: string, l5: string, l6: string, l7: string)
    requires l1 == ReadmeLine1 && l2 == ReadmeLine2 && l3 == ReadmeLine3 && l4 == ReadmeLine4 && l5 == ReadmeLine5 && l6 == ReadmeLine6 && l7 == ReadmeLine7
    ensures ScanLines([l1, l2, l3, l4, l5, l6, l7], []) == Scan([AllJsRule, SrcRule, SrcUtilsRule, DocsRule, TestsUnitRule, PackageRule], [])
  {
    ReadmeScan6(l1, l2, l3, l4, l5, l6);
    ReadmeRuleLine7([l1, l2, l3, l4, l5, l6], l7, Scan([AllJsRule, SrcRule, SrcUtilsRule, DocsRule, TestsUnitRule], []));
    assert [AllJsRule, SrcRule, SrcUtilsRule, DocsRule, TestsUnitRule] + [PackageRule] == [AllJsRule, SrcRule, SrcUtilsRule, DocsRule, TestsUnitRule, PackageRule];
    assert [l1, l2, l3, l4, l5, l6] + [l7] == [l1, l2, l3, l4, l5, l6, l7];
  }

  lemma ReadmeScan8(l1: string, l2: string, l3: string, l4: string, l5: string, l6: string, l7: string, l8: string)
    requires l1 == ReadmeLine1 && l2 == ReadmeLine2 && l3 == ReadmeLine3 && l4 == ReadmeLine4 && l5 == ReadmeLine5 && l6 == ReadmeLine6 && l7 == ReadmeLine7 && l8 == ""
    ensures ScanLines([l1, l2, l3, l4, l5, l6, l7, l8], []) == Scan([AllJsRule, SrcRule, SrcUtilsRule, DocsRule, TestsUnitRule, PackageRule], [])
  {
    ReadmeScan7(l1, l2, l3, l4, l5, l6, l7);
    BlankLine(8, []);
    SkipStep([l1, l2, l3, l4, l5, l6, l7], l8, [], Scan([AllJsRule, SrcRule, SrcUtilsRule, DocsRule, TestsUnitRule, PackageRule], []));
    assert [l1, l2, l3, l4, l5, l6, l7] + [l8] == [l1, l2, l3, l4, l5, l6, l7, l8];
  }

  /**
   * The comment and the closing blank line are skipped; the six rules come
   * out last line first, each with its compiled expression, and nothing is
   * reported.
   */
  lemma ShouldParseTheReadmeExample()
    ensures FileRules(ReadmeInput, []) == ReadmeRules
    ensures FileReports(ReadmeInput, []) == []
  {
    ReadmeLines(ReadmeLine1, ReadmeLine2, ReadmeLine3, ReadmeLine4, ReadmeLine5, ReadmeLine6, ReadmeLine7);
    ReadmeScan8(ReadmeLine1, ReadmeLine2, ReadmeLine3, ReadmeLine4, ReadmeLine5, ReadmeLine6, ReadmeLine7, "");
    var scanned := [AllJsRule, SrcRule, SrcUtilsRule, DocsRule, TestsUnitRule, PackageRule];
    ReverseSix(scanned, AllJsRule, SrcRule, SrcUtilsRule, DocsRule, TestsUnitRule, PackageRule);
  }

  lemma ReverseSix<T>(s: seq<T>, x1: T, x2: T, x3: T, x4: T, x5: T, x6: T)
    requires s == [x1, x2, x3, x4, x5, x6]
    ensures Reverse(s) == [x6, x5, x4, x3, x2, x1]
  {
  }

  // ---------------------------------------------------------------------------
  // "should parse the README example" (__tests__/filename-match.test.ts:80-149)

  const ReadmePaths: seq<string> := [Path1, Path2, Path3, Path4, Path5, Path6]

  /** The first rule that covers `path` is rule `k` when rule `k` covers it and no rule before it does. */
  lemma FirstMatchIs(rules: seq<Rule>, path: string, k: nat)
    requires k < |rules| && FilenameMatch(rules[k], path)
    requires forall i :: 0 <= i < k ==> !FilenameMatch(rules[i], path)
    ensures FirstMatch(rules, path) == Some(k)
  {
  }

  // `src/file.js`: won by `/src/*`.
  lemma Path1Verdicts()
    ensures !FilenameMatch(PackageRule, Path1)
    ensures !FilenameMatch(TestsUnitRule, Path1)
    ensures !FilenameMatch(DocsRule, Path1)
    ensures !FilenameMatch(SrcUtilsRule, Path1)
    ensures FilenameMatch(SrcRule, Path1)
  {
    PackageCompiled();
    FilenameMatchCompiled(PackageRule, Path1);
    PackageOnPath1(Path1);
    TestsUnitCompiled();
    FilenameMatchCompiled(TestsUnitRule, Path1);
    TestsUnitOnPath1(Path1);
    DocsCompiled();
    FilenameMatchCompiled(DocsRule, Path1);
    DocsOnPath1(Path1);
    SrcUtilsCompiled();
    FilenameMatchCompiled(SrcUtilsRule, Path1);
    SrcUtilsOnPath1(Path1);
    SrcCompiled();
    FilenameMatchCompiled(SrcRule, Path1);
    SrcOnPath1(Path1);
  }

  lemma Path1Winner(rules: seq<Rule>, s: string)
    requires rules == ReadmeRules && s == Path1
    ensures FirstMatch(rules, s) == Some(4)
  {
    Path1Verdicts();
    assert rules[0] == PackageRule && rules[1] == TestsUnitRule && rules[2] == DocsRule && rules[3] == SrcUtilsRule && rules[4] == SrcRule;
    forall i | 0 <= i < 4 ensures !FilenameMatch(rules[i], s) {
      assert i == 0 || i == 1 || i == 2 || i == 3;
    }
    FirstMatchIs(rules, s, 4);
  }

  // `src/utils/helper.js`: won by `/src/utils/*`.
  lemma Path2Verdicts()
    ensures !FilenameMatch(PackageRule, Path2)
    ensures !FilenameMatch(TestsUnitRule, Path2)
    ensures !FilenameMatch(DocsRule, Path2)
    ensures FilenameMatch(SrcUtilsRule, Path2)
  {
    PackageCompiled();
    FilenameMatchCompiled(PackageRule, Path2);
    PackageOnPath2(Path2);
    TestsUnitCompiled();
    FilenameMatchCompiled(TestsUnitRule, Path2);
    TestsUnitOnPath2(Path2);
    DocsCompiled();
    FilenameMatchCompiled(DocsRule, Path2);
    DocsOnPath2(Path2);
    SrcUtilsCompiled();
    FilenameMatchCompiled(SrcUtilsRule, Path2);
    SrcUtilsOnPath2(Path2);
  }

  lemma Path2Winner(rules: seq<Rule>, s: string)
    requires rules == ReadmeRules && s == Path2
    ensures FirstMatch(rules, s) == Some(3)
  {
    Path2Verdicts();
    assert rules[0] == PackageRule && rules[1] == TestsUnitRule && rules[2] == DocsRule && rules[3] == SrcUtilsRule;
    forall i | 0 <= i < 3 ensures !FilenameMatch(rules[i], s) {
      assert i == 0 || i == 1 || i == 2;
    }
    FirstMatchIs(rules, s, 3);
  }

  // `docs/guide.md`: won by `/docs/*`.
  lemma Path3Verdicts()
    ensures !FilenameMatch(PackageRule, Path3)
    ensures !FilenameMatch(TestsUnitRule, Path3)
    ensures FilenameMatch(DocsRule, Path3)
  {
    PackageCompiled();
    FilenameMatchCompiled(PackageRule, Path3);
    PackageOnPath3(Path3);
    TestsUnitCompiled();
    FilenameMatchCompiled(TestsUnitRule, Path3);
    TestsUnitOnPath3(Path3);
    DocsCompiled();
    FilenameMatchCompiled(DocsRule, Path3);
    DocsOnPath3(Path3);
  }

  lemma Path3Winner(rules: seq<Rule>, s: string)
    requires rules == ReadmeRules && s == Path3
    ensures FirstMatch(rules, s) == Some(2)
  {
    Path3Verdicts();
    assert rules[0] == PackageRule && rules[1] == TestsUnitRule && rules[2] == DocsRule;
    forall i | 0 <= i < 2 ensures !FilenameMatch(rules[i], s) {
      assert i == 0 || i == 1;
    }
    FirstMatchIs(rules, s, 2);
  }

  // `docs/setup/config.md`: covered by no rule.
  lemma Path4Verdicts()
    ensures !FilenameMatch(PackageRule, Path4)
    ensures !FilenameMatch(TestsUnitRule, Path4)
    ensures !FilenameMatch(DocsRule, Path4)
    ensures !FilenameMatch(SrcUtilsRule, Path4)
    ensures !FilenameMatch(SrcRule, Path4)
    ensures !FilenameMatch(AllJsRule, Path4)
  {
    PackageCompiled();
    FilenameMatchCompiled(PackageRule, Path4);
    PackageOnPath4(Path4);
    TestsUnitCompiled();
    FilenameMatchCompiled(TestsUnitRule, Path4);
    TestsUnitOnPath4(Path4);
    DocsCompiled();
    FilenameMatchCompiled(DocsRule, Path4);
    DocsOnPath4(Path4);
    SrcUtilsCompiled();
    FilenameMatchCompiled(SrcUtilsRule, Path4);
    SrcUtilsOnPath4(Path4);
    SrcCompiled();
    FilenameMatchCompiled(SrcRule, Path4);
    SrcOnPath4(Path4);
    AllJsCompiled();
    FilenameMatchCompiled(AllJsRule, Path4);
    AllJsOnPath4(Path4);
  }

  lemma Path4Uncovered(rules: seq<Rule>, s: string)
    requires rules == ReadmeRules && s == Path4
    ensures forall k :: 0 <= k < |rules| ==> !FilenameMatch(rules[k], s)
  {
    Path4Verdicts();
    assert rules[0] == PackageRule && rules[1] == TestsUnitRule && rules[2] == DocsRule && rules[3] == SrcUtilsRule && rules[4] == SrcRule && rules[5] == AllJsRule;
    forall i | 0 <= i < |rules| ensures !FilenameMatch(rules[i], s) {
      assert i == 0 || i == 1 || i == 2 || i == 3 || i == 4 || i == 5;
    }
  }

  // `tests/unit/test.spec.js`: won by `/tests/unit/*`.
  lemma Path5Verdicts()
    ensures !FilenameMatch(PackageRule, Path5)
    ensures FilenameMatch(TestsUnitRule, Path5)
  {
    PackageCompiled();
    FilenameMatchCompiled(PackageRule, Path5);
    PackageOnPath5(Path5);
    TestsUnitCompiled();
    FilenameMatchCompiled(TestsUnitRule, Path5);
    TestsUnitOnPath5(Path5);
  }

  lemma Path5Winner(rules: seq<Rule>, s: string)
    requires rules == ReadmeRules && s == Path5
    ensures FirstMatch(rules, s) == Some(1)
  {
    Path5Verdicts();
    assert rules[0] == PackageRule && rules[1] == TestsUnitRule;
    forall i | 0 <= i < 1 ensures !FilenameMatch(rules[i], s) {
      assert i == 0;
    }
    FirstMatchIs(rules, s, 1);
  }

  // `package.json`: won by `/package.json`.
  lemma Path6Verdicts()
    ensures FilenameMatch(PackageRule, Path6)
  {
    PackageCompiled();
    FilenameMatchCompiled(PackageRule, Path6);
    PackageOnPath6(Path6);
  }

  lemma Path6Winner(rules: seq<Rule>, s: string)
    requires rules == ReadmeRules && s == Path6
    ensures FirstMatch(rules, s) == Some(0)
  {
    Path6Verdicts();
    assert rules[0] == PackageRule;
    FirstMatchIs(rules, s, 0);
  }

  // The owners: seven different owners, as the resolution below names them.
  predicate SevenOwners(a: string, b: string, c: string, d: string, e: string, f: string, g: string) {
    a != b && a != c && a != d && a != e && a != f && a != g &&
    b != c && b != d && b != e && b != f && b != g &&
    c != d && c != e && c != f && c != g &&
    d != e && d != f && d != g &&
    e != f && e != g &&
    f != g
  }

  /** Two new owners are appended in order. */
  lemma AddTwoNew(s: seq<string>, x: string, y: string)
    requires x !in s && y !in s && x != y
    ensures AddAll(s, [x, y]) == s + [x, y]
  {
    var sx := s + [x];
    assert y !in sx;
    assert FirstSeen(sx, [y]) == [y] by {
      assert [y][1..] == [];
    }
    assert FirstSeen(s, [x, y]) == [x, y] by {
      assert [x, y][1..] == [y];
    }
  }

  /** Three new owners are appended in order. */
  lemma AddThreeNew(s: seq<string>, x: string, y: string, z: string)
    requires x !in s && y !in s && z !in s && x != y && x != z && y != z
    ensures AddAll(s, [x, y, z]) == s + [x, y, z]
  {
    var sx := s + [x];
    assert y !in sx && z !in sx;
    FirstSeenTwoNew(sx, y, z);
    assert FirstSeen(s, [x, y, z]) == [x, y, z] by {
      assert [x, y, z][1..] == [y, z];
    }
  }

  lemma FirstSeenTwoNew(s: seq<string>, y: string, z: string)
    requires y !in s && z !in s && y != z
    ensures FirstSeen(s, [y, z]) == [y, z]
  {
    var sy := s + [y];
    assert z !in sy;
    assert FirstSeen(sy, [z]) == [z] by {
      assert [z][1..] == [];
    }
    assert [y, z][1..] == [z];
  }

  /** A new owner and a known one: only the new one is appended. */
  lemma AddNewAndKnown(s: seq<string>, x: string, y: string)
    requires x !in s && y in s
    ensures AddAll(s, [x, y]) == s + [x]
  {
    var r := AddAll(s, [x, y]);
    assert [x, y][1..] == [y] && [y][1..] == [];
    assert y in s + [x];
    assert FirstSeen(s + [x], [y]) == FirstSeen(s + [x], []);
    assert FirstSeen(s, [x, y]) == [x] + FirstSeen(s + [x], [y]);
  }

  /** Two known owners change nothing. */
  lemma AddTwoKnown(s: seq<string>, x: string, y: string)
    requires x in s && y in s
    ensures AddAll(s, [x, y]) == s
  {
    var r := AddAll(s, [x, y]);
    assert [x, y][1..] == [y] && [y][1..] == [];
    assert FirstSeen(s, [y]) == FirstSeen(s, []);
    assert FirstSeen(s, [x, y]) == FirstSeen(s, [y]);
  }

  /** A path whose first covering rule is `j` adds that rule's sorted owners. */
  lemma CoveredStep(paths: seq<string>, path: string, rules: seq<Rule>, j: nat, before: Owners, g: seq<string>)
    requires Resolve(paths, rules) == before && FirstMatch(rules, path) == Some(j) && SortOwners(rules[j].owners) == g
    ensures Resolve(paths + [path], rules) == Owners(AddAll(before.individual, g), AddOne(before.grouped, g))
  {
    ResolveCovered(paths + [path], rules, j);
    assert (paths + [path])[..|paths|] == paths;
  }

  /** A path won by a rule with two owners, both new, and a new group. */
  lemma StepTwoNew(paths: seq<string>, path: string, rules: seq<Rule>, j: nat, x: string, y: string,
                   ind: seq<string>, grp: seq<seq<string>>, ind': seq<string>, grp': seq<seq<string>>)
    requires Resolve(paths, rules) == Owners(ind, grp) && FirstMatch(rules, path) == Some(j)
    requires SortOwners(rules[j].owners) == [x, y]
    requires x !in ind && y !in ind && x != y && [x, y] !in grp
    requires ind' == ind + [x, y] && grp' == grp + [[x, y]]
    ensures Resolve(paths + [path], rules) == Owners(ind', grp')
  {
    CoveredStep(paths, path, rules, j, Owners(ind, grp), [x, y]);
    AddTwoNew(ind, x, y);
  }

  /** A path won by a rule with three owners, all new, and a new group. */
  lemma StepThreeNew(paths: seq<string>, path: string, rules: seq<Rule>, j: nat, x: string, y: string, z: string,
                     ind: seq<string>, grp: seq<seq<string>>, ind': seq<string>, grp': seq<seq<string>>)
    requires Resolve(paths, rules) == Owners(ind, grp) && FirstMatch(rules, path) == Some(j)
    requires SortOwners(rules[j].owners) == [x, y, z]
    requires x !in ind && y !in ind && z !in ind && x != y && x != z && y != z && [x, y, z] !in grp
    requires ind' == ind + [x, y, z] && grp' == grp + [[x, y, z]]
    ensures Resolve(paths + [path], rules) == Owners(ind', grp')
  {
    CoveredStep(paths, path, rules, j, Owners(ind, grp), [x, y, z]);
    AddThreeNew(ind, x, y, z);
  }

  /** A path won by a rule with a new owner and a known one, and a new group. */
  lemma StepNewAndKnown(paths: seq<string>, path: string, rules: seq<Rule>, j: nat, x: string, y: string,
                        ind: seq<string>, grp: seq<seq<string>>, ind': seq<string>, grp': seq<seq<string>>)
    requires Resolve(paths, rules) == Owners(ind, grp) && FirstMatch(rules, path) == Some(j)
    requires SortOwners(rules[j].owners) == [x, y]
    requires x !in ind && y in ind && [x, y] !in grp
    requires ind' == ind + [x] && grp' == grp + [[x, y]]
    ensures Resolve(paths + [path], rules) == Owners(ind', grp')
  {
    CoveredStep(paths, path, rules, j, Owners(ind, grp), [x, y]);
    AddNewAndKnown(ind, x, y);
  }

  /** A path won by a rule whose two owners are known: only the group is new. */
  lemma StepTwoKnown(paths: seq<string>, path: string, rules: seq<Rule>, j: nat, x: string, y: string,
                     ind: seq<string>, grp: seq<seq<string>>, grp': seq<seq<string>>)
    requires Resolve(paths, rules) == Owners(ind, grp) && FirstMatch(rules, path) == Some(j)
    requires SortOwners(rules[j].owners) == [x, y]
    requires x in ind && y in ind && [x, y] !in grp
    requires grp' == grp + [[x, y]]
    ensures Resolve(paths + [path], rules) == Owners(ind, grp')
  {
    CoveredStep(paths, path, rules, j, Owners(ind, grp), [x, y]);
    AddTwoKnown(ind, x, y);
  }

  /** The sorted owners of the rules that win a path. */
  predicate ReadmeGroups(rules: seq<Rule>, a: string, b: string, c: string, d: string, e: string, f: string, g: string) {
    |rules| == 6 &&
    SortOwners(rules[4].owners) == [a, b] && SortOwners(rules[3].owners) == [c, d, e] &&
    SortOwners(rules[2].owners) == [f, b] && SortOwners(rules[1].owners) == [a, d] &&
    SortOwners(rules[0].owners) == [g, e]
  }

  /** The owner lists after each path, one appended piece at a time. */
  lemma ReadmeLists(a: string, b: string, c: string, d: string, e: string, f: string, g: string)
    requires SevenOwners(a, b, c, d, e, f, g)
    ensures a !in [] && b !in [] && [a, b] !in [] && [a, b] == [] + [a, b] && [[a, b]] == [] + [[a, b]]
    ensures c !in [a, b] && d !in [a, b] && e !in [a, b] && [c, d, e] !in [[a, b]]
    ensures [a, b, c, d, e] == [a, b] + [c, d, e] && [[a, b], [c, d, e]] == [[a, b]] + [[c, d, e]]
    ensures f !in [a, b, c, d, e] && b in [a, b, c, d, e] && [f, b] !in [[a, b], [c, d, e]]
    ensures [a, b, c, d, e, f] == [a, b, c, d, e] + [f]
    ensures [[a, b], [c, d, e], [f, b]] == [[a, b], [c, d, e]] + [[f, b]]
    ensures a in [a, b, c, d, e, f] && d in [a, b, c, d, e, f] && [a, d] !in [[a, b], [c, d, e], [f, b]]
    ensures [[a, b], [c, d, e], [f, b], [a, d]] == [[a, b], [c, d, e], [f, b]] + [[a, d]]
    ensures g !in [a, b, c, d, e, f] && e in [a, b, c, d, e, f] && [g, e] !in [[a, b], [c, d, e], [f, b], [a, d]]
    ensures [a, b, c, d, e, f, g] == [a, b, c, d, e, f] + [g]
    ensures [[a, b], [c, d, e], [f, b], [a, d], [g, e]] == [[a, b], [c, d, e], [f, b], [a, d]] + [[g, e]]
  {
    ReadmeListsFirst(a, b, c, d, e, f, g);
    ReadmeListsThird(a, b, c, d, e, f, g);
    ReadmeListsFourth(a, b, c, d, e, f, g);
    ReadmeListsFifth(a, b, c, d, e, f, g);
  }

  lemma ReadmeListsFirst(a: string, b: string, c: string, d: string, e: string, f: string, g: string)
    requires SevenOwners(a, b, c, d, e, f, g)
    ensures a !in [] && b !in [] && [a, b] !in [] && [a, b] == [] + [a, b] && [[a, b]] == [] + [[a, b]]
    ensures c !in [a, b] && d !in [a, b] && e !in [a, b] && [c, d, e] !in [[a, b]]
    ensures [a, b, c, d, e] == [a, b] + [c, d, e] && [[a, b], [c, d, e]] == [[a, b]] + [[c, d, e]]
  {
    assert [c, d, e] != [a, b] by { assert |[c, d, e]| != |[a, b]|; }
  }

  lemma ReadmeListsThird(a: string, b: string, c: string, d: string, e: string, f: string, g: string)
    requires SevenOwners(a, b, c, d, e, f, g)
    ensures f !in [a, b, c, d, e] && b in [a, b, c, d, e] && [f, b] !in [[a, b], [c, d, e]]
    ensures [a, b, c, d, e, f] == [a, b, c, d, e] + [f]
    ensures [[a, b], [c, d, e], [f, b]] == [[a, b], [c, d, e]] + [[f, b]]
  {
    assert [f, b] != [a, b] by { assert [f, b][0] != [a, b][0]; }
    assert [f, b] != [c, d, e] by { assert |[f, b]| != |[c, d, e]|; }
  }

  lemma ReadmeListsFourth(a: string, b: string, c: string, d: string, e: string, f: string, g: string)
    requires SevenOwners(a, b, c, d, e, f, g)
    ensures a in [a, b, c, d, e, f] && d in [a, b, c, d, e, f] && [a, d] !in [[a, b], [c, d, e], [f, b]]
    ensures [[a, b], [c, d, e], [f, b], [a, d]] == [[a, b], [c, d, e], [f, b]] + [[a, d]]
  {
    assert [a, d] !in [[a, b], [c, d, e], [f, b]] by {
      assert [a, d][1] != [a, b][1] && |[a, d]| != |[c, d, e]| && [a, d][0] != [f, b][0];
    }
  }

  lemma ReadmeListsFifth(a: string, b: string, c: string, d: string, e: string, f: string, g: string)
    requires SevenOwners(a, b, c, d, e, f, g)
    ensures g !in [a, b, c, d, e, f] && e in [a, b, c, d, e, f] && [g, e] !in [[a, b], [c, d, e], [f, b], [a, d]]
    ensures [a, b, c, d, e, f, g] == [a, b, c, d, e, f] + [g]
    ensures [[a, b], [c, d, e], [f, b], [a, d], [g, e]] == [[a, b], [c, d, e], [f, b], [a, d]] + [[g, e]]
  {
    assert [g, e] !in [[a, b], [c, d, e], [f, b], [a, d]] by {
      assert [g, e][0] != [a, b][0] && |[g, e]| != |[c, d, e]| && [g, e][0] != [f, b][0] && [g, e][0] != [a, d][0];
    }
  }

  /** The six paths, one appended at a time. */
  lemma SixPaths(p1: string, p2: string, p3: string, p4: string, p5: string, p6: string)
    ensures [p1] == [] + [p1] && [p1, p2] == [p1] + [p2] && [p1, p2, p3] == [p1, p2] + [p3]
    ensures [p1, p2, p3, p4] == [p1, p2, p3] + [p4] && [p1, p2, p3, p4, p5] == [p1, p2, p3, p4] + [p5]
    ensures [p1, p2, p3, p4, p5, p6] == [p1, p2, p3, p4, p5] + [p6]
  {
  }

  /**
   * The six paths: the first three are won by rules 4, 3 and 2, the fourth
   * is covered by no rule, the fifth is won by rule 1 and adds only its
   * group, the sixth is won by rule 0.
   */
  lemma ReadmeResolve6(p1: string, p2: string, p3: string, p4: string, p5: string, p6: string, rules: seq<Rule>,
                       a: string, b: string, c: string, d: string, e: string, f: string, g: string)
    requires SevenOwners(a, b, c, d, e, f, g) && ReadmeGroups(rules, a, b, c, d, e, f, g)
    requires FirstMatch(rules, p1) == Some(4) && FirstMatch(rules, p2) == Some(3) && FirstMatch(rules, p3) == Some(2)
    requires forall k :: 0 <= k < |rules| ==> !FilenameMatch(rules[k], p4)
    requires FirstMatch(rules, p5) == Some(1) && FirstMatch(rules, p6) == Some(0)
    ensures Resolve([p1, p2, p3, p4, p5, p6], rules) ==
      Owners([a, b, c, d, e, f, g], [[a, b], [c, d, e], [f, b], [a, d], [g, e]])
  {
    ReadmeLists(a, b, c, d, e, f, g);
    SixPaths(p1, p2, p3, p4, p5, p6);
    assert Resolve([], rules) == Owners([], []);
    StepTwoNew([], p1, rules, 4, a, b, [], [], [a, b], [[a, b]]);
    StepThreeNew([p1], p2, rules, 3, c, d, e, [a, b], [[a, b]], [a, b, c, d, e], [[a, b], [c, d, e]]);
    StepNewAndKnown([p1, p2], p3, rules, 2, f, b, [a, b, c, d, e], [[a, b], [c, d, e]],
                    [a, b, c, d, e, f], [[a, b], [c, d, e], [f, b]]);
    ResolveUncovered([p1, p2, p3], rules, p4);
    StepTwoKnown([p1, p2, p3, p4], p5, rules, 1, a, d, [a, b, c, d, e, f], [[a, b], [c, d, e], [f, b]],
                 [[a, b], [c, d, e], [f, b], [a, d]]);
    StepNewAndKnown([p1, p2, p3, p4, p5], p6, rules, 0, g, e, [a, b, c, d, e, f], [[a, b], [c, d, e], [f, b], [a, d]],
                    [a, b, c, d, e, f, g], [[a, b], [c, d, e], [f, b], [a, d], [g, e]]);
  }

  /** Of two owners whose first characters after a common prefix are in order, the first sorts first. */
  lemma LeAtChar(x: string, y: string, k: nat)
    requires k < |x| && k < |y| && x[..k] == y[..k] && x[k] < y[k]
    ensures Le(x, y)
  {
    LeAfterPrefix(x[..k], x[k..], y[k..]);
    assert x == x[..k] + x[k..] && y == y[..k] + y[k..];
  }

  /** A team owner (`@team-…`) sorts before a user owner (`@user…`). */
  lemma TeamFirst(t: string, u: string)
    requires |t| > 1 && |u| > 1 && t[0] == u[0] && t[1] == 't' && u[1] == 'u'
    ensures Le(t, u)
  {
    LeAtChar(t, u, 1);
  }

  lemma ReadmeOwnersSorted(a: string, b: string, c: string, d: string, e: string, f: string, g: string)
    requires a == TeamA && b == User1 && c == TeamC && d == User2 && e == User3 && f == TeamB && g == TeamMaintainers
    ensures Le(a, b) && Le(c, d) && Le(d, e) && Le(f, b) && Le(a, d) && Le(g, e)
  {
    TeamsBeforeUsers(a, b, c, d, e, f, g);
    UsersInOrder(d, e);
  }

  lemma TeamsBeforeUsers(a: string, b: string, c: string, d: string, e: string, f: string, g: string)
    requires a == TeamA && b == User1 && c == TeamC && d == User2 && e == User3 && f == TeamB && g == TeamMaintainers
    ensures Le(a, b) && Le(c, d) && Le(f, b) && Le(a, d) && Le(g, e)
  {
    TeamFirst(a, b);
    TeamFirst(c, d);
    TeamFirst(f, b);
    TeamFirst(a, d);
    TeamFirst(g, e);
  }

  /** `@user2` sorts before `@user3`: the same stem, then a smaller digit. */
  lemma UsersInOrder(d: string, e: string)
    requires d == User2 && e == User3
    ensures Le(d, e)
  {
    UserDigits(d, e, "@user");
  }

  lemma UserDigits(d: string, e: string, stem: string)
    requires stem == "@user" && d == stem + "2" && e == stem + "3"
    ensures Le(d, e)
  {
    LeAfterPrefix(stem, "2", "3");
  }

  lemma ReadmeOwnersDistinct(a: string, b: string, c: string, d: string, e: string, f: string, g: string)
    requires a == TeamA && b == User1 && c == TeamC && d == User2 && e == User3 && f == TeamB && g == TeamMaintainers
    ensures SevenOwners(a, b, c, d, e, f, g)
  {
    assert a[1] != b[1] && a[6] != c[6] && a[1] != d[1] && a[1] != e[1] && a[6] != f[6] && |a| != |g|;
    assert b[1] != c[1] && b[5] != d[5] && b[5] != e[5] && b[1] != f[1] && b[1] != g[1];
    assert c[1] != d[1] && c[1] != e[1] && c[6] != f[6] && |c| != |g|;
    assert d[5] != e[5] && d[1] != f[1] && d[1] != g[1];
    assert e[1] != f[1] && e[1] != g[1];
    assert |f| != |g|;
  }

  /** Sorting a list already in order leaves it as it is. */
  lemma SortedTriple(x: string, y: string, z: string)
    requires Le(x, y) && Le(y, z)
    ensures SortOwners([x, y, z]) == [x, y, z]
  {
    assert [x, y, z][1..] == [y, z];
    SortedPair(y, z);
    assert Insert(x, [y, z]) == [x, y, z];
  }

  lemma ReadmeRulesGroups(rules: seq<Rule>, a: string, b: string, c: string, d: string, e: string, f: string, g: string)
    requires rules == ReadmeRules
    requires a == TeamA && b == User1 && c == TeamC && d == User2 && e == User3 && f == TeamB && g == TeamMaintainers
    ensures ReadmeGroups(rules, a, b, c, d, e, f, g)
  {
    ReadmeOwnersSorted(a, b, c, d, e, f, g);
    assert rules[4].owners == [a, b] && rules[3].owners == [c, d, e] && rules[2].owners == [f, b];
    assert rules[1].owners == [a, d] && rules[0].owners == [g, e];
    SortedPair(a, b);
    SortedTriple(c, d, e);
    SortedPair(f, b);
    SortedPair(a, d);
    SortedPair(g, e);
  }

  lemma ReadmeResolution(paths: seq<string>, rules: seq<Rule>)
    requires paths == ReadmePaths && rules == ReadmeRules
    ensures Resolve(paths, rules) ==
      Owners([TeamA, User1, TeamC, User2, User3, TeamB, TeamMaintainers],
             [[TeamA, User1], [TeamC, User2, User3], [TeamB, User1], [TeamA, User2], [TeamMaintainers, User3]])
  {
    var a, b, c, d, e, f, g := TeamA, User1, TeamC, User2, User3, TeamB, TeamMaintainers;
    ReadmeOwnersDistinct(a, b, c, d, e, f, g);
    ReadmeRulesGroups(rules, a, b, c, d, e, f, g);
    Path1Winner(rules, Path1);
    Path2Winner(rules, Path2);
    Path3Winner(rules, Path3);
    Path4Uncovered(rules, Path4);
    Path5Winner(rules, Path5);
    Path6Winner(rules, Path6);
    ReadmeResolve6(Path1, Path2, Path3, Path4, Path5, Path6, rules, a, b, c, d, e, f, g);
  }

  // The six changed paths against the README rules: `docs/setup/config.md`
  // is covered by no rule, `/src/*` wins `src/file.js` although `/**/*.js`
  // covers it too, and the owner groups and individual owners come out in
  // the order the paths first reach them. The rules are the ones
  // `parseFile` makes of the README file.
  lemma ShouldResolveTheReadmeExample()
    ensures Resolve(ReadmePaths, ReadmeRules) ==
      Owners([TeamA, User1, TeamC, User2, User3, TeamB, TeamMaintainers],
             [[TeamA, User1], [TeamC, User2, User3], [TeamB, User1], [TeamA, User2], [TeamMaintainers, User3]])
    ensures FileRules(ReadmeInput, []) == ReadmeRules
  {
    ReadmeResolution(ReadmePaths, ReadmeRules);
    ShouldParseTheReadmeExample();
  }
}
