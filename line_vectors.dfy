/**
 * The cases of the repository's line-parser test suite
 * (__tests__/parse-line.test.ts): the pattern, the owners and the line number
 * each line is expected to give.
 */
module LineVectors {
  import opened Text
  import opened Results
  import opened ParsePattern
  import opened LineParser

  /** A pattern with no three asterisks in a row passes the compiler's first check. */
  lemma NoTriple(p: string)
    requires forall i :: 0 <= i && i + 2 < |p| ==> p[i] != '*' || p[i + 1] != '*' || p[i + 2] != '*'
    ensures !HasTripleAsterisk(p)
  {
  }

  /** The case "edge cases" (__tests__/parse-line.test.ts:4-12). */
  lemma EdgeCases()
    ensures var r := ParseLine("hello/wo rld", 0);
      r.Success? && r.value.pattern == "hello/wo" && r.value.owners == ["rld"] && r.value.lineNumber == 0
  {
    EdgeCasesText();
    EdgeCasesFields();
    EdgeCasesNoTriple();
    ParseLineGives("hello/wo rld", 0, "hello/wo", ["rld"]);
  }

  lemma EdgeCasesText()
    ensures StripComment("hello/wo rld") == "hello/wo rld"
  {
    EdgeCasesBeforeComment();
    StripCommentKeeps("hello/wo rld");
  }

  lemma EdgeCasesBeforeComment()
    ensures forall k :: 0 <= k < |"hello/wo rld"| ==> !CommentAt("hello/wo rld", k)
  {
  }

  lemma EdgeCasesNoTriple()
    ensures !HasTripleAsterisk("hello/wo")
  {
    NoTriple("hello/wo");
  }

  lemma EdgeCasesFields()
    ensures Fields("hello/wo rld", false) == ["hello/wo"] + ["rld"]
  {
    EdgeCasesWoven();
    EdgeCasesSeparable();
    FieldsOfWeave(["hello/wo", "rld"], [" "]);
  }

  lemma EdgeCasesWoven()
    ensures Weave(["hello/wo", "rld"], [" "]) == "hello/wo rld"
  {
  }

  lemma EdgeCasesSeparable()
    ensures Separable(["hello/wo", "rld"], [" "])
  {
    assert Unbroken("hello/wo", false);
    assert Unbroken("rld", false);
  }

  /** The case "should parse a simple pattern without owners" (__tests__/parse-line.test.ts:14-22). */
  lemma ShouldParseASimplePatternWithoutOwners()
    ensures var r := ParseLine("/src/*.ts", 0);
      r.Success? && r.value.pattern == "/src/*.ts" && r.value.owners == [] && r.value.lineNumber == 0
  {
    ShouldParseASimplePatternWithoutOwnersText();
    ShouldParseASimplePatternWithoutOwnersFields();
    ShouldParseASimplePatternWithoutOwnersNoTriple();
    ParseLineGives("/src/*.ts", 0, "/src/*.ts", []);
  }

  lemma ShouldParseASimplePatternWithoutOwnersText()
    ensures StripComment("/src/*.ts") == "/src/*.ts"
  {
    ShouldParseASimplePatternWithoutOwnersBeforeComment();
    StripCommentKeeps("/src/*.ts");
  }

  lemma ShouldParseASimplePatternWithoutOwnersBeforeComment()
    ensures forall k :: 0 <= k < |"/src/*.ts"| ==> !CommentAt("/src/*.ts", k)
  {
  }

  lemma ShouldParseASimplePatternWithoutOwnersNoTriple()
    ensures !HasTripleAsterisk("/src/*.ts")
  {
    NoTriple("/src/*.ts");
  }

  lemma ShouldParseASimplePatternWithoutOwnersFields()
    ensures Fields("/src/*.ts", false) == ["/src/*.ts"] + []
  {
    UnbrokenIsOnePiece("/src/*.ts", false);
  }

  /** The case "should parse a pattern with owners" (__tests__/parse-line.test.ts:24-32). */
  lemma ShouldParseAPatternWithOwners()
    ensures var r := ParseLine("* @owner1 @owner2", 0);
      r.Success? && r.value.pattern == "*" && r.value.owners == ["@owner1", "@owner2"] && r.value.lineNumber == 0
  {
    ShouldParseAPatternWithOwnersText();
    ShouldParseAPatternWithOwnersFields();
    ShouldParseAPatternWithOwnersNoTriple();
    ParseLineGives("* @owner1 @owner2", 0, "*", ["@owner1", "@owner2"]);
  }

  lemma ShouldParseAPatternWithOwnersText()
    ensures StripComment("* @owner1 @owner2") == "* @owner1 @owner2"
  {
    ShouldParseAPatternWithOwnersBeforeComment();
    StripCommentKeeps("* @owner1 @owner2");
  }

  lemma ShouldParseAPatternWithOwnersBeforeComment()
    ensures forall k :: 0 <= k < |"* @owner1 @owner2"| ==> !CommentAt("* @owner1 @owner2", k)
  {
  }

  lemma ShouldParseAPatternWithOwnersNoTriple()
    ensures !HasTripleAsterisk("*")
  {
    NoTriple("*");
  }

  lemma ShouldParseAPatternWithOwnersFields()
    ensures Fields("* @owner1 @owner2", false) == ["*"] + ["@owner1", "@owner2"]
  {
    ShouldParseAPatternWithOwnersWoven();
    ShouldParseAPatternWithOwnersSeparable();
    FieldsOfWeave(["*", "@owner1", "@owner2"], [" ", " "]);
  }

  lemma ShouldParseAPatternWithOwnersWoven()
    ensures Weave(["*", "@owner1", "@owner2"], [" ", " "]) == "* @owner1 @owner2"
  {
  }

  lemma ShouldParseAPatternWithOwnersSeparable()
    ensures Separable(["*", "@owner1", "@owner2"], [" ", " "])
  {
    assert Unbroken("*", false);
    assert Unbroken("@owner1", false);
    assert Unbroken("@owner2", false);
  }

  /** The case "should parse a pattern with owners and multiple spaces" (__tests__/parse-line.test.ts:34-42). */
  lemma ShouldParseAPatternWithOwnersAndMultipleSpaces()
    ensures var r := ParseLine("*  \t\t @owner1    @owner2", 0);
      r.Success? && r.value.pattern == "*" && r.value.owners == ["@owner1", "@owner2"] && r.value.lineNumber == 0
  {
    ShouldParseAPatternWithOwnersAndMultipleSpacesText();
    ShouldParseAPatternWithOwnersAndMultipleSpacesFields();
    ShouldParseAPatternWithOwnersAndMultipleSpacesNoTriple();
    ParseLineGives("*  \t\t @owner1    @owner2", 0, "*", ["@owner1", "@owner2"]);
  }

  lemma ShouldParseAPatternWithOwnersAndMultipleSpacesText()
    ensures StripComment("*  \t\t @owner1    @owner2") == "*  \t\t @owner1    @owner2"
  {
    ShouldParseAPatternWithOwnersAndMultipleSpacesBeforeComment();
    StripCommentKeeps("*  \t\t @owner1    @owner2");
  }

  lemma ShouldParseAPatternWithOwnersAndMultipleSpacesBeforeComment()
    ensures forall k :: 0 <= k < |"*  \t\t @owner1    @owner2"| ==> !CommentAt("*  \t\t @owner1    @owner2", k)
  {
  }

  lemma ShouldParseAPatternWithOwnersAndMultipleSpacesNoTriple()
    ensures !HasTripleAsterisk("*")
  {
    NoTriple("*");
  }

  lemma ShouldParseAPatternWithOwnersAndMultipleSpacesFields()
    ensures Fields("*  \t\t @owner1    @owner2", false) == ["*"] + ["@owner1", "@owner2"]
  {
    ShouldParseAPatternWithOwnersAndMultipleSpacesWoven();
    ShouldParseAPatternWithOwnersAndMultipleSpacesSeparable();
    FieldsOfWeave(["*", "@owner1", "@owner2"], ["  \t\t ", "    "]);
  }

  lemma ShouldParseAPatternWithOwnersAndMultipleSpacesWoven()
    ensures Weave(["*", "@owner1", "@owner2"], ["  \t\t ", "    "]) == "*  \t\t @owner1    @owner2"
  {
  }

  lemma ShouldParseAPatternWithOwnersAndMultipleSpacesSeparable()
    ensures Separable(["*", "@owner1", "@owner2"], ["  \t\t ", "    "])
  {
    assert Unbroken("*", false);
    assert Unbroken("@owner1", false);
    assert Unbroken("@owner2", false);
  }

  /** The case "should ignore inline comments" (__tests__/parse-line.test.ts:44-52). */
  lemma ShouldIgnoreInlineComments()
    ensures var r := ParseLine("pattern @owner1       # This is a comment", 0);
      r.Success? && r.value.pattern == "pattern" && r.value.owners == ["@owner1"] && r.value.lineNumber == 0
  {
    ShouldIgnoreInlineCommentsText();
    ShouldIgnoreInlineCommentsFields();
    ShouldIgnoreInlineCommentsNoTriple();
    ParseLineGives("pattern @owner1       # This is a comment", 0, "pattern", ["@owner1"]);
  }

  lemma ShouldIgnoreInlineCommentsText()
    ensures StripComment("pattern @owner1       # This is a comment") == "pattern @owner1"
  {
    assert "pattern @owner1       # This is a comment" == "pattern @owner1       " + [Hash] + " This is a comment";
    ShouldIgnoreInlineCommentsBeforeComment();
    StripCommentAt("pattern @owner1       ", " This is a comment");
    ShouldIgnoreInlineCommentsTrimmed();
  }

  lemma ShouldIgnoreInlineCommentsBeforeComment()
    ensures forall k :: 0 <= k < |"pattern @owner1       "| ==> !CommentAt("pattern @owner1       ", k)
  {
  }

  lemma ShouldIgnoreInlineCommentsTrimmed()
    ensures Trim("pattern @owner1       ") == "pattern @owner1"
  {
    assert "pattern @owner1       " == "" + "pattern @owner1" + "       ";
    TrimExact("", "pattern @owner1", "       ");
  }

  lemma ShouldIgnoreInlineCommentsNoTriple()
    ensures !HasTripleAsterisk("pattern")
  {
    NoTriple("pattern");
  }

  lemma ShouldIgnoreInlineCommentsFields()
    ensures Fields("pattern @owner1", false) == ["pattern"] + ["@owner1"]
  {
    ShouldIgnoreInlineCommentsWoven();
    ShouldIgnoreInlineCommentsSeparable();
    FieldsOfWeave(["pattern", "@owner1"], [" "]);
  }

  lemma ShouldIgnoreInlineCommentsWoven()
    ensures Weave(["pattern", "@owner1"], [" "]) == "pattern @owner1"
  {
  }

  lemma ShouldIgnoreInlineCommentsSeparable()
    ensures Separable(["pattern", "@owner1"], [" "])
  {
    assert Unbroken("pattern", false);
    assert Unbroken("@owner1", false);
  }

  /** The case "should handle escaped spaces correctly" (__tests__/parse-line.test.ts:54-62). */
  lemma ShouldHandleEscapedSpacesCorrectly()
    ensures var r := ParseLine("/a/path\\ with/spa\\ ce.txt   @owner1", 0);
      r.Success? && r.value.pattern == "/a/path\\ with/spa\\ ce.txt" && r.value.owners == ["@owner1"] && r.value.lineNumber == 0
  {
    ShouldHandleEscapedSpacesCorrectlyText();
    ShouldHandleEscapedSpacesCorrectlyFields();
    ShouldHandleEscapedSpacesCorrectlyNoTriple();
    ParseLineGives("/a/path\\ with/spa\\ ce.txt   @owner1", 0, "/a/path\\ with/spa\\ ce.txt", ["@owner1"]);
  }

  lemma ShouldHandleEscapedSpacesCorrectlyText()
    ensures StripComment("/a/path\\ with/spa\\ ce.txt   @owner1") == "/a/path\\ with/spa\\ ce.txt   @owner1"
  {
    ShouldHandleEscapedSpacesCorrectlyBeforeComment();
    StripCommentKeeps("/a/path\\ with/spa\\ ce.txt   @owner1");
  }

  lemma ShouldHandleEscapedSpacesCorrectlyBeforeComment()
    ensures forall k :: 0 <= k < |"/a/path\\ with/spa\\ ce.txt   @owner1"| ==> !CommentAt("/a/path\\ with/spa\\ ce.txt   @owner1", k)
  {
  }

  lemma ShouldHandleEscapedSpacesCorrectlyNoTriple()
    ensures !HasTripleAsterisk("/a/path\\ with/spa\\ ce.txt")
  {
    NoTriple("/a/path\\ with/spa\\ ce.txt");
  }

  lemma ShouldHandleEscapedSpacesCorrectlyFields()
    ensures Fields("/a/path\\ with/spa\\ ce.txt   @owner1", false) == ["/a/path\\ with/spa\\ ce.txt"] + ["@owner1"]
  {
    ShouldHandleEscapedSpacesCorrectlyWoven();
    ShouldHandleEscapedSpacesCorrectlySeparable();
    FieldsOfWeave(["/a/path\\ with/spa\\ ce.txt", "@owner1"], ["   "]);
  }

  lemma ShouldHandleEscapedSpacesCorrectlyWoven()
    ensures Weave(["/a/path\\ with/spa\\ ce.txt", "@owner1"], ["   "]) == "/a/path\\ with/spa\\ ce.txt   @owner1"
  {
  }

  lemma ShouldHandleEscapedSpacesCorrectlySeparable()
    ensures Separable(["/a/path\\ with/spa\\ ce.txt", "@owner1"], ["   "])
  {
    assert Unbroken("/a/path\\ with/spa\\ ce.txt", false);
    assert Unbroken("@owner1", false);
  }

  /** The case "should handle basic path correctly" (__tests__/parse-line.test.ts:64-72). */
  lemma ShouldHandleBasicPathCorrectly()
    ensures var r := ParseLine("/a/path   @owner1", 0);
      r.Success? && r.value.pattern == "/a/path" && r.value.owners == ["@owner1"] && r.value.lineNumber == 0
  {
    ShouldHandleBasicPathCorrectlyText();
    ShouldHandleBasicPathCorrectlyFields();
    ShouldHandleBasicPathCorrectlyNoTriple();
    ParseLineGives("/a/path   @owner1", 0, "/a/path", ["@owner1"]);
  }

  lemma ShouldHandleBasicPathCorrectlyText()
    ensures StripComment("/a/path   @owner1") == "/a/path   @owner1"
  {
    ShouldHandleBasicPathCorrectlyBeforeComment();
    StripCommentKeeps("/a/path   @owner1");
  }

  lemma ShouldHandleBasicPathCorrectlyBeforeComment()
    ensures forall k :: 0 <= k < |"/a/path   @owner1"| ==> !CommentAt("/a/path   @owner1", k)
  {
  }

  lemma ShouldHandleBasicPathCorrectlyNoTriple()
    ensures !HasTripleAsterisk("/a/path")
  {
    NoTriple("/a/path");
  }

  lemma ShouldHandleBasicPathCorrectlyFields()
    ensures Fields("/a/path   @owner1", false) == ["/a/path"] + ["@owner1"]
  {
    ShouldHandleBasicPathCorrectlyWoven();
    ShouldHandleBasicPathCorrectlySeparable();
    FieldsOfWeave(["/a/path", "@owner1"], ["   "]);
  }

  lemma ShouldHandleBasicPathCorrectlyWoven()
    ensures Weave(["/a/path", "@owner1"], ["   "]) == "/a/path   @owner1"
  {
  }

  lemma ShouldHandleBasicPathCorrectlySeparable()
    ensures Separable(["/a/path", "@owner1"], ["   "])
  {
    assert Unbroken("/a/path", false);
    assert Unbroken("@owner1", false);
  }

  /** The case "should handle escaped hash # correctly" (__tests__/parse-line.test.ts:74-82). */
  lemma ShouldHandleEscapedHashCorrectly()
    ensures var r := ParseLine("/src/file\\#with/hash.ts @owner1", 0);
      r.Success? && r.value.pattern == "/src/file\\#with/hash.ts" && r.value.owners == ["@owner1"] && r.value.lineNumber == 0
  {
    ShouldHandleEscapedHashCorrectlyText();
    ShouldHandleEscapedHashCorrectlyFields();
    ShouldHandleEscapedHashCorrectlyNoTriple();
    ParseLineGives("/src/file\\#with/hash.ts @owner1", 0, "/src/file\\#with/hash.ts", ["@owner1"]);
  }

  lemma ShouldHandleEscapedHashCorrectlyText()
    ensures StripComment("/src/file\\#with/hash.ts @owner1") == "/src/file\\#with/hash.ts @owner1"
  {
    ShouldHandleEscapedHashCorrectlyBeforeComment();
    StripCommentKeeps("/src/file\\#with/hash.ts @owner1");
  }

  lemma ShouldHandleEscapedHashCorrectlyBeforeComment()
    ensures forall k :: 0 <= k < |"/src/file\\#with/hash.ts @owner1"| ==> !CommentAt("/src/file\\#with/hash.ts @owner1", k)
  {
  }

  lemma ShouldHandleEscapedHashCorrectlyNoTriple()
    ensures !HasTripleAsterisk("/src/file\\#with/hash.ts")
  {
    NoTriple("/src/file\\#with/hash.ts");
  }

  lemma ShouldHandleEscapedHashCorrectlyFields()
    ensures Fields("/src/file\\#with/hash.ts @owner1", false) == ["/src/file\\#with/hash.ts"] + ["@owner1"]
  {
    ShouldHandleEscapedHashCorrectlyWoven();
    ShouldHandleEscapedHashCorrectlySeparable();
    FieldsOfWeave(["/src/file\\#with/hash.ts", "@owner1"], [" "]);
  }

  lemma ShouldHandleEscapedHashCorrectlyWoven()
    ensures Weave(["/src/file\\#with/hash.ts", "@owner1"], [" "]) == "/src/file\\#with/hash.ts @owner1"
  {
  }

  lemma ShouldHandleEscapedHashCorrectlySeparable()
    ensures Separable(["/src/file\\#with/hash.ts", "@owner1"], [" "])
  {
    assert Unbroken("/src/file\\#with/hash.ts", false);
    assert Unbroken("@owner1", false);
  }
}
