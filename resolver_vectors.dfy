/**
 * Resolution laws beyond one call, and the cases of the repository's
 * resolver test suite (__tests__/filename-match.test.ts). One more case
 * resolves paths against two rules of the GitHub example file of
 * __tests__/parse-file.test.ts:85-243 (`EmptyOwnersOverride`); the rules
 * that file parses into are not stated here.
 *
 * The resolver tests give their rules hand-written, unanchored regular
 * expressions; here a test rule's matcher is left abstract, and each case
 * states which rule covers which path as a requirement.
 */
module ResolverVectors {
  import opened Text
  import opened Regex
  import opened Results
  import opened ParsePattern
  import opened Sorting
  import opened LineParser
  import opened Resolver

  // ---------------------------------------------------------------------------
  // General laws.

  /** With no rules, no path is covered and both results are empty. */
  lemma {:induction false} ResolveNoRules(paths: seq<string>)
    ensures Resolve(paths, []) == Owners([], [])
    decreases |paths|
  {
    if paths != [] {
      ResolveNoRules(paths[..|paths| - 1]);
    }
  }

  /**
   * Resolution reads a rule's owners only through their sorted order: rule
   * lists that agree on patterns, matchers and sorted owners resolve alike.
   */
  lemma {:induction false} ResolveSortedOwnersOnly(paths: seq<string>, a: seq<Rule>, b: seq<Rule>)
    requires |a| == |b|
    requires forall k :: 0 <= k < |a| ==>
      a[k].pattern == b[k].pattern && a[k].regexPattern == b[k].regexPattern &&
      SortOwners(a[k].owners) == SortOwners(b[k].owners)
    ensures Resolve(paths, a) == Resolve(paths, b)
    decreases |paths|
  {
    if paths != [] {
      var path := paths[|paths| - 1];
      ResolveSortedOwnersOnly(paths[..|paths| - 1], a, b);
      forall k | 0 <= k < |a| ensures FilenameMatch(a[k], path) == FilenameMatch(b[k], path) {
        MatchIgnoresOwners(a[k], b[k], path);
      }
      FirstMatchSame(a, b, path);
    }
  }

  /**
   * Resolving again, once the winning rules have had their owners sorted in
   * place, gives the same result: the output is stable across calls.
   */
  lemma ResolveAgain(paths: seq<string>, values: seq<Rule>, after: seq<Rule>)
    requires |values| == |after|
    requires forall k :: 0 <= k < |values| ==>
      after[k].pattern == values[k].pattern && after[k].regexPattern == values[k].regexPattern &&
      (after[k].owners == values[k].owners || after[k].owners == SortOwners(values[k].owners))
    ensures Resolve(paths, after) == Resolve(paths, values)
  {
    forall k | 0 <= k < |values| ensures SortOwners(after[k].owners) == SortOwners(values[k].owners) {
      SortOwnersIdempotent(values[k].owners);
    }
    ResolveSortedOwnersOnly(paths, after, values);
  }

  // ---------------------------------------------------------------------------
  // __tests__/filename-match.test.ts

  /** "should return true for a valid rooted literal pattern starting with / (folder)" (9-11). */
  lemma RootedLiteralFolder()
    ensures IsRootedLiteralPattern("/rooted/path")
  {
    var p := "/rooted/path";
    assert LiteralChars(p) by {
      assert p == ['/', 'r', 'o', 'o', 't', 'e', 'd', '/', 'p', 'a', 't', 'h'];
    }
    IsRootedLiteralIff(p);
  }

  /** "should return true for a valid rooted literal pattern starting with / (file)" (13-15). */
  lemma RootedLiteralFile()
    ensures IsRootedLiteralPattern("/rooted/path/file.txt")
  {
    var p := "/rooted/path/file.txt";
    assert LiteralChars(p) by {
      assert p == ['/', 'r', 'o', 'o', 't', 'e', 'd', '/', 'p', 'a', 't', 'h', '/', 'f', 'i', 'l', 'e', '.', 't', 'x', 't'];
    }
    IsRootedLiteralIff(p);
  }

  /** The `isRootedLiteralPattern` cases with a wildcard or escape character (17-27). */
  lemma RootedLiteralWildcards()
    ensures !IsRootedLiteralPattern("/path/*")
    ensures !IsRootedLiteralPattern("/path/?")
    ensures !IsRootedLiteralPattern("/path\\subpath")
  {
    var star, question, backslash := "/path/*", "/path/?", "/path\\subpath";
    IsRootedLiteralIff(star);
    assert star[6] == '*';
    IsRootedLiteralIff(question);
    assert question[6] == '?';
    IsRootedLiteralIff(backslash);
    assert backslash[5] == '\\';
  }

  /** The `isRootedLiteralPattern` cases without a leading slash (29-35). */
  lemma RootedLiteralUnrooted()
    ensures !IsRootedLiteralPattern("relative/path")
    ensures !IsRootedLiteralPattern("")
  {
  }

  /** The `matchRootedLiteralPattern` cases (39-76). */
  lemma MatchRootedLiteralCases()
    ensures MatchRootedLiteralPattern("/rooted/path", "rooted/path")
    ensures MatchRootedLiteralPattern("/rooted/path/", "rooted/path/subpath")
    ensures MatchRootedLiteralPattern("/rooted/path", "rooted/path/and/more")
    ensures MatchRootedLiteralPattern("/rooted", "rooted/subpath")
    ensures !MatchRootedLiteralPattern("/rooted/path", "rooted")
    ensures !MatchRootedLiteralPattern("/rooted", "different/subpath")
    ensures !MatchRootedLiteralPattern("/rooted/path", "rooted/paths")
  {
    assert Normalized("/rooted/path") == "rooted/path";
    assert Normalized("/rooted/path/") == "rooted/path/";
    assert Normalized("/rooted") == "rooted";
    assert "rooted/path/subpath"[..12] == "rooted/path/";
    assert "rooted/path/and/more"[..11] == "rooted/path";
    assert "rooted/subpath"[..6] == "rooted";
    assert "different/subpath"[0] != "rooted"[0];
    assert "rooted/paths"[11] != Sep;
  }

  lemma OneRule(paths: seq<string>, rules: seq<Rule>)
    requires |paths| == 1 && rules != [] && FilenameMatch(rules[0], paths[0])
    ensures Resolve(paths, rules) ==
      Owners(AddAll([], SortOwners(rules[0].owners)), [SortOwners(rules[0].owners)])
  {
    assert paths[..0] == [];
  }

  /** "should return the owners for a matching file path with a simple rule" (151-168). */
  lemma SimpleRule(rule: Rule)
    requires rule.pattern == "src/utils/" && rule.owners == ["@owner1"]
    requires FilenameMatch(rule, "src/utils/helpers.ts")
    ensures Resolve(["src/utils/helpers.ts"], [rule]) == Owners(["@owner1"], [["@owner1"]])
  {
    OneRule(["src/utils/helpers.ts"], [rule]);
    assert SortOwners(["@owner1"]) == ["@owner1"];
  }

  /** "should return the owners for a matching file path with a single rule" (170-187). */
  lemma SingleRule(rule: Rule)
    requires rule.pattern == "src/utils/*.ts" && rule.owners == ["@owner1"]
    requires FilenameMatch(rule, "src/utils/helpers.ts")
    ensures Resolve(["src/utils/helpers.ts"], [rule]) == Owners(["@owner1"], [["@owner1"]])
  {
    OneRule(["src/utils/helpers.ts"], [rule]);
    assert SortOwners(["@owner1"]) == ["@owner1"];
  }

  /** "should handle duplicate owners for the same file path gracefully" (248-271). */
  lemma DuplicateOwners(first: Rule, second: Rule)
    requires first.owners == ["@owner1"] && second.owners == ["@owner1"]
    requires FilenameMatch(first, "src/utils/helpers.ts") && FilenameMatch(second, "src/utils/helpers.ts")
    ensures Resolve(["src/utils/helpers.ts"], [first, second]) == Owners(["@owner1"], [["@owner1"]])
  {
    OneRule(["src/utils/helpers.ts"], [first, second]);
    assert SortOwners(["@owner1"]) == ["@owner1"];
  }

  /** "should return first owner for a single file path with multiple matching rules" (292-315). */
  lemma FirstRuleWins(first: Rule, second: Rule)
    requires first.owners == ["@owner2"] && second.owners == ["@owner1"]
    requires FilenameMatch(first, "src/utils/helpers.ts") && FilenameMatch(second, "src/utils/helpers.ts")
    ensures Resolve(["src/utils/helpers.ts"], [first, second]) == Owners(["@owner2"], [["@owner2"]])
  {
    OneRule(["src/utils/helpers.ts"], [first, second]);
    assert SortOwners(["@owner2"]) == ["@owner2"];
  }

  /** "should return an empty array if no file paths match any rules" (273-290). */
  lemma NoRuleMatches(rule: Rule)
    requires !FilenameMatch(rule, "src/styles/theme.css")
    ensures Resolve(["src/styles/theme.css"], [rule]) == Owners([], [])
  {
    var paths: seq<string> := ["src/styles/theme.css"];
    assert paths[..0] == [];
  }

  /** The first path of a two-path case won by `r`, the second by `s`. */
  lemma TwoPaths(p: string, q: string, r: Rule, s: Rule)
    requires FilenameMatch(r, p) && !FilenameMatch(r, q) && FilenameMatch(s, q)
    ensures var g, h := SortOwners(r.owners), SortOwners(s.owners);
      Resolve([p, q], [r, s]) == Owners(AddAll(AddAll([], g), h), AddOne([g], h))
  {
    var paths, rules := [p, q], [r, s];
    var g := SortOwners(r.owners);
    assert paths[..1] == [p];
    assert Resolve([p], rules) == Owners(AddAll([], g), [g]) by {
      OneRule([p], rules);
    }
    assert FirstMatch(rules, q) == Some(1) by {
      assert rules[1..] == [s];
      assert FirstMatch([s], q) == Some(0);
    }
    ResolveCovered(paths, rules, 1);
  }

  /** "should return owners for multiple matching file paths with different rules" (189-218). */
  lemma DifferentRules(r: Rule, s: Rule)
    requires r.owners == [Owner1, Owner3] && s.owners == [Owner2, Owner3]
    requires FilenameMatch(r, "src/utils/helpers.ts") && !FilenameMatch(r, "src/components/button.tsx")
    requires FilenameMatch(s, "src/components/button.tsx")
    ensures Resolve(["src/utils/helpers.ts", "src/components/button.tsx"], [r, s]) ==
      Owners([Owner1, Owner3, Owner2], [[Owner1, Owner3], [Owner2, Owner3]])
  {
    TwoPaths("src/utils/helpers.ts", "src/components/button.tsx", r, s);
    DifferentGroups();
  }

  /** The owner sets of two winning rules with owners `@owner1 @owner3` and `@owner2 @owner3`. */
  lemma DifferentGroups()
    ensures var g, h := SortOwners([Owner1, Owner3]), SortOwners([Owner2, Owner3]);
      AddAll(AddAll([], g), h) == [Owner1, Owner3, Owner2] && AddOne([g], h) == [[Owner1, Owner3], [Owner2, Owner3]]
  {
    OwnerOrder();
    SortedPair(Owner1, Owner3);
    SortedPair(Owner2, Owner3);
    DifferentGroupsOf(Owner1, Owner2, Owner3);
  }

  /** Owners `a c` then `b c`, all different: three owners and two groups. */
  lemma DifferentGroupsOf(a: string, b: string, c: string)
    requires a != b && a != c && b != c
    ensures AddAll(AddAll([], [a, c]), [b, c]) == [a, c, b]
    ensures AddOne([[a, c]], [b, c]) == [[a, c], [b, c]]
  {
    AddAllPair([], a, c);
    assert AddOne([], a) == [a];
    assert AddOne([a], c) == [a, c];
    AddAllPair([a, c], b, c);
    assert AddOne([a, c], b) == [a, c, b];
    assert AddOne([a, c, b], c) == [a, c, b];
    assert [a, c] != [b, c] by { assert [a, c][0] != [b, c][0]; }
  }

  /** "should return combined owners for a file path matching multiple rules but deduplicated" (220-246). */
  lemma SameOwnersOneGroup(r: Rule, s: Rule)
    requires r.owners == [Owner1, Owner3] && s.owners == [Owner3, Owner1]
    requires FilenameMatch(r, "src/utils/helpers.ts") && !FilenameMatch(r, "src/components/button.tsx")
    requires FilenameMatch(s, "src/components/button.tsx")
    ensures Resolve(["src/utils/helpers.ts", "src/components/button.tsx"], [r, s]) ==
      Owners([Owner1, Owner3], [[Owner1, Owner3]])
  {
    TwoPaths("src/utils/helpers.ts", "src/components/button.tsx", r, s);
    OwnerOrder();
    SortedPair(Owner1, Owner3);
    SwappedPair(Owner1, Owner3);
    AddAllPair([], Owner1, Owner3);
    AddAllPair([Owner1, Owner3], Owner1, Owner3);
  }

  /** A common prefix does not change the order of two strings. */
  lemma {:induction false} LeAfterPrefix(p: string, a: string, b: string)
    requires Le(a, b)
    ensures Le(p + a, p + b)
    decreases |p|
  {
    if p != [] {
      LeAfterPrefix(p[1..], a, b);
      assert (p + a)[1..] == p[1..] + a && (p + b)[1..] == p[1..] + b;
    } else {
      assert p + a == a && p + b == b;
    }
  }

  const Owner1: string := "@owner1"
  const Owner2: string := "@owner2"
  const Owner3: string := "@owner3"

  /** The test owners in the order `sort()` puts them, and all different. */
  lemma OwnerOrder()
    ensures Le(Owner1, Owner3) && Le(Owner2, Owner3)
    ensures Owner1 != Owner2 && Owner1 != Owner3 && Owner2 != Owner3
  {
    var stem: string := "@owner";
    assert Owner1 == stem + "1" && Owner2 == stem + "2" && Owner3 == stem + "3";
    LeAfterPrefix(stem, "1", "3");
    LeAfterPrefix(stem, "2", "3");
    assert Owner1[6] != Owner2[6] && Owner1[6] != Owner3[6] && Owner2[6] != Owner3[6];
  }

  /** Two owners already in order stay as they are; reversed, they swap. */
  lemma SortedPair(a: string, b: string)
    requires Le(a, b)
    ensures SortOwners([a, b]) == [a, b]
  {
    assert [a, b][1..] == [b];
    assert SortOwners([b]) == Insert(b, []) == [b];
    assert Insert(a, [b]) == [a, b];
  }

  lemma SwappedPair(a: string, b: string)
    requires Le(a, b)
    ensures SortOwners([b, a]) == [a, b]
  {
    assert [b, a][1..] == [a];
    assert SortOwners([a]) == Insert(a, []) == [a];
    if Le(b, a) {
      LeAntisymmetric(a, b);
    }
    assert Insert(b, [a]) == [a] + Insert(b, []);
  }

  lemma AddAllPair(s: seq<string>, a: string, b: string)
    ensures AddAll(s, [a, b]) == AddOne(AddOne(s, a), b)
  {
    var xs := [a, b];
    assert xs[..1] == [a] && xs[1] == b;
    assert [a][..0] == [] && [a][0] == a;
    assert AddAll(s, []) == s;
    assert AddAll(s, [a]) == AddOne(AddAll(s, []), a);
  }

  // ---------------------------------------------------------------------------
  // __tests__/parse-file.test.ts

  /**
   * "/apps/github" with no owners, written after "/apps/ @octocat", comes
   * first in the rules and wins the paths below it: they resolve to an empty
   * owner group and no individual owner (parse-file.test.ts:147-148, 170-181).
   */
  lemma EmptyOwnersOverride(later: Rule, earlier: Rule)
    requires later.pattern == "/apps/github" && later.owners == []
    requires earlier.pattern == "/apps/" && earlier.owners == ["@octocat"]
    ensures Resolve(["apps/github/x"], [later, earlier]) == Owners([], [[]])
    ensures Resolve(["apps/web/x"], [later, earlier]) == Owners(["@octocat"], [["@octocat"]])
  {
    IsRootedLiteralIff(later.pattern);
    IsRootedLiteralIff(earlier.pattern);
    assert FilenameMatch(later, "apps/github/x");
    OneRule(["apps/github/x"], [later, earlier]);
    assert !FilenameMatch(later, "apps/web/x");
    assert FilenameMatch(earlier, "apps/web/x");
    var paths: seq<string> := ["apps/web/x"];
    assert paths[..0] == [];
    assert FirstMatch([later, earlier], "apps/web/x") == Some(1);
    assert SortOwners(["@octocat"]) == ["@octocat"];
  }
}
