/**
 * `src/filename-match.ts`: deciding whether a rule covers a path, with a
 * string fast path for rooted literal patterns, and resolving the owners of
 * a list of changed paths.
 *
 * The fast path is proved to agree with the compiled matcher for every
 * rooted literal pattern except `/` itself. Resolution is stated as the
 * function `Resolve` on rule values, and the method `FindMatchingCodeOwners`,
 * which sorts the `owners` of each winning rule in place, is proved to return
 * what `Resolve` gives for the rules as they were.
 */
module Resolver {
  import opened Text
  import opened Regex
  import opened Results
  import opened ParsePattern
  import opened PatternProperties
  import opened Sorting
  import opened LineParser
  import opened FileParser

  /** `/[*?\\]/.test(pattern)`: some wildcard or escape character occurs. */
  predicate HasWildcard(pattern: string)
    decreases |pattern|
  {
    pattern != [] && (pattern[0] == '*' || pattern[0] == '?' || pattern[0] == '\\' || HasWildcard(pattern[1..]))
  }

  /** `isRootedLiteralPattern`: no wildcard, and a leading `/`. */
  predicate IsRootedLiteralPattern(pattern: string) {
    !HasWildcard(pattern) && pattern != [] && pattern[0] == Sep
  }

  /** No character of `s` is a wildcard or escape character. */
  predicate LiteralChars(s: string) {
    forall k :: 0 <= k < |s| ==> s[k] != '*' && s[k] != '?' && s[k] != '\\'
  }

  lemma {:induction false} HasWildcardIff(pattern: string)
    ensures HasWildcard(pattern) <==> !LiteralChars(pattern)
    decreases |pattern|
  {
    if pattern != [] {
      HasWildcardIff(pattern[1..]);
      if !LiteralChars(pattern[1..]) {
        var k :| 0 <= k < |pattern| - 1 && (pattern[1..][k] == '*' || pattern[1..][k] == '?' || pattern[1..][k] == '\\');
        assert pattern[k + 1] == pattern[1..][k];
      }
      if LiteralChars(pattern[1..]) && !HasWildcard(pattern) {
        forall k | 0 <= k < |pattern| ensures pattern[k] != '*' && pattern[k] != '?' && pattern[k] != '\\' {
          if k > 0 {
            assert pattern[k] == pattern[1..][k - 1];
          }
        }
      }
    }
  }

  /** A rooted literal pattern is a `/` followed by characters none of which is `*`, `?` or `\`. */
  lemma IsRootedLiteralIff(pattern: string)
    ensures IsRootedLiteralPattern(pattern) <==> pattern != [] && pattern[0] == Sep && LiteralChars(pattern)
  {
    HasWildcardIff(pattern);
  }

  /** `s.startsWith(prefix)`. */
  predicate StartsWith(s: string, prefix: string) {
    |prefix| <= |s| && s[..|prefix|] == prefix
  }

  /** The pattern without its leading `/`, if it has one. */
  function Normalized(pattern: string): string {
    if pattern != [] && pattern[0] == Sep then pattern[1..] else pattern
  }

  /** `matchRootedLiteralPattern`. */
  predicate MatchRootedLiteralPattern(pattern: string, path: string) {
    var normalized := Normalized(pattern);
    if |path| == |normalized| then path == normalized
    else if normalized != [] && normalized[|normalized| - 1] == Sep then StartsWith(path, normalized)
    else |path| > |normalized| && path[|normalized|] == Sep && StartsWith(path, normalized)
  }

  /**
   * The fast path accepts the normalized pattern itself and, when it names a
   * directory (ends with `/`), everything under it; otherwise the pattern
   * itself or anything below it, after a `/`.
   */
  lemma MatchRootedLiteralMeaning(pattern: string, path: string)
    ensures var n := Normalized(pattern);
      if n != [] && n[|n| - 1] == Sep
      then MatchRootedLiteralPattern(pattern, path) <==> StartsWith(path, n)
      else MatchRootedLiteralPattern(pattern, path) <==> path == n || StartsWith(path, n + [Sep])
  {
    var n := Normalized(pattern);
    if StartsWith(path, n + [Sep]) {
      assert path[..|n|] == (n + [Sep])[..|n|] == n;
      assert path[|n|] == (n + [Sep])[|n|];
    }
    if |path| > |n| && path[|n|] == Sep && StartsWith(path, n) {
      assert path[..|n| + 1] == path[..|n|] + [path[|n|]];
    }
  }

  // ---------------------------------------------------------------------------
  // What the compiler makes of a rooted literal pattern.

  /** No piece of a literal text, cut at `sep`, holds a wildcard or escape character. */
  lemma {:induction false} JoinLiteral(segs: seq<string>, sep: char)
    requires LiteralChars(Join(segs, sep))
    ensures forall k :: 0 <= k < |segs| ==> LiteralChars(segs[k])
    decreases |segs|
  {
    if |segs| >= 2 {
      var j := Join(segs, sep);
      var rest := Join(segs[1..], sep);
      assert j == segs[0] + [sep] + rest;
      forall k | 0 <= k < |segs[0]| ensures segs[0][k] != '*' && segs[0][k] != '?' && segs[0][k] != '\\' {
        assert segs[0][k] == j[k];
      }
      forall k | 0 <= k < |rest| ensures rest[k] != '*' && rest[k] != '?' && rest[k] != '\\' {
        assert rest[k] == j[|segs[0]| + 1 + k];
      }
      JoinLiteral(segs[1..], sep);
      forall k | 1 <= k < |segs| ensures LiteralChars(segs[k]) {
        assert segs[k] == segs[1..][k - 1];
      }
    }
  }

  /** A literal segment is neither `*` nor `**`, and its tokens are its characters. */
  lemma LiteralSegment(seg: string)
    requires LiteralChars(seg)
    ensures seg != "*" && seg != "**"
    ensures SegmentChars(seg, false) == Chars(seg)
  {
    assert seg == [] || seg[0] != '*';
    PlainChars(seg);
  }

  /** The token that closes a rooted literal: `.*` after a trailing `/`, `(?:/.*)?` otherwise. */
  function Closing(dir: bool): Token {
    if dir then AnyStar else OptDescendants
  }

  /** A literal segment after the first, not the last one, emits a `/` and its characters. */
  lemma InnerLiteralTokens(seg: string, i: nat, last: int)
    requires LiteralChars(seg) && i != last
    ensures SegmentTokens(seg, i, last, true) == ([Char(Sep)] + Chars(seg), true)
  {
    LiteralSegment(seg);
    assert [Char(Sep)] + Chars(seg) + [] == [Char(Sep)] + Chars(seg);
  }

  /** The first literal segment emits its characters, and `(?:/.*)?` when it is also the last. */
  lemma FirstLiteralTokens(seg: string, last: int)
    requires LiteralChars(seg)
    ensures SegmentTokens(seg, 0, last, false) == (Chars(seg) + (if last == 0 then [OptDescendants] else []), true)
  {
    LiteralSegment(seg);
    assert [] + Chars(seg) == Chars(seg);
  }

  /** The last literal segment emits a `/`, its characters and `(?:/.*)?`. */
  lemma LastLiteralTokens(seg: string, i: nat)
    requires LiteralChars(seg)
    ensures SegmentTokens(seg, i, i, true) == ([Char(Sep)] + Chars(seg) + [OptDescendants], true)
  {
    LiteralSegment(seg);
  }

  lemma CharsRegroup(seg: string, rest: string, fin: Token)
    ensures [Char(Sep)] + Chars(seg) + (Chars([Sep] + rest) + [fin]) == Chars([Sep] + (seg + [Sep] + rest)) + [fin]
  {
    var x := seg + [Sep] + rest;
    CharsAppend([Sep], x);
    assert Chars([Sep]) == [Char(Sep)];
    CharsJoin(seg, rest, fin);
    Assoc([Char(Sep)], Chars(x), [fin]);
    Assoc([Char(Sep)], Chars(seg), Chars([Sep] + rest) + [fin]);
  }

  /** The segments of a rooted literal from the second on, as the compiler emits them. */
  lemma {:induction false} EmitLiteralFrom(segs: seq<string>, emitted: seq<string>, dir: bool, i: nat)
    requires 1 <= i < |segs|
    requires forall k :: 0 <= k < |segs| ==> LiteralChars(segs[k])
    requires dir ==> segs[|segs| - 1] == []
    requires emitted == if dir then segs[|segs| - 1 := "**"] else segs
    ensures EmitFrom(emitted, i, true) == Chars([Sep] + Join(segs[i..], Sep)) + [Closing(dir)]
    decreases |segs| - i
  {
    if i == |segs| - 1 {
      EmitLiteralLast(segs, emitted, dir);
    } else {
      EmitLiteralFrom(segs, emitted, dir, i + 1);
      EmitLiteralStep(segs, emitted, dir, i);
    }
  }

  lemma EmitLiteralLast(segs: seq<string>, emitted: seq<string>, dir: bool)
    requires 1 <= |segs| - 1 && LiteralChars(segs[|segs| - 1])
    requires dir ==> segs[|segs| - 1] == []
    requires emitted == if dir then segs[|segs| - 1 := "**"] else segs
    ensures EmitFrom(emitted, |segs| - 1, true) == Chars([Sep] + Join(segs[|segs| - 1..], Sep)) + [Closing(dir)]
  {
    var i := |segs| - 1;
    EmitFromUnfold(emitted, i, true);
    assert segs[i..] == [segs[i]];
    CharsAppend([Sep], segs[i]);
    assert Chars([Sep]) == [Char(Sep)];
    if dir {
      assert emitted[i] == "**";
    } else {
      LastLiteralTokens(segs[i], i);
    }
  }

  lemma EmitLiteralStep(segs: seq<string>, emitted: seq<string>, dir: bool, i: nat)
    requires 1 <= i < |segs| - 1 && LiteralChars(segs[i])
    requires emitted == if dir then segs[|segs| - 1 := "**"] else segs
    requires EmitFrom(emitted, i + 1, true) == Chars([Sep] + Join(segs[i + 1..], Sep)) + [Closing(dir)]
    ensures EmitFrom(emitted, i, true) == Chars([Sep] + Join(segs[i..], Sep)) + [Closing(dir)]
  {
    EmitFromUnfold(emitted, i, true);
    assert emitted[i] == segs[i];
    InnerLiteralTokens(segs[i], i, |emitted| - 1);
    assert segs[i..] == [segs[i]] + segs[i + 1..];
    JoinCons(segs[i], segs[i + 1..], Sep);
    CharsRegroup(segs[i], Join(segs[i + 1..], Sep), Closing(dir));
  }

  /** All segments of a rooted literal, as the compiler emits them. */
  lemma EmitLiteral(segs: seq<string>, emitted: seq<string>, dir: bool)
    requires |segs| >= 1
    requires forall k :: 0 <= k < |segs| ==> LiteralChars(segs[k])
    requires dir ==> |segs| >= 2 && segs[|segs| - 1] == []
    requires emitted == if dir then segs[|segs| - 1 := "**"] else segs
    ensures EmitFrom(emitted, 0, false) == Chars(Join(segs, Sep)) + [Closing(dir)]
  {
    if |segs| == 1 {
      EmitLiteralOnly(segs, emitted, dir);
    } else {
      EmitLiteralFrom(segs, emitted, dir, 1);
      EmitLiteralFirst(segs, emitted, dir);
    }
  }

  lemma EmitLiteralOnly(segs: seq<string>, emitted: seq<string>, dir: bool)
    requires |segs| == 1 && LiteralChars(segs[0]) && !dir && emitted == segs
    ensures EmitFrom(emitted, 0, false) == Chars(Join(segs, Sep)) + [Closing(dir)]
  {
    EmitFromUnfold(emitted, 0, false);
    FirstLiteralTokens(segs[0], 0);
  }

  lemma EmitLiteralFirst(segs: seq<string>, emitted: seq<string>, dir: bool)
    requires |segs| >= 2 && LiteralChars(segs[0])
    requires emitted == if dir then segs[|segs| - 1 := "**"] else segs
    requires EmitFrom(emitted, 1, true) == Chars([Sep] + Join(segs[1..], Sep)) + [Closing(dir)]
    ensures EmitFrom(emitted, 0, false) == Chars(Join(segs, Sep)) + [Closing(dir)]
  {
    EmitFromUnfold(emitted, 0, false);
    assert emitted[0] == segs[0];
    FirstLiteralTokens(segs[0], |emitted| - 1);
    assert Chars(segs[0]) + [] == Chars(segs[0]);
    JoinCons(segs[0], segs[1..], Sep);
    assert [segs[0]] + segs[1..] == segs;
    CharsJoin(segs[0], Join(segs[1..], Sep), Closing(dir));
  }

  lemma CharsJoin(seg: string, rest: string, fin: Token)
    ensures Chars(seg) + (Chars([Sep] + rest) + [fin]) == Chars(seg + [Sep] + rest) + [fin]
  {
    CharsAppend(seg, [Sep] + rest);
    Assoc(seg, [Sep], rest);
    Assoc(Chars(seg), Chars([Sep] + rest), [fin]);
  }

  lemma Assoc<T>(a: seq<T>, b: seq<T>, c: seq<T>)
    ensures a + (b + c) == a + b + c
  {
  }

  /** The last piece of `n` cut at `/` is empty exactly when `n` ends with `/`. */
  lemma LastPiece(n: string)
    requires n != []
    ensures var segs := Split(n, Sep);
      (|segs| >= 2 && segs[|segs| - 1] == []) <==> n[|n| - 1] == Sep
  {
    var segs := Split(n, Sep);
    SplitPieces(n, Sep);
    if |segs| == 1 {
      assert n == segs[0];
      assert n[|n| - 1] in segs[0];
    } else {
      LastPieceOfMany(segs, n);
    }
  }

  lemma LastPieceOfMany(segs: seq<string>, n: string)
    requires |segs| >= 2 && Join(segs, Sep) == n && Sep !in segs[|segs| - 1]
    ensures n != [] && (segs[|segs| - 1] == [] <==> n[|n| - 1] == Sep)
  {
    var front := segs[..|segs| - 1];
    var last := segs[|segs| - 1];
    JoinLast(segs, front, last);
    EndsWithPiece(Join(front, Sep), last, n);
  }

  lemma JoinLast(segs: seq<string>, front: seq<string>, last: string)
    requires |segs| >= 2 && front == segs[..|segs| - 1] && last == segs[|segs| - 1]
    ensures Join(segs, Sep) == Join(front, Sep) + [Sep] + last
  {
    JoinAppend(front, [last], Sep);
    assert front + [last] == segs;
    assert Join([last], Sep) == last;
  }

  lemma EndsWithPiece(front: string, last: string, n: string)
    requires n == front + [Sep] + last && Sep !in last
    ensures n != [] && (last == [] <==> n[|n| - 1] == Sep)
  {
    if last != [] {
      assert n[|n| - 1] == last[|last| - 1];
      assert last[|last| - 1] in last;
    }
  }

  /**
   * A rooted literal pattern `/n` compiles to the characters of `n` followed
   * by `.*` when `n` ends with `/`, and by `(?:/.*)?` otherwise.
   */
  lemma RootedLiteralTokens(n: string)
    requires n != [] && LiteralChars(n)
    ensures Compile([Sep] + n) == Success(Chars(n) + [if n[|n| - 1] == Sep then AnyStar else OptDescendants])
  {
    var p := [Sep] + n;
    assert !HasTripleAsterisk(p) by {
      forall k | 0 <= k < |p| ensures p[k] != '*' {
        if k > 0 {
          assert p[k] == n[k - 1];
        }
      }
      NoTripleIn(p);
    }
    assert p != "/" by {
      assert |p| >= 2;
    }
    CompileIsEmit(p);
    assert [] + [Sep] + n == p;
    SplitAppend([], n, Sep);
    var segs := Split(n, Sep);
    assert Split(p, Sep) == [[]] + segs;
    assert ([[]] + segs)[1..] == segs;
    SplitPieces(n, Sep);
    JoinLiteral(segs, Sep);
    LastPiece(n);
    var dir := |segs| >= 2 && segs[|segs| - 1] == [];
    var emitted := if dir then segs[|segs| - 1 := "**"] else segs;
    assert Rewrite(Split(p, Sep)) == emitted;
    EmitLiteral(segs, emitted, dir);
  }

  // ---------------------------------------------------------------------------
  // The fast path against the compiled matcher.

  /** Literal characters followed by one token: the path starts with them and the token takes the rest. */
  lemma CharsThen(n: string, t: Token, s: string)
    ensures InLanguage(Chars(n) + [t], s) <==> StartsWith(s, n) && Consumes(t, s[|n|..])
  {
    InLanguageConcat(Chars(n), [t], s);
    if InLanguage(Chars(n) + [t], s) {
      var k :| 0 <= k <= |s| && InLanguage(Chars(n), s[..k]) && InLanguage([t], s[k..]);
      InLanguageChars(n, s[..k]);
      InLanguageSingle(t, s[k..]);
    }
    if StartsWith(s, n) && Consumes(t, s[|n|..]) {
      InLanguageChars(n, s[..|n|]);
      InLanguageSingle(t, s[|n|..]);
    }
  }

  /** What the compiled form of a rooted literal `/n` matches. */
  lemma RootedLiteralLanguage(n: string, s: string)
    requires n != [] && LiteralChars(n)
    ensures Compile([Sep] + n).Success?
    ensures if n[|n| - 1] == Sep
      then Matches(Compile([Sep] + n).value, s) <==> StartsWith(s, n)
      else Matches(Compile([Sep] + n).value, s) <==> s == n || StartsWith(s, n + [Sep])
  {
    RootedLiteralTokens(n);
    var t := if n[|n| - 1] == Sep then AnyStar else OptDescendants;
    MatchesIsInLanguage(Chars(n) + [t], s);
    CharsThen(n, t, s);
    if StartsWith(s, n + [Sep]) {
      assert s[..|n|] == (n + [Sep])[..|n|];
      assert s[|n|..][0] == s[|n|] == (n + [Sep])[|n|];
    }
    if StartsWith(s, n) && s[|n|..] != [] && s[|n|..][0] == Sep {
      assert s[..|n| + 1] == s[..|n|] + [s[|n|]];
    }
  }

  /**
   * For every rooted literal pattern other than `/`, the fast path accepts
   * exactly the paths the compiled pattern matches.
   */
  lemma FastPathAgrees(pattern: string, path: string)
    requires IsRootedLiteralPattern(pattern) && pattern != "/"
    ensures Compile(pattern).Success?
    ensures MatchRootedLiteralPattern(pattern, path) <==> Matches(Compile(pattern).value, path)
  {
    IsRootedLiteralIff(pattern);
    var n := pattern[1..];
    assert pattern == [Sep] + n;
    assert n != [] by {
      assert pattern != [Sep];
    }
    assert LiteralChars(n) by {
      forall k | 0 <= k < |n| ensures n[k] != '*' && n[k] != '?' && n[k] != '\\' {
        assert n[k] == pattern[k + 1];
      }
    }
    RootedLiteralLanguage(n, path);
    MatchRootedLiteralMeaning(pattern, path);
  }

  /**
   * For `/` the two disagree: the compiled pattern matches only the empty
   * path, while the fast path also accepts every path that starts with `/`.
   */
  lemma RootPatternDiverges(path: string)
    ensures IsRootedLiteralPattern("/")
    ensures MatchRootedLiteralPattern("/", path) <==> path == [] || path[0] == Sep
    ensures Matches(Compile("/").value, path) <==> path == []
  {
    var root: string := "/";
    assert root[0] == Sep && root[1..] == [] && !HasWildcard(root[1..]);
    EdgeCases("/", path);
  }

  /** `filenameMatch`: the fast path for rooted literal patterns, the compiled matcher otherwise. */
  predicate FilenameMatch(rule: Rule, path: string) {
    if IsRootedLiteralPattern(rule.pattern) then MatchRootedLiteralPattern(rule.pattern, path)
    else Matches(rule.regexPattern, path)
  }

  /** For a rule `parseLine` produced, other than `/`, the fast path changes nothing. */
  lemma FilenameMatchCompiled(rule: Rule, path: string)
    requires Compile(rule.pattern) == Success(rule.regexPattern) && rule.pattern != "/"
    ensures FilenameMatch(rule, path) <==> Matches(rule.regexPattern, path)
  {
    if IsRootedLiteralPattern(rule.pattern) {
      FastPathAgrees(rule.pattern, path);
    }
  }

  /** The index of the first rule that covers `path`, if any: the loop over the rules up to its `break`. */
  function FirstMatch(rules: seq<Rule>, path: string): (r: Option<nat>)
    ensures r.Some? ==> r.value < |rules| && FilenameMatch(rules[r.value], path)
    ensures r.Some? ==> forall k :: 0 <= k < r.value ==> !FilenameMatch(rules[k], path)
    ensures r.None? <==> forall k :: 0 <= k < |rules| ==> !FilenameMatch(rules[k], path)
    decreases |rules|
  {
    if rules == [] then None
    else if FilenameMatch(rules[0], path) then Some(0)
    else match FirstMatch(rules[1..], path)
      case None => None
      case Some(i) => Some(i + 1)
  }

  /** No element of `s` occurs twice. */
  predicate NoDup<T(==)>(s: seq<T>) {
    forall i, j :: 0 <= i < j < |s| ==> s[i] != s[j]
  }

  /** `Set.prototype.add` on a set kept in insertion order. */
  function AddOne<T(==,!new)>(s: seq<T>, x: T): (r: seq<T>)
    ensures forall y :: y in r <==> y in s || y == x
    ensures |s| <= |r| <= |s| + 1 && r[..|s|] == s
    ensures NoDup(s) ==> NoDup(r)
  {
    if x in s then s else s + [x]
  }

  /**
   * The elements of `xs` that are not in `seen`, read from the front, each
   * kept at its first occurrence only.
   */
  function FirstSeen<T(==)>(seen: seq<T>, xs: seq<T>): seq<T>
    decreases |xs|
  {
    if xs == [] then []
    else if xs[0] in seen then FirstSeen(seen, xs[1..])
    else [xs[0]] + FirstSeen(seen + [xs[0]], xs[1..])
  }

  /** One more element at the back is kept when neither `seen` nor the elements kept so far hold it. */
  lemma {:induction false} FirstSeenSnoc<T>(seen: seq<T>, xs: seq<T>, x: T)
    ensures FirstSeen(seen, xs + [x]) ==
      FirstSeen(seen, xs) + (if x in seen + FirstSeen(seen, xs) then [] else [x])
    decreases |xs|
  {
    if xs == [] {
      assert [] + [x] == [x];
    } else {
      var h, t := xs[0], xs[1..];
      assert (xs + [x])[0] == h && (xs + [x])[1..] == t + [x];
      if h in seen {
        FirstSeenSnoc(seen, t, x);
      } else {
        FirstSeenSnoc(seen + [h], t, x);
        assert seen + [h] + FirstSeen(seen + [h], t) == seen + ([h] + FirstSeen(seen + [h], t));
      }
    }
  }

  /**
   * Each element of `xs` added in turn, as `forEach` with `add` does: the
   * elements of `xs` not yet in `s` are appended once each, in the order of
   * their first occurrence in `xs`.
   */
  function AddAll<T(==,!new)>(s: seq<T>, xs: seq<T>): (r: seq<T>)
    ensures r == s + FirstSeen(s, xs)
    ensures forall y :: y in r <==> y in s || y in xs
    ensures |s| <= |r| && r[..|s|] == s
    ensures NoDup(s) ==> NoDup(r)
    decreases |xs|
  {
    if xs == [] then s
    else
      var init := xs[..|xs| - 1];
      assert xs == init + [xs[|xs| - 1]];
      FirstSeenSnoc(s, init, xs[|xs| - 1]);
      AddOne(AddAll(s, init), xs[|xs| - 1])
  }

  /** What `findMatchingCodeOwners` returns: the owners one by one, and the owner lists. */
  datatype Owners = Owners(individual: seq<string>, grouped: seq<seq<string>>)

  /**
   * The paths in order; for each, the first rule that covers it has its
   * owners sorted, the sorted list added to the groups and its owners added
   * one by one to the individual owners. `rules` are the rules as they were on
   * entry; sorting twice is sorting once, so a rule that wins twice gives the
   * same group both times.
   */
  function Resolve(paths: seq<string>, rules: seq<Rule>): Owners
    decreases |paths|
  {
    if paths == [] then Owners([], [])
    else
      var before := Resolve(paths[..|paths| - 1], rules);
      match FirstMatch(rules, paths[|paths| - 1])
      case None => before
      case Some(i) =>
        var g := SortOwners(rules[i].owners);
        Owners(AddAll(before.individual, g), AddOne(before.grouped, g))
  }

  /** For each path in turn, the first rule that covers it. */
  function FirstMatches(paths: seq<string>, rules: seq<Rule>): (r: seq<Option<nat>>)
    ensures |r| == |paths|
    decreases |paths|
  {
    if paths == [] then [] else FirstMatches(paths[..|paths| - 1], rules) + [FirstMatch(rules, paths[|paths| - 1])]
  }

  lemma {:induction false} FirstMatchesAt(paths: seq<string>, rules: seq<Rule>, q: nat)
    requires q < |paths|
    ensures FirstMatches(paths, rules)[q] == FirstMatch(rules, paths[q])
    decreases |paths|
  {
    var init := paths[..|paths| - 1];
    var r := FirstMatches(paths, rules);
    assert r == FirstMatches(init, rules) + [FirstMatch(rules, paths[|paths| - 1])];
    if q < |init| {
      FirstMatchesAt(init, rules, q);
      assert init[q] == paths[q];
      assert r[q] == FirstMatches(init, rules)[q];
    }
  }

  /** Rule `i` is the first to cover one of `paths`. */
  predicate Winner(paths: seq<string>, rules: seq<Rule>, i: nat) {
    Some(i) in FirstMatches(paths, rules)
  }

  /** Rule `i` wins exactly when it is the first to cover some path. */
  lemma WinnerIff(paths: seq<string>, rules: seq<Rule>, i: nat)
    ensures Winner(paths, rules, i) <==> exists q :: 0 <= q < |paths| && FirstMatch(rules, paths[q]) == Some(i)
  {
    if Winner(paths, rules, i) {
      var q :| 0 <= q < |paths| && FirstMatches(paths, rules)[q] == Some(i);
      FirstMatchesAt(paths, rules, q);
    }
    if exists q :: 0 <= q < |paths| && FirstMatch(rules, paths[q]) == Some(i) {
      var q :| 0 <= q < |paths| && FirstMatch(rules, paths[q]) == Some(i);
      FirstMatchesAt(paths, rules, q);
    }
  }

  lemma WinnerStep(paths: seq<string>, rules: seq<Rule>, i: nat)
    requires paths != []
    ensures Winner(paths, rules, i) <==>
      Winner(paths[..|paths| - 1], rules, i) || FirstMatch(rules, paths[|paths| - 1]) == Some(i)
  {
  }

  /** Neither result holds an element twice. */
  lemma {:induction false} ResolveNoDup(paths: seq<string>, rules: seq<Rule>)
    ensures NoDup(Resolve(paths, rules).individual) && NoDup(Resolve(paths, rules).grouped)
    decreases |paths|
  {
    if paths != [] {
      ResolveNoDup(paths[..|paths| - 1], rules);
    }
  }

  /** An owner is listed exactly when it owns, in the rules as given, a rule that wins some path. */
  lemma {:induction false} ResolveIndividual(paths: seq<string>, rules: seq<Rule>, o: string)
    ensures o in Resolve(paths, rules).individual <==>
      exists i :: 0 <= i < |rules| && Winner(paths, rules, i) && o in rules[i].owners
    decreases |paths|
  {
    if paths != [] {
      var init := paths[..|paths| - 1];
      ResolveIndividual(init, rules, o);
      forall i | 0 <= i < |rules| {
        WinnerStep(paths, rules, i);
      }
      match FirstMatch(rules, paths[|paths| - 1])
      case None =>
      case Some(j) =>
        SortOwnersCorrect(rules[j].owners);
        assert o in SortOwners(rules[j].owners) <==> o in multiset(rules[j].owners);
    }
  }

  /** A group is listed exactly when it is the sorted owners of a rule that wins some path. */
  lemma {:induction false} ResolveGrouped(paths: seq<string>, rules: seq<Rule>, g: seq<string>)
    ensures g in Resolve(paths, rules).grouped <==>
      exists i :: 0 <= i < |rules| && Winner(paths, rules, i) && g == SortOwners(rules[i].owners)
    decreases |paths|
  {
    if paths != [] {
      var init := paths[..|paths| - 1];
      ResolveGrouped(init, rules, g);
      forall i | 0 <= i < |rules| {
        WinnerStep(paths, rules, i);
      }
    }
  }

  /** Every group is in order and holds exactly the owners of the rule it came from. */
  lemma ResolveGroupsSorted(paths: seq<string>, rules: seq<Rule>, g: seq<string>)
    requires g in Resolve(paths, rules).grouped
    ensures IsSorted(g)
    ensures exists i :: 0 <= i < |rules| && Winner(paths, rules, i) && multiset(g) == multiset(rules[i].owners)
  {
    ResolveGrouped(paths, rules, g);
    var i :| 0 <= i < |rules| && Winner(paths, rules, i) && g == SortOwners(rules[i].owners);
    SortOwnersCorrect(rules[i].owners);
  }

  /** The individual owners are exactly the owners found in the groups. */
  lemma IndividualFromGroups(paths: seq<string>, rules: seq<Rule>, o: string)
    ensures o in Resolve(paths, rules).individual <==> exists g :: g in Resolve(paths, rules).grouped && o in g
  {
    ResolveIndividual(paths, rules, o);
    if o in Resolve(paths, rules).individual {
      var i :| 0 <= i < |rules| && Winner(paths, rules, i) && o in rules[i].owners;
      var g := SortOwners(rules[i].owners);
      ResolveGrouped(paths, rules, g);
      SortOwnersCorrect(rules[i].owners);
      assert o in multiset(g);
    }
    if exists g :: g in Resolve(paths, rules).grouped && o in g {
      var g :| g in Resolve(paths, rules).grouped && o in g;
      ResolveGrouped(paths, rules, g);
      var i :| 0 <= i < |rules| && Winner(paths, rules, i) && g == SortOwners(rules[i].owners);
      SortOwnersCorrect(rules[i].owners);
      assert o in multiset(rules[i].owners);
    }
  }

  /** Later paths only append: both results keep the order of first appearance. */
  lemma {:induction false} ResolvePrefix(paths: seq<string>, rules: seq<Rule>, k: nat)
    requires k <= |paths|
    ensures var a := Resolve(paths[..k], rules); var b := Resolve(paths, rules);
      |a.individual| <= |b.individual| && b.individual[..|a.individual|] == a.individual &&
      |a.grouped| <= |b.grouped| && b.grouped[..|a.grouped|] == a.grouped
    decreases |paths| - k
  {
    if k < |paths| {
      var init := paths[..|paths| - 1];
      assert paths[..k] == init[..k];
      ResolvePrefix(init, rules, k);
    } else {
      assert paths[..k] == paths;
    }
  }

  /** A path that no rule covers adds nothing. */
  lemma ResolveUncovered(paths: seq<string>, rules: seq<Rule>, path: string)
    requires forall k :: 0 <= k < |rules| ==> !FilenameMatch(rules[k], path)
    ensures Resolve(paths + [path], rules) == Resolve(paths, rules)
  {
    assert (paths + [path])[..|paths|] == paths;
  }

  /**
   * With the rules of a file, the rule that wins a path is, of all the rules
   * that cover it, the one written last in the file.
   */
  lemma LaterLineWins(fileContent: string, errors: seq<int>, path: string, k: nat)
    requires var rules := FileRules(fileContent, errors);
      k < |rules| && FilenameMatch(rules[k], path)
    ensures var rules := FileRules(fileContent, errors);
      FirstMatch(rules, path).Some? &&
      (k == FirstMatch(rules, path).value || rules[k].lineNumber < rules[FirstMatch(rules, path).value].lineNumber)
  {
    FileRulesReversed(fileContent, errors);
  }

  /** Rule `obj` is the record of a rule that wins one of `paths`. */
  predicate Won(paths: seq<string>, values: seq<Rule>, objs: seq<CodeOwnerRule>, obj: CodeOwnerRule) {
    exists i :: 0 <= i < |objs| && Winner(paths, values, i) && objs[i] == obj
  }

  lemma WonStep(paths: seq<string>, values: seq<Rule>, objs: seq<CodeOwnerRule>, obj: CodeOwnerRule)
    requires paths != [] && |values| == |objs|
    ensures Won(paths, values, objs, obj) <==>
      Won(paths[..|paths| - 1], values, objs, obj) ||
      (FirstMatch(values, paths[|paths| - 1]).Some? && objs[FirstMatch(values, paths[|paths| - 1]).value] == obj)
  {
    forall i | 0 <= i < |objs| {
      WinnerStep(paths, values, i);
    }
  }

  /** Whether a rule covers a path does not depend on its owners. */
  lemma MatchIgnoresOwners(a: Rule, b: Rule, path: string)
    requires a.pattern == b.pattern && a.regexPattern == b.regexPattern
    ensures FilenameMatch(a, path) == FilenameMatch(b, path)
  {
  }

  /** A path whose first covering rule is `j` adds that rule's sorted owners. */
  lemma ResolveCovered(paths: seq<string>, rules: seq<Rule>, j: nat)
    requires paths != [] && FirstMatch(rules, paths[|paths| - 1]) == Some(j)
    ensures var before := Resolve(paths[..|paths| - 1], rules);
      var g := SortOwners(rules[j].owners);
      Resolve(paths, rules) == Owners(AddAll(before.individual, g), AddOne(before.grouped, g))
  {
  }

  /** Two places in `objs` holding the same record hold the same value in `values`. */
  predicate Coherent(values: seq<Rule>, objs: seq<CodeOwnerRule>) {
    |values| == |objs| &&
    forall k, m :: 0 <= k < |objs| && 0 <= m < |objs| && objs[k] == objs[m] ==> values[k] == values[m]
  }

  /** The owners record `k` holds once `paths` are resolved: sorted if it won a path, as given otherwise. */
  function Expected(paths: seq<string>, values: seq<Rule>, objs: seq<CodeOwnerRule>, k: nat): seq<string>
    requires k < |values| == |objs|
  {
    if Won(paths, values, objs, objs[k]) then SortOwners(values[k].owners) else values[k].owners
  }

  /** Sorting what a record is expected to hold gives the sorted owners of its rule, whether or not it won a path. */
  lemma ExpectedSorted(paths: seq<string>, values: seq<Rule>, objs: seq<CodeOwnerRule>, k: nat)
    requires k < |values| == |objs|
    ensures SortOwners(Expected(paths, values, objs, k)) == SortOwners(values[k].owners)
  {
    SortOwnersIdempotent(values[k].owners);
  }

  lemma ExpectedCovered(paths: seq<string>, values: seq<Rule>, objs: seq<CodeOwnerRule>, j: nat, k: nat)
    requires paths != [] && Coherent(values, objs) && j < |objs| && k < |objs|
    requires FirstMatch(values, paths[|paths| - 1]) == Some(j)
    ensures Expected(paths, values, objs, k) ==
      if objs[k] == objs[j] then SortOwners(values[j].owners) else Expected(paths[..|paths| - 1], values, objs, k)
  {
    WonStep(paths, values, objs, objs[k]);
  }

  lemma ExpectedUncovered(paths: seq<string>, values: seq<Rule>, objs: seq<CodeOwnerRule>, k: nat)
    requires paths != [] && |values| == |objs| && k < |objs|
    requires FirstMatch(values, paths[|paths| - 1]) == None
    ensures Expected(paths, values, objs, k) == Expected(paths[..|paths| - 1], values, objs, k)
  {
    WonStep(paths, values, objs, objs[k]);
  }

  /** The inner loop of `findMatchingCodeOwners`: the first rule record that covers `path`, up to the `break`. */
  method FindRule(path: string, codeOwnerRules: seq<CodeOwnerRule>) returns (found: Option<nat>)
    ensures found == FirstMatch(Values(codeOwnerRules), path)
  {
    ghost var values := Values(codeOwnerRules);
    found := None;
    var j := 0;
    while j < |codeOwnerRules|
      invariant 0 <= j <= |codeOwnerRules| && found == None
      invariant forall k :: 0 <= k < j ==> !FilenameMatch(values[k], path)
    {
      if FilenameMatch(codeOwnerRules[j].Value(), path) {
        found := Some(j);
        break;
      }
      j := j + 1;
    }
  }

  /** `rule.owners.forEach((owner) => uniqueOwners.add(owner))`. */
  method AddOwners(uniqueOwners: seq<string>, owners: seq<string>) returns (r: seq<string>)
    ensures r == AddAll(uniqueOwners, owners)
  {
    r := uniqueOwners;
    var x := 0;
    while x < |owners|
      invariant 0 <= x <= |owners|
      invariant r == AddAll(uniqueOwners, owners[..x])
    {
      assert owners[..x + 1][..x] == owners[..x];
      r := AddOne(r, owners[x]);
      x := x + 1;
    }
    assert owners[..x] == owners;
  }

  /**
   * One turn of the outer loop of `findMatchingCodeOwners`: the first record
   * that covers `path` has its owners sorted in place and added to both sets.
   * Stated against `Resolve` and `Expected` for the paths seen so far.
   */
  method ResolvePath(path: string, codeOwnerRules: seq<CodeOwnerRule>, ghost values: seq<Rule>, ghost seen: seq<string>,
                     uniqueOwners: seq<string>, uniqueGroups: seq<seq<string>>)
    returns (owners: seq<string>, groups: seq<seq<string>>)
    requires Coherent(values, codeOwnerRules)
    requires forall k :: 0 <= k < |codeOwnerRules| ==>
      values[k].pattern == codeOwnerRules[k].pattern && values[k].regexPattern == codeOwnerRules[k].regexPattern
    requires Owners(uniqueOwners, uniqueGroups) == Resolve(seen, values)
    requires forall k :: 0 <= k < |codeOwnerRules| ==> codeOwnerRules[k].owners == Expected(seen, values, codeOwnerRules, k)
    modifies set r | r in codeOwnerRules
    ensures Owners(owners, groups) == Resolve(seen + [path], values)
    ensures forall k :: 0 <= k < |codeOwnerRules| ==>
      codeOwnerRules[k].owners == Expected(seen + [path], values, codeOwnerRules, k)
  {
    ghost var paths := seen + [path];
    assert paths[..|paths| - 1] == seen && paths[|paths| - 1] == path;
    var found := FindRule(path, codeOwnerRules);
    MatchesStable(values, codeOwnerRules, path);
    match found
    case Some(j) =>
      var rule := codeOwnerRules[j];
      ExpectedSorted(seen, values, codeOwnerRules, j);
      rule.owners := SortOwners(rule.owners);
      groups := AddOne(uniqueGroups, rule.owners);
      owners := AddOwners(uniqueOwners, rule.owners);
      ResolveCovered(paths, values, j);
      forall k | 0 <= k < |codeOwnerRules|
        ensures codeOwnerRules[k].owners == Expected(paths, values, codeOwnerRules, k)
      {
        ExpectedCovered(paths, values, codeOwnerRules, j, k);
      }
    case None =>
      owners, groups := uniqueOwners, uniqueGroups;
      forall k | 0 <= k < |codeOwnerRules|
        ensures codeOwnerRules[k].owners == Expected(paths, values, codeOwnerRules, k)
      {
        ExpectedUncovered(paths, values, codeOwnerRules, k);
      }
  }

  /**
   * `findMatchingCodeOwners`: returns what `Resolve` gives for the rules as
   * they were on entry, and leaves each rule record that won a path with its
   * owners sorted and every other record as it was.
   */
  method FindMatchingCodeOwners(changedFilePaths: seq<string>, codeOwnerRules: seq<CodeOwnerRule>)
    returns (individual: seq<string>, grouped: seq<seq<string>>)
    modifies set r | r in codeOwnerRules
    ensures Owners(individual, grouped) == Resolve(changedFilePaths, old(Values(codeOwnerRules)))
    ensures forall k :: 0 <= k < |codeOwnerRules| ==>
      codeOwnerRules[k].owners ==
        if Won(changedFilePaths, old(Values(codeOwnerRules)), codeOwnerRules, codeOwnerRules[k])
        then SortOwners(old(codeOwnerRules[k].owners)) else old(codeOwnerRules[k].owners)
  {
    ghost var values := Values(codeOwnerRules);
    assert Coherent(values, codeOwnerRules);
    assert forall k :: 0 <= k < |codeOwnerRules| ==> values[k].owners == codeOwnerRules[k].owners;
    var uniqueGroups: seq<seq<string>> := [];
    var uniqueOwners: seq<string> := [];
    var p := 0;
    assert changedFilePaths[..p] == [];
    forall k | 0 <= k < |codeOwnerRules|
      ensures codeOwnerRules[k].owners == Expected(changedFilePaths[..p], values, codeOwnerRules, k)
    {
      ExpectedNoPaths(values, codeOwnerRules, k);
    }
    while p < |changedFilePaths|
      invariant 0 <= p <= |changedFilePaths|
      invariant Owners(uniqueOwners, uniqueGroups) == Resolve(changedFilePaths[..p], values)
      invariant forall k :: 0 <= k < |codeOwnerRules| ==>
        codeOwnerRules[k].owners == Expected(changedFilePaths[..p], values, codeOwnerRules, k)
    {
      TakeSnoc(changedFilePaths, p);
      uniqueOwners, uniqueGroups :=
        ResolvePath(changedFilePaths[p], codeOwnerRules, values, changedFilePaths[..p], uniqueOwners, uniqueGroups);
      p := p + 1;
    }
    assert changedFilePaths[..p] == changedFilePaths;
    forall k | 0 <= k < |codeOwnerRules|
      ensures codeOwnerRules[k].owners ==
        if Won(changedFilePaths, values, codeOwnerRules, codeOwnerRules[k])
        then SortOwners(values[k].owners) else values[k].owners
    {
      assert codeOwnerRules[k].owners == Expected(changedFilePaths, values, codeOwnerRules, k);
    }
    individual := uniqueOwners;
    grouped := uniqueGroups;
  }

  /** Before any path, every record holds its owners as given. */
  lemma ExpectedNoPaths(values: seq<Rule>, objs: seq<CodeOwnerRule>, k: nat)
    requires k < |values| == |objs|
    ensures Expected([], values, objs, k) == values[k].owners
  {
  }

  lemma TakeSnoc(s: seq<string>, p: nat)
    requires p < |s|
    ensures s[..p + 1] == s[..p] + [s[p]]
  {
  }

  /** Two rule lists that cover `path` at the same places give it the same first rule. */
  lemma FirstMatchSame(a: seq<Rule>, b: seq<Rule>, path: string)
    requires |a| == |b| && forall k :: 0 <= k < |a| ==> FilenameMatch(a[k], path) == FilenameMatch(b[k], path)
    ensures FirstMatch(a, path) == FirstMatch(b, path)
  {
    var x, y := FirstMatch(a, path), FirstMatch(b, path);
    if x.Some? && y.Some? {
      assert !(x.value < y.value) && !(y.value < x.value);
    }
  }

  /** Sorting owners in place leaves which rule covers a path as it was. */
  lemma MatchesStable(values: seq<Rule>, objs: seq<CodeOwnerRule>, path: string)
    requires |values| == |objs|
    requires forall k :: 0 <= k < |objs| ==>
      values[k].pattern == objs[k].pattern && values[k].regexPattern == objs[k].regexPattern
    ensures FirstMatch(Values(objs), path) == FirstMatch(values, path)
  {
    var now := Values(objs);
    forall k | 0 <= k < |objs|
      ensures FilenameMatch(now[k], path) == FilenameMatch(values[k], path)
    {
      MatchIgnoresOwners(now[k], values[k], path);
    }
    FirstMatchSame(now, values, path);
  }
}
