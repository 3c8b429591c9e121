/**
 * What compiled patterns match: the promises of the CODEOWNERS pattern syntax
 * (anchoring, matching at any depth, descendant matching, trailing slashes,
 * wildcards and escapes), proved about `Compile` for all patterns of a shape.
 */
module PatternProperties {
  import opened Text
  import opened Regex
  import opened Results
  import opened ParsePattern

  /** A segment with no separator and no wildcard or escape character: it stands for itself. */
  predicate PlainName(n: string) {
    n != [] && forall i :: 0 <= i < |n| ==> n[i] != Sep && n[i] != '*' && n[i] != '?' && n[i] != '\\'
  }

  /**
   * `n` occurs in `s` as one whole path segment: it starts the path or follows
   * a separator that ends a non-empty leading directory part, and it ends the
   * path or is followed by a separator.
   */
  predicate SegmentAt(n: string, s: string, i: nat) {
    i + |n| <= |s| && s[i..i + |n|] == n &&
    (i == 0 || (i >= 2 && s[i - 1] == Sep)) &&
    (i + |n| == |s| || s[i + |n|] == Sep)
  }

  ghost predicate HasSegment(n: string, s: string) {
    exists i: nat :: SegmentAt(n, s, i)
  }

  // ---------------------------------------------------------------------------
  // Error cases and the pattern "/".

  /** `***` is rejected before anything else, the empty pattern next, and "/" matches only "". */
  lemma {:induction false} EdgeCases(p: string, s: string)
    ensures HasTripleAsterisk(p) ==> Compile(p) == Failure(TripleAsterisk)
    ensures p == [] ==> Compile(p) == Failure(EmptyPattern)
    ensures Compile("/").Success? && (Matches(Compile("/").value, s) <==> s == [])
  {
    assert Compile("/") == Success([]);
    MatchesIsInLanguage([], s);
  }

  /** Gluing on a part that cannot extend a run of asterisks across the seam creates no `***`. */
  lemma TripleAsteriskAppend(a: string, b: string)
    requires a == [] || b == [] || a[|a| - 1] != '*' || b[0] != '*'
    requires !HasTripleAsterisk(b)
    ensures HasTripleAsterisk(a + b) <==> HasTripleAsterisk(a)
  {
    var s := a + b;
    if HasTripleAsterisk(a) {
      var i :| 0 <= i && i + 2 < |a| && a[i] == '*' && a[i + 1] == '*' && a[i + 2] == '*';
      assert s[i] == '*' && s[i + 1] == '*' && s[i + 2] == '*';
    } else {
      forall i | 0 <= i && i + 2 < |s|
        ensures !(s[i] == '*' && s[i + 1] == '*' && s[i + 2] == '*')
      {
        if i + 2 < |a| {
          assert s[i] == a[i] && s[i + 1] == a[i + 1] && s[i + 2] == a[i + 2];
        } else if i >= |a| {
          var j := i - |a|;
          assert s[i] == b[j] && s[i + 1] == b[j + 1] && s[i + 2] == b[j + 2];
        } else {
          // the run would contain the last character of `a` and the first of `b`
          assert s[|a| - 1] == a[|a| - 1] && s[|a|] == b[0];
          assert i <= |a| - 1 && |a| <= i + 2;
        }
      }
    }
  }

  lemma NoTripleInSlashGlobstar()
    ensures !HasTripleAsterisk("/**")
  {
    var b := "/**";
    forall i | 0 <= i && i + 2 < |b| ensures b[i] != '*' {
      assert i == 0;
    }
  }

  // ---------------------------------------------------------------------------
  // Single-segment patterns match at any depth, as a whole segment.

  lemma {:induction false} PlainChars(n: string)
    requires forall i :: 0 <= i < |n| ==> n[i] != '*' && n[i] != '?' && n[i] != '\\'
    ensures SegmentChars(n, false) == Chars(n)
    decreases |n|
  {
    if n != [] {
      PlainChars(n[1..]);
    }
  }

  /** A pattern of one segment (not `*` or `**`) gets a leading `**` segment and descendants behind. */
  lemma CompileSingleSegment(g: string)
    requires g != [] && Sep !in g && g != "*" && g != "**" && !HasTripleAsterisk(g)
    ensures Compile(g) == Success([OptPrefixDirs] + SegmentChars(g, false) + [OptDescendants])
  {
    SplitNoSep(g, Sep);
    assert g != "/" by { assert Sep in "/"; }
    CompileIsEmit(g);
    assert Rewrite([g]) == ["**", g];
    SingleEmit(g);
  }

  lemma SingleEmit(g: string)
    requires g != "*" && g != "**"
    ensures EmitFrom(["**", g], 0, false) == [OptPrefixDirs] + SegmentChars(g, false) + [OptDescendants]
  {
    var segs := ["**", g];
    SingleLastStep(g);
    EmitFromUnfold(segs, 0, false);
    assert SegmentTokens(segs[0], 0, 1, false) == ([OptPrefixDirs], false);
  }

  lemma SingleLastStep(g: string)
    requires g != "*" && g != "**"
    ensures EmitFrom(["**", g], 1, false) == SegmentChars(g, false) + [OptDescendants]
  {
    var segs := ["**", g];
    var body := SegmentChars(g, false);
    EmitFromUnfold(segs, 1, false);
    assert segs[1] == g;
    assert SegmentTokens(g, 1, 1, false).0 == [] + body + [OptDescendants];
    assert EmitFrom(segs, 2, true) == [];
    AppendEmpty(body + [OptDescendants]);
  }

  lemma SegmentLanguage(n: string, s: string)
    ensures InLanguage([OptPrefixDirs] + Chars(n) + [OptDescendants], s) <==> HasSegment(n, s)
  {
    if InLanguage([OptPrefixDirs] + Chars(n) + [OptDescendants], s) {
      SegmentLanguageElim(n, s);
    }
    if HasSegment(n, s) {
      var i: nat :| SegmentAt(n, s, i);
      SegmentLanguageIntro(n, s, i);
    }
  }

  lemma SegmentLanguageElim(n: string, s: string)
    requires InLanguage([OptPrefixDirs] + Chars(n) + [OptDescendants], s)
    ensures HasSegment(n, s)
  {
    var x, z := SegmentParts(n, s);
    SegmentAtParts(n, x, z);
  }

  /** The three pieces of a path the tokens of a single-segment pattern match. */
  lemma SegmentParts(n: string, s: string) returns (x: string, z: string)
    requires InLanguage([OptPrefixDirs] + Chars(n) + [OptDescendants], s)
    ensures s == x + n + z && Consumes(OptPrefixDirs, x) && Consumes(OptDescendants, z)
  {
    var y;
    x, y, z := Concat3Elim([OptPrefixDirs], Chars(n), [OptDescendants], s);
    InLanguageSingle(OptPrefixDirs, x);
    InLanguageChars(n, y);
    InLanguageSingle(OptDescendants, z);
  }

  lemma SegmentAtParts(n: string, x: string, z: string)
    requires Consumes(OptPrefixDirs, x) && Consumes(OptDescendants, z)
    ensures SegmentAt(n, x + n + z, |x|)
  {
    var s := x + n + z;
    assert s[|x|..|x| + |n|] == n;
    if x != [] {
      assert s[|x| - 1] == x[|x| - 1];
    }
    if z != [] {
      assert s[|x| + |n|] == z[0];
    }
  }

  lemma SegmentLanguageIntro(n: string, s: string, i: nat)
    requires SegmentAt(n, s, i)
    ensures InLanguage([OptPrefixDirs] + Chars(n) + [OptDescendants], s)
  {
    var x, z := s[..i], s[i + |n|..];
    assert s == x + n + z by {
      assert s == s[..i] + s[i..i + |n|] + s[i + |n|..];
    }
    assert Consumes(OptPrefixDirs, x) by {
      if i > 0 { assert x[|x| - 1] == s[i - 1]; }
    }
    assert Consumes(OptDescendants, z) by {
      if z != [] { assert z[0] == s[i + |n|]; }
    }
    PartsSegmentLanguage(n, x, z);
  }

  lemma PartsSegmentLanguage(n: string, x: string, z: string)
    requires Consumes(OptPrefixDirs, x) && Consumes(OptDescendants, z)
    ensures InLanguage([OptPrefixDirs] + Chars(n) + [OptDescendants], x + n + z)
  {
    InLanguageSingle(OptPrefixDirs, x);
    InLanguageChars(n, n);
    InLanguageSingle(OptDescendants, z);
    Concat3Intro([OptPrefixDirs], Chars(n), [OptDescendants], x, n, z);
  }

  /**
   * A plain name without a slash matches exactly the paths that have it as a
   * whole segment at any depth: `foo` matches `bar/foo` and `bar/foo/baz`, not
   * `foo.txt` or `bar/foo.txt`.
   */
  lemma UnanchoredName(n: string, s: string)
    requires PlainName(n)
    ensures Compile(n).Success?
    ensures Matches(Compile(n).value, s) <==> HasSegment(n, s)
  {
    assert n[0] != '*';
    assert forall c :: c in n ==> c != Sep;
    CompileSingleSegment(n);
    PlainChars(n);
    MatchesIsInLanguage(Compile(n).value, s);
    SegmentLanguage(n, s);
  }

  /**
   * The expression an unanchored name compiles to, as source text between `^`
   * and `$`: any leading directories, the name with its metacharacters and
   * separators escaped, then any descendants; reading the escaped name back
   * gives the name.
   */
  lemma UnanchoredNameSource(n: string)
    requires PlainName(n)
    ensures Compile(n).Success?
    ensures var e := LiteralSource(n);
      Body(Compile(n).value) == "(?:.+\\/)?" + e + "(?:\\/.*)?" && Unescape(e) == n
  {
    assert n[0] != '*';
    assert forall c :: c in n ==> c != Sep;
    CompileSingleSegment(n);
    PlainChars(n);
    AnyDepthBody(Chars(n));
    UnescapeChars(n);
  }


  // ---------------------------------------------------------------------------
  // Wildcards match within one segment: `?` one character, `*` any run.

  /** Part of a segment with no separator and no wildcard or escape character; it may be empty. */
  predicate PlainPart(u: string) {
    forall i :: 0 <= i < |u| ==> u[i] != Sep && u[i] != '*' && u[i] != '?' && u[i] != '\\'
  }

  /** What may come before a segment matched at any depth: nothing, or a non-empty directory part and a slash. */
  predicate LeadingDirs(x: string) {
    x == [] || (|x| >= 2 && x[|x| - 1] == Sep)
  }

  /**
   * `s` is a leading directory part `x`, then one whole segment made of `u`,
   * a run `w` without separator and `v`, then a descendant part `z`.
   */
  predicate WildSegment(u: string, v: string, s: string, x: string, w: string, z: string) {
    LeadingDirs(x) && NoSep(w) && Descendant(z) && s == x + u + w + v + z
  }

  /**
   * A name with one `?` matches exactly the paths with a whole segment, at
   * any depth, made of the text before the `?`, one character other than a
   * slash, and the text after it: `f?o` matches `a/fxo/b`, not `fo` or `fxxo`.
   */
  lemma OneCharWildcard(u: string, v: string, s: string)
    requires PlainPart(u) && PlainPart(v)
    ensures Compile(u + "?" + v).Success?
    ensures Matches(Compile(u + "?" + v).value, s) <==> exists x, w, z :: WildSegment(u, v, s, x, w, z) && |w| == 1
  {
    assert [WildChar(true)] == "?";
    WildcardTokens(u, v, true);
    var ts := [OptPrefixDirs] + (Chars(u) + [NotSep] + Chars(v)) + [OptDescendants];
    MatchesIsInLanguage(ts, s);
    WildLanguage(u, v, true, s);
  }

  /**
   * A name with one `*` and some other character matches exactly the paths
   * with a whole segment, at any depth, made of the text before the `*`, any
   * run of characters other than a slash, and the text after it: `f*o`
   * matches `fo` and `a/fxyo`, not `fx/o`.
   */
  lemma StarWildcard(u: string, v: string, s: string)
    requires PlainPart(u) && PlainPart(v) && u + v != []
    ensures Compile(u + "*" + v).Success?
    ensures Matches(Compile(u + "*" + v).value, s) <==> exists x, w, z :: WildSegment(u, v, s, x, w, z)
  {
    assert [WildChar(false)] == "*";
    WildcardTokens(u, v, false);
    var ts := [OptPrefixDirs] + (Chars(u) + [NotSepStar] + Chars(v)) + [OptDescendants];
    MatchesIsInLanguage(ts, s);
    WildLanguage(u, v, false, s);
  }

  /** The wildcard character, and the token it compiles to. */
  function WildChar(one: bool): char {
    if one then '?' else '*'
  }

  function WildToken(one: bool): Token {
    if one then NotSep else NotSepStar
  }

  lemma WildcardTokens(u: string, v: string, one: bool)
    requires PlainPart(u) && PlainPart(v) && (one || u + v != [])
    ensures Compile(u + [WildChar(one)] + v) ==
      Success([OptPrefixDirs] + (Chars(u) + [WildToken(one)] + Chars(v)) + [OptDescendants])
  {
    var g := u + [WildChar(one)] + v;
    WildSegmentShape(u, v, one);
    CompileSingleSegment(g);
    WildSegmentChars(u, v, one);
  }

  /** The segment is neither `*` nor `**`, holds no slash and no `***`. */
  lemma WildSegmentShape(u: string, v: string, one: bool)
    requires PlainPart(u) && PlainPart(v) && (one || u + v != [])
    ensures var g := u + [WildChar(one)] + v;
      g != [] && Sep !in g && g != "*" && g != "**" && !HasTripleAsterisk(g)
  {
    var g := u + [WildChar(one)] + v;
    var at := |u|;
    assert forall i :: 0 <= i < |g| && i != at ==> g[i] != Sep && g[i] != '*' by {
      forall i | 0 <= i < |g| && i != at ensures g[i] != Sep && g[i] != '*' {
        if i < at { assert g[i] == u[i]; } else { assert g[i] == v[i - at - 1]; }
      }
    }
    assert g[at] == WildChar(one);
    assert |g| != 2 || g[0] != '*' || g[1] != '*';
    assert forall i :: 0 <= i && i + 2 < |g| ==> g[i] != '*' || g[i + 1] != '*';
  }

  lemma WildSegmentChars(u: string, v: string, one: bool)
    requires PlainPart(u) && PlainPart(v)
    ensures SegmentChars(u + [WildChar(one)] + v, false) == Chars(u) + [WildToken(one)] + Chars(v)
  {
    var t := [WildChar(one)] + v;
    assert u + [WildChar(one)] + v == u + t;
    PlainPrefixChars(u, t);
    assert t[0] == WildChar(one) && t[1..] == v;
    PlainChars(v);
  }

  /** A plain part at the front of a segment gives its literal tokens. */
  lemma {:induction false} PlainPrefixChars(u: string, t: string)
    requires PlainPart(u)
    ensures SegmentChars(u + t, false) == Chars(u) + SegmentChars(t, false)
    decreases |u|
  {
    if u == [] {
      assert u + t == t;
    } else {
      assert (u + t)[0] == u[0] && (u + t)[1..] == u[1..] + t;
      PlainPrefixChars(u[1..], t);
    }
  }

  /** The language of the tokens of a wildcard name, as whole segments at any depth. */
  lemma WildLanguage(u: string, v: string, one: bool, s: string)
    ensures var mid := Chars(u) + [WildToken(one)] + Chars(v);
      InLanguage([OptPrefixDirs] + mid + [OptDescendants], s) <==>
      exists x, w, z :: WildSegment(u, v, s, x, w, z) && (one ==> |w| == 1)
  {
    var mid := Chars(u) + [WildToken(one)] + Chars(v);
    if InLanguage([OptPrefixDirs] + mid + [OptDescendants], s) {
      var x, w, z := WildElim(u, v, one, s);
    }
    if exists x, w, z :: WildSegment(u, v, s, x, w, z) && (one ==> |w| == 1) {
      var x, w, z :| WildSegment(u, v, s, x, w, z) && (one ==> |w| == 1);
      WildIntro(u, v, one, x, w, z);
    }
  }

  lemma WildElim(u: string, v: string, one: bool, s: string) returns (x: string, w: string, z: string)
    requires InLanguage([OptPrefixDirs] + (Chars(u) + [WildToken(one)] + Chars(v)) + [OptDescendants], s)
    ensures WildSegment(u, v, s, x, w, z) && (one ==> |w| == 1)
  {
    var mid := Chars(u) + [WildToken(one)] + Chars(v);
    var y;
    x, y, z := Concat3Elim([OptPrefixDirs], mid, [OptDescendants], s);
    InLanguageSingle(OptPrefixDirs, x);
    InLanguageSingle(OptDescendants, z);
    w := WildMiddle(u, v, one, y);
    Regroup5(x, u, w, v, z);
  }

  /** What the tokens of the name itself matched is `u`, the wildcard's part, and `v`. */
  lemma WildMiddle(u: string, v: string, one: bool, y: string) returns (w: string)
    requires InLanguage(Chars(u) + [WildToken(one)] + Chars(v), y)
    ensures y == u + w + v && NoSep(w) && (one ==> |w| == 1)
  {
    var yu, yv;
    yu, w, yv := Concat3Elim(Chars(u), [WildToken(one)], Chars(v), y);
    InLanguageChars(u, yu);
    InLanguageSingle(WildToken(one), w);
    InLanguageChars(v, yv);
  }

  lemma WildIntro(u: string, v: string, one: bool, x: string, w: string, z: string)
    requires WildSegment(u, v, x + u + w + v + z, x, w, z) && (one ==> |w| == 1)
    ensures InLanguage([OptPrefixDirs] + (Chars(u) + [WildToken(one)] + Chars(v)) + [OptDescendants], x + u + w + v + z)
  {
    var mid := Chars(u) + [WildToken(one)] + Chars(v);
    assert Consumes(WildToken(one), w);
    InLanguageChars(u, u);
    InLanguageSingle(WildToken(one), w);
    InLanguageChars(v, v);
    Concat3Intro(Chars(u), [WildToken(one)], Chars(v), u, w, v);
    InLanguageSingle(OptPrefixDirs, x);
    InLanguageSingle(OptDescendants, z);
    Concat3Intro([OptPrefixDirs], mid, [OptDescendants], x, u + w + v, z);
    Regroup5(x, u, w, v, z);
  }

  lemma Regroup5(x: string, u: string, w: string, v: string, z: string)
    ensures x + (u + w + v) + z == x + u + w + v + z
  {
  }

  // ---------------------------------------------------------------------------
  // A leading slash anchors the pattern at the root.

  lemma LeadingCharSep(ts: seq<Token>, s: string)
    requires ts != [] && ts[0] == Char(Sep) && InLanguage(ts, s)
    ensures s != [] && s[0] == Sep
  {
    var k :| 0 <= k <= |s| && Consumes(ts[0], s[..k]) && InLanguage(ts[1..], s[k..]);
    assert s[..k] == [Sep];
  }

  /** After the first segment, what each later segment matches starts with a separator. */
  lemma {:induction false} LaterSegmentsStartWithSep(segs: seq<string>, i: nat, s: string)
    requires 1 <= i < |segs| && InLanguage(EmitFrom(segs, i, true), s)
    ensures s != [] && s[0] == Sep
    decreases |segs| - i
  {
    if segs[i] == "**" && i != |segs| - 1 {
      InnerGlobstarEmit(segs, i);
      InnerDirsSplit(EmitFrom(segs, i + 1, true), s);
      if !(s != [] && s[0] == Sep) {
        LaterSegmentsStartWithSep(segs, i + 1, s);
      }
    } else {
      LaterLeadingSep(segs, i);
      LeadingCharSep(EmitFrom(segs, i, true), s);
    }
  }

  lemma InnerGlobstarEmit(segs: seq<string>, i: nat)
    requires 1 <= i < |segs| - 1 && segs[i] == "**"
    ensures EmitFrom(segs, i, true) == [OptInnerDirs] + EmitFrom(segs, i + 1, true)
  {
    EmitFromUnfold(segs, i, true);
    assert SegmentTokens(segs[i], i, |segs| - 1, true) == ([OptInnerDirs], true);
  }

  /** What `(?:\/.+)?` and the tokens after it match is either empty there or starts with a separator. */
  lemma InnerDirsSplit(rest: seq<Token>, s: string)
    requires InLanguage([OptInnerDirs] + rest, s)
    ensures (s != [] && s[0] == Sep) || InLanguage(rest, s)
  {
    var k := ConcatElim([OptInnerDirs], rest, s);
    InLanguageSingle(OptInnerDirs, s[..k]);
    if k == 0 {
      assert s[k..] == s;
    } else {
      assert s[0] == s[..k][0];
    }
  }

  lemma LaterLeadingSep(segs: seq<string>, i: nat)
    requires 1 <= i < |segs| && !(segs[i] == "**" && i != |segs| - 1)
    ensures var ts := EmitFrom(segs, i, true); ts != [] && ts[0] == Char(Sep)
  {
    EmitFromUnfold(segs, i, true);
    var step := SegmentTokens(segs[i], i, |segs| - 1, true);
    assert step.0 != [] && step.0[0] == Char(Sep);
    assert (step.0 + EmitFrom(segs, i + 1, step.1))[0] == step.0[0];
  }

  lemma FirstSegmentOf(w: string, z: string)
    requires Sep !in w && (z == [] || z[0] == Sep)
    ensures Split(w + z, Sep)[0] == w
  {
    if z == [] {
      SplitNoSep(w, Sep);
      assert w + z == w;
    } else {
      assert w + z == w + [Sep] + z[1..];
      SplitAppend(w, z[1..], Sep);
      SplitNoSep(w, Sep);
    }
  }

  lemma SplitRooted(w: string, rest: string)
    requires Sep !in w && (rest == [] || rest[0] == Sep)
    ensures var segs := Split([Sep] + w + rest, Sep);
      |segs| >= 2 && segs[0] == [] && segs[1] == w
  {
    var p := [Sep] + w + rest;
    assert p[0] == Sep && p[1..] == w + rest;
    FirstSegmentOf(w, rest);
  }

  /** The tokens of a rooted pattern with a plain first segment: that segment's characters, then the rest. */
  lemma RootedTokens(w: string, rest: string) returns (segs: seq<string>)
    requires PlainName(w) && (rest == [] || rest[0] == Sep)
    requires !HasTripleAsterisk([Sep] + w + rest)
    ensures |segs| >= 1 && segs[0] == w
    ensures Compile([Sep] + w + rest) ==
      Success(Chars(w) + (if |segs| == 1 then [OptDescendants] else EmitFrom(segs, 1, true)))
  {
    var p := [Sep] + w + rest;
    assert Sep !in w by {
      assert forall c :: c in w ==> c != Sep;
    }
    SplitRooted(w, rest);
    assert p != "/" by { assert |p| >= 2; }
    segs := Rewrite(Split(p, Sep));
    RewriteRooted(Split(p, Sep));
    CompileIsEmit(p);
    EmitPlainFirst(segs, w);
  }

  /** The compiled tokens of a pattern that is neither rejected nor "/". */
  lemma CompileIsEmit(p: string)
    requires !HasTripleAsterisk(p) && p != [] && p != "/"
    ensures Compile(p) == Success(EmitFrom(Rewrite(Split(p, Sep)), 0, false))
  {
  }

  lemma RewriteRooted(split: seq<string>)
    requires |split| >= 2 && split[0] == []
    ensures |Rewrite(split)| == |split| - 1 && Rewrite(split)[0] == split[1]
  {
  }

  lemma EmitPlainFirst(segs: seq<string>, w: string)
    requires |segs| >= 1 && segs[0] == w && PlainName(w)
    ensures EmitFrom(segs, 0, false) == Chars(w) + (if |segs| == 1 then [OptDescendants] else EmitFrom(segs, 1, true))
  {
    assert w != "*" && w != "**" by {
      assert w[0] != '*';
    }
    assert forall i :: 0 <= i < |w| ==> w[i] != '*' && w[i] != '?' && w[i] != '\\';
    PlainChars(w);
    var last := |segs| - 1;
    var step := SegmentTokens(w, 0, last, false);
    EmitFromUnfold(segs, 0, false);
    if last == 0 {
      assert step.0 == [] + SegmentChars(w, false) + [OptDescendants];
      assert step.0 == Chars(w) + [OptDescendants];
      assert EmitFrom(segs, 1, true) == [];
      assert EmitFrom(segs, 0, false) == step.0 + [];
      assert step.0 + [] == step.0;
    } else {
      assert step == ([] + SegmentChars(w, false) + [], true);
      assert step.0 == Chars(w);
      assert EmitFrom(segs, 0, false) == step.0 + EmitFrom(segs, 1, true);
    }
  }

  /**
   * A pattern that starts with a slash and a plain first segment `w` matches
   * only paths whose first segment is `w`: `/foo` and `/foo/bar` never match
   * a path that starts `bar/` or `baz/`.
   */
  lemma AnchoredAtRoot(w: string, rest: string, s: string)
    requires PlainName(w) && (rest == [] || rest[0] == Sep)
    requires Compile([Sep] + w + rest).Success? && Matches(Compile([Sep] + w + rest).value, s)
    ensures |w| <= |s| && s[..|w|] == w && (|s| == |w| || s[|w|] == Sep)
    ensures Split(s, Sep)[0] == w
  {
    var segs := RootedTokens(w, rest);
    var after := if |segs| == 1 then [OptDescendants] else EmitFrom(segs, 1, true);
    MatchesIsInLanguage(Chars(w) + after, s);
    var z := RootedRest(w, segs, s);
    PlainNoTriple(w);
    RootedPathShape(w, z);
  }

  /** What the tokens after a plain first segment match starts with a separator, if anything. */
  lemma RootedRest(w: string, segs: seq<string>, s: string) returns (z: string)
    requires |segs| >= 1
    requires InLanguage(Chars(w) + (if |segs| == 1 then [OptDescendants] else EmitFrom(segs, 1, true)), s)
    ensures s == w + z && (z == [] || z[0] == Sep)
  {
    var after := if |segs| == 1 then [OptDescendants] else EmitFrom(segs, 1, true);
    var k := ConcatElim(Chars(w), after, s);
    InLanguageChars(w, s[..k]);
    z := s[k..];
    if |segs| == 1 {
      InLanguageSingle(OptDescendants, z);
    } else {
      LaterSegmentsStartWithSep(segs, 1, z);
    }
    TakeDrop(s, k);
  }

  /** A plain first segment followed by nothing or a separator is the path's first segment. */
  lemma RootedPathShape(w: string, z: string)
    requires Sep !in w && (z == [] || z[0] == Sep)
    ensures var s := w + z; |w| <= |s| && s[..|w|] == w && (|s| == |w| || s[|w|] == Sep)
    ensures Split(w + z, Sep)[0] == w
  {
    var s := w + z;
    assert s[..|w|] == w;
    if z != [] {
      assert s[|w|] == z[0];
    }
    FirstSegmentOf(w, z);
  }

  // ---------------------------------------------------------------------------
  // A trailing slash is a trailing globstar segment.

  lemma SplitLengthOne(p: string)
    ensures |Split(p, Sep)| == 1 ==> Sep !in p
  {
    var segs := Split(p, Sep);
    SplitPieces(p, Sep);
    if |segs| == 1 {
      assert p == Join(segs, Sep) == segs[0];
    }
  }

  /**
   * Once a pattern has a slash, a trailing slash means the same as a trailing
   * slash followed by a `**` segment: `foo/bar/` compiles to the same tokens as
   * `foo/bar/` plus `**`, so it rejects `foo/bar` and accepts `foo/bar/baz`.
   */
  lemma TrailingSlashIsGlobstar(p: string)
    requires Sep in p
    ensures Compile(p + "/") == Compile(p + "/**")
  {
    var dir, globstar := p + "/", p + "/**";
    TripleAsteriskAppend(p, "/");
    NoTripleInSlashGlobstar();
    TripleAsteriskAppend(p, "/**");
    SplitTrailing(p);
    SplitLengthOne(p);
    RewriteTrailing(Split(p, Sep));
    assert dir != "/" && globstar != "/" by {
      assert |dir| >= 2 && |globstar| >= 2;
    }
  }

  lemma SplitTrailing(p: string)
    ensures Split(p + "/", Sep) == Split(p, Sep) + [[]]
    ensures Split(p + "/**", Sep) == Split(p, Sep) + ["**"]
  {
    assert p + "/" == p + [Sep] + [];
    assert p + "/**" == p + [Sep] + "**";
    SplitAppend(p, [], Sep);
    SplitAppend(p, "**", Sep);
    SplitNoSep("**", Sep);
  }

  lemma RewriteTrailing(segs: seq<string>)
    requires |segs| >= 2
    ensures Rewrite(segs + [[]]) == Rewrite(segs + ["**"])
  {
    if segs[0] == [] {
      assert (segs + [[]])[1..] == segs[1..] + [[]];
      assert (segs + ["**"])[1..] == segs[1..] + ["**"];
      assert (segs[1..] + [[]])[|segs| - 1 := "**"] == segs[1..] + ["**"];
    } else {
      assert (segs + [[]])[|segs| := "**"] == segs + ["**"];
    }
  }

  // ---------------------------------------------------------------------------
  // A pattern whose last segment is literal also matches every descendant.

  /** A segment that is neither empty nor a wildcard segment of its own. */
  predicate OrdinarySegment(seg: string) {
    seg != [] && seg != "*" && seg != "**"
  }

  lemma {:induction false} EmitEndsWithDescendants(segs: seq<string>, i: nat, needSlash: bool)
    requires i < |segs| && OrdinarySegment(segs[|segs| - 1])
    ensures var ts := EmitFrom(segs, i, needSlash); ts != [] && ts[|ts| - 1] == OptDescendants
    decreases |segs| - i
  {
    var step := SegmentTokens(segs[i], i, |segs| - 1, needSlash);
    EmitFromUnfold(segs, i, needSlash);
    if i == |segs| - 1 {
      assert EmitFrom(segs, i + 1, step.1) == [];
    } else {
      EmitEndsWithDescendants(segs, i + 1, step.1);
    }
  }

  lemma RewriteKeepsOrdinaryLast(segs: seq<string>)
    requires |segs| >= 1 && OrdinarySegment(segs[|segs| - 1])
    ensures var r := Rewrite(segs); |r| >= 1 && r[|r| - 1] == segs[|segs| - 1]
  {
  }

  /** The compiled tokens of a pattern whose last segment is ordinary end with `(?:/.*)?`. */
  lemma CompiledEndsWithDescendants(p: string)
    requires !HasTripleAsterisk(p) && OrdinarySegment(Split(p, Sep)[|Split(p, Sep)| - 1])
    ensures Compile(p).Success?
    ensures var ts := Compile(p).value; ts != [] && ts[|ts| - 1] == OptDescendants
  {
    var segs := Split(p, Sep);
    OrdinaryLastNotTrivial(p);
    CompileIsEmit(p);
    RewriteKeepsOrdinaryLast(segs);
    EmitEndsWithDescendants(Rewrite(segs), 0, false);
  }

  lemma OrdinaryLastNotTrivial(p: string)
    requires OrdinarySegment(Split(p, Sep)[|Split(p, Sep)| - 1])
    ensures p != [] && p != "/"
  {
    var slash: string := "/";
    assert slash[0] == Sep && slash[1..] == [];
    assert Split(slash, Sep) == [[]] + Split([], Sep);
  }

  lemma DescendantsExtend(z: string, y: string)
    requires Consumes(OptDescendants, z)
    ensures Consumes(OptDescendants, z + ([Sep] + y))
  {
    assert (z + ([Sep] + y))[0] == if z == [] then Sep else z[0];
  }

  lemma RegroupAt(x: string, k: nat, y: string)
    requires k <= |x|
    ensures x + [Sep] + y == x[..k] + (x[k..] + ([Sep] + y))
  {
    assert x == x[..k] + x[k..];
  }

  lemma SplitLast<T>(ts: seq<T>)
    requires ts != []
    ensures ts == ts[..|ts| - 1] + [ts[|ts| - 1]]
  {
  }

  /** Token lists ending in `(?:/.*)?` accept every extension of a match by a slash and anything. */
  lemma DescendantClosure(ts: seq<Token>, x: string, y: string)
    requires ts != [] && ts[|ts| - 1] == OptDescendants && InLanguage(ts, x)
    ensures InLanguage(ts, x + [Sep] + y)
  {
    var front := ts[..|ts| - 1];
    SplitLast(ts);
    var k := ConcatElim(front, [OptDescendants], x);
    var head, tail := x[..k], x[k..];
    InLanguageSingle(OptDescendants, tail);
    DescendantsExtend(tail, y);
    var longer := tail + ([Sep] + y);
    InLanguageSingle(OptDescendants, longer);
    ConcatIntro(front, [OptDescendants], head, longer);
    RegroupAt(x, k, y);
  }

  /**
   * If the last segment of a pattern is literal, a match on a path implies a
   * match on each of its descendants: `foo/bar` matches `foo/bar/baz` too.
   */
  lemma MatchesDescendants(p: string, x: string, y: string)
    requires !HasTripleAsterisk(p) && OrdinarySegment(Split(p, Sep)[|Split(p, Sep)| - 1])
    requires Compile(p).Success? && Matches(Compile(p).value, x)
    ensures Matches(Compile(p).value, x + [Sep] + y)
  {
    CompiledEndsWithDescendants(p);
    var ts := Compile(p).value;
    MatchesIsInLanguage(ts, x);
    DescendantClosure(ts, x, y);
    MatchesIsInLanguage(ts, x + [Sep] + y);
  }

  // ---------------------------------------------------------------------------
  // A lone `*` segment matches exactly one segment.

  lemma NoTripleIn(b: string)
    requires forall i :: 0 <= i < |b| - 1 ==> b[i] != '*' || b[i + 1] != '*'
    ensures !HasTripleAsterisk(b)
  {
  }

  lemma PlainNoTriple(w: string)
    requires PlainName(w)
    ensures !HasTripleAsterisk(w) && Sep !in w && w[0] != '*'
  {
    assert forall c :: c in w ==> c != Sep;
  }

  lemma StarTokens(w: string)
    requires PlainName(w)
    ensures Compile(w + "/*") == Success(Chars(w) + [Char(Sep), NotSepPlus])
  {
    var p := w + "/*";
    StarSplit(w);
    assert p != "/" by { assert |p| >= 3; }
    CompileIsEmit(p);
    var segs := [w, "*"];
    assert Rewrite(segs) == segs;
    StarEmit(w);
  }

  lemma StarSplit(w: string)
    requires PlainName(w)
    ensures !HasTripleAsterisk(w + "/*") && Split(w + "/*", Sep) == [w, "*"]
  {
    PlainNoTriple(w);
    NoTripleIn("/*");
    TripleAsteriskAppend(w, "/*");
    assert w + "/*" == w + [Sep] + "*";
    SplitAppend(w, "*", Sep);
    SplitNoSep(w, Sep);
    SplitNoSep("*", Sep);
  }

  lemma StarEmit(w: string)
    requires PlainName(w)
    ensures EmitFrom([w, "*"], 0, false) == Chars(w) + [Char(Sep), NotSepPlus]
  {
    var segs := [w, "*"];
    EmitPlainFirst(segs, w);
    EmitFromUnfold(segs, 1, true);
    assert SegmentTokens("*", 1, 1, true) == ([Char(Sep)] + [NotSepPlus], true);
    assert EmitFrom(segs, 2, true) == [];
    assert EmitFrom(segs, 1, true) == [Char(Sep), NotSepPlus];
  }

  /** `s` is `w`, a slash and one non-empty segment. */
  predicate ChildOf(w: string, s: string) {
    |s| > |w| + 1 && s[..|w|] == w && s[|w|] == Sep && NoSep(s[|w| + 1..])
  }

  /**
   * A plain name followed by a lone `*` segment matches exactly the direct
   * children of that name: `foo` plus `*` accepts `foo/bar` but not
   * `foo/bar/baz`, `foo` or `foo/`.
   */
  lemma ChildrenOnly(w: string, s: string)
    requires PlainName(w)
    ensures Compile(w + "/*").Success?
    ensures Matches(Compile(w + "/*").value, s) <==> ChildOf(w, s)
  {
    StarTokens(w);
    var ts := Chars(w) + [Char(Sep), NotSepPlus];
    assert Chars([Sep]) == [Char(Sep)];
    assert ts == Chars(w) + Chars([Sep]) + [NotSepPlus];
    MatchesIsInLanguage(ts, s);
    if InLanguage(Chars(w) + Chars([Sep]) + [NotSepPlus], s) {
      ChildrenElim(w, s);
    }
    if ChildOf(w, s) {
      ChildrenIntro(w, s);
    }
  }

  lemma ChildrenElim(w: string, s: string)
    requires InLanguage(Chars(w) + Chars([Sep]) + [NotSepPlus], s)
    ensures ChildOf(w, s)
  {
    var x, y, z := Concat3Elim(Chars(w), Chars([Sep]), [NotSepPlus], s);
    InLanguageChars(w, x);
    InLanguageChars([Sep], y);
    InLanguageSingle(NotSepPlus, z);
    ChildParts(w, z);
  }

  lemma ChildParts(w: string, z: string)
    requires |z| >= 1 && NoSep(z)
    ensures ChildOf(w, w + [Sep] + z)
  {
    var s := w + [Sep] + z;
    assert s[..|w|] == w && s[|w|] == Sep && s[|w| + 1..] == z;
  }

  lemma ChildrenIntro(w: string, s: string)
    requires ChildOf(w, s)
    ensures InLanguage(Chars(w) + Chars([Sep]) + [NotSepPlus], s)
  {
    var z := ChildSplit(w, s);
    InLanguageChars(w, w);
    InLanguageChars([Sep], [Sep]);
    InLanguageSingle(NotSepPlus, z);
    Concat3Intro(Chars(w), Chars([Sep]), [NotSepPlus], w, [Sep], z);
  }

  lemma ChildSplit(w: string, s: string) returns (z: string)
    requires ChildOf(w, s)
    ensures s == w + [Sep] + z && |z| >= 1 && NoSep(z)
  {
    z := s[|w| + 1..];
    assert s == s[..|w|] + s[|w|..|w| + 1] + z;
  }

  // ---------------------------------------------------------------------------
  // An escaped character stands for itself.

  /** Every character preceded by a backslash. */
  function Escape(w: string): (r: string)
    ensures |r| == 2 * |w|
    ensures r != [] ==> r[0] == '\\'
  {
    if w == [] then [] else ['\\', w[0]] + Escape(w[1..])
  }

  /** Position `2i` of the escaped string holds a backslash and position `2i + 1` the `i`-th character. */
  lemma {:induction false} EscapeAt(w: string, i: nat)
    requires i < |w|
    ensures Escape(w)[2 * i] == '\\' && Escape(w)[2 * i + 1] == w[i]
    decreases i
  {
    if i > 0 {
      EscapeAt(w[1..], i - 1);
      assert Escape(w) == ['\\', w[0]] + Escape(w[1..]);
    }
  }

  /** The compiler turns an escaped string back into the literal characters of the string. */
  lemma {:induction false} EscapeIsLiteral(w: string)
    ensures SegmentChars(Escape(w), false) == Chars(w)
    decreases |w|
  {
    if w != [] {
      var e := Escape(w);
      assert e == ['\\', w[0]] + Escape(w[1..]);
      assert e[1..][0] == w[0] && e[1..][1..] == Escape(w[1..]);
      EscapeIsLiteral(w[1..]);
    }
  }

  lemma {:induction false} EscapeNoTriple(w: string)
    ensures !HasTripleAsterisk(Escape(w))
    decreases |w|
  {
    if w != [] {
      var head, rest := ['\\', w[0]], Escape(w[1..]);
      EscapeNoTriple(w[1..]);
      assert !HasTripleAsterisk(head) by {
        assert |head| == 2;
      }
      TripleAsteriskAppend(head, rest);
      assert Escape(w) == head + rest;
    }
  }

  lemma {:induction false} EscapeNoSep(w: string)
    requires Sep !in w
    ensures Sep !in Escape(w)
    decreases |w|
  {
    if w != [] {
      assert Sep !in w[1..] by {
        assert forall c :: c in w[1..] ==> c in w;
      }
      EscapeNoSep(w[1..]);
      assert Escape(w) == ['\\', w[0]] + Escape(w[1..]);
    }
  }

  /**
   * With every character escaped, a pattern is matched literally, as one whole
   * segment at any depth: `f\*o` matches `f*o` and `a/f*o` but not `foo`.
   */
  lemma EscapedName(w: string, s: string)
    requires w != [] && Sep !in w
    ensures Compile(Escape(w)).Success?
    ensures Matches(Compile(Escape(w)).value, s) <==> HasSegment(w, s)
  {
    var e := Escape(w);
    EscapeNoTriple(w);
    EscapeNoSep(w);
    assert e[0] == '\\';
    CompileSingleSegment(e);
    EscapeIsLiteral(w);
    MatchesIsInLanguage(Compile(e).value, s);
    SegmentLanguage(w, s);
  }

  // ---------------------------------------------------------------------------
  // A `**` segment in the middle matches zero or more directories.

  lemma NoTripleInSlashGlobstarSlash()
    ensures !HasTripleAsterisk("/**/")
  {
    var b := "/**/";
    forall i | 0 <= i && i + 2 < |b| ensures !(b[i] == '*' && b[i + 1] == '*' && b[i + 2] == '*') {
      assert i == 0 || i == 1;
    }
  }

  lemma MiddleGlobstarSplit(a: string, b: string)
    requires PlainName(a) && PlainName(b)
    ensures !HasTripleAsterisk(a + "/**/" + b)
    ensures Split(a + "/**/" + b, Sep) == [a, "**", b]
  {
    var p := a + "/**/" + b;
    PlainNoTriple(a);
    PlainNoTriple(b);
    NoTripleInSlashGlobstarSlash();
    TripleAsteriskAppend("/**/", b);
    assert p == a + ("/**/" + b);
    TripleAsteriskAppend(a, "/**/" + b);
    assert p == a + [Sep] + ("**" + [Sep] + b);
    SplitAppend(a, "**" + [Sep] + b, Sep);
    SplitAppend("**", b, Sep);
    SplitNoSep(a, Sep);
    SplitNoSep("**", Sep);
    SplitNoSep(b, Sep);
  }

  lemma MiddleGlobstarTokens(a: string, b: string)
    requires PlainName(a) && PlainName(b)
    ensures Compile(a + "/**/" + b) ==
      Success(Chars(a) + [OptInnerDirs] + Chars([Sep] + b) + [OptDescendants])
  {
    var p := a + "/**/" + b;
    MiddleGlobstarSplit(a, b);
    assert p != "/" by { assert |p| >= 4; }
    CompileIsEmit(p);
    var segs := [a, "**", b];
    assert Rewrite(segs) == segs;
    MiddleGlobstarEmit(a, b);
  }

  lemma MiddleGlobstarEmit(a: string, b: string)
    requires PlainName(a) && PlainName(b)
    ensures EmitFrom([a, "**", b], 0, false) == Chars(a) + [OptInnerDirs] + Chars([Sep] + b) + [OptDescendants]
  {
    var segs := [a, "**", b];
    EmitPlainFirst(segs, a);
    InnerGlobstarEmit(segs, 1);
    EmitPlainLast(segs, b);
    SepChars(b);
    MiddleTokensRegroup(Chars(a), Chars([Sep] + b), Chars(b));
  }

  lemma SepChars(b: string)
    ensures Chars([Sep] + b) == [Char(Sep)] + Chars(b)
  {
    CharsHead([Sep] + b);
    assert ([Sep] + b)[1..] == b;
  }

  lemma MiddleTokensRegroup(ca: seq<Token>, cb: seq<Token>, b: seq<Token>)
    requires cb == [Char(Sep)] + b
    ensures ca + ([OptInnerDirs] + ([Char(Sep)] + b + [OptDescendants])) == ca + [OptInnerDirs] + cb + [OptDescendants]
  {
  }

  /** A plain last segment after a separator contributes a slash, its characters and descendants. */
  lemma EmitPlainLast(segs: seq<string>, b: string)
    requires |segs| >= 2 && segs[|segs| - 1] == b && PlainName(b)
    ensures EmitFrom(segs, |segs| - 1, true) == [Char(Sep)] + Chars(b) + [OptDescendants]
  {
    var last := |segs| - 1;
    EmitFromUnfold(segs, last, true);
    assert b != "*" && b != "**" by {
      assert b[0] != '*';
    }
    assert forall i :: 0 <= i < |b| ==> b[i] != '*' && b[i] != '?' && b[i] != '\\';
    PlainChars(b);
    var step := SegmentTokens(b, last, last, true);
    assert step.0 == [Char(Sep)] + SegmentChars(b, false) + [OptDescendants];
    assert EmitFrom(segs, last + 1, step.1) == [];
    AppendEmpty(step.0);
  }

  /** What a middle `**` stands for: nothing, or a slash and a non-empty part (one or more directories). */
  predicate InnerDirs(d: string) {
    d == [] || (|d| >= 2 && d[0] == Sep)
  }

  /** What may follow the last segment of a match: nothing, or a slash and anything (a descendant). */
  predicate Descendant(z: string) {
    z == [] || z[0] == Sep
  }

  /** `s` is `a`, some directories `d`, a slash, `b`, and a descendant part `z`. */
  predicate ThroughDirs(a: string, b: string, s: string, d: string, z: string) {
    InnerDirs(d) && Descendant(z) && s == a + d + [Sep] + b + z
  }

  /**
   * The segments `a`, `**`, `b` in a row match `a/b` (no directory in
   * between) and `a/m/b` for every non-empty middle part `m`, itself possibly
   * several directories, and nothing else but their descendants: `ax/b` and
   * `a//b` are not matched.
   */
  lemma MiddleGlobstar(a: string, b: string, m: string, s: string)
    requires PlainName(a) && PlainName(b)
    ensures Compile(a + "/**/" + b).Success?
    ensures Matches(Compile(a + "/**/" + b).value, a + "/" + b)
    ensures m != [] ==> Matches(Compile(a + "/**/" + b).value, a + "/" + m + "/" + b)
    ensures Matches(Compile(a + "/**/" + b).value, s) <==> exists d, z :: ThroughDirs(a, b, s, d, z)
  {
    MiddleGlobstarPositive(a, b, m);
    var ts := Chars(a) + [OptInnerDirs] + Chars([Sep] + b) + [OptDescendants];
    MatchesIsInLanguage(ts, s);
    if InLanguage(ts, s) {
      var d, z := MiddleElim(a, b, s);
    }
    if exists d, z :: ThroughDirs(a, b, s, d, z) {
      var d, z :| ThroughDirs(a, b, s, d, z);
      MiddleIntro(a, b, d, z);
    }
  }

  /** The matches with nothing or a non-empty part `m` between `a` and `b`, and no descendant. */
  lemma MiddleGlobstarPositive(a: string, b: string, m: string)
    requires PlainName(a) && PlainName(b)
    ensures Compile(a + "/**/" + b) == Success(Chars(a) + [OptInnerDirs] + Chars([Sep] + b) + [OptDescendants])
    ensures Matches(Compile(a + "/**/" + b).value, a + "/" + b)
    ensures m != [] ==> Matches(Compile(a + "/**/" + b).value, a + "/" + m + "/" + b)
  {
    MiddleGlobstarTokens(a, b);
    var ts := Chars(a) + [OptInnerDirs] + Chars([Sep] + b) + [OptDescendants];
    assert Consumes(OptInnerDirs, []);
    MiddleMatch(a, b, []);
    MiddleGlue(a, b, m);
    MatchesIsInLanguage(ts, a + "/" + b);
    if m != [] {
      assert Consumes(OptInnerDirs, [Sep] + m);
      MiddleMatch(a, b, [Sep] + m);
      MatchesIsInLanguage(ts, a + "/" + m + "/" + b);
    }
  }

  /** A match of the tokens of `a/**/b` cuts into `a`, what `(?:/.+)?` took, `/b` and a descendant part. */
  lemma MiddleElim(a: string, b: string, s: string) returns (d: string, z: string)
    requires InLanguage(Chars(a) + [OptInnerDirs] + Chars([Sep] + b) + [OptDescendants], s)
    ensures ThroughDirs(a, b, s, d, z)
  {
    var x, y;
    x, y, z := Concat3Elim(Chars(a) + [OptInnerDirs], Chars([Sep] + b), [OptDescendants], s);
    d := MiddleHead(a, x);
    InLanguageChars([Sep] + b, y);
    InLanguageSingle(OptDescendants, z);
    MiddleRegroup(a, b, s, x, y, z, d);
  }

  /** What `a(?:/.+)?` matched is `a` and then an inner-directories part. */
  lemma MiddleHead(a: string, x: string) returns (d: string)
    requires InLanguage(Chars(a) + [OptInnerDirs], x)
    ensures x == a + d && InnerDirs(d)
  {
    var k := ConcatElim(Chars(a), [OptInnerDirs], x);
    InLanguageChars(a, x[..k]);
    InLanguageSingle(OptInnerDirs, x[k..]);
    d := x[k..];
    TakeDrop(x, k);
  }

  lemma MiddleRegroup(a: string, b: string, s: string, x: string, y: string, z: string, d: string)
    requires s == x + y + z && x == a + d && y == [Sep] + b
    ensures s == a + d + [Sep] + b + z
  {
    assert s == (a + d) + ([Sep] + b) + z;
  }

  lemma MiddleIntro(a: string, b: string, d: string, z: string)
    requires InnerDirs(d) && Descendant(z)
    ensures InLanguage(Chars(a) + [OptInnerDirs] + Chars([Sep] + b) + [OptDescendants], a + d + [Sep] + b + z)
  {
    assert Consumes(OptInnerDirs, d) && Consumes(OptDescendants, z);
    MiddleFront(a, d);
    InLanguageChars([Sep] + b, [Sep] + b);
    InLanguageSingle(OptDescendants, z);
    Concat3Intro(Chars(a) + [OptInnerDirs], Chars([Sep] + b), [OptDescendants], a + d, [Sep] + b, z);
    Regroup(a + d, b, z);
  }

  lemma MiddleFront(a: string, d: string)
    requires Consumes(OptInnerDirs, d)
    ensures InLanguage(Chars(a) + [OptInnerDirs], a + d)
  {
    InLanguageChars(a, a);
    InLanguageSingle(OptInnerDirs, d);
    ConcatIntro(Chars(a), [OptInnerDirs], a, d);
  }

  lemma Regroup(x: string, b: string, z: string)
    ensures x + ([Sep] + b) + z == x + [Sep] + b + z
  {
  }

  lemma MiddleGlue(a: string, b: string, m: string)
    ensures a + [] + ([Sep] + b) == a + "/" + b
    ensures a + ([Sep] + m) + ([Sep] + b) == a + "/" + m + "/" + b
  {
  }

  /** Whatever `(?:/.+)?` consumes may stand between `a` and `/b`. */
  lemma MiddleMatch(a: string, b: string, d: string)
    requires Consumes(OptInnerDirs, d)
    ensures InLanguage(Chars(a) + [OptInnerDirs] + Chars([Sep] + b) + [OptDescendants], a + d + ([Sep] + b))
  {
    var front := Chars(a) + [OptInnerDirs];
    InLanguageChars(a, a);
    InLanguageChars([Sep] + b, [Sep] + b);
    InLanguageSingle(OptDescendants, []);
    InLanguageSingle(OptInnerDirs, d);
    ConcatIntro(Chars(a), [OptInnerDirs], a, d);
    Concat3Intro(front, Chars([Sep] + b), [OptDescendants], a + d, [Sep] + b, []);
    AppendEmpty(a + d + ([Sep] + b));
  }

  lemma AppendEmpty<T>(s: seq<T>)
    ensures s + [] == s
  {
  }
}
