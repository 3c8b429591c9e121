/**
 * The fragment of JavaScript regular expressions that the pattern compiler
 * emits. A compiled pattern is the anchored expression `^t1 t2 ... tn$`,
 * represented by the token list [t1, ..., tn].
 *
 * Two meanings are given to a token list: `Matches`, a backtracking matcher
 * over positions (what `RegExp.prototype.test` computes for an anchored
 * expression, and which the verifier can evaluate on literal inputs), and
 * `InLanguage`, the declarative language of the expression (a path is in the
 * language when it splits into consecutive pieces, one per token). The lemma
 * `MatchesIsInLanguage` says that the two agree on every input.
 */
module Regex {

  const Sep: char := '/'

  datatype Token =
    | Char(c: char)      // the character itself (escaped when it is a metacharacter)
    | NotSep             // [^/]
    | NotSepStar         // [^/]*
    | NotSepPlus         // [^/]+
    | AnyPlus            // .+
    | AnyStar            // .*
    | OptPrefixDirs      // (?:.+/)?
    | OptInnerDirs       // (?:/.+)?
    | OptDescendants     // (?:/.*)?

  predicate NoSep(w: string) {
    forall i :: 0 <= i < |w| ==> w[i] != Sep
  }

  /** The strings a single token matches, as a whole. */
  predicate Consumes(t: Token, w: string) {
    match t
    case Char(c) => w == [c]
    case NotSep => |w| == 1 && w[0] != Sep
    case NotSepStar => NoSep(w)
    case NotSepPlus => |w| >= 1 && NoSep(w)
    case AnyPlus => |w| >= 1
    case AnyStar => true
    case OptPrefixDirs => w == [] || (|w| >= 2 && w[|w| - 1] == Sep)
    case OptInnerDirs => w == [] || (|w| >= 2 && w[0] == Sep)
    case OptDescendants => w == [] || w[0] == Sep
  }

  /** `s` is the concatenation of pieces, the k-th matched by the k-th token. */
  ghost predicate InLanguage(ts: seq<Token>, s: string)
    decreases |ts|
  {
    if ts == [] then s == []
    else exists k :: 0 <= k <= |s| && Consumes(ts[0], s[..k]) && InLanguage(ts[1..], s[k..])
  }

  /**
   * Backtracking matcher: can the tokens from index `i` on match `s` from index
   * `j` to its end? `phase` records how far a multi-character token has got:
   * 1 (and 2 for `(?:/.+)?`) means the token has already consumed some input.
   */
  function Step(ts: seq<Token>, i: nat, s: string, j: nat, phase: nat): bool
    requires i <= |ts| && j <= |s|
    decreases |s| - j, |ts| - i
  {
    if i == |ts| then j == |s|
    else
      var more := j < |s|;
      match ts[i]
      case Char(c) => more && s[j] == c && Step(ts, i + 1, s, j + 1, 0)
      case NotSep => more && s[j] != Sep && Step(ts, i + 1, s, j + 1, 0)
      case NotSepStar => Step(ts, i + 1, s, j, 0) || (more && s[j] != Sep && Step(ts, i, s, j + 1, 0))
      case NotSepPlus =>
        (phase == 1 && Step(ts, i + 1, s, j, 0)) || (more && s[j] != Sep && Step(ts, i, s, j + 1, 1))
      case AnyPlus => (phase == 1 && Step(ts, i + 1, s, j, 0)) || (more && Step(ts, i, s, j + 1, 1))
      case AnyStar => Step(ts, i + 1, s, j, 0) || (more && Step(ts, i, s, j + 1, 0))
      case OptPrefixDirs =>
        if phase == 0 then Step(ts, i + 1, s, j, 0) || (more && Step(ts, i, s, j + 1, 1))
        else more && ((s[j] == Sep && Step(ts, i + 1, s, j + 1, 0)) || Step(ts, i, s, j + 1, 1))
      case OptInnerDirs =>
        if phase == 0 then Step(ts, i + 1, s, j, 0) || (more && s[j] == Sep && Step(ts, i, s, j + 1, 1))
        else (phase == 2 && Step(ts, i + 1, s, j, 0)) || (more && Step(ts, i, s, j + 1, 2))
      case OptDescendants =>
        if phase == 0 then Step(ts, i + 1, s, j, 0) || (more && s[j] == Sep && Step(ts, i, s, j + 1, 1))
        else Step(ts, i + 1, s, j, 0) || (more && Step(ts, i, s, j + 1, 1))
  }

  /** `new RegExp('^' + source + '$').test(s)` for the expression the tokens stand for. */
  predicate Matches(ts: seq<Token>, s: string) {
    Step(ts, 0, s, 0, 0)
  }

  /** The literal tokens of a string. */
  function Chars(w: string): (r: seq<Token>)
    ensures |r| == |w|
    ensures forall k :: 0 <= k < |w| ==> r[k] == Char(w[k])
  {
    if w == [] then [] else [Char(w[0])] + Chars(w[1..])
  }

  /** The regular-expression source text of the tokens, as `RegExp.prototype.source` shows it. */
  function Source(ts: seq<Token>): string {
    "^" + Body(ts) + "$"
  }

  function Body(ts: seq<Token>): string {
    if ts == [] then [] else Fragment(ts[0]) + Body(ts[1..])
  }

  /** The metacharacters that the compiler escapes with a backslash. */
  predicate IsMeta(c: char) {
    c in ".*+?^${}()|[]\\"
  }

  function Fragment(t: Token): string {
    match t
    case Char(c) => if IsMeta(c) then ['\\', c] else if c == Sep then "\\/" else [c]
    case NotSep => "[^/]"
    case NotSepStar => "[^/]*"
    case NotSepPlus => "[^/]+"
    case AnyPlus => ".+"
    case AnyStar => ".*"
    case OptPrefixDirs => "(?:.+\\/)?"
    case OptInnerDirs => "(?:\\/.+)?"
    case OptDescendants => "(?:\\/.*)?"
  }

  /** The source text of a literal string: its metacharacters and separators escaped. */
  function LiteralSource(w: string): string {
    Body(Chars(w))
  }

  /** Reads back escaped source text: a backslash stands for the character after it. */
  function Unescape(s: string): string
    decreases |s|
  {
    if s == [] then []
    else if s[0] == '\\' && |s| >= 2 then [s[1]] + Unescape(s[2..])
    else [s[0]] + Unescape(s[1..])
  }

  /** The source text of a concatenation is the two source texts one after the other. */
  lemma {:induction false} BodyAppend(a: seq<Token>, b: seq<Token>)
    ensures Body(a + b) == Body(a) + Body(b)
    decreases |a|
  {
    if a != [] {
      assert (a + b)[0] == a[0];
      assert (a + b)[1..] == a[1..] + b;
      BodyAppend(a[1..], b);
      assert Body(a + b) == Fragment(a[0]) + (Body(a[1..]) + Body(b));
    } else {
      assert a + b == b;
    }
  }

  /** The source text (between `^` and `$`) of tokens after an optional directory prefix and before optional descendants. */
  lemma AnyDepthBody(ts: seq<Token>)
    ensures Body([OptPrefixDirs] + ts + [OptDescendants]) == "(?:.+\\/)?" + Body(ts) + "(?:\\/.*)?"
  {
    var p, d := "(?:.+\\/)?", "(?:\\/.*)?";
    assert Body([OptPrefixDirs]) == p by {
      assert [OptPrefixDirs][1..] == [];
    }
    assert Body([OptDescendants]) == d by {
      assert [OptDescendants][1..] == [];
    }
    assert Body([OptPrefixDirs] + ts + [OptDescendants]) == p + Body(ts) + d by {
      BodyAppend([OptPrefixDirs] + ts, [OptDescendants]);
      BodyAppend([OptPrefixDirs], ts);
    }
  }

  /** Every literal character, once escaped, reads back as itself. */
  lemma UnescapeFragment(c: char, rest: string)
    ensures Unescape(Fragment(Char(c)) + rest) == [c] + Unescape(rest)
  {
    var s := Fragment(Char(c)) + rest;
    if IsMeta(c) || c == Sep {
      assert s[0] == '\\' && s[1] == c && s[2..] == rest;
    } else {
      assert c != '\\';
      assert s[0] == c && s[1..] == rest;
    }
  }

  /** Escaping a literal string and reading it back gives the string. */
  lemma {:induction false} UnescapeChars(w: string)
    ensures Unescape(LiteralSource(w)) == w
    decreases |w|
  {
    if w != [] {
      var ts := Chars(w);
      assert ts[0] == Char(w[0]) && ts[1..] == Chars(w[1..]);
      UnescapeFragment(w[0], Body(ts[1..]));
      UnescapeChars(w[1..]);
      assert [w[0]] + w[1..] == w;
    }
  }

  /** A string with no metacharacter and no separator is its own source text. */
  lemma {:induction false} BodyPlain(w: string)
    requires forall k :: 0 <= k < |w| ==> !IsMeta(w[k]) && w[k] != Sep
    ensures LiteralSource(w) == w
    decreases |w|
  {
    if w != [] {
      var ts := Chars(w);
      assert ts[0] == Char(w[0]) && ts[1..] == Chars(w[1..]);
      BodyPlain(w[1..]);
      assert [w[0]] + w[1..] == w;
    }
  }

  // ---------------------------------------------------------------------------
  // The language of a concatenation.

  /** A split point whose two sides match the head token and the rest is a match. */
  lemma InLanguageHead(ts: seq<Token>, s: string, m: nat)
    requires ts != [] && m <= |s|
    requires Consumes(ts[0], s[..m]) && InLanguage(ts[1..], s[m..])
    ensures InLanguage(ts, s)
  {
  }

  lemma {:induction false} ConcatIntro(a: seq<Token>, b: seq<Token>, x: string, y: string)
    requires InLanguage(a, x) && InLanguage(b, y)
    ensures InLanguage(a + b, x + y)
    decreases |a|
  {
    if a == [] {
      assert a + b == b && x + y == y;
    } else {
      var m :| 0 <= m <= |x| && Consumes(a[0], x[..m]) && InLanguage(a[1..], x[m..]);
      ConcatIntro(a[1..], b, x[m..], y);
      SplitAfterHead(a, b, x, y, m);
      InLanguageHead(a + b, x + y, m);
    }
  }

  /** A match of a non-empty token list splits after its head token. */
  lemma InLanguageHeadElim(ts: seq<Token>, s: string) returns (m: nat)
    requires ts != [] && InLanguage(ts, s)
    ensures m <= |s| && Consumes(ts[0], s[..m]) && InLanguage(ts[1..], s[m..])
  {
    m :| 0 <= m <= |s| && Consumes(ts[0], s[..m]) && InLanguage(ts[1..], s[m..]);
  }

  lemma TokensAfterHead(a: seq<Token>, b: seq<Token>)
    requires a != []
    ensures (a + b)[0] == a[0] && (a + b)[1..] == a[1..] + b
  {
  }

  lemma SplitAfterHead(a: seq<Token>, b: seq<Token>, x: string, y: string, m: nat)
    requires a != [] && m <= |x|
    ensures (a + b)[0] == a[0] && (a + b)[1..] == a[1..] + b
    ensures (x + y)[..m] == x[..m] && (x + y)[m..] == x[m..] + y
  {
  }

  lemma {:induction false} ConcatElim(a: seq<Token>, b: seq<Token>, s: string) returns (k: nat)
    requires InLanguage(a + b, s)
    ensures k <= |s| && InLanguage(a, s[..k]) && InLanguage(b, s[k..])
    decreases |a|, 1
  {
    if a == [] {
      EmptyPrefix(a, b, s);
      k := 0;
    } else {
      k := ConcatElimCons(a, b, s);
    }
  }

  lemma {:induction false} ConcatElimCons(a: seq<Token>, b: seq<Token>, s: string) returns (k: nat)
    requires a != [] && InLanguage(a + b, s)
    ensures k <= |s| && InLanguage(a, s[..k]) && InLanguage(b, s[k..])
    decreases |a|, 0
  {
    var m := ConcatHeadElim(a, b, s);
    var n := ConcatElim(a[1..], b, s[m..]);
    PrependHead(a, b, s, m, n);
    k := m + n;
  }

  /** A match of `a + b` with `a` non-empty splits after the head token of `a`. */
  lemma ConcatHeadElim(a: seq<Token>, b: seq<Token>, s: string) returns (m: nat)
    requires a != [] && InLanguage(a + b, s)
    ensures m <= |s| && Consumes(a[0], s[..m]) && InLanguage(a[1..] + b, s[m..])
  {
    TokensAfterHead(a, b);
    m := InLanguageHeadElim(a + b, s);
  }

  /** A head piece followed by a split match of the remaining tokens. */
  lemma PrependHead(a: seq<Token>, b: seq<Token>, s: string, m: nat, n: nat)
    requires a != [] && m <= |s| && n <= |s| - m
    requires Consumes(a[0], s[..m]) && InLanguage(a[1..], s[m..][..n]) && InLanguage(b, s[m..][n..])
    ensures InLanguage(a, s[..m + n]) && InLanguage(b, s[m + n..])
  {
    SliceOfSlice(s, m, n);
    InLanguageHead(a, s[..m + n], m);
  }

  lemma EmptyPrefix(a: seq<Token>, b: seq<Token>, s: string)
    requires a == []
    ensures a + b == b && s[..0] == [] && s[0..] == s
  {
  }

  lemma SliceOfSlice(s: string, m: nat, n: nat)
    requires m + n <= |s|
    ensures s[..m + n][..m] == s[..m] && s[..m + n][m..] == s[m..][..n]
    ensures s[m + n..] == s[m..][n..]
  {
  }

  lemma InLanguageConcat(a: seq<Token>, b: seq<Token>, s: string)
    ensures InLanguage(a + b, s) <==> exists k :: 0 <= k <= |s| && InLanguage(a, s[..k]) && InLanguage(b, s[k..])
  {
    if InLanguage(a + b, s) {
      var k := ConcatElim(a, b, s);
      SplitWitness(a, b, s, k);
    }
    if exists k :: 0 <= k <= |s| && InLanguage(a, s[..k]) && InLanguage(b, s[k..]) {
      var k :| 0 <= k <= |s| && InLanguage(a, s[..k]) && InLanguage(b, s[k..]);
      ConcatIntroAt(a, b, s, k);
    }
  }

  lemma SplitWitness(a: seq<Token>, b: seq<Token>, s: string, k: nat)
    requires k <= |s| && InLanguage(a, s[..k]) && InLanguage(b, s[k..])
    ensures exists k :: 0 <= k <= |s| && InLanguage(a, s[..k]) && InLanguage(b, s[k..])
  {
  }

  lemma ConcatIntroAt(a: seq<Token>, b: seq<Token>, s: string, k: nat)
    requires k <= |s| && InLanguage(a, s[..k]) && InLanguage(b, s[k..])
    ensures InLanguage(a + b, s)
  {
    ConcatIntro(a, b, s[..k], s[k..]);
    TakeDrop(s, k);
  }

  lemma TakeDrop(s: string, k: nat)
    requires k <= |s|
    ensures s[..k] + s[k..] == s
  {
  }

  /** A match of three token lists in a row splits into three matched pieces. */
  lemma Concat3Elim(a: seq<Token>, b: seq<Token>, c: seq<Token>, s: string) returns (x: string, y: string, z: string)
    requires InLanguage(a + b + c, s)
    ensures s == x + y + z && InLanguage(a, x) && InLanguage(b, y) && InLanguage(c, z)
  {
    var k2 := ConcatElim(a + b, c, s);
    var t := s[..k2];
    var k1 := ConcatElim(a, b, t);
    x, y, z := t[..k1], t[k1..], s[k2..];
    assert t == x + y;
    assert s == t + z;
  }

  lemma Concat3Intro(a: seq<Token>, b: seq<Token>, c: seq<Token>, x: string, y: string, z: string)
    requires InLanguage(a, x) && InLanguage(b, y) && InLanguage(c, z)
    ensures InLanguage(a + b + c, x + y + z)
  {
    ConcatIntro(a, b, x, y);
    ConcatIntro(a + b, c, x + y, z);
  }

  lemma InLanguageSingle(t: Token, s: string)
    ensures InLanguage([t], s) <==> Consumes(t, s)
  {
    Singleton(t);
    if InLanguage([t], s) {
      var m := InLanguageHeadElim([t], s);
      assert s[m..] == [];
      assert s[..m] == s;
    }
    if Consumes(t, s) {
      assert s[..|s|] == s && s[|s|..] == [];
      InLanguageHead([t], s, |s|);
    }
  }

  lemma Singleton(t: Token)
    ensures [t] != [] && [t][0] == t && [t][1..] == []
  {
  }

  /** Literal tokens match exactly their own string. */
  lemma {:induction false} InLanguageChars(w: string, s: string)
    ensures InLanguage(Chars(w), s) <==> s == w
    decreases |w|
  {
    if w != [] {
      var ts := Chars(w);
      CharsHead(w);
      if InLanguage(ts, s) {
        var k := InLanguageHeadElim(ts, s);
        InLanguageChars(w[1..], s[k..]);
        assert s[..k] == [w[0]];
        TakeDrop(s, k);
        assert w == [w[0]] + w[1..];
      }
      if s == w {
        InLanguageChars(w[1..], s[1..]);
        assert s[..1] == [w[0]];
        InLanguageHead(ts, s, 1);
      }
    } else {
      assert Chars(w) == [];
    }
  }

  lemma CharsHead(w: string)
    requires w != []
    ensures Chars(w)[0] == Char(w[0]) && Chars(w)[1..] == Chars(w[1..])
  {
  }

  lemma CharsAppend(a: string, b: string)
    ensures Chars(a + b) == Chars(a) + Chars(b)
  {
  }

  // ---------------------------------------------------------------------------
  // Agreement of the matcher with the language.

  ghost predicate Tail(ts: seq<Token>, i: nat, s: string, k: nat)
    requires i < |ts| && k <= |s|
  {
    InLanguage(ts[i + 1..], s[k..])
  }

  /** Token `i` matches `s[j..k]` for some `k` from which the later tokens match the rest. */
  ghost predicate Here(ts: seq<Token>, i: nat, s: string, j: nat)
    requires i < |ts| && j <= |s|
  {
    exists k :: j <= k <= |s| && Consumes(ts[i], s[j..k]) && Tail(ts, i, s, k)
  }

  lemma HereIntro(ts: seq<Token>, i: nat, s: string, j: nat, k: nat)
    requires i < |ts| && j <= k <= |s| && Consumes(ts[i], s[j..k]) && Tail(ts, i, s, k)
    ensures Here(ts, i, s, j)
  {
  }

  lemma HereElim(ts: seq<Token>, i: nat, s: string, j: nat) returns (k: nat)
    requires i < |ts| && j <= |s| && Here(ts, i, s, j)
    ensures j <= k <= |s| && Consumes(ts[i], s[j..k]) && Tail(ts, i, s, k)
  {
    k :| j <= k <= |s| && Consumes(ts[i], s[j..k]) && Tail(ts, i, s, k);
  }

  lemma Unfold(ts: seq<Token>, i: nat, s: string, j: nat)
    requires i < |ts| && j <= |s|
    ensures InLanguage(ts[i..], s[j..]) <==> Here(ts, i, s, j)
  {
    if InLanguage(ts[i..], s[j..]) {
      var k := UnfoldElim(ts, i, s, j);
      HereIntro(ts, i, s, j, k);
    }
    if Here(ts, i, s, j) {
      var k := HereElim(ts, i, s, j);
      UnfoldIntro(ts, i, s, j, k);
    }
  }

  lemma UnfoldElim(ts: seq<Token>, i: nat, s: string, j: nat) returns (k: nat)
    requires i < |ts| && j <= |s| && InLanguage(ts[i..], s[j..])
    ensures j <= k <= |s| && Consumes(ts[i], s[j..k]) && Tail(ts, i, s, k)
  {
    SuffixHead(ts, i);
    var m := InLanguageHeadElim(ts[i..], s[j..]);
    SuffixSlices(s, j, m);
    k := j + m;
  }

  lemma UnfoldIntro(ts: seq<Token>, i: nat, s: string, j: nat, k: nat)
    requires i < |ts| && j <= k <= |s| && Consumes(ts[i], s[j..k]) && Tail(ts, i, s, k)
    ensures InLanguage(ts[i..], s[j..])
  {
    SuffixHead(ts, i);
    SuffixSlices(s, j, k - j);
    InLanguageHead(ts[i..], s[j..], k - j);
  }

  lemma SuffixHead(ts: seq<Token>, i: nat)
    requires i < |ts|
    ensures ts[i..] != [] && ts[i..][0] == ts[i] && ts[i..][1..] == ts[i + 1..]
  {
  }

  lemma SuffixSlices(s: string, j: nat, m: nat)
    requires j + m <= |s|
    ensures s[j..][..m] == s[j..j + m] && s[j..][m..] == s[j + m..]
  {
  }

  /** The first character of a non-empty slice, and the slice after it. */
  lemma SliceCons(s: string, j: nat, k: nat)
    requires j < k <= |s|
    ensures |s[j..k]| == k - j && s[j..k][0] == s[j] && s[j..k][1..] == s[j + 1..k]
  {
  }

  lemma NoSepCons(s: string, j: nat, k: nat)
    requires j < k <= |s|
    ensures NoSep(s[j..k]) <==> s[j] != Sep && NoSep(s[j + 1..k])
  {
    SliceCons(s, j, k);
    var w := s[j..k];
    if s[j] != Sep && NoSep(s[j + 1..k]) {
      forall n | 0 <= n < |w| ensures w[n] != Sep {
        if n > 0 { assert w[n] == w[1..][n - 1]; }
      }
    }
    if NoSep(w) {
      forall n | 0 <= n < |w[1..]| ensures w[1..][n] != Sep {
        assert w[1..][n] == w[n + 1];
      }
    }
  }

  /** The extra condition a multi-character token in `phase` puts on the end `k` of its piece. */
  ghost predicate PhaseEnd(t: Token, s: string, j: nat, k: nat, phase: nat)
    requires j <= k <= |s|
  {
    match t
    case NotSepPlus => NoSep(s[j..k])
    case OptPrefixDirs => j < k && s[k - 1] == Sep
    case OptInnerDirs => phase == 2 || j < k
    case _ => true
  }

  /** The remaining language of a token that has already consumed some input. */
  ghost predicate Phase(ts: seq<Token>, i: nat, s: string, j: nat, phase: nat)
    requires i < |ts| && j <= |s|
  {
    exists k :: j <= k <= |s| && PhaseEnd(ts[i], s, j, k, phase) && Tail(ts, i, s, k)
  }

  lemma PhaseIntro(ts: seq<Token>, i: nat, s: string, j: nat, phase: nat, k: nat)
    requires i < |ts| && j <= k <= |s| && PhaseEnd(ts[i], s, j, k, phase) && Tail(ts, i, s, k)
    ensures Phase(ts, i, s, j, phase)
  {
  }

  lemma PhaseElim(ts: seq<Token>, i: nat, s: string, j: nat, phase: nat) returns (k: nat)
    requires i < |ts| && j <= |s| && Phase(ts, i, s, j, phase)
    ensures j <= k <= |s| && PhaseEnd(ts[i], s, j, k, phase) && Tail(ts, i, s, k)
  {
    k :| j <= k <= |s| && PhaseEnd(ts[i], s, j, k, phase) && Tail(ts, i, s, k);
  }

  lemma {:induction false} MatchesIsInLanguage(ts: seq<Token>, s: string)
    ensures Matches(ts, s) <==> InLanguage(ts, s)
  {
    StepIff(ts, 0, s, 0);
    assert ts[0..] == ts && s[0..] == s;
  }

  lemma {:induction false} StepIff(ts: seq<Token>, i: nat, s: string, j: nat)
    requires i <= |ts| && j <= |s|
    ensures Step(ts, i, s, j, 0) <==> InLanguage(ts[i..], s[j..])
    decreases |s| - j, |ts| - i, 1
  {
    if i == |ts| {
      assert ts[i..] == [];
    } else {
      match ts[i]
      case Char(_) => CharStep(ts, i, s, j);
      case NotSep => NotSepStep(ts, i, s, j);
      case NotSepStar => NotSepStarStep(ts, i, s, j);
      case NotSepPlus => NotSepPlusStep(ts, i, s, j);
      case AnyPlus => AnyPlusStep(ts, i, s, j);
      case AnyStar => AnyStarStep(ts, i, s, j);
      case OptPrefixDirs => OptPrefixDirsStep(ts, i, s, j);
      case OptInnerDirs => OptInnerDirsStep(ts, i, s, j);
      case OptDescendants => OptDescendantsStep(ts, i, s, j);
    }
  }

  // One lemma per token: the matcher's step from phase 0 agrees with the
  // language, given that the recursive calls already agree.

  lemma {:induction false} CharStep(ts: seq<Token>, i: nat, s: string, j: nat)
    requires i < |ts| && j <= |s| && ts[i].Char?
    ensures Step(ts, i, s, j, 0) <==> InLanguage(ts[i..], s[j..])
    decreases |s| - j, |ts| - i, 0
  {
    Unfold(ts, i, s, j);
    var more := j < |s|;
    if more { StepIff(ts, i + 1, s, j + 1); }
    CharCase(ts, i, s, j, more && Step(ts, i + 1, s, j + 1, 0));
  }
  lemma {:induction false} NotSepStep(ts: seq<Token>, i: nat, s: string, j: nat)
    requires i < |ts| && j <= |s| && ts[i].NotSep?
    ensures Step(ts, i, s, j, 0) <==> InLanguage(ts[i..], s[j..])
    decreases |s| - j, |ts| - i, 0
  {
    Unfold(ts, i, s, j);
    var more := j < |s|;
    if more { StepIff(ts, i + 1, s, j + 1); }
    NotSepCase(ts, i, s, j, more && Step(ts, i + 1, s, j + 1, 0));
  }
  lemma {:induction false} NotSepStarStep(ts: seq<Token>, i: nat, s: string, j: nat)
    requires i < |ts| && j <= |s| && ts[i].NotSepStar?
    ensures Step(ts, i, s, j, 0) <==> InLanguage(ts[i..], s[j..])
    decreases |s| - j, |ts| - i, 0
  {
    Unfold(ts, i, s, j);
    var more := j < |s|;
    StepIff(ts, i + 1, s, j);
    if more { StepIff(ts, i, s, j + 1); Unfold(ts, i, s, j + 1); }
    NotSepStarCase(ts, i, s, j, Step(ts, i + 1, s, j, 0), more && Step(ts, i, s, j + 1, 0));
  }
  lemma {:induction false} NotSepPlusStep(ts: seq<Token>, i: nat, s: string, j: nat)
    requires i < |ts| && j <= |s| && ts[i].NotSepPlus?
    ensures Step(ts, i, s, j, 0) <==> InLanguage(ts[i..], s[j..])
    decreases |s| - j, |ts| - i, 0
  {
    Unfold(ts, i, s, j);
    var more := j < |s|;
    if more { PhaseIff(ts, i, s, j + 1, 1); }
    NotSepPlusCase(ts, i, s, j, more && Step(ts, i, s, j + 1, 1));
  }
  lemma {:induction false} AnyPlusStep(ts: seq<Token>, i: nat, s: string, j: nat)
    requires i < |ts| && j <= |s| && ts[i].AnyPlus?
    ensures Step(ts, i, s, j, 0) <==> InLanguage(ts[i..], s[j..])
    decreases |s| - j, |ts| - i, 0
  {
    Unfold(ts, i, s, j);
    var more := j < |s|;
    if more { PhaseIff(ts, i, s, j + 1, 1); }
    AnyPlusCase(ts, i, s, j, more && Step(ts, i, s, j + 1, 1));
  }
  lemma {:induction false} AnyStarStep(ts: seq<Token>, i: nat, s: string, j: nat)
    requires i < |ts| && j <= |s| && ts[i].AnyStar?
    ensures Step(ts, i, s, j, 0) <==> InLanguage(ts[i..], s[j..])
    decreases |s| - j, |ts| - i, 0
  {
    Unfold(ts, i, s, j);
    var more := j < |s|;
    StepIff(ts, i + 1, s, j);
    if more { StepIff(ts, i, s, j + 1); Unfold(ts, i, s, j + 1); }
    AnyStarCase(ts, i, s, j, Step(ts, i + 1, s, j, 0), more && Step(ts, i, s, j + 1, 0));
  }
  lemma {:induction false} OptPrefixDirsStep(ts: seq<Token>, i: nat, s: string, j: nat)
    requires i < |ts| && j <= |s| && ts[i].OptPrefixDirs?
    ensures Step(ts, i, s, j, 0) <==> InLanguage(ts[i..], s[j..])
    decreases |s| - j, |ts| - i, 0
  {
    Unfold(ts, i, s, j);
    var more := j < |s|;
    StepIff(ts, i + 1, s, j);
    if more { PhaseIff(ts, i, s, j + 1, 1); }
    OptPrefixDirsCase(ts, i, s, j, Step(ts, i + 1, s, j, 0), more && Step(ts, i, s, j + 1, 1));
  }
  lemma {:induction false} OptInnerDirsStep(ts: seq<Token>, i: nat, s: string, j: nat)
    requires i < |ts| && j <= |s| && ts[i].OptInnerDirs?
    ensures Step(ts, i, s, j, 0) <==> InLanguage(ts[i..], s[j..])
    decreases |s| - j, |ts| - i, 0
  {
    Unfold(ts, i, s, j);
    var more := j < |s|;
    StepIff(ts, i + 1, s, j);
    if more { PhaseIff(ts, i, s, j + 1, 1); }
    OptInnerDirsCase(ts, i, s, j, Step(ts, i + 1, s, j, 0), more && Step(ts, i, s, j + 1, 1));
  }
  lemma {:induction false} OptDescendantsStep(ts: seq<Token>, i: nat, s: string, j: nat)
    requires i < |ts| && j <= |s| && ts[i].OptDescendants?
    ensures Step(ts, i, s, j, 0) <==> InLanguage(ts[i..], s[j..])
    decreases |s| - j, |ts| - i, 0
  {
    Unfold(ts, i, s, j);
    var more := j < |s|;
    StepIff(ts, i + 1, s, j);
    if more { PhaseIff(ts, i, s, j + 1, 1); }
    OptDescendantsCase(ts, i, s, j, Step(ts, i + 1, s, j, 0), more && Step(ts, i, s, j + 1, 1));
  }
  lemma {:induction false} PhaseIff(ts: seq<Token>, i: nat, s: string, j: nat, phase: nat)
    requires i < |ts| && j <= |s| && 1 <= phase <= 2
    requires ts[i].NotSepPlus? || ts[i].AnyPlus? || ts[i].OptPrefixDirs? || ts[i].OptInnerDirs? || ts[i].OptDescendants?
    requires phase == 2 ==> ts[i].OptInnerDirs?
    ensures Step(ts, i, s, j, phase) <==> Phase(ts, i, s, j, phase)
    decreases |s| - j, |ts| - i, 1
  {
    StepIff(ts, i + 1, s, j);
    var more := j < |s|;
    var stop := Step(ts, i + 1, s, j, 0);
    if more {
      StepIff(ts, i + 1, s, j + 1);
      if ts[i].OptInnerDirs? { PhaseIff(ts, i, s, j + 1, 2); } else { PhaseIff(ts, i, s, j + 1, 1); }
    }
    match ts[i]
    case NotSepPlus => NotSepPhase(ts, i, s, j, stop, more && Step(ts, i, s, j + 1, 1));
    case OptPrefixDirs =>
      PrefixPhase(ts, i, s, j, more && Step(ts, i + 1, s, j + 1, 0), more && Step(ts, i, s, j + 1, 1));
    case OptInnerDirs =>
      if phase == 1 {
        InnerPhaseOne(ts, i, s, j, more && Step(ts, i, s, j + 1, 2));
      } else {
        AnyPhase(ts, i, s, j, 2, stop, more && Step(ts, i, s, j + 1, 2));
      }
    case AnyPlus => AnyPhase(ts, i, s, j, phase, stop, more && Step(ts, i, s, j + 1, phase));
    case OptDescendants => AnyPhase(ts, i, s, j, phase, stop, more && Step(ts, i, s, j + 1, phase));
  }

  // One lemma per token and phase: the step the matcher takes agrees with the
  // language, given that the recursive calls already agree. `stop` stands for
  // the match of the next token at the same position, `next` for the match of
  // the same token one character further on.

  lemma CharCase(ts: seq<Token>, i: nat, s: string, j: nat, next: bool)
    requires i < |ts| && j <= |s| && ts[i].Char?
    requires next ==> j < |s|
    requires j < |s| ==> (next <==> Tail(ts, i, s, j + 1))
    ensures (j < |s| && s[j] == ts[i].c && next) <==> Here(ts, i, s, j)
  {
    if j < |s| && s[j] == ts[i].c && next {
      SliceCons(s, j, j + 1);
      HereIntro(ts, i, s, j, j + 1);
    }
    if Here(ts, i, s, j) {
      var k := HereElim(ts, i, s, j);
      SliceCons(s, j, k);
    }
  }

  lemma NotSepCase(ts: seq<Token>, i: nat, s: string, j: nat, next: bool)
    requires i < |ts| && j <= |s| && ts[i].NotSep?
    requires next ==> j < |s|
    requires j < |s| ==> (next <==> Tail(ts, i, s, j + 1))
    ensures (j < |s| && s[j] != Sep && next) <==> Here(ts, i, s, j)
  {
    if j < |s| && s[j] != Sep && next {
      SliceCons(s, j, j + 1);
      HereIntro(ts, i, s, j, j + 1);
    }
    if Here(ts, i, s, j) {
      var k := HereElim(ts, i, s, j);
      SliceCons(s, j, k);
    }
  }

  lemma NotSepStarCase(ts: seq<Token>, i: nat, s: string, j: nat, stop: bool, next: bool)
    requires i < |ts| && j <= |s| && ts[i].NotSepStar?
    requires stop <==> Tail(ts, i, s, j)
    requires next ==> j < |s|
    requires j < |s| ==> (next <==> Here(ts, i, s, j + 1))
    ensures (stop || (j < |s| && s[j] != Sep && next)) <==> Here(ts, i, s, j)
  {
    if stop {
      HereIntro(ts, i, s, j, j);
    }
    if j < |s| && s[j] != Sep && next {
      var k := HereElim(ts, i, s, j + 1);
      NoSepCons(s, j, k);
      HereIntro(ts, i, s, j, k);
    }
    if Here(ts, i, s, j) {
      var k := HereElim(ts, i, s, j);
      if k > j {
        NoSepCons(s, j, k);
        HereIntro(ts, i, s, j + 1, k);
      }
    }
  }

  lemma NotSepPlusCase(ts: seq<Token>, i: nat, s: string, j: nat, next: bool)
    requires i < |ts| && j <= |s| && ts[i].NotSepPlus?
    requires next ==> j < |s|
    requires j < |s| ==> (next <==> Phase(ts, i, s, j + 1, 1))
    ensures (j < |s| && s[j] != Sep && next) <==> Here(ts, i, s, j)
  {
    if j < |s| && s[j] != Sep && next {
      var k := PhaseElim(ts, i, s, j + 1, 1);
      NoSepCons(s, j, k);
      HereIntro(ts, i, s, j, k);
    }
    if Here(ts, i, s, j) {
      var k := HereElim(ts, i, s, j);
      NoSepCons(s, j, k);
      PhaseIntro(ts, i, s, j + 1, 1, k);
    }
  }

  lemma NotSepPhase(ts: seq<Token>, i: nat, s: string, j: nat, stop: bool, next: bool)
    requires i < |ts| && j <= |s| && ts[i].NotSepPlus?
    requires stop <==> Tail(ts, i, s, j)
    requires next ==> j < |s|
    requires j < |s| ==> (next <==> Phase(ts, i, s, j + 1, 1))
    ensures (stop || (j < |s| && s[j] != Sep && next)) <==> Phase(ts, i, s, j, 1)
  {
    if stop {
      PhaseIntro(ts, i, s, j, 1, j);
    }
    if j < |s| && s[j] != Sep && next {
      var k := PhaseElim(ts, i, s, j + 1, 1);
      NoSepCons(s, j, k);
      PhaseIntro(ts, i, s, j, 1, k);
    }
    if Phase(ts, i, s, j, 1) {
      var k := PhaseElim(ts, i, s, j, 1);
      if k > j {
        NoSepCons(s, j, k);
        PhaseIntro(ts, i, s, j + 1, 1, k);
      }
    }
  }

  lemma AnyPlusCase(ts: seq<Token>, i: nat, s: string, j: nat, next: bool)
    requires i < |ts| && j <= |s| && ts[i].AnyPlus?
    requires next ==> j < |s|
    requires j < |s| ==> (next <==> Phase(ts, i, s, j + 1, 1))
    ensures (j < |s| && next) <==> Here(ts, i, s, j)
  {
    if j < |s| && next {
      var k := PhaseElim(ts, i, s, j + 1, 1);
      HereIntro(ts, i, s, j, k);
    }
    if Here(ts, i, s, j) {
      var k := HereElim(ts, i, s, j);
      PhaseIntro(ts, i, s, j + 1, 1, k);
    }
  }

  lemma AnyPhase(ts: seq<Token>, i: nat, s: string, j: nat, phase: nat, stop: bool, next: bool)
    requires i < |ts| && j <= |s| && 1 <= phase <= 2
    requires (ts[i].AnyPlus? && phase == 1) || (ts[i].OptDescendants? && phase == 1) || (ts[i].OptInnerDirs? && phase == 2)
    requires stop <==> Tail(ts, i, s, j)
    requires next ==> j < |s|
    requires j < |s| ==> (next <==> Phase(ts, i, s, j + 1, phase))
    ensures (stop || (j < |s| && next)) <==> Phase(ts, i, s, j, phase)
  {
    if stop {
      PhaseIntro(ts, i, s, j, phase, j);
    }
    if j < |s| && next {
      var k := PhaseElim(ts, i, s, j + 1, phase);
      PhaseIntro(ts, i, s, j, phase, k);
    }
    if Phase(ts, i, s, j, phase) {
      var k := PhaseElim(ts, i, s, j, phase);
      if k > j {
        PhaseIntro(ts, i, s, j + 1, phase, k);
      }
    }
  }

  lemma AnyStarCase(ts: seq<Token>, i: nat, s: string, j: nat, stop: bool, next: bool)
    requires i < |ts| && j <= |s| && ts[i].AnyStar?
    requires stop <==> Tail(ts, i, s, j)
    requires next ==> j < |s|
    requires j < |s| ==> (next <==> Here(ts, i, s, j + 1))
    ensures (stop || (j < |s| && next)) <==> Here(ts, i, s, j)
  {
    if stop {
      HereIntro(ts, i, s, j, j);
    }
    if j < |s| && next {
      var k := HereElim(ts, i, s, j + 1);
      HereIntro(ts, i, s, j, k);
    }
    if Here(ts, i, s, j) {
      var k := HereElim(ts, i, s, j);
      if k > j {
        HereIntro(ts, i, s, j + 1, k);
      }
    }
  }

  lemma OptPrefixDirsCase(ts: seq<Token>, i: nat, s: string, j: nat, stop: bool, next: bool)
    requires i < |ts| && j <= |s| && ts[i].OptPrefixDirs?
    requires stop <==> Tail(ts, i, s, j)
    requires next ==> j < |s|
    requires j < |s| ==> (next <==> Phase(ts, i, s, j + 1, 1))
    ensures (stop || (j < |s| && next)) <==> Here(ts, i, s, j)
  {
    if stop {
      HereIntro(ts, i, s, j, j);
    }
    if j < |s| && next {
      var k := PhaseElim(ts, i, s, j + 1, 1);
      PrefixDirsPiece(s, j, k);
      HereIntro(ts, i, s, j, k);
    }
    if Here(ts, i, s, j) {
      var k := HereElim(ts, i, s, j);
      if k > j {
        PrefixDirsPiece(s, j, k);
        PhaseIntro(ts, i, s, j + 1, 1, k);
      }
    }
  }

  lemma PrefixDirsPiece(s: string, j: nat, k: nat)
    requires j < k <= |s|
    ensures Consumes(OptPrefixDirs, s[j..k]) <==> (j + 1 < k && s[k - 1] == Sep)
  {
    assert |s[j..k]| == k - j;
    assert s[j..k][k - j - 1] == s[k - 1];
  }

  lemma PrefixPhase(ts: seq<Token>, i: nat, s: string, j: nat, adv: bool, next: bool)
    requires i < |ts| && j <= |s| && ts[i].OptPrefixDirs?
    requires adv ==> j < |s|
    requires next ==> j < |s|
    requires j < |s| ==> (adv <==> Tail(ts, i, s, j + 1))
    requires j < |s| ==> (next <==> Phase(ts, i, s, j + 1, 1))
    ensures (j < |s| && ((s[j] == Sep && adv) || next)) <==> Phase(ts, i, s, j, 1)
  {
    if j < |s| && s[j] == Sep && adv {
      PhaseIntro(ts, i, s, j, 1, j + 1);
    }
    if j < |s| && next {
      var k := PhaseElim(ts, i, s, j + 1, 1);
      PhaseIntro(ts, i, s, j, 1, k);
    }
    if Phase(ts, i, s, j, 1) {
      var k := PhaseElim(ts, i, s, j, 1);
      if k > j + 1 {
        PhaseIntro(ts, i, s, j + 1, 1, k);
      }
    }
  }

  lemma OptInnerDirsCase(ts: seq<Token>, i: nat, s: string, j: nat, stop: bool, next: bool)
    requires i < |ts| && j <= |s| && ts[i].OptInnerDirs?
    requires stop <==> Tail(ts, i, s, j)
    requires next ==> j < |s|
    requires j < |s| ==> (next <==> Phase(ts, i, s, j + 1, 1))
    ensures (stop || (j < |s| && s[j] == Sep && next)) <==> Here(ts, i, s, j)
  {
    if stop {
      HereIntro(ts, i, s, j, j);
    }
    if j < |s| && s[j] == Sep && next {
      var k := PhaseElim(ts, i, s, j + 1, 1);
      SliceCons(s, j, k);
      HereIntro(ts, i, s, j, k);
    }
    if Here(ts, i, s, j) {
      var k := HereElim(ts, i, s, j);
      if k > j {
        SliceCons(s, j, k);
        PhaseIntro(ts, i, s, j + 1, 1, k);
      }
    }
  }

  lemma InnerPhaseOne(ts: seq<Token>, i: nat, s: string, j: nat, next: bool)
    requires i < |ts| && j <= |s| && ts[i].OptInnerDirs?
    requires next ==> j < |s|
    requires j < |s| ==> (next <==> Phase(ts, i, s, j + 1, 2))
    ensures (j < |s| && next) <==> Phase(ts, i, s, j, 1)
  {
    if j < |s| && next {
      var k := PhaseElim(ts, i, s, j + 1, 2);
      PhaseIntro(ts, i, s, j, 1, k);
    }
    if Phase(ts, i, s, j, 1) {
      var k := PhaseElim(ts, i, s, j, 1);
      PhaseIntro(ts, i, s, j + 1, 2, k);
    }
  }

  lemma OptDescendantsCase(ts: seq<Token>, i: nat, s: string, j: nat, stop: bool, next: bool)
    requires i < |ts| && j <= |s| && ts[i].OptDescendants?
    requires stop <==> Tail(ts, i, s, j)
    requires next ==> j < |s|
    requires j < |s| ==> (next <==> Phase(ts, i, s, j + 1, 1))
    ensures (stop || (j < |s| && s[j] == Sep && next)) <==> Here(ts, i, s, j)
  {
    if stop {
      HereIntro(ts, i, s, j, j);
    }
    if j < |s| && s[j] == Sep && next {
      var k := PhaseElim(ts, i, s, j + 1, 1);
      SliceCons(s, j, k);
      HereIntro(ts, i, s, j, k);
    }
    if Here(ts, i, s, j) {
      var k := HereElim(ts, i, s, j);
      if k > j {
        SliceCons(s, j, k);
        PhaseIntro(ts, i, s, j + 1, 1, k);
      }
    }
  }
}
