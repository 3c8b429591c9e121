/**
 * The line parser (`parseLine`, src/codeowners/parse-line.ts): an inline
 * comment is cut off at the first `#` not preceded by a backslash, the rest
 * is split at runs of whitespace whose first character is not preceded by a
 * backslash, and the first piece is compiled as the pattern while the others
 * are the owners.
 */
module LineParser {
  import opened Text
  import opened Regex
  import opened Results
  import opened ParsePattern

  /** The record of one CODEOWNERS rule; `regexPattern` is the compiled token list. */
  datatype Rule = Rule(pattern: string, regexPattern: seq<Token>, lineNumber: int, owners: seq<string>)

  const Backslash: char := '\\'
  const Hash: char := '#'

  /** Position `i` holds `#` and does not follow a backslash: a match of `(?<!\\)#`. */
  predicate CommentAt(s: string, i: nat) {
    i < |s| && s[i] == Hash && (i == 0 || s[i - 1] != Backslash)
  }

  /** The first match of `(?<!\\)#` at or after `from`, if there is one. */
  function FindComment(s: string, from: nat): (r: Option<nat>)
    requires from <= |s|
    ensures r.Some? ==> from <= r.value < |s|
    decreases |s| - from
  {
    if from == |s| then None
    else if CommentAt(s, from) then Some(from)
    else FindComment(s, from + 1)
  }

  /** `FindComment` finds the leftmost comment start, and finds one whenever there is one. */
  lemma {:induction false} FindCommentFirst(s: string, from: nat)
    requires from <= |s|
    ensures FindComment(s, from).None? <==> forall i :: from <= i < |s| ==> !CommentAt(s, i)
    ensures FindComment(s, from).Some? ==>
      CommentAt(s, FindComment(s, from).value) &&
      forall i :: from <= i < FindComment(s, from).value ==> !CommentAt(s, i)
    decreases |s| - from
  {
    if from < |s| && !CommentAt(s, from) {
      FindCommentFirst(s, from + 1);
    }
  }

  /** Lines 8-10: with an inline comment, the text before it, trimmed; otherwise the line itself. */
  function StripComment(line: string): string {
    match FindComment(line, 0)
    case None => line
    case Some(i) => Trim(line[..i])
  }

  /**
   * `s.split(/(?<!\\)\s+/)`. `escaped` says whether the character before `s`
   * is a backslash; after a whitespace run the next piece starts behind a
   * whitespace character, so the flag is false there.
   */
  function Fields(s: string, escaped: bool): (r: seq<string>)
    ensures |r| >= 1
    decreases |s|
  {
    if s == [] then [[]]
    else if IsWs(s[0]) && !escaped then [[]] + Fields(TrimStart(s[1..]), false)
    else
      var rest := Fields(s[1..], s[0] == Backslash);
      [[s[0]] + rest[0]] + rest[1..]
  }

  /** The whitespace runs that `Fields` splits at, in order. */
  function Runs(s: string, escaped: bool): seq<string>
    decreases |s|
  {
    if s == [] then []
    else if IsWs(s[0]) && !escaped then
      [s[..|s| - |TrimStart(s[1..])|]] + Runs(TrimStart(s[1..]), false)
    else Runs(s[1..], s[0] == Backslash)
  }

  /** The pieces with the separators put back between them, the inverse of a split. */
  function Weave(pieces: seq<string>, seps: seq<string>): string
    requires |pieces| == |seps| + 1
    decreases |seps|
  {
    if seps == [] then pieces[0] else pieces[0] + seps[0] + Weave(pieces[1..], seps[1..])
  }

  /**
   * No whitespace character of `f` starts a separator: each follows a
   * backslash (for the first character, the one before `f`, as `escaped` says).
   */
  predicate Unbroken(f: string, escaped: bool) {
    (f != [] && IsWs(f[0]) ==> escaped) &&
    forall q :: 1 <= q < |f| && IsWs(f[q]) ==> f[q - 1] == Backslash
  }

  predicate SeparatorRuns(seps: seq<string>) {
    forall k :: 0 <= k < |seps| ==> seps[k] != [] && AllWs(seps[k])
  }

  /** What the split promises: its pieces are unbroken, the separators whitespace, and woven back they give `s`. */
  predicate SplitsInto(s: string, escaped: bool, pieces: seq<string>, seps: seq<string>) {
    |pieces| == |seps| + 1 && Weave(pieces, seps) == s && SeparatorRuns(seps) &&
    Unbroken(pieces[0], escaped) && forall k :: 1 <= k < |pieces| ==> Unbroken(pieces[k], false)
  }

  /** The split at unescaped whitespace runs cuts `s` into unbroken pieces and whitespace runs only. */
  lemma {:induction false} FieldsSplit(s: string, escaped: bool)
    ensures SplitsInto(s, escaped, Fields(s, escaped), Runs(s, escaped))
    decreases |s|
  {
    if s == [] {
    } else if IsWs(s[0]) && !escaped {
      var t := TrimStart(s[1..]);
      FieldsSplit(t, false);
      TrimStartCuts(s[1..]);
      RunStep(s, t, Fields(t, false), Runs(t, false));
    } else {
      FieldsSplit(s[1..], s[0] == Backslash);
      CharStep(s, escaped, Fields(s[1..], s[0] == Backslash), Runs(s[1..], s[0] == Backslash));
    }
  }

  /** A leading separator run: an empty piece, the run, then the split of the rest. */
  lemma RunStep(s: string, t: string, fs: seq<string>, rs: seq<string>)
    requires s != [] && IsWs(s[0])
    requires |t| <= |s| - 1 && t == s[1..][|s| - 1 - |t|..] && AllWs(s[1..][..|s| - 1 - |t|])
    requires t == [] || !IsWs(t[0])
    requires SplitsInto(t, false, fs, rs)
    ensures SplitsInto(s, false, [[]] + fs, [s[..|s| - |t|]] + rs)
  {
    var run := s[..|s| - |t|];
    assert s == run + t by {
      assert s[1..][|s| - 1 - |t|..] == s[|s| - |t|..];
    }
    assert AllWs(run) by {
      forall k | 0 <= k < |run| ensures IsWs(run[k]) {
        if k > 0 { assert run[k] == s[1..][..|s| - 1 - |t|][k - 1]; }
      }
    }
    var pieces, seps := [[]] + fs, [run] + rs;
    assert pieces[1..] == fs && seps[1..] == rs;
    assert Weave(pieces, seps) == [] + run + Weave(fs, rs);
    forall k | 1 <= k < |pieces| ensures Unbroken(pieces[k], false) {
      assert pieces[k] == fs[k - 1];
    }
    forall k | 0 <= k < |seps| ensures seps[k] != [] && AllWs(seps[k]) {
      if k > 0 { assert seps[k] == rs[k - 1]; }
    }
  }

  /** A leading character that does not start a separator joins the first piece. */
  lemma CharStep(s: string, escaped: bool, fs: seq<string>, rs: seq<string>)
    requires s != [] && !(IsWs(s[0]) && !escaped)
    requires SplitsInto(s[1..], s[0] == Backslash, fs, rs)
    ensures SplitsInto(s, escaped, [[s[0]] + fs[0]] + fs[1..], rs)
  {
    var pieces := [[s[0]] + fs[0]] + fs[1..];
    WeaveHead(s[0], fs, rs);
    assert s == [s[0]] + s[1..];
    var f := pieces[0];
    assert f[0] == s[0];
    forall q | 1 <= q < |f| && IsWs(f[q]) ensures f[q - 1] == Backslash {
      assert f[q] == fs[0][q - 1];
      if q > 1 { assert f[q - 1] == fs[0][q - 2]; }
    }
    forall k | 1 <= k < |pieces| ensures Unbroken(pieces[k], false) {
      assert pieces[k] == fs[k];
    }
  }

  lemma WeaveHead(c: char, fs: seq<string>, rs: seq<string>)
    requires |fs| == |rs| + 1
    ensures Weave([[c] + fs[0]] + fs[1..], rs) == [c] + Weave(fs, rs)
  {
    var pieces := [[c] + fs[0]] + fs[1..];
    assert pieces[1..] == fs[1..];
  }

  /** A string without a separator is split into itself alone. */
  lemma {:induction false} UnbrokenIsOnePiece(s: string, escaped: bool)
    requires Unbroken(s, escaped)
    ensures Fields(s, escaped) == [s]
    decreases |s|
  {
    if s != [] {
      assert Unbroken(s[1..], s[0] == Backslash) by {
        if s[1..] != [] && IsWs(s[1..][0]) {
          assert s[1..][0] == s[1];
        }
        forall q | 1 <= q < |s[1..]| && IsWs(s[1..][q]) ensures s[1..][q - 1] == Backslash {
          assert s[1..][q] == s[q + 1] && s[1..][q - 1] == s[q];
        }
      }
      UnbrokenIsOnePiece(s[1..], s[0] == Backslash);
      assert s == [s[0]] + s[1..];
    }
  }

  /** Whether the last character of `w` is a backslash, `escaped` standing for the one before `w`. */
  function EscapedAfter(w: string, escaped: bool): bool {
    if w == [] then escaped else w[|w| - 1] == Backslash
  }

  /**
   * An unbroken piece followed by a separator run: the piece, then the split
   * of what follows the run.
   */
  lemma {:induction false} FieldsCompose(w: string, rest: string, escaped: bool)
    requires Unbroken(w, escaped) && rest != [] && IsWs(rest[0]) && !EscapedAfter(w, escaped)
    ensures Fields(w + rest, escaped) == [w] + Fields(TrimStart(rest[1..]), false)
    decreases |w|
  {
    if w != [] {
      var s := w + rest;
      assert s[0] == w[0] && s[1..] == w[1..] + rest;
      UnbrokenTail(w, escaped);
      FieldsCompose(w[1..], rest, w[0] == Backslash);
      assert w == [w[0]] + w[1..];
    } else {
      assert w + rest == rest;
    }
  }

  lemma UnbrokenTail(w: string, escaped: bool)
    requires Unbroken(w, escaped) && w != []
    ensures Unbroken(w[1..], w[0] == Backslash) && !(IsWs(w[0]) && !escaped)
    ensures EscapedAfter(w[1..], w[0] == Backslash) == EscapedAfter(w, escaped)
  {
    if w[1..] != [] && IsWs(w[1..][0]) {
      assert w[1..][0] == w[1];
    }
    forall q | 1 <= q < |w[1..]| && IsWs(w[1..][q]) ensures w[1..][q - 1] == Backslash {
      assert w[1..][q] == w[q + 1] && w[1..][q - 1] == w[q];
    }
  }

  /**
   * Conversely, unbroken pieces with whitespace runs between them are split
   * back into those pieces, provided no piece but the last ends with a
   * backslash (which would escape the run after it) and no piece strictly
   * between two runs is empty (two runs in a row are one run).
   */
  predicate Separable(pieces: seq<string>, seps: seq<string>) {
    |pieces| == |seps| + 1 && SeparatorRuns(seps) &&
    (forall k :: 0 <= k < |pieces| ==> Unbroken(pieces[k], false)) &&
    (forall k :: 0 <= k < |seps| ==> !EscapedAfter(pieces[k], false)) &&
    (forall k :: 1 <= k < |seps| ==> pieces[k] != [])
  }

  lemma {:induction false} FieldsOfWeave(pieces: seq<string>, seps: seq<string>)
    requires Separable(pieces, seps)
    ensures Fields(Weave(pieces, seps), false) == pieces
    decreases |seps|
  {
    if seps == [] {
      UnbrokenIsOnePiece(pieces[0], false);
    } else {
      var rest := Weave(pieces[1..], seps[1..]);
      SeparableTail(pieces, seps);
      FieldsOfWeave(pieces[1..], seps[1..]);
      assert Weave(pieces, seps) == pieces[0] + (seps[0] + rest);
      FieldsCompose(pieces[0], seps[0] + rest, false);
      WeaveStart(pieces[1..], seps[1..]);
      TrimStartRun(seps[0], rest);
      assert pieces == [pieces[0]] + pieces[1..];
    }
  }

  lemma SeparableTail(pieces: seq<string>, seps: seq<string>)
    requires Separable(pieces, seps) && seps != []
    ensures Separable(pieces[1..], seps[1..])
    ensures seps[1..] != [] ==> pieces[1] != []
  {
    var ps, ss := pieces[1..], seps[1..];
    forall k | 0 <= k < |ps| ensures Unbroken(ps[k], false) {
      assert ps[k] == pieces[k + 1];
    }
    forall k | 0 <= k < |ss| ensures !EscapedAfter(ps[k], false) && ss[k] != [] && AllWs(ss[k]) {
      assert ps[k] == pieces[k + 1] && ss[k] == seps[k + 1];
    }
    forall k | 1 <= k < |ss| ensures ps[k] != [] {
      assert ps[k] == pieces[k + 1];
    }
  }

  /** Woven unbroken pieces start with a non-whitespace character (or are empty). */
  lemma WeaveStart(pieces: seq<string>, seps: seq<string>)
    requires Separable(pieces, seps)
    requires seps != [] ==> pieces[0] != []
    ensures var w := Weave(pieces, seps); w == [] || !IsWs(w[0])
  {
    if pieces[0] != [] {
      assert Unbroken(pieces[0], false);
      if seps != [] {
        assert Weave(pieces, seps)[0] == pieces[0][0];
      }
    }
  }

  /** `trimStart` drops a whitespace run and stops at the first other character. */
  lemma TrimStartRun(run: string, t: string)
    requires run != [] && AllWs(run) && (t == [] || !IsWs(t[0]))
    ensures TrimStart((run + t)[1..]) == t
  {
    assert (run + t)[1..] == run[1..] + t;
    assert AllWs(run[1..]) by {
      forall k | 0 <= k < |run| - 1 ensures IsWs(run[1..][k]) {
        assert run[1..][k] == run[k + 1];
      }
    }
    TrimStartDrop(run[1..], t);
  }

  /** A split into one piece means there was no separator. */
  lemma OnePieceIsUnbroken(s: string, escaped: bool)
    requires |Fields(s, escaped)| == 1
    ensures Fields(s, escaped) == [s] && Unbroken(s, escaped)
  {
    FieldsSplit(s, escaped);
    assert Runs(s, escaped) == [];
  }

  /** `parseLine(line, lineNumber)`, a thrown compile error as `Failure`. */
  function ParseLine(line: string, lineNumber: int): (r: Result<Rule, PatternError>)
    ensures r.Success? ==> r.value.lineNumber == lineNumber
    ensures r.Success? ==> Compile(r.value.pattern) == Success(r.value.regexPattern)
    ensures r.Failure? <==> Compile(Fields(StripComment(line), false)[0]).Failure?
    ensures r.Failure? ==> r.error == Compile(Fields(StripComment(line), false)[0]).error
  {
    var pieces := Fields(StripComment(line), false);
    var pattern := pieces[0];
    match Compile(pattern)
    case Failure(e) => Failure(e)
    case Success(ts) => Success(Rule(pattern, ts, lineNumber, pieces[1..]))
  }

  // ---------------------------------------------------------------------------
  // What a parsed line is made of.

  /** The comment is cut at the first unescaped `#` and what stays in front is trimmed. */
  lemma StripCommentCuts(line: string, i: nat)
    requires CommentAt(line, i) && forall k :: 0 <= k < i ==> !CommentAt(line, k)
    ensures StripComment(line) == Trim(line[..i])
  {
    FindCommentFirst(line, 0);
    var r := FindComment(line, 0);
    assert r.Some?;
    assert CommentAt(line, r.value);
    assert !(r.value < i);
    assert !(r.value > i);
  }

  /** The same cut, for a line given as the text before its first unescaped `#` and the rest. */
  lemma StripCommentAt(pre: string, post: string)
    requires forall k :: 0 <= k < |pre| ==> !CommentAt(pre, k)
    requires pre == [] || pre[|pre| - 1] != Backslash
    ensures StripComment(pre + [Hash] + post) == Trim(pre)
  {
    var line := pre + [Hash] + post;
    forall k | 0 <= k < |pre| ensures !CommentAt(line, k) {
      assert line[k] == pre[k];
      if k > 0 { assert line[k - 1] == pre[k - 1]; }
      assert !CommentAt(pre, k);
    }
    assert line[|pre|] == Hash;
    if pre != [] { assert line[|pre| - 1] == pre[|pre| - 1]; }
    StripCommentCuts(line, |pre|);
    assert line[..|pre|] == pre;
  }

  /** A line whose every `#` is escaped keeps them all: `\#` stays in the pattern. */
  lemma StripCommentKeeps(line: string)
    requires forall k :: 0 <= k < |line| ==> !CommentAt(line, k)
    ensures StripComment(line) == line
  {
    FindCommentFirst(line, 0);
  }

  /** After the cut no unescaped `#` is left. */
  lemma StripCommentFree(line: string)
    ensures forall q :: 0 <= q < |StripComment(line)| ==> !CommentAt(StripComment(line), q)
  {
    FindCommentFirst(line, 0);
    match FindComment(line, 0)
    case None =>
    case Some(i) =>
      var p := line[..i];
      var r := Trim(p);
      var start := |p| - |TrimStart(p)|;
      TrimCuts(p);
      forall q | 0 <= q < |r| ensures !CommentAt(r, q) {
        TrimmedCommentFree(line, i, r, start, q);
      }
  }

  lemma TrimmedCommentFree(line: string, i: nat, r: string, start: nat, q: nat)
    requires i < |line| && forall k :: 0 <= k < i ==> !CommentAt(line, k)
    requires TrimmedAt(line[..i], r, start) && q < |r|
    ensures !CommentAt(r, q)
  {
    var p := line[..i];
    assert r[q] == line[start + q];
    if q > 0 {
      assert r[q - 1] == line[start + q - 1];
    } else if start > 0 {
      assert p[..start][start - 1] == line[start - 1];
      assert IsWs(line[start - 1]);
    }
    assert !CommentAt(line, start + q);
  }

  /**
   * The pattern and the owners of a parsed line are the pieces of the line
   * (comment removed) between unescaped whitespace runs: the pattern first,
   * then the owners in order, none holding an unescaped whitespace character.
   */
  lemma ParseLinePieces(line: string, lineNumber: int)
    requires ParseLine(line, lineNumber).Success?
    ensures var r := ParseLine(line, lineNumber).value;
      SplitsInto(StripComment(line), false, [r.pattern] + r.owners, Runs(StripComment(line), false))
  {
    var text := StripComment(line);
    var pieces := Fields(text, false);
    FieldsSplit(text, false);
    assert [pieces[0]] + pieces[1..] == pieces;
  }

  /** A line without an unescaped whitespace character is all pattern, with no owners. */
  lemma ParseLineNoOwners(line: string, lineNumber: int)
    requires Unbroken(StripComment(line), false)
    ensures ParseLine(line, lineNumber).Success? ==>
      ParseLine(line, lineNumber).value.pattern == StripComment(line) &&
      ParseLine(line, lineNumber).value.owners == []
  {
    UnbrokenIsOnePiece(StripComment(line), false);
  }

  /** The line is rejected exactly when its pattern is: it holds `***` or is empty. */
  lemma ParseLineFails(line: string, lineNumber: int)
    ensures var p := Fields(StripComment(line), false)[0];
      (ParseLine(line, lineNumber).Failure? <==> HasTripleAsterisk(p) || p == []) &&
      (ParseLine(line, lineNumber) == Failure(TripleAsterisk) <==> HasTripleAsterisk(p))
  {
  }

  /** A line whose fields are a compilable pattern and some owners gives the rule built from them. */
  lemma ParseLineGives(line: string, lineNumber: int, pattern: string, owners: seq<string>)
    requires Fields(StripComment(line), false) == [pattern] + owners
    requires pattern != [] && !HasTripleAsterisk(pattern)
    ensures var r := ParseLine(line, lineNumber);
      r.Success? && r.value.pattern == pattern && r.value.owners == owners && r.value.lineNumber == lineNumber
  {
    assert Fields(StripComment(line), false)[1..] == owners;
  }
}
