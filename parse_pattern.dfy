/**
 * The pattern compiler (`parsePattern`, src/codeowners/parse-pattern.ts): a
 * gitignore-style CODEOWNERS pattern becomes an anchored regular expression,
 * here the token list between `^` and `$`.
 *
 * The pure functions below give the compiler's meaning piece by piece
 * (segment rewriting, the tokens of one segment, the tokens of all segments);
 * the method `ParsePattern` is the compiler as the source writes it, with its
 * mutable segment list, its `needSlash` and `escape` flags and its output
 * array, and is proved to compute `Compile`.
 */
module ParsePattern {
  import opened Text
  import opened Regex
  import opened Results

  datatype PatternError = TripleAsterisk | EmptyPattern

  /** The messages of the errors the compiler throws. */
  function Message(e: PatternError): string {
    match e
    case TripleAsterisk => "pattern cannot contain three consecutive asterisks"
    case EmptyPattern => "empty pattern"
  }

  /** `pattern.includes('***')` */
  predicate HasTripleAsterisk(p: string) {
    exists i :: 0 <= i && i + 2 < |p| && p[i] == '*' && p[i + 1] == '*' && p[i + 2] == '*'
  }

  /**
   * The segment list after its rewriting: a leading empty segment (a leading
   * slash) is dropped; otherwise a single segment, possibly followed by the
   * empty segment of a trailing slash, gets `**` in front unless it is `**`;
   * finally a trailing empty segment becomes `**`.
   */
  function Rewrite(segs: seq<string>): seq<string>
    requires |segs| >= 1
  {
    var anchored :=
      if segs[0] == "" then segs[1..]
      else if (|segs| == 1 || (|segs| == 2 && segs[1] == "")) && segs[0] != "**" then ["**"] + segs
      else segs;
    if |anchored| > 1 && anchored[|anchored| - 1] == "" then anchored[|anchored| - 1 := "**"]
    else anchored
  }

  /**
   * The tokens of the characters of an ordinary segment from the current
   * position on, `escape` telling whether the previous character was an
   * unconsumed backslash.
   */
  function SegmentChars(seg: string, escape: bool): seq<Token>
    decreases |seg|
  {
    if seg == [] then []
    else if escape then [Char(seg[0])] + SegmentChars(seg[1..], false)
    else if seg[0] == '\\' then SegmentChars(seg[1..], true)
    else if seg[0] == '*' then [NotSepStar] + SegmentChars(seg[1..], false)
    else if seg[0] == '?' then [NotSep] + SegmentChars(seg[1..], false)
    else [Char(seg[0])] + SegmentChars(seg[1..], false)
  }

  /** The tokens segment `i` contributes, and the new value of `needSlash`. */
  function SegmentTokens(seg: string, i: nat, last: int, needSlash: bool): (seq<Token>, bool) {
    var slash := if needSlash then [Char(Sep)] else [];
    if seg == "**" then
      if i == 0 && i == last then ([AnyPlus], needSlash)
      else if i == 0 then ([OptPrefixDirs], false)
      else if i == last then ([Char(Sep), AnyStar], needSlash)
      else ([OptInnerDirs], true)
    else if seg == "*" then
      (slash + [NotSepPlus], true)
    else
      (slash + SegmentChars(seg, false) + (if i == last then [OptDescendants] else []), true)
  }

  /** The tokens of segments `i` and later, given the current `needSlash`. */
  function EmitFrom(segs: seq<string>, i: nat, needSlash: bool): seq<Token>
    requires i <= |segs|
    decreases |segs| - i
  {
    if i == |segs| then []
    else
      var (ts, next) := SegmentTokens(segs[i], i, |segs| - 1, needSlash);
      ts + EmitFrom(segs, i + 1, next)
  }

  lemma EmitFromUnfold(segs: seq<string>, i: nat, needSlash: bool)
    requires i < |segs|
    ensures var step := SegmentTokens(segs[i], i, |segs| - 1, needSlash);
      EmitFrom(segs, i, needSlash) == step.0 + EmitFrom(segs, i + 1, step.1)
  {
  }

  /** The compiled pattern, or the error the compiler throws. */
  function Compile(p: string): (r: Result<seq<Token>, PatternError>)
    ensures r.Failure? <==> HasTripleAsterisk(p) || p == []
    ensures r == Failure(TripleAsterisk) <==> HasTripleAsterisk(p)
    ensures p == "/" ==> r == Success([])
  {
    if HasTripleAsterisk(p) then Failure(TripleAsterisk)
    else if p == [] then Failure(EmptyPattern)
    else if p == "/" then Success([])
    else Success(EmitFrom(Rewrite(Split(p, Sep)), 0, false))
  }

  /**
   * The inner character loop of `parsePattern`: the tokens of an ordinary
   * segment appended to the output so far.
   */
  method AppendSegmentChars(prefix: seq<Token>, seg: string) returns (re: seq<Token>)
    ensures re == prefix + SegmentChars(seg, false)
  {
    re := prefix;
    var escape := false;
    for k := 0 to |seg|
      invariant re + SegmentChars(seg[k..], escape) == prefix + SegmentChars(seg, false)
    {
      var ch := seg[k];
      assert seg[k..][0] == ch && seg[k..][1..] == seg[k + 1..];
      if escape {
        escape := false;
        re := re + [Char(ch)];
      } else if ch == '\\' {
        escape := true;
      } else if ch == '*' {
        re := re + [NotSepStar];
      } else if ch == '?' {
        re := re + [NotSep];
      } else {
        re := re + [Char(ch)];
      }
    }
    assert seg[|seg|..] == [];
  }

  /**
   * The `forEach` callback of `parsePattern` for segment `i`: the output and
   * `needSlash` after the segment's `switch`.
   */
  method EmitSegment(prefix: seq<Token>, seg: string, i: nat, lastSegIndex: int, slashBefore: bool)
    returns (re: seq<Token>, needSlash: bool)
    ensures re == prefix + SegmentTokens(seg, i, lastSegIndex, slashBefore).0
    ensures needSlash == SegmentTokens(seg, i, lastSegIndex, slashBefore).1
  {
    re, needSlash := prefix, slashBefore;
    if seg == "**" {
      if i == 0 && i == lastSegIndex {
        re := re + [AnyPlus];
      } else if i == 0 {
        re := re + [OptPrefixDirs];
        needSlash := false;
      } else if i == lastSegIndex {
        re := re + [Char(Sep), AnyStar];
      } else {
        re := re + [OptInnerDirs];
        needSlash := true;
      }
    } else if seg == "*" {
      if needSlash {
        re := re + [Char(Sep)];
      }
      re := re + [NotSepPlus];
      needSlash := true;
    } else {
      ghost var slash := if needSlash then [Char(Sep)] else [];
      if needSlash {
        re := re + [Char(Sep)];
      }
      assert re == prefix + slash;
      re := AppendSegmentChars(re, seg);
      ghost var descendants: seq<Token> := if i == lastSegIndex then [OptDescendants] else [];
      if i == lastSegIndex {
        re := re + [OptDescendants];
      }
      assert re == prefix + (slash + SegmentChars(seg, false) + descendants);
      needSlash := true;
    }
  }

  /**
   * The `forEach` over the rewritten segments of `parsePattern`: the output
   * after the last segment is the tokens of all segments.
   */
  method EmitSegments(segments: seq<string>) returns (re: seq<Token>)
    ensures re == EmitFrom(segments, 0, false)
  {
    var lastSegIndex := |segments| - 1;
    var needSlash := false;
    re := [];  // the tokens between '^' and '$'
    for i := 0 to |segments|
      invariant re + EmitFrom(segments, i, needSlash) == EmitFrom(segments, 0, false)
    {
      ghost var before, slashBefore := re, needSlash;
      re, needSlash := EmitSegment(re, segments[i], i, lastSegIndex, needSlash);
      EmitFromStep(segments, i, before, slashBefore, re, needSlash);
    }
  }

  /** Emitting segment `i` after `before` leaves the same remainder to emit. */
  lemma EmitFromStep(segs: seq<string>, i: nat, before: seq<Token>, slashBefore: bool, re: seq<Token>, needSlash: bool)
    requires i < |segs|
    requires re == before + SegmentTokens(segs[i], i, |segs| - 1, slashBefore).0
    requires needSlash == SegmentTokens(segs[i], i, |segs| - 1, slashBefore).1
    ensures re + EmitFrom(segs, i + 1, needSlash) == before + EmitFrom(segs, i, slashBefore)
  {
    EmitFromUnfold(segs, i, slashBefore);
  }

  /** `parsePattern` as written: the segment list and the output are rebuilt step by step. */
  method ParsePattern(pattern: string) returns (r: Result<seq<Token>, PatternError>)
    ensures r == Compile(pattern)
  {
    if HasTripleAsterisk(pattern) {
      return Failure(TripleAsterisk);
    } else if pattern == "" {
      return Failure(EmptyPattern);
    } else if pattern == "/" {
      return Success([]);
    }

    var segments := Split(pattern, Sep);
    ghost var original := segments;
    if segments[0] == "" {
      segments := segments[1..];
    } else {
      if |segments| == 1 || (|segments| == 2 && segments[1] == "") {
        if segments[0] != "**" {
          segments := ["**"] + segments;
        }
      }
    }
    if |segments| > 1 && segments[|segments| - 1] == "" {
      segments := segments[|segments| - 1 := "**"];
    }
    assert segments == Rewrite(original);

    var re := EmitSegments(segments);
    assert re == EmitFrom(Rewrite(Split(pattern, Sep)), 0, false);
    return Success(re);
  }
}
