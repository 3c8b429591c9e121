/**
 * String helpers that stand for the JavaScript built-ins the core relies on:
 * `String.prototype.split` with a one-character separator, its inverse `join`,
 * `String.prototype.trim` restricted to ASCII whitespace, and in-place
 * `Array.prototype.reverse` as a function on sequences.
 */
module Text {

  /** The whitespace characters of `\s` and `trim`, restricted to ASCII. */
  predicate IsWs(c: char) {
    c == ' ' || c == '\t' || c == '\n' || c == '\U{B}' || c == '\U{C}' || c == '\r'
  }

  predicate AllWs(s: string) {
    forall i :: 0 <= i < |s| ==> IsWs(s[i])
  }

  /** Pieces joined with `sep` between consecutive pieces (`Array.prototype.join`). */
  function Join(pieces: seq<string>, sep: char): string
    decreases |pieces|
  {
    if |pieces| == 0 then []
    else if |pieces| == 1 then pieces[0]
    else pieces[0] + [sep] + Join(pieces[1..], sep)
  }

  /** `s.split(sep)`: the maximal sep-free pieces between occurrences of `sep`. */
  function Split(s: string, sep: char): (r: seq<string>)
    ensures |r| >= 1
    decreases |s|
  {
    if s == [] then [[]]
    else
      var rest := Split(s[1..], sep);
      if s[0] == sep then
        [[]] + rest
      else
        [[s[0]] + rest[0]] + rest[1..]
  }

  /** The pieces of `s.split(sep)` hold no separator, and joining them gives `s` back. */
  lemma SplitPieces(s: string, sep: char)
    ensures var r := Split(s, sep); (forall i :: 0 <= i < |r| ==> sep !in r[i]) && Join(r, sep) == s
  {
    SplitSepFree(s, sep);
    SplitJoinBack(s, sep);
  }

  lemma {:induction false} SplitSepFree(s: string, sep: char)
    ensures forall i :: 0 <= i < |Split(s, sep)| ==> sep !in Split(s, sep)[i]
    decreases |s|
  {
    if s != [] {
      var rest := Split(s[1..], sep);
      SplitSepFree(s[1..], sep);
      var r := Split(s, sep);
      if s[0] == sep {
        assert r == [[]] + rest;
        forall i | 0 <= i < |r| ensures sep !in r[i] {
          if i > 0 { assert r[i] == rest[i - 1]; }
        }
      } else {
        var head := [s[0]] + rest[0];
        assert r == [head] + rest[1..];
        assert sep !in head;
        forall i | 0 <= i < |r| ensures sep !in r[i] {
          if i > 0 { assert r[i] == rest[i]; }
        }
      }
    }
  }

  lemma {:induction false} SplitJoinBack(s: string, sep: char)
    ensures Join(Split(s, sep), sep) == s
    decreases |s|
  {
    if s != [] {
      var rest := Split(s[1..], sep);
      SplitJoinBack(s[1..], sep);
      if s[0] == sep {
        JoinCons([], rest, sep);
        assert Split(s, sep) == [[]] + rest;
      } else {
        var head := [s[0]] + rest[0];
        assert Split(s, sep) == [head] + rest[1..];
        JoinHeadExtend(s[0], rest, sep);
        assert s == [s[0]] + s[1..];
      }
    }
  }

  /** Prefixing the first piece with `c` prefixes the joined string with `c`. */
  lemma JoinHeadExtend(c: char, rest: seq<string>, sep: char)
    requires |rest| >= 1
    ensures Join([[c] + rest[0]] + rest[1..], sep) == [c] + Join(rest, sep)
  {
    var head := [c] + rest[0];
    if |rest| == 1 {
      assert [head] + rest[1..] == [head];
    } else {
      JoinCons(head, rest[1..], sep);
      JoinCons(rest[0], rest[1..], sep);
      assert rest == [rest[0]] + rest[1..];
    }
  }

  lemma JoinCons(a: string, rest: seq<string>, sep: char)
    requires |rest| >= 1
    ensures Join([a] + rest, sep) == a + [sep] + Join(rest, sep)
  {
    assert ([a] + rest)[1..] == rest;
  }

  /** Splitting undoes joining when no piece contains the separator. */
  lemma {:induction false} SplitJoin(pieces: seq<string>, sep: char)
    requires |pieces| >= 1
    requires forall i :: 0 <= i < |pieces| ==> sep !in pieces[i]
    ensures Split(Join(pieces, sep), sep) == pieces
    decreases |pieces|, |pieces[0]|
  {
    var p := pieces[0];
    if |pieces| == 1 {
      SplitNoSep(p, sep);
    } else if p == [] {
      SplitJoin(pieces[1..], sep);
      SplitJoinEmptyHead(pieces, sep);
    } else {
      var shorter := [p[1..]] + pieces[1..];
      ShorterSepFree(pieces, sep);
      SplitJoin(shorter, sep);
      SplitJoinCharHead(pieces, sep);
    }
  }

  lemma ShorterSepFree(pieces: seq<string>, sep: char)
    requires |pieces| >= 2 && pieces[0] != []
    requires forall i :: 0 <= i < |pieces| ==> sep !in pieces[i]
    ensures var shorter := [pieces[0][1..]] + pieces[1..];
      |shorter| >= 1 && forall i :: 0 <= i < |shorter| ==> sep !in shorter[i]
  {
    var p := pieces[0];
    var shorter := [p[1..]] + pieces[1..];
    forall i | 0 <= i < |shorter| ensures sep !in shorter[i] {
      if i == 0 {
        assert forall c :: c in p[1..] ==> c in p;
      } else {
        assert shorter[i] == pieces[i];
      }
    }
  }

  lemma SplitJoinEmptyHead(pieces: seq<string>, sep: char)
    requires |pieces| >= 2 && pieces[0] == []
    requires Split(Join(pieces[1..], sep), sep) == pieces[1..]
    ensures Split(Join(pieces, sep), sep) == pieces
  {
    var j := Join(pieces[1..], sep);
    JoinCons([], pieces[1..], sep);
    assert pieces == [[]] + pieces[1..];
    assert Join(pieces, sep) == [sep] + j;
    assert ([sep] + j)[1..] == j;
  }

  lemma SplitJoinCharHead(pieces: seq<string>, sep: char)
    requires |pieces| >= 2 && pieces[0] != [] && pieces[0][0] != sep
    requires Split(Join([pieces[0][1..]] + pieces[1..], sep), sep) == [pieces[0][1..]] + pieces[1..]
    ensures Split(Join(pieces, sep), sep) == pieces
  {
    var p := pieces[0];
    var shorter := [p[1..]] + pieces[1..];
    JoinCons(p, pieces[1..], sep);
    JoinCons(p[1..], pieces[1..], sep);
    assert pieces == [p] + pieces[1..];
    var s := Join(pieces, sep);
    assert s == [p[0]] + Join(shorter, sep);
    assert s[1..] == Join(shorter, sep);
    assert [p[0]] + p[1..] == p;
  }

  lemma {:induction false} SplitNoSep(s: string, sep: char)
    requires sep !in s
    ensures Split(s, sep) == [s]
    decreases |s|
  {
    if s != [] {
      assert sep !in s[1..] by {
        assert forall c :: c in s[1..] ==> c in s;
      }
      SplitNoSep(s[1..], sep);
      assert [s[0]] + s[1..] == s;
    }
  }

  /** Splitting `a + sep + b` splits `a` and `b` independently. */
  lemma SplitAppend(a: string, b: string, sep: char)
    ensures Split(a + [sep] + b, sep) == Split(a, sep) + Split(b, sep)
  {
    var pa, pb := Split(a, sep), Split(b, sep);
    SplitPieces(a, sep);
    SplitPieces(b, sep);
    SepFreeAppend(pa, pb, sep);
    JoinAppend(pa, pb, sep);
    SplitJoin(pa + pb, sep);
  }

  lemma SepFreeAppend(xs: seq<string>, ys: seq<string>, sep: char)
    requires forall i :: 0 <= i < |xs| ==> sep !in xs[i]
    requires forall i :: 0 <= i < |ys| ==> sep !in ys[i]
    ensures forall i :: 0 <= i < |xs + ys| ==> sep !in (xs + ys)[i]
  {
    forall i | 0 <= i < |xs + ys| ensures sep !in (xs + ys)[i] {
      if i < |xs| { assert (xs + ys)[i] == xs[i]; } else { assert (xs + ys)[i] == ys[i - |xs|]; }
    }
  }

  lemma {:induction false} JoinAppend(xs: seq<string>, ys: seq<string>, sep: char)
    requires |xs| >= 1 && |ys| >= 1
    ensures Join(xs + ys, sep) == Join(xs, sep) + [sep] + Join(ys, sep)
    decreases |xs|
  {
    if |xs| == 1 {
      JoinCons(xs[0], ys, sep);
      assert xs + ys == [xs[0]] + ys;
    } else {
      assert (xs + ys)[1..] == xs[1..] + ys;
      JoinAppend(xs[1..], ys, sep);
    }
  }

  /** Leading whitespace removed (`trimStart`). */
  function TrimStart(s: string): (r: string)
    ensures |r| <= |s|
    decreases |s|
  {
    if s != [] && IsWs(s[0]) then TrimStart(s[1..]) else s
  }

  /** `trimStart` removes a whitespace prefix, and only that. */
  lemma {:induction false} TrimStartCuts(s: string)
    ensures var r := TrimStart(s); |r| <= |s| && r == s[|s| - |r|..] && AllWs(s[..|s| - |r|])
    ensures var r := TrimStart(s); r == [] || !IsWs(r[0])
    decreases |s|
  {
    if s != [] && IsWs(s[0]) {
      TrimStartCuts(s[1..]);
      var r := TrimStart(s[1..]);
      var n := |s| - |r|;
      assert s[1..][|s| - 1 - |r|..] == s[n..];
      forall k | 0 <= k < n ensures IsWs(s[..n][k]) {
        if k > 0 { assert s[..n][k] == s[1..][..n - 1][k - 1]; }
      }
    }
  }

  /** Trailing whitespace removed (`trimEnd`). */
  function TrimEnd(s: string): (r: string)
    ensures |r| <= |s|
    decreases |s|
  {
    if s != [] && IsWs(s[|s| - 1]) then TrimEnd(s[..|s| - 1]) else s
  }

  /** `trimEnd` removes a whitespace suffix, and only that. */
  lemma {:induction false} TrimEndCuts(s: string)
    ensures var r := TrimEnd(s); |r| <= |s| && r == s[..|r|] && AllWs(s[|r|..])
    ensures var r := TrimEnd(s); r == [] || !IsWs(r[|r| - 1])
    decreases |s|
  {
    if s != [] && IsWs(s[|s| - 1]) {
      var p := s[..|s| - 1];
      TrimEndCuts(p);
      var r := TrimEnd(p);
      assert p[..|r|] == s[..|r|];
      forall k | 0 <= k < |s| - |r| ensures IsWs(s[|r|..][k]) {
        if k < |p| - |r| { assert s[|r|..][k] == p[|r|..][k]; }
      }
    }
  }

  /** `s.trim()`: both the leading and the trailing whitespace removed. */
  function Trim(s: string): (r: string)
    ensures |r| <= |s|
  {
    TrimEnd(TrimStart(s))
  }

  /**
   * `r` is the slice of `s` that starts at `i`, when everything before it and
   * after it is whitespace and `r` begins and ends with a non-whitespace character.
   */
  predicate TrimmedAt(s: string, r: string, i: nat) {
    i + |r| <= |s| && r == s[i..i + |r|] && AllWs(s[..i]) && AllWs(s[i + |r|..]) &&
    (r == [] || (!IsWs(r[0]) && !IsWs(r[|r| - 1])))
  }

  /** `trim` leaves the slice of `s` between its maximal whitespace prefix and suffix. */
  lemma TrimCuts(s: string)
    ensures TrimmedAt(s, Trim(s), |s| - |TrimStart(s)|)
  {
    var t := TrimStart(s);
    TrimStartCuts(s);
    TrimEndCuts(t);
    TrimParts(s, t, TrimEnd(t));
  }

  lemma TrimParts(s: string, t: string, r: string)
    requires |t| <= |s| && t == s[|s| - |t|..] && AllWs(s[..|s| - |t|]) && (t == [] || !IsWs(t[0]))
    requires |r| <= |t| && r == t[..|r|] && AllWs(t[|r|..]) && (r == [] || !IsWs(r[|r| - 1]))
    ensures TrimmedAt(s, r, |s| - |t|)
  {
    var i := |s| - |t|;
    assert s[i..i + |r|] == t[..|r|];
    assert s[i + |r|..] == t[|r|..];
    if r != [] {
      assert r[0] == t[0];
    }
  }

  /** `trimStart` removes exactly a leading whitespace run. */
  lemma {:induction false} TrimStartDrop(run: string, t: string)
    requires AllWs(run) && (t == [] || !IsWs(t[0]))
    ensures TrimStart(run + t) == t
    decreases |run|
  {
    if run == [] {
      assert run + t == t;
    } else {
      assert (run + t)[0] == run[0] && (run + t)[1..] == run[1..] + t;
      assert AllWs(run[1..]) by {
        forall k | 0 <= k < |run| - 1 ensures IsWs(run[1..][k]) {
          assert run[1..][k] == run[k + 1];
        }
      }
      TrimStartDrop(run[1..], t);
    }
  }

  /** `trimEnd` removes exactly a trailing whitespace run. */
  lemma {:induction false} TrimEndDrop(t: string, run: string)
    requires AllWs(run) && (t == [] || !IsWs(t[|t| - 1]))
    ensures TrimEnd(t + run) == t
    decreases |run|
  {
    if run == [] {
      assert t + run == t;
    } else {
      var s := t + run;
      var shorter := run[..|run| - 1];
      assert s[|s| - 1] == run[|run| - 1] && s[..|s| - 1] == t + shorter;
      assert AllWs(shorter) by {
        forall k | 0 <= k < |shorter| ensures IsWs(shorter[k]) {
          assert shorter[k] == run[k];
        }
      }
      TrimEndDrop(t, shorter);
    }
  }

  /** `trim` of a text between whitespace runs is the text, when it neither starts nor ends with whitespace. */
  lemma TrimExact(pre: string, core: string, post: string)
    requires AllWs(pre) && AllWs(post)
    requires core == [] || (!IsWs(core[0]) && !IsWs(core[|core| - 1]))
    ensures Trim(pre + core + post) == core
  {
    if core == [] {
      assert AllWs(pre + post) by {
        forall k | 0 <= k < |pre + post| ensures IsWs((pre + post)[k]) {
          if k >= |pre| { assert (pre + post)[k] == post[k - |pre|]; }
        }
      }
      assert pre + core + post == (pre + post) + [];
      TrimStartDrop(pre + post, []);
    } else {
      assert pre + core + post == pre + (core + post);
      TrimStartDrop(pre, core + post);
      TrimEndDrop(core, post);
    }
  }

  /** `Array.prototype.reverse` as a value. */
  function Reverse<T>(s: seq<T>): (r: seq<T>)
    ensures |r| == |s|
    ensures forall k :: 0 <= k < |s| ==> r[k] == s[|s| - 1 - k]
  {
    if s == [] then [] else Reverse(s[1..]) + [s[0]]
  }
}
