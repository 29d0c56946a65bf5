/**
 * The handful of Python `str` operations the core relies on: `sub in s`,
 * `s.startswith(p)`, `s.lower()`, `s.strip()`, `s.split(sep)` and `sep.join(...)`.
 */
module Text {

  /** Python's `str.isspace()`: the characters `str.strip()` removes when given no argument. */
  predicate IsSpace(c: char)
  {
    c in {' ', '\t', '\n', '\r', '\U{B}', '\U{C}', '\U{1C}', '\U{1D}',
          '\U{1E}', '\U{1F}', '\U{85}', '\U{A0}', '\U{1680}', '\U{2000}', '\U{2001}', '\U{2002}',
          '\U{2003}', '\U{2004}', '\U{2005}', '\U{2006}', '\U{2007}', '\U{2008}', '\U{2009}', '\U{200A}',
          '\U{2028}', '\U{2029}', '\U{202F}', '\U{205F}', '\U{3000}'}
  }

  /** `s.startswith(prefix)` */
  predicate StartsWith(s: string, prefix: string)
  {
    |prefix| <= |s| && s[..|prefix|] == prefix
  }

  /** `sub` is the slice of `s` that starts at index `i`. */
  predicate OccursAt(s: string, sub: string, i: int)
  {
    0 <= i <= |s| - |sub| && s[i..i + |sub|] == sub
  }

  /** `sub in s`: `sub` occurs in `s` at some position. */
  predicate Contains(s: string, sub: string)
  {
    exists i | 0 <= i <= |s| - |sub| :: OccursAt(s, sub, i)
  }

  /** Lower-cases one ASCII letter and leaves every other character alone. */
  function LowerChar(c: char): (d: char)
  {
    if 'A' <= c <= 'Z' then (c as int + 32) as char else c
  }

  /** `s.lower()` restricted to ASCII letters. */
  function Lower(s: string): string
  {
    seq(|s|, i requires 0 <= i < |s| => LowerChar(s[i]))
  }

  /** `s.lstrip()`: drops the leading white space and nothing else. */
  function TrimStart(s: string): (r: string)
    ensures |r| <= |s| && r == s[|s| - |r|..]
    ensures forall k :: 0 <= k < |s| - |r| ==> IsSpace(s[k])
    ensures r != [] ==> !IsSpace(r[0])
  {
    if |s| > 0 && IsSpace(s[0]) then TrimStart(s[1..]) else s
  }

  /** `s.rstrip()`: drops the trailing white space and nothing else. */
  function TrimEnd(s: string): (r: string)
    ensures |r| <= |s| && r == s[..|r|]
    ensures forall k :: |r| <= k < |s| ==> IsSpace(s[k])
    ensures r != [] ==> !IsSpace(r[|r| - 1])
  {
    if |s| > 0 && IsSpace(s[|s| - 1]) then TrimEnd(s[..|s| - 1]) else s
  }

  /** `s.strip()` */
  function Strip(s: string): string
  {
    TrimEnd(TrimStart(s))
  }

  /**
   * `s.split(sep)` for a one-character separator: the maximal runs between
   * separators, always at least one piece (`"".split(",") == [""]`).
   */
  function Split(s: string, sep: char): (pieces: seq<string>)
    ensures |pieces| >= 1
    decreases |s|
  {
    if s == [] then [""]
    else
      var init := Split(s[..|s| - 1], sep);
      var c := s[|s| - 1];
      if c == sep then init + [""]
      else init[..|init| - 1] + [init[|init| - 1] + [c]]
  }

  /** `sep.join(pieces)` */
  function Join(pieces: seq<string>, sep: char): string
  {
    if |pieces| == 0 then ""
    else if |pieces| == 1 then pieces[0]
    else Join(pieces[..|pieces| - 1], sep) + [sep] + pieces[|pieces| - 1]
  }

  /**
   * The first index of `s` holding a character of `stops`, or `|s|` when there is
   * none: the `min` over `s.find(c)` that `urllib.parse` takes when it cuts a URL.
   */
  function Find(s: string, stops: set<char>): (k: nat)
    ensures k <= |s|
    ensures k < |s| ==> s[k] in stops
    ensures forall j :: 0 <= j < k ==> s[j] !in stops
  {
    if s == [] || s[0] in stops then 0 else 1 + Find(s[1..], stops)
  }

  // ---------------------------------------------------------------------------
  // Properties
  // ---------------------------------------------------------------------------

  /** Lower-casing twice is lower-casing once. */
  lemma LowerIdempotent(s: string)
    ensures Lower(Lower(s)) == Lower(s)
  {
    var once := Lower(s);
    var twice := Lower(once);
    assert |twice| == |once|;
    forall i | 0 <= i < |s|
      ensures twice[i] == once[i]
    {
      assert LowerChar(LowerChar(s[i])) == LowerChar(s[i]);
    }
  }

  /** `x.strip()` has no white space at either end, and stripping again changes nothing. */
  lemma StripTrimsBothEnds(s: string)
    ensures var r := Strip(s); r != [] ==> !IsSpace(r[0]) && !IsSpace(r[|r| - 1])
    ensures Strip(Strip(s)) == Strip(s)
  {
    var t := TrimStart(s);
    var r := TrimEnd(t);
    if r != [] {
      assert r[0] == t[0];
    }
    assert TrimStart(r) == r;
    assert TrimEnd(r) == r;
  }

  /** Appending one more piece to a join of at least one piece adds the separator and the piece. */
  lemma JoinSnoc(pieces: seq<string>, x: string, sep: char)
    requires |pieces| >= 1
    ensures Join(pieces + [x], sep) == Join(pieces, sep) + [sep] + x
  {
    assert (pieces + [x])[..|pieces|] == pieces;
  }

  /** Joining the pieces of a split with the same separator gives the string back. */
  lemma {:induction false} JoinSplit(s: string, sep: char)
    ensures Join(Split(s, sep), sep) == s
    decreases |s|
  {
    if s != [] {
      var front := s[..|s| - 1];
      var c := s[|s| - 1];
      var init := Split(front, sep);
      assert s == front + [c];
      JoinSplit(front, sep);
      if c == sep {
        assert Split(s, sep) == init + [""];
        JoinSnoc(init, "", sep);
      } else {
        var k := |init| - 1;
        var last := init[k] + [c];
        assert Split(s, sep) == init[..k] + [last];
        if k == 0 {
          assert Join([last], sep) == last;
        } else {
          assert init == init[..k] + [init[k]];
          JoinSnoc(init[..k], init[k], sep);
          JoinSnoc(init[..k], last, sep);
        }
      }
    }
  }

  /** No piece of a split contains the separator. */
  lemma {:induction false} SplitPiecesLackSeparator(s: string, sep: char)
    ensures forall i :: 0 <= i < |Split(s, sep)| ==> sep !in Split(s, sep)[i]
    decreases |s|
  {
    if s != [] {
      SplitPiecesLackSeparator(s[..|s| - 1], sep);
    }
  }

  /**
   * The last piece of a split is the text after the final separator: a suffix of
   * the string free of the separator, preceded by a separator unless it is the whole string.
   */
  lemma {:induction false} SplitLastPiece(s: string, sep: char)
    ensures var pieces := Split(s, sep); var last := pieces[|pieces| - 1];
            |last| <= |s| && last == s[|s| - |last|..] && sep !in last
            && (|last| < |s| ==> s[|s| - |last| - 1] == sep)
    decreases |s|
  {
    if s != [] {
      var front := s[..|s| - 1];
      SplitLastPiece(front, sep);
      var init := Split(front, sep);
      var before := init[|init| - 1];
      if s[|s| - 1] != sep {
        var last := before + [s[|s| - 1]];
        assert Split(s, sep)[|Split(s, sep)| - 1] == last;
        assert front[|front| - |before|..] + [s[|s| - 1]] == s[|s| - |last|..];
      }
    }
  }

  /** A string without the separator splits into itself alone. */
  lemma {:induction false} SplitWithoutSeparator(s: string, sep: char)
    requires sep !in s
    ensures Split(s, sep) == [s]
    decreases |s|
  {
    if s != [] {
      var front := s[..|s| - 1];
      assert sep !in front by {
        assert forall k | 0 <= k < |front| :: front[k] == s[k];
      }
      SplitWithoutSeparator(front, sep);
      assert front + [s[|s| - 1]] == s;
    }
  }

  /** Trailing white space after a string that ends in a non-space is exactly what `rstrip` drops. */
  lemma {:induction false} TrimEndDropsTail(s: string, tail: string)
    requires s != [] && !IsSpace(s[|s| - 1])
    requires forall k | 0 <= k < |tail| :: IsSpace(tail[k])
    ensures TrimEnd(s + tail) == s
    decreases |tail|
  {
    if tail == [] {
      assert s + tail == s;
    } else {
      var front := tail[..|tail| - 1];
      assert (s + tail)[..|s + tail| - 1] == s + front;
      TrimEndDropsTail(s, front);
    }
  }

  /** Stripping a string that lacks a character cannot introduce it. */
  lemma StripKeepsAbsent(s: string, c: char)
    requires c !in s
    ensures c !in Strip(s)
  {
    var t := TrimStart(s);
    assert forall k | 0 <= k < |t| :: t[k] == s[|s| - |t| + k];
    var r := TrimEnd(t);
    assert forall k | 0 <= k < |r| :: r[k] == t[k];
  }
}
