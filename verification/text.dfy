/** The few .NET string operations the plugin relies on: whitespace tests,
    String.Trim, String.Split on one separator, String.Join and an ordinal
    StartsWith. */
module Text {
  import opened Wrappers

  /** The characters of the Unicode White_Space property, which is what
      Char.IsWhiteSpace accepts. */
  const WhiteSpaceChars: set<char> := {
    '\t', '\n', '\U{B}', '\U{C}', '\r', ' ', '\U{85}', '\U{A0}', '\U{1680}',
    '\U{2000}', '\U{2001}', '\U{2002}', '\U{2003}', '\U{2004}', '\U{2005}',
    '\U{2006}', '\U{2007}', '\U{2008}', '\U{2009}', '\U{200A}',
    '\U{2028}', '\U{2029}', '\U{202F}', '\U{205F}', '\U{3000}'
  }

  /** Char.IsWhiteSpace. */
  predicate IsWhiteSpace(c: char) {
    c in WhiteSpaceChars
  }

  /** Every character is whitespace (true of the empty string). */
  predicate AllWhiteSpace(s: string) {
    forall i :: 0 <= i < |s| ==> IsWhiteSpace(s[i])
  }

  /** A string with no whitespace at either end; these are exactly the
      strings that String.Trim leaves unchanged. */
  predicate IsTrimmed(s: string) {
    |s| == 0 || (!IsWhiteSpace(s[0]) && !IsWhiteSpace(s[|s| - 1]))
  }

  /** String.IsNullOrEmpty. */
  predicate IsNullOrEmpty(s: Option<string>) {
    s.None? || |s.value| == 0
  }

  /** String.IsNullOrWhiteSpace. */
  predicate IsNullOrWhiteSpace(s: Option<string>) {
    s.None? || AllWhiteSpace(s.value)
  }

  /** String.StartsWith, compared character by character. */
  predicate StartsWith(s: string, prefix: string) {
    |prefix| <= |s| && s[..|prefix|] == prefix
  }

  /** String.TrimStart(): drops the longest all-whitespace prefix. */
  function TrimStart(s: string): (r: string)
    ensures |r| <= |s| && r == s[|s| - |r|..]
    ensures |r| == 0 || !IsWhiteSpace(r[0])
  {
    if |s| > 0 && IsWhiteSpace(s[0]) then TrimStart(s[1..]) else s
  }

  /** What TrimStart drops is all whitespace. */
  lemma {:induction false} TrimStartDropsWhiteSpace(s: string)
    ensures AllWhiteSpace(s[..|s| - |TrimStart(s)|])
  {
    if |s| > 0 && IsWhiteSpace(s[0]) {
      var t := s[1..];
      var r := TrimStart(t);
      assert TrimStart(s) == r;
      TrimStartDropsWhiteSpace(t);
      var dropped := s[..|s| - |r|];
      var rest := t[..|t| - |r|];
      forall k | 0 <= k < |dropped|
        ensures IsWhiteSpace(dropped[k])
      {
        if k > 0 {
          assert dropped[k] == rest[k - 1];
        }
      }
    }
  }

  /** String.TrimEnd(): drops the longest all-whitespace suffix. */
  function TrimEnd(s: string): (r: string)
    ensures |r| <= |s| && r == s[..|r|]
    ensures |r| == 0 || !IsWhiteSpace(r[|r| - 1])
  {
    if |s| > 0 && IsWhiteSpace(s[|s| - 1]) then TrimEnd(s[..|s| - 1]) else s
  }

  /** What TrimEnd drops is all whitespace. */
  lemma {:induction false} TrimEndDropsWhiteSpace(s: string)
    ensures AllWhiteSpace(s[|TrimEnd(s)|..])
  {
    if |s| > 0 && IsWhiteSpace(s[|s| - 1]) {
      var t := s[..|s| - 1];
      var r := TrimEnd(t);
      assert TrimEnd(s) == r;
      TrimEndDropsWhiteSpace(t);
      var dropped := s[|r|..];
      var rest := t[|r|..];
      forall k | 0 <= k < |dropped|
        ensures IsWhiteSpace(dropped[k])
      {
        if k < |rest| {
          assert dropped[k] == rest[k];
        }
      }
    }
  }

  /** String.Trim(): the slice of s left after removing whitespace from both
      ends. */
  function Trim(s: string): (r: string)
    ensures IsTrimmed(r)
    ensures IsTrimmed(s) ==> r == s
  {
    TrimEnd(TrimStart(s))
  }

  /** Trim removes exactly a whitespace prefix and a whitespace suffix: what
      is left is a slice of the input. */
  lemma TrimIsSlice(s: string)
    ensures exists i, j :: 0 <= i <= j <= |s| && Trim(s) == s[i..j]
                           && AllWhiteSpace(s[..i]) && AllWhiteSpace(s[j..])
  {
    var t := TrimStart(s);
    var r := TrimEnd(t);
    var i := |s| - |t|;
    TrimStartDropsWhiteSpace(s);
    TrimEndDropsWhiteSpace(t);
    assert r == s[i..i + |r|];
    assert s[i + |r|..] == t[|r|..];
  }

  /** Trimming never introduces a character. */
  lemma TrimKeepsOut(s: string, c: char)
    requires c !in s
    ensures c !in Trim(s)
  {
    var t := TrimStart(s);
    var r := TrimEnd(t);
    forall k | 0 <= k < |r|
      ensures r[k] != c
    {
      assert r[k] == t[k] == s[|s| - |t| + k];
    }
  }

  /** String.Join(sep, xs) for a one-character separator. */
  function Join(xs: seq<string>, sep: char): string
  {
    if |xs| == 0 then ""
    else if |xs| == 1 then xs[0]
    else xs[0] + [sep] + Join(xs[1..], sep)
  }

  /** String.Split(sep): every occurrence of sep ends a piece, so k
      separators give k + 1 pieces, empty pieces included; joining the
      pieces back gives the input. */
  function Split(s: string, sep: char): (r: seq<string>)
    ensures |r| >= 1
    ensures forall i :: 0 <= i < |r| ==> sep !in r[i]
    ensures Join(r, sep) == s
  {
    if |s| == 0 then [""]
    else
      var rest := Split(s[1..], sep);
      if s[0] == sep then
        [""] + rest
      else
        JoinConsFirst(s[0], rest, sep);
        [[s[0]] + rest[0]] + rest[1..]
  }

  /** Prepending a character to the first piece prepends it to the join. */
  lemma JoinConsFirst(c: char, xs: seq<string>, sep: char)
    requires |xs| >= 1
    ensures Join([[c] + xs[0]] + xs[1..], sep) == [c] + Join(xs, sep)
  {
    var ys := [[c] + xs[0]] + xs[1..];
    assert ys[1..] == xs[1..];
  }

  lemma {:induction false} SplitWithoutSeparator(x: string, sep: char)
    requires sep !in x
    ensures Split(x, sep) == [x]
  {
    if |x| > 0 {
      SplitWithoutSeparator(x[1..], sep);
      assert [x[0]] + x[1..] == x;
    }
  }

  lemma {:induction false} SplitAfterPiece(x: string, t: string, sep: char)
    requires sep !in x
    ensures Split(x + [sep] + t, sep) == [x] + Split(t, sep)
  {
    var s := x + [sep] + t;
    if |x| == 0 {
      assert s[1..] == t;
    } else {
      assert s[1..] == x[1..] + [sep] + t;
      SplitAfterPiece(x[1..], t, sep);
      assert [x[0]] + x[1..] == x;
    }
  }

  /** Text splits into a single piece exactly when it has no separator, and
      that piece is the whole text. */
  lemma SinglePiece(t: string, sep: char)
    ensures |Split(t, sep)| == 1 <==> sep !in t
    ensures sep !in t ==> Split(t, sep) == [t]
  {
    if |Split(t, sep)| == 1 {
      assert Join(Split(t, sep), sep) == Split(t, sep)[0];
    }
    if sep !in t {
      SplitWithoutSeparator(t, sep);
    }
  }

  /** Splitting a join gives back the pieces, provided there is at least one
      piece and no piece contains the separator. */
  lemma {:induction false} SplitJoin(xs: seq<string>, sep: char)
    requires |xs| >= 1
    requires forall i :: 0 <= i < |xs| ==> sep !in xs[i]
    ensures Split(Join(xs, sep), sep) == xs
  {
    if |xs| == 1 {
      SplitWithoutSeparator(xs[0], sep);
    } else {
      SplitJoin(xs[1..], sep);
      SplitAfterPiece(xs[0], Join(xs[1..], sep), sep);
      assert [xs[0]] + xs[1..] == xs;
    }
  }

  /** The join is empty exactly for no pieces or one empty piece. */
  lemma {:induction false} JoinEmpty(xs: seq<string>, sep: char)
    ensures Join(xs, sep) == "" <==> (xs == [] || xs == [""])
  {
    if |xs| == 1 {
      if xs[0] == "" {
        assert xs == [""];
      }
    }
  }

  /** Joining trimmed, separator-free pieces gives a trimmed string when the
      separator is not whitespace. */
  lemma {:induction false} JoinTrimmed(xs: seq<string>, sep: char)
    requires !IsWhiteSpace(sep)
    requires forall i :: 0 <= i < |xs| ==> IsTrimmed(xs[i])
    ensures IsTrimmed(Join(xs, sep))
  {
    if |xs| > 1 {
      JoinTrimmed(xs[1..], sep);
      var j := Join(xs[1..], sep);
      var s := xs[0] + [sep] + j;
      assert s[0] == (if |xs[0]| > 0 then xs[0][0] else sep);
      assert s[|s| - 1] == (if |j| > 0 then j[|j| - 1] else sep);
    }
  }
}
