/**
 * The JavaScript string built-ins the application relies on: `trim`, the `\s` character
 * class, `Array.prototype.join`, and `split(/\s+/)` followed by `filter(Boolean)`.
 */
module Text {

  /**
   * ECMAScript white space and line terminators: the characters `String.prototype.trim`
   * removes and the regular-expression class `\s` matches.
   */
  predicate IsWhitespace(c: char)
  {
    || c == '\t' || c == '\n' || c == '\U{B}' || c == '\U{C}' || c == '\r' || c == ' '
    || c == '\U{A0}' || c == '\U{1680}' || ('\U{2000}' <= c <= '\U{200A}')
    || c == '\U{2028}' || c == '\U{2029}' || c == '\U{202F}' || c == '\U{205F}'
    || c == '\U{3000}' || c == '\U{FEFF}'
  }

  predicate AllWhitespace(s: string)
  {
    forall i :: 0 <= i < |s| ==> IsWhitespace(s[i])
  }

  /** White space before or after an all-white-space text keeps it so. */
  lemma AllWhitespaceConcat(a: string, b: string)
    requires AllWhitespace(a) && AllWhitespace(b)
    ensures AllWhitespace(a + b)
  {
    assert forall k :: 0 <= k < |a + b| ==> (a + b)[k] == if k < |a| then a[k] else b[k - |a|];
  }

  /** `s` with its leading white space removed (`trimStart`). */
  function TrimStart(s: string): (r: string)
    ensures |r| <= |s| && r == s[|s| - |r|..]
    ensures AllWhitespace(s[..|s| - |r|])
    ensures r == [] || !IsWhitespace(r[0])
  {
    if s != [] && IsWhitespace(s[0]) then
      var r := TrimStart(s[1..]);
      WhitespaceBeforeSuffix(s, r);
      r
    else
      s
  }

  /** A suffix of `s[1..]` after white space is a suffix of `s` after white space, when `s[0]` is white space. */
  lemma WhitespaceBeforeSuffix(s: string, r: string)
    requires s != [] && IsWhitespace(s[0])
    requires |r| <= |s| - 1 && r == s[1..][|s| - 1 - |r|..] && AllWhitespace(s[1..][..|s| - 1 - |r|])
    ensures |r| <= |s| && r == s[|s| - |r|..] && AllWhitespace(s[..|s| - |r|])
  {
    assert s[..|s| - |r|] == [s[0]] + s[1..][..|s| - 1 - |r|];
    AllWhitespaceConcat([s[0]], s[1..][..|s| - 1 - |r|]);
  }

  /** `s` with its trailing white space removed (`trimEnd`). */
  function TrimEnd(s: string): (r: string)
    ensures |r| <= |s| && r == s[..|r|]
    ensures AllWhitespace(s[|r|..])
    ensures r == [] || !IsWhitespace(r[|r| - 1])
  {
    if s != [] && IsWhitespace(s[|s| - 1]) then
      var r := TrimEnd(s[..|s| - 1]);
      WhitespaceAfterPrefix(s, r);
      r
    else
      s
  }

  /** A prefix of `s` without its last character, before white space, is one of `s` when that character is white space. */
  lemma WhitespaceAfterPrefix(s: string, r: string)
    requires s != [] && IsWhitespace(s[|s| - 1])
    requires |r| <= |s| - 1 && r == s[..|s| - 1][..|r|] && AllWhitespace(s[..|s| - 1][|r|..])
    ensures |r| <= |s| && r == s[..|r|] && AllWhitespace(s[|r|..])
  {
    assert s[|r|..] == s[..|s| - 1][|r|..] + [s[|s| - 1]];
    AllWhitespaceConcat(s[..|s| - 1][|r|..], [s[|s| - 1]]);
  }

  /** `String.prototype.trim`: white space removed from both ends. */
  function Trim(s: string): (r: string)
    ensures |r| <= |s|
    ensures r == [] <==> AllWhitespace(s)
    ensures r == [] || (!IsWhitespace(r[0]) && !IsWhitespace(r[|r| - 1]))
    ensures s == [] || (!IsWhitespace(s[0]) && !IsWhitespace(s[|s| - 1])) ==> r == s
    ensures exists i, j :: 0 <= i <= j <= |s| && r == s[i..j] && AllWhitespace(s[..i]) && AllWhitespace(s[j..])
  {
    var t := TrimStart(s);
    var r := TrimEnd(t);
    TrimBothEnds(s, t, r);
    r
  }

  /**
   * Cutting white space off the front of `s` (leaving `t`) and then off the back of `t`
   * (leaving `r`) leaves a text with no white space at either end, empty exactly when `s`
   * is all white space, and equal to `s` when `s` has none at its ends.
   */
  lemma TrimBothEnds(s: string, t: string, r: string)
    requires |t| <= |s| && t == s[|s| - |t|..] && AllWhitespace(s[..|s| - |t|]) && (t == [] || !IsWhitespace(t[0]))
    requires |r| <= |t| && r == t[..|r|] && AllWhitespace(t[|r|..]) && (r == [] || !IsWhitespace(r[|r| - 1]))
    ensures |r| <= |s|
    ensures r == [] <==> AllWhitespace(s)
    ensures r == [] || (!IsWhitespace(r[0]) && !IsWhitespace(r[|r| - 1]))
    ensures s == [] || (!IsWhitespace(s[0]) && !IsWhitespace(s[|s| - 1])) ==> r == s
    ensures exists i, j :: 0 <= i <= j <= |s| && r == s[i..j] && AllWhitespace(s[..i]) && AllWhitespace(s[j..])
  {
    var i := |s| - |t|;
    assert s == s[..i] + t;
    assert r == s[i..i + |r|] && t[|r|..] == s[i + |r|..];
    if r == [] {
      assert t[|r|..] == t;
      AllWhitespaceConcat(s[..i], t);
    } else {
      assert r[0] == t[0] == s[i];
    }
    if s != [] && !IsWhitespace(s[0]) && !IsWhitespace(s[|s| - 1]) && r != [] {
      assert i == 0;
      assert t[|t| - 1] == s[|s| - 1];
      assert t[|r|..] == [];
      assert t == r + t[|r|..];
    }
  }

  /** The characters of `s` that are not white space, in order. */
  function WithoutWhitespace(s: string): string
  {
    if s == [] then "" else (if IsWhitespace(s[0]) then "" else [s[0]]) + WithoutWhitespace(s[1..])
  }

  /**
   * `!s.trim()`: the string is empty once trimmed, which by the contract of `Trim` is the
   * case exactly when it is all white space.
   */
  predicate IsBlank(s: string)
  {
    AllWhitespace(s)
  }

  /** `parts.join(sep)`. */
  function Join(parts: seq<string>, sep: string): string
  {
    if parts == [] then ""
    else if |parts| == 1 then parts[0]
    else parts[0] + sep + Join(parts[1..], sep)
  }

  /** A join opens with its first part and closes with its last one; joining nothing gives "". */
  lemma {:induction false} JoinEnds(parts: seq<string>, sep: string)
    ensures parts == [] ==> Join(parts, sep) == ""
    ensures parts != [] ==> |parts[0]| <= |Join(parts, sep)| && Join(parts, sep)[..|parts[0]|] == parts[0]
    ensures parts != [] ==>
      var r := Join(parts, sep);
      |parts[|parts| - 1]| <= |r| && r[|r| - |parts[|parts| - 1]|..] == parts[|parts| - 1]
  {
    if |parts| >= 2 {
      var rest := Join(parts[1..], sep);
      JoinEnds(parts[1..], sep);
      var r := parts[0] + sep + rest;
      assert r[|r| - |rest|..] == rest;
    }
  }

  /** Joining one more part at the end adds the separator and the part after the old join. */
  lemma {:induction false} JoinAppend(parts: seq<string>, last: string, sep: string)
    ensures Join(parts + [last], sep) == if parts == [] then last else Join(parts, sep) + sep + last
  {
    if |parts| >= 2 {
      assert (parts + [last])[1..] == parts[1..] + [last];
      JoinAppend(parts[1..], last, sep);
    } else if |parts| == 1 {
      assert (parts + [last])[1..] == [last];
    }
  }

  /** A piece that occurs in a text still occurs once something is written in front of it. */
  lemma OccursAfterPrefix(prefix: string, text: string, piece: string)
    requires exists before, after :: text == before + piece + after
    ensures exists before, after :: prefix + text == before + piece + after
  {
    var before, after :| text == before + piece + after;
    assert prefix + text == (prefix + before) + piece + after;
  }

  /** The pieces written one after another. */
  function Concat(pieces: seq<string>): string
  {
    if pieces == [] then "" else pieces[0] + Concat(pieces[1..])
  }

  /** Removing leading white space first removes nothing more. */
  lemma {:induction false} WithoutWhitespaceTrimStart(s: string)
    ensures WithoutWhitespace(TrimStart(s)) == WithoutWhitespace(s)
  {
    if s != [] && IsWhitespace(s[0]) {
      WithoutWhitespaceTrimStart(s[1..]);
    }
  }

  /** No character of `s` is white space. */
  predicate NoWhitespace(s: string)
  {
    forall i :: 0 <= i < |s| ==> !IsWhitespace(s[i])
  }

  /**
   * `pieces` is how `s` falls apart at its white space: a single piece is the whole text, which
   * then has no white space; otherwise the first piece is the prefix of `s` up to its first
   * white-space character, and the remaining pieces split what follows that run of white space.
   */
  predicate SplitsAt(s: string, pieces: seq<string>)
    decreases |pieces|
  {
    |pieces| >= 1 &&
    if |pieces| == 1 then
      pieces[0] == s && NoWhitespace(s)
    else
      var n := |pieces[0]|;
      n < |s| && s[..n] == pieces[0] && NoWhitespace(pieces[0]) && IsWhitespace(s[n]) &&
      SplitsAt(TrimStart(s[n..]), pieces[1..])
  }

  /** The position of the first white-space character of `s`, or `|s|` when there is none. */
  function FirstWhitespace(s: string): nat
  {
    if s == [] || IsWhitespace(s[0]) then 0 else 1 + FirstWhitespace(s[1..])
  }

  /** A prefix without white space that is followed by white space ends at the first white space. */
  lemma {:induction false} FirstPieceLength(s: string, a: string)
    requires |a| < |s| && s[..|a|] == a && NoWhitespace(a) && IsWhitespace(s[|a|])
    ensures |a| == FirstWhitespace(s)
  {
    if a != [] {
      assert s[0] == a[0];
      assert s[1..][..|a| - 1] == a[1..];
      assert s[1..][|a| - 1] == s[|a|];
      FirstPieceLength(s[1..], a[1..]);
    }
  }

  /** A split is a single piece exactly when the text has no white space. */
  lemma SplitsAtSingle(s: string, p: seq<string>)
    requires SplitsAt(s, p)
    ensures |p| == 1 <==> NoWhitespace(s)
  {
    if |p| > 1 {
      assert IsWhitespace(s[|p[0]|]);
    }
  }

  /** A text has only one split: the relation pins the pieces down. */
  lemma {:induction false} SplitsAtUnique(s: string, p: seq<string>, q: seq<string>)
    requires SplitsAt(s, p) && SplitsAt(s, q)
    ensures p == q
    decreases |p|
  {
    SplitsAtSingle(s, p);
    SplitsAtSingle(s, q);
    if |p| == 1 {
      assert p == [s] == q;
    } else {
      FirstPieceLength(s, p[0]);
      FirstPieceLength(s, q[0]);
      var n := |p[0]|;
      assert p[0] == s[..n] == q[0];
      var t := TrimStart(s[n..]);
      assert SplitsAt(t, p[1..]) && SplitsAt(t, q[1..]);
      SplitsAtUnique(t, p[1..], q[1..]);
      SameHeadSameTail(p, q);
    }
  }

  /** Two lists with the same first element and the same rest are equal. */
  lemma SameHeadSameTail<T>(p: seq<T>, q: seq<T>)
    requires |p| >= 1 && |q| >= 1 && p[0] == q[0] && p[1..] == q[1..]
    ensures p == q
  {
    assert p == [p[0]] + p[1..] && q == [q[0]] + q[1..];
  }

  /** A non-white-space character in front of a split joins the first piece. */
  lemma SplitsAtCons(s: string, rest: seq<string>)
    requires s != [] && !IsWhitespace(s[0]) && SplitsAt(s[1..], rest)
    ensures SplitsAt(s, [[s[0]] + rest[0]] + rest[1..])
  {
    var pieces := [[s[0]] + rest[0]] + rest[1..];
    assert pieces[1..] == rest[1..];
    var first := [s[0]] + rest[0];
    NoWhitespaceCons(s[0], rest[0]);
    if |rest| > 1 {
      var m := |rest[0]|;
      DropFirst(s, m);
      assert SplitsAt(TrimStart(s[m + 1..]), pieces[1..]);
    } else {
      assert first == [s[0]] + s[1..] == s;
    }
  }

  /** Cutting `s` after `m + 1` characters, seen from `s[1..]`. */
  lemma DropFirst(s: string, m: nat)
    requires m < |s| - 1
    ensures s[..m + 1] == [s[0]] + s[1..][..m]
    ensures s[m + 1..] == s[1..][m..] && s[m + 1] == s[1..][m]
  {
  }

  /** A character that is not white space keeps a text free of white space. */
  lemma NoWhitespaceCons(c: char, t: string)
    requires !IsWhitespace(c) && NoWhitespace(t)
    ensures NoWhitespace([c] + t)
  {
    assert forall i :: 0 < i <= |t| ==> ([c] + t)[i] == t[i - 1];
  }

  /**
   * `s.split(/\s+/)`: the pieces between maximal runs of white space, empty ones included
   * (see `SplitsAt`). Written one after another they give back the text with its white space
   * removed.
   */
  function SplitOnWhitespace(s: string): (pieces: seq<string>)
    ensures |pieces| >= 1
    ensures forall i, j :: 0 <= i < |pieces| && 0 <= j < |pieces[i]| ==> !IsWhitespace(pieces[i][j])
    ensures pieces[0] == [] <==> (s == [] || IsWhitespace(s[0]))
    ensures Concat(pieces) == WithoutWhitespace(s)
    decreases |s|
  {
    if s == [] then [""]
    else if IsWhitespace(s[0]) then
      WithoutWhitespaceTrimStart(s);
      [""] + SplitOnWhitespace(TrimStart(s))
    else
      var rest := SplitOnWhitespace(s[1..]);
      var pieces := [[s[0]] + rest[0]] + rest[1..];
      assert pieces[1..] == rest[1..];
      assert Concat(pieces) == [s[0]] + (rest[0] + Concat(rest[1..]));
      pieces
  }

  /**
   * The split cuts exactly at the maximal runs of white space: it is the one list of pieces
   * that `SplitsAt` allows (see `SplitsAtUnique`).
   */
  lemma {:induction false} SplitOnWhitespaceSplitsAt(s: string)
    ensures SplitsAt(s, SplitOnWhitespace(s))
    decreases |s|
  {
    if s == [] {
      assert SplitOnWhitespace(s) == [s];
    } else if IsWhitespace(s[0]) {
      var rest := SplitOnWhitespace(TrimStart(s));
      SplitOnWhitespaceSplitsAt(TrimStart(s));
      var pieces := [""] + rest;
      assert pieces[1..] == rest && s[0..] == s && s[..0] == "";
    } else {
      SplitOnWhitespaceSplitsAt(s[1..]);
      SplitsAtCons(s, SplitOnWhitespace(s[1..]));
    }
  }

  /** `xs.filter(Boolean)` on strings: the non-empty ones, in order. */
  function NonEmpty(xs: seq<string>): (r: seq<string>)
    ensures |r| <= |xs|
    ensures forall i :: 0 <= i < |r| ==> r[i] != []
    ensures forall x :: x in r <==> x in xs && x != []
    ensures multiset(r) == multiset(xs)[[] := 0]
  {
    if xs == [] then []
    else
      assert xs == [xs[0]] + xs[1..];
      if xs[0] == [] then NonEmpty(xs[1..])
      else [xs[0]] + NonEmpty(xs[1..])
  }
}
