/**
 * Text primitives shared by the .NET relay and the Angular client: an optional value
 * (C# null, TypeScript undefined), the two platforms' notions of white space, the
 * JavaScript `trim` and `split` operations, and prefix tests.
 */
module Base {

  /** A value that may be absent: `null` in C#, `undefined` in TypeScript. */
  datatype Option<+T> = None | Some(value: T) {
    /** The `??` / `||` fallback: the value when present, else `default`. */
    function GetOr(default: T): T {
      match this
      case Some(v) => v
      case None => default
    }
  }

  /** `char.IsWhiteSpace` in .NET: the Unicode space separators plus U+0009..U+000D and U+0085. */
  predicate IsDotNetSpace(c: char) {
    c == ' ' || ('\t' <= c <= '\r') || c == '\U{0085}' || c == '\U{00A0}' || c == '\U{1680}'
    || ('\U{2000}' <= c <= '\U{200A}') || c == '\U{2028}' || c == '\U{2029}'
    || c == '\U{202F}' || c == '\U{205F}' || c == '\U{3000}'
  }

  /**
   * The characters JavaScript's `String.prototype.trim` removes (WhiteSpace and
   * LineTerminator): the .NET set without U+0085, plus the byte-order mark U+FEFF.
   */
  predicate IsJsSpace(c: char) {
    c == ' ' || ('\t' <= c <= '\r') || c == '\U{00A0}' || c == '\U{1680}'
    || ('\U{2000}' <= c <= '\U{200A}') || c == '\U{2028}' || c == '\U{2029}'
    || c == '\U{202F}' || c == '\U{205F}' || c == '\U{3000}' || c == '\U{FEFF}'
  }

  /** `string.IsNullOrWhiteSpace` in .NET. */
  predicate IsNullOrWhiteSpace(s: Option<string>) {
    s.None? || forall i :: 0 <= i < |s.value| ==> IsDotNetSpace(s.value[i])
  }

  /** Every character of `s` is removed by JavaScript's `trim`. */
  predicate AllJsSpace(s: string) {
    forall i :: 0 <= i < |s| ==> IsJsSpace(s[i])
  }

  /** `s.trimStart()`: drops the white space at the front, keeps the rest. */
  function TrimStart(s: string): (r: string)
    ensures |r| <= |s| && r == s[|s| - |r|..]
    ensures forall i :: 0 <= i < |s| - |r| ==> IsJsSpace(s[i])
    ensures r != [] ==> !IsJsSpace(r[0])
    decreases |s|
  {
    if s != [] && IsJsSpace(s[0]) then TrimStart(s[1..]) else s
  }

  /** `s.trimEnd()`: drops the white space at the back, keeps the rest. */
  function TrimEnd(s: string): (r: string)
    ensures |r| <= |s| && r == s[..|r|]
    ensures forall i :: |r| <= i < |s| ==> IsJsSpace(s[i])
    ensures r != [] ==> !IsJsSpace(r[|r| - 1])
    decreases |s|
  {
    if s != [] && IsJsSpace(s[|s| - 1]) then TrimEnd(s[..|s| - 1]) else s
  }

  /**
   * `s.trim()` in JavaScript: strips the white space at both ends and keeps the
   * inside, so the result is empty exactly when `s` is all white space.
   */
  function Trim(s: string): (r: string)
    ensures |r| <= |s|
    ensures r == [] <==> AllJsSpace(s)
    ensures r != [] ==> !IsJsSpace(r[0]) && !IsJsSpace(r[|r| - 1])
    ensures exists i, j :: 0 <= i <= j <= |s| && r == s[i..j] && AllJsSpace(s[..i]) && AllJsSpace(s[j..])
  {
    var t := TrimStart(s);
    var r := TrimEnd(t);
    TrimSlice(s, t, r);
    assert r == [] ==> AllJsSpace(s) by {
      if r == [] {
        assert t == [];
      }
    }
    assert r != [] ==> r[0] == t[0];
    r
  }

  /** The trimmed text is the slice of `s` between the white space at its two ends. */
  lemma TrimSlice(s: string, t: string, r: string)
    requires |t| <= |s| && t == s[|s| - |t|..] && forall k :: 0 <= k < |s| - |t| ==> IsJsSpace(s[k])
    requires |r| <= |t| && r == t[..|r|] && forall k :: |r| <= k < |t| ==> IsJsSpace(t[k])
    ensures var i := |s| - |t|; r == s[i..i + |r|] && AllJsSpace(s[..i]) && AllJsSpace(s[i + |r|..])
  {
    var i := |s| - |t|;
    var j := i + |r|;
    forall k | 0 <= k < |s[..i]| ensures IsJsSpace(s[..i][k]) {
      assert s[..i][k] == s[k];
    }
    forall k | 0 <= k < |s[j..]| ensures IsJsSpace(s[j..][k]) {
      assert s[j..][k] == t[|r| + k];
    }
  }

  /** `s.startsWith(prefix)`. */
  predicate StartsWith(s: string, prefix: string) {
    |prefix| <= |s| && s[..|prefix|] == prefix
  }

  /**
   * `s.split(sep)` in JavaScript for a one-character separator: the maximal pieces
   * between separators, including the empty ones at the ends and between adjacent
   * separators. There is always at least one piece.
   */
  function Split(s: string, sep: char): (parts: seq<string>)
    ensures |parts| >= 1
    decreases |s|
  {
    if s == [] then [""] else Prepend(s[0], Split(s[1..], sep), sep)
  }

  /** The pieces of `[c] + t` from the pieces of `t`: a separator opens a new empty piece, any other character joins the first. */
  function Prepend(c: char, parts: seq<string>, sep: char): (r: seq<string>)
    requires |parts| >= 1
    ensures |r| >= 1
  {
    if c == sep then [""] + parts else [[c] + parts[0]] + parts[1..]
  }

  /** No piece of a split contains the separator. */
  lemma {:induction false} SplitPieces(s: string, sep: char)
    ensures forall k :: 0 <= k < |Split(s, sep)| ==> sep !in Split(s, sep)[k]
    decreases |s|
  {
    if s != [] {
      SplitPieces(s[1..], sep);
    }
  }

  /** `parts.join(sep)`, the inverse of `Split`. */
  function Join(parts: seq<string>, sep: char): string
    requires |parts| >= 1
    decreases |parts|
  {
    if |parts| == 1 then parts[0] else parts[0] + [sep] + Join(parts[1..], sep)
  }

  /** Splitting and joining again gives back the original text. */
  lemma {:induction false} JoinSplit(s: string, sep: char)
    ensures Join(Split(s, sep), sep) == s
    decreases |s|
  {
    if s != [] {
      var rest := Split(s[1..], sep);
      JoinSplit(s[1..], sep);
      if s[0] == sep {
        assert Split(s, sep) == [""] + rest;
        assert (([""] + rest)[1..]) == rest;
      } else {
        var parts := [[s[0]] + rest[0]] + rest[1..];
        assert Split(s, sep) == parts;
        if |rest| == 1 {
          assert Join(parts, sep) == [s[0]] + rest[0];
        } else {
          assert parts[1..] == rest[1..];
          assert Join(rest, sep) == rest[0] + [sep] + Join(rest[1..], sep);
        }
      }
    }
  }

  /** Joining pieces that contain no separator and splitting again gives back the pieces. */
  lemma {:induction false} SplitJoin(parts: seq<string>, sep: char)
    requires |parts| >= 1
    requires forall k :: 0 <= k < |parts| ==> sep !in parts[k]
    ensures Split(Join(parts, sep), sep) == parts
    decreases |parts|
  {
    if |parts| == 1 {
      NoSeparator(parts[0], sep);
    } else {
      SplitJoin(parts[1..], sep);
      SplitAround(parts[0], Join(parts[1..], sep), sep);
      NoSeparator(parts[0], sep);
      assert [parts[0]] + parts[1..] == parts;
    }
  }

  /** A text without the separator splits into itself alone. */
  lemma {:induction false} NoSeparator(s: string, sep: char)
    requires sep !in s
    ensures Split(s, sep) == [s]
    decreases |s|
  {
    if s != [] {
      assert s[0] != sep;
      assert [s[0]] + s[1..] == s;
      assert forall k :: 0 <= k < |s[1..]| ==> s[1..][k] == s[k + 1];
      NoSeparator(s[1..], sep);
    }
  }

  /** A separator between two texts splits them apart: the pieces of each, side by side. */
  lemma {:induction false} SplitAround(x: string, y: string, sep: char)
    ensures Split(x + [sep] + y, sep) == Split(x, sep) + Split(y, sep)
    decreases |x|
  {
    if x == [] {
      assert x + [sep] + y == [sep] + y;
      SplitCons(sep, y, sep);
    } else {
      var c, tail := x[0], x[1..];
      var rx, ry := Split(tail, sep), Split(y, sep);
      assert x == [c] + tail;
      assert x + [sep] + y == [c] + (tail + [sep] + y);
      SplitAround(tail, y, sep);
      SplitCons(c, tail + [sep] + y, sep);
      SplitCons(c, tail, sep);
      PrependAppend(c, rx, ry, sep);
    }
  }

  /** `Split` of a text with a given first character. */
  lemma SplitCons(c: char, t: string, sep: char)
    ensures Split([c] + t, sep) == Prepend(c, Split(t, sep), sep)
  {
    assert ([c] + t)[1..] == t;
  }

  lemma PrependAppend(c: char, p: seq<string>, q: seq<string>, sep: char)
    requires |p| >= 1
    ensures Prepend(c, p + q, sep) == Prepend(c, p, sep) + q
  {
    if c != sep {
      assert (p + q)[0] == p[0];
      assert (p + q)[1..] == p[1..] + q;
    }
  }

  /** All texts joined in order, without separator. */
  function Concat(texts: seq<string>): string {
    if texts == [] then "" else Concat(texts[..|texts| - 1]) + texts[|texts| - 1]
  }

  /** Joining is associative over any cut of the list. */
  lemma {:induction false} ConcatSplit(texts: seq<string>, k: nat)
    requires k <= |texts|
    ensures Concat(texts) == Concat(texts[..k]) + Concat(texts[k..])
    decreases |texts|
  {
    if k < |texts| {
      var n := |texts| - 1;
      ConcatSplit(texts[..n], k);
      assert texts[..n][..k] == texts[..k];
      assert texts[k..][..|texts[k..]| - 1] == texts[..n][k..];
    } else {
      assert texts[..k] == texts;
    }
  }

  /**
   * Splitting a joined text: the pieces of the first part except its last, that last
   * piece run together with the first piece of the second part, then the rest of the
   * second part's pieces.
   */
  lemma {:induction false} SplitAppend(x: string, y: string, sep: char)
    ensures Split(x + y, sep) == Glue(Split(x, sep), Split(y, sep))
    decreases |x|
  {
    var py := Split(y, sep);
    if x == [] {
      assert x + y == y;
      assert Split(x, sep) == [""];
      assert "" + py[0] == py[0];
      assert [""][..0] == [];
      assert [py[0]] + py[1..] == py;
    } else {
      var c, tail := x[0], x[1..];
      assert x == [c] + tail;
      assert x + y == [c] + (tail + y);
      SplitAppend(tail, y, sep);
      SplitCons(c, tail + y, sep);
      SplitCons(c, tail, sep);
      PrependGlue(c, Split(tail, sep), py, sep);
    }
  }

  /** Two lists of pieces laid end to end, the last piece of the first run together with the first of the second. */
  function Glue(px: seq<string>, py: seq<string>): (r: seq<string>)
    requires |px| >= 1 && |py| >= 1
    ensures |r| >= 1
  {
    px[..|px| - 1] + [px[|px| - 1] + py[0]] + py[1..]
  }

  lemma PrependGlue(c: char, pt: seq<string>, py: seq<string>, sep: char)
    requires |pt| >= 1 && |py| >= 1
    ensures Prepend(c, Glue(pt, py), sep) == Glue(Prepend(c, pt, sep), py)
  {
    if c == sep {
      PrependGlueSep(c, pt, py, sep);
    } else if |pt| == 1 {
      PrependGlueOne(c, pt[0], py, sep);
    } else {
      PrependGlueMany(c, pt, py, sep);
    }
  }

  lemma PrependGlueSep(c: char, pt: seq<string>, py: seq<string>, sep: char)
    requires |pt| >= 1 && |py| >= 1 && c == sep
    ensures Prepend(c, Glue(pt, py), sep) == Glue(Prepend(c, pt, sep), py)
  {
    var px := Prepend(c, pt, sep);
    assert px == [""] + pt;
    assert px[..|px| - 1] == [""] + pt[..|pt| - 1];
  }

  lemma PrependGlueOne(c: char, t: string, py: seq<string>, sep: char)
    requires |py| >= 1 && c != sep
    ensures Prepend(c, Glue([t], py), sep) == Glue(Prepend(c, [t], sep), py)
  {
    var whole := Glue([t], py);
    assert [t][..0] == [];
    assert whole == [t + py[0]] + py[1..];
    assert [c] + (t + py[0]) == ([c] + t) + py[0];
  }

  lemma PrependGlueMany(c: char, pt: seq<string>, py: seq<string>, sep: char)
    requires |pt| >= 2 && |py| >= 1 && c != sep
    ensures Prepend(c, Glue(pt, py), sep) == Glue(Prepend(c, pt, sep), py)
  {
    var n := |pt|;
    var head, mid, join, rest := [c] + pt[0], pt[1..n - 1], [pt[n - 1] + py[0]], py[1..];
    var whole := Glue(pt, py);
    assert pt[..n - 1] == [pt[0]] + mid;
    assert whole == [pt[0]] + (mid + join + rest);
    assert Prepend(c, whole, sep) == [head] + (mid + join + rest);
    var px := Prepend(c, pt, sep);
    assert px == [head] + pt[1..];
    assert px[..n - 1] == [head] + mid;
    assert px[n - 1] == pt[n - 1];
    assert Glue(px, py) == [head] + mid + join + rest;
  }

  /** Cutting one text of a list in two leaves the joined text as it was. */
  lemma ConcatCut(texts: seq<string>, k: nat, cut: nat)
    requires k < |texts| && cut <= |texts[k]|
    ensures Concat(texts[..k] + [texts[k][..cut], texts[k][cut..]] + texts[k + 1..]) == Concat(texts)
  {
    var t := texts[k];
    var front, back := texts[..k], texts[k + 1..];
    var split := front + [t[..cut], t[cut..]] + back;
    assert texts == front + [t] + back;
    ConcatAround(front, [t[..cut], t[cut..]], back);
    ConcatAround(front, [t], back);
    ConcatPair(t[..cut], t[cut..]);
    assert t[..cut] + t[cut..] == t;
    ConcatOne(t);
  }

  lemma ConcatAround(front: seq<string>, mid: seq<string>, back: seq<string>)
    ensures Concat(front + mid + back) == Concat(front) + Concat(mid) + Concat(back)
  {
    var whole := front + mid + back;
    ConcatSplit(whole, |front|);
    assert whole[..|front|] == front;
    var rest := whole[|front|..];
    assert rest == mid + back;
    ConcatSplit(rest, |mid|);
    assert rest[..|mid|] == mid && rest[|mid|..] == back;
  }

  lemma ConcatOne(a: string)
    ensures Concat([a]) == a
  {
    assert [a][..0] == [];
  }

  lemma ConcatPair(a: string, b: string)
    ensures Concat([a, b]) == a + b
  {
    assert [a, b][..1] == [a];
    ConcatOne(a);
  }
}
