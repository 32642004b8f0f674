/**
  * auxiliary/functions.go: ANSI stripping, de-duplication, slice equality
  * and width-checked truncation.
  */
module Auxiliary {
  import opened Text

  /** The escape character that introduces every ANSI control sequence. */
  const ESC: char := '\U{1B}'

  /** Truncate's ellipsis when the caller gives none: U+2026 HORIZONTAL ELLIPSIS. */
  const DefaultEllipsis: string := "\U{2026}"

  predicate IsAsciiLetter(c: char)
  {
    'A' <= c <= 'Z' || 'a' <= c <= 'z'
  }

  /** Index of the first ASCII letter of `s` at or after `i`, or |s| if there is none. */
  function LetterFrom(s: string, i: nat): (j: nat)
    requires i <= |s|
    ensures i <= j <= |s|
    ensures forall k :: i <= k < j ==> !IsAsciiLetter(s[k])
    ensures j < |s| ==> IsAsciiLetter(s[j])
    decreases |s| - i
  {
    if i == |s| || IsAsciiLetter(s[i]) then i else LetterFrom(s, i + 1)
  }

  /** `s` is exactly one sequence `ESC [ <non-letters> <ASCII letter>`. */
  predicate IsCsi(s: string)
  {
    && |s| >= 3
    && s[0] == ESC && s[1] == '['
    && (forall k :: 2 <= k < |s| - 1 ==> !IsAsciiLetter(s[k]))
    && IsAsciiLetter(s[|s| - 1])
  }

  /**
    * Length of the sequence `ESC [ <non-letters> <ASCII letter>` that `s`
    * starts with, or 0 when `s` does not start with one. This is the match
    * of the pattern at auxiliary/functions.go:12 anchored at the start of `s`:
    * the run of non-letters can only stop at the first letter, so the match,
    * when there is one, is unique.
    */
  function CsiLength(s: string): (n: nat)
    ensures n == 0 || (3 <= n <= |s| && IsCsi(s[..n]))
    ensures s == [] || s[0] != ESC ==> n == 0
  {
    if |s| >= 2 && s[0] == ESC && s[1] == '[' && LetterFrom(s, 2) < |s| then
      var n := LetterFrom(s, 2) + 1;
      assert IsCsi(s[..n]);
      n
    else
      0
  }

  /** No prefix of `s` is a CSI sequence when CsiLength finds none. */
  lemma CsiLengthComplete(s: string, m: nat)
    requires 0 < m <= |s| && IsCsi(s[..m])
    ensures CsiLength(s) == m
  {
    assert IsAsciiLetter(s[m - 1]);
    assert forall k :: 2 <= k < m - 1 ==> !IsAsciiLetter(s[k]) by {
      forall k | 2 <= k < m - 1 ensures !IsAsciiLetter(s[k]) {
        assert s[..m][k] == s[k];
      }
    }
  }

  /**
    * StripANSI: scans left to right; at each position a CSI sequence that
    * starts there is dropped whole, any other rune is kept.
    */
  function StripANSI(s: string): (r: string)
    ensures |r| <= |s|
    ensures ESC !in s ==> r == s
    decreases |s|
  {
    if s == [] then []
    else if CsiLength(s) > 0 then StripANSI(s[CsiLength(s)..])
    else [s[0]] + StripANSI(s[1..])
  }

  /** Stripping never widens a string. */
  lemma {:induction false} StripNarrower(rw: RuneWidth, s: string)
    ensures Width(rw, StripANSI(s)) <= Width(rw, s)
    decreases |s|
  {
    if s != [] {
      var n := CsiLength(s);
      if n > 0 {
        StripNarrower(rw, s[n..]);
        WidthSplit(rw, s, n);
      } else {
        StripNarrower(rw, s[1..]);
        WidthAppend(rw, [s[0]], StripANSI(s[1..]));
        WidthSingle(rw, s[0]);
      }
    }
  }

  /** A complete CSI sequence at the front is removed and nothing after it is touched. */
  lemma StripCsiPrefix(c: string, rest: string)
    requires IsCsi(c)
    ensures StripANSI(c + rest) == StripANSI(rest)
  {
    var s := c + rest;
    assert s[..|c|] == c;
    var j := LetterFrom(s, 2);
    assert IsAsciiLetter(s[|c| - 1]);
    assert j == |c| - 1;
    assert s[|c|..] == rest;
  }

  /** Text without escapes before the rest is kept as it is. */
  lemma {:induction false} StripPlainPrefix(a: string, rest: string)
    requires ESC !in a
    ensures StripANSI(a + rest) == a + StripANSI(rest)
  {
    if a != [] {
      var s := a + rest;
      assert s[0] == a[0] != ESC;
      assert CsiLength(s) == 0;
      assert StripANSI(s) == [s[0]] + StripANSI(s[1..]);
      assert s[1..] == a[1..] + rest;
      StripPlainPrefix(a[1..], rest);
      assert a == [a[0]] + a[1..];
    } else {
      assert a + rest == rest;
    }
  }

  /** An ESC that does not open a CSI sequence is kept, and scanning resumes after it. */
  lemma StripLoneEscape(rest: string)
    requires rest == [] || rest[0] != '['
    ensures StripANSI([ESC] + rest) == [ESC] + StripANSI(rest)
  {
    assert ([ESC] + rest)[1..] == rest;
  }

  /** `ESC [ <params> <final>` is a CSI sequence when no parameter rune is a letter. */
  lemma CsiOf(params: string, final: char)
    requires forall k :: 0 <= k < |params| ==> !IsAsciiLetter(params[k])
    requires IsAsciiLetter(final)
    ensures IsCsi([ESC, '['] + params + [final])
  {
    var c := [ESC, '['] + params + [final];
    assert forall k :: 2 <= k < |c| - 1 ==> c[k] == params[k - 2];
  }

  /** A lone CSI sequence strips to nothing. */
  lemma StripCsi(c: string)
    requires IsCsi(c)
    ensures StripANSI(c) == []
  {
    StripCsiPrefix(c, []);
    assert c + [] == c;
  }

  /**
    * Text wrapped in an opening and a closing sequence strips to the text,
    * as in "\x1b[2mtext\x1b[0m" and "\x1b[38;5;214mtext\x1b[0m"
    * (auxiliary/functions_test.go:22-36).
    */
  lemma StripSurrounded(open: string, text: string, close: string)
    requires IsCsi(open) && IsCsi(close) && ESC !in text
    ensures StripANSI(open + (text + close)) == text
  {
    StripCsi(close);
    StripPlainPrefix(text, close);
    assert text + [] == text;
    StripCsiPrefix(open, text + close);
  }

  /**
    * Text followed by two control sequences strips to the text, as in
    * "text\x1b[1X\x1b[2D" (auxiliary/functions_test.go:37-41).
    */
  lemma StripTrailing(text: string, c1: string, c2: string)
    requires IsCsi(c1) && IsCsi(c2) && ESC !in text
    ensures StripANSI(text + (c1 + c2)) == text
  {
    StripCsi(c2);
    StripCsiPrefix(c1, c2);
    StripPlainPrefix(text, c1 + c2);
    assert text + [] == text;
  }

  /**
    * An ESC that does not open a sequence survives and joins the text left
    * behind a removed sequence: ESC + "\x1b[1m" + "[2m" strips to "\x1b[2m",
    * which strips again to "".
    */
  lemma {:induction false} StripRejoins(c: string, d: string)
    requires IsCsi(c) && IsCsi([ESC] + d) && ESC !in d
    ensures StripANSI([ESC] + (c + d)) == [ESC] + d
    ensures StripANSI(StripANSI([ESC] + (c + d))) == []
  {
    StripCsi([ESC] + d);
    StripPlainPrefix(d, []);
    assert d + [] == d;
    StripCsiPrefix(c, d);
    StripLoneEscape(c + d);
  }

  /** Some ASCII letter of `s` lies after position `k`. */
  predicate LetterAfter(s: string, k: nat)
  {
    exists j :: k < j < |s| && IsAsciiLetter(s[j])
  }

  /** Every `ESC [` in `s` is followed, somewhere later in `s`, by an ASCII letter that closes it. */
  predicate ClosedCsis(s: string)
  {
    forall i :: 0 <= i < |s| - 1 && s[i] == ESC && s[i + 1] == '[' ==> LetterAfter(s, i + 1)
  }

  /** Dropping a prefix keeps every remaining `ESC [` closed. */
  lemma ClosedSuffix(s: string, n: nat)
    requires ClosedCsis(s) && n <= |s|
    ensures ClosedCsis(s[n..])
  {
  }

  /** A CSI sequence at the front of `b` stays the one found when text follows `b`. */
  lemma CsiLengthExtends(b: string, rest: string)
    requires CsiLength(b) > 0
    ensures CsiLength(b + rest) == CsiLength(b)
  {
    var n := CsiLength(b);
    assert (b + rest)[..n] == b[..n];
    CsiLengthComplete(b + rest, n);
  }

  /**
    * When `b` has every `ESC [` closed and starts with none, text after it
    * that does not start with `[` cannot complete one at the front.
    */
  lemma CsiLengthStaysZero(b: string, rest: string)
    requires ClosedCsis(b) && b != [] && CsiLength(b) == 0
    requires rest == [] || rest[0] != '['
    ensures CsiLength(b + rest) == 0
  {
  }

  /**
    * Text whose every `ESC [` is closed strips on its own: what follows it
    * cannot be swallowed by an open sequence, unless it starts with `[`
    * right after a trailing ESC.
    */
  lemma {:induction false} StripAppendClosed(b: string, rest: string)
    requires ClosedCsis(b)
    requires rest == [] || rest[0] != '['
    ensures StripANSI(b + rest) == StripANSI(b) + StripANSI(rest)
    decreases |b|
  {
    if b == [] {
      assert b + rest == rest;
    } else {
      var n := CsiLength(b);
      if n > 0 {
        CsiLengthExtends(b, rest);
        assert (b + rest)[n..] == b[n..] + rest;
        ClosedSuffix(b, n);
        StripAppendClosed(b[n..], rest);
      } else {
        CsiLengthStaysZero(b, rest);
        assert (b + rest)[0] == b[0];
        assert (b + rest)[1..] == b[1..] + rest;
        ClosedSuffix(b, 1);
        StripAppendClosed(b[1..], rest);
      }
    }
  }

  /** Hence stripping is not idempotent. */
  lemma StripNotIdempotent()
    ensures exists s :: StripANSI(StripANSI(s)) != StripANSI(s)
  {
    var c, d := "\U{1B}[1m", "[2m";
    CsiOf("1", 'm');
    CsiOf("2", 'm');
    assert [ESC] + d == "\U{1B}[2m";
    StripRejoins(c, d);
    var s := [ESC] + (c + d);
    assert StripANSI(StripANSI(s)) != StripANSI(s);
  }

  // ---------------------------------------------------------------- Bounds

  /**
    * Bounds (auxiliary/functions.go:21-29): a progress fraction clamped
    * into [0, 1], left alone when already inside.
    */
  function Bounds(f: real): (r: real)
    ensures 0.0 <= r <= 1.0
    ensures 0.0 <= f <= 1.0 ==> r == f
    ensures f < 0.0 ==> r == 0.0
    ensures f > 1.0 ==> r == 1.0
  {
    var f := if f < 0.0 then 0.0 else f;
    if f > 1.0 then 1.0 else f
  }

  // ---------------------------------------------------------------- Unique

  predicate NoDuplicates(s: seq<int>)
  {
    forall i, j :: 0 <= i < j < |s| ==> s[i] != s[j]
  }

  /** The first occurrence of every value of `s`, in the order of `s`. */
  function Dedup(s: seq<int>): (r: seq<int>)
    ensures NoDuplicates(r)
    ensures forall x :: x in r <==> x in s
    ensures |r| <= |s|
  {
    if s == [] then []
    else
      var p := Dedup(s[..|s| - 1]);
      assert forall x :: x in s <==> x in s[..|s| - 1] || x == s[|s| - 1] by {
        assert s == s[..|s| - 1] + [s[|s| - 1]];
      }
      if s[|s| - 1] in s[..|s| - 1] then p else p + [s[|s| - 1]]
  }

  /** Position of the first occurrence of `x` in `s`. */
  function FirstIndex(s: seq<int>, x: int): (k: nat)
    requires x in s
    ensures k < |s| && s[k] == x && x !in s[..k]
  {
    if s[0] == x then 0
    else
      var k := 1 + FirstIndex(s[1..], x);
      assert s[..k] == [s[0]] + s[1..][..k - 1];
      k
  }

  lemma {:induction false} FirstIndexOfPrefix(s: seq<int>, t: seq<int>, x: int)
    requires x in s
    ensures FirstIndex(s + t, x) == FirstIndex(s, x)
  {
    var k := FirstIndex(s, x);
    var k' := FirstIndex(s + t, x);
    assert (s + t)[..k] == s[..k];
    assert (s + t)[k] == x;
  }

  /** Unique keeps first occurrences in their original order. */
  lemma {:induction false} DedupKeepsFirstOrder(s: seq<int>, i: nat, j: nat)
    requires i < j < |Dedup(s)|
    ensures Dedup(s)[i] in s && Dedup(s)[j] in s
    ensures FirstIndex(s, Dedup(s)[i]) < FirstIndex(s, Dedup(s)[j])
    decreases |s|
  {
    var r := Dedup(s);
    var p := s[..|s| - 1];
    var last := s[|s| - 1];
    assert s == p + [last];
    var q := Dedup(p);
    if j < |q| {
      assert r[i] == q[i] && r[j] == q[j];
      DedupKeepsFirstOrder(p, i, j);
      FirstIndexOfPrefix(p, [last], q[i]);
      FirstIndexOfPrefix(p, [last], q[j]);
    } else {
      assert last !in p && r == q + [last] && j == |q|;
      assert r[i] == q[i] && q[i] in p;
      FirstIndexOfPrefix(p, [last], q[i]);
      assert s[..|s| - 1] == p;
    }
  }

  /**
    * The test cases of auxiliary/functions_test.go:105-129, for any three
    * distinct values in place of 1, 2, 3: distinct values are kept, repeats
    * dropped, order kept.
    */
  lemma DedupExamples(x: int, y: int, z: int)
    requires x != y && y != z && x != z
    ensures Dedup([]) == []
    ensures Dedup([x, y, z]) == [x, y, z]
    ensures Dedup([x, y, y, z]) == [x, y, z]
    ensures Dedup([y, y]) == [y]
  {
    DedupPair(x, y);
    assert [x, y, z][..2] == [x, y] && z !in [x, y];
    assert [x, y, y][..2] == [x, y] && y in [x, y];
    assert Dedup([x, y, y]) == [x, y];
    assert [x, y, y, z][..3] == [x, y, y] && z !in [x, y, y];
  }

  /** Two values: both kept when they differ, one when they are equal. */
  lemma DedupPair(x: int, y: int)
    ensures Dedup([x, y]) == if x == y then [x] else [x, y]
  {
    assert [x][..0] == [];
    assert [x, y][..1] == [x];
  }

  /**
    * Unique: walks the input once, remembering seen values in a map and
    * appending each value the first time it is met.
    */
  method Unique(i: seq<int>) returns (l: seq<int>)
    ensures l == Dedup(i)
  {
    if i == [] {
      return i;
    }
    var k: map<int, bool> := map[];
    l := [];
    for n := 0 to |i|
      invariant l == Dedup(i[..n])
      invariant forall x :: x in k <==> x in i[..n]
    {
      assert i[..n + 1][..n] == i[..n] && i[..n + 1][n] == i[n];
      if i[n] !in k {
        k := k[i[n] := true];
        l := l + [i[n]];
      }
      assert i[..n + 1] == i[..n] + [i[n]];
    }
    assert i[..|i|] == i;
  }

  // ----------------------------------------------------------------- Equal

  /** Equal: same length and equal element by element (nil and empty are both []). */
  method Equal(a: seq<int>, b: seq<int>) returns (r: bool)
    ensures r <==> |a| == |b| && forall k :: 0 <= k < |a| ==> a[k] == b[k]
    ensures r <==> a == b
  {
    if |a| != |b| {
      return false;
    }
    for i := 0 to |a|
      invariant forall k :: 0 <= k < i ==> a[k] == b[k]
    {
      if a[i] != b[i] {
        return false;
      }
    }
    return true;
  }

  // -------------------------------------------------------------- Truncate

  /** One of Truncate's optional trailing arguments: a string, or a value of any other type. */
  datatype Arg = StringArg(s: string) | OtherArg

  /** The ellipsis Truncate appends when it cuts: the first extra argument if it is a string. */
  function EllipsisOf(l: seq<Arg>): string
  {
    if l != [] && l[0].StringArg? then l[0].s else DefaultEllipsis
  }

  /** The first `w` runes of `text`: all of it when it is shorter, none when `w` is not positive. */
  function Cut(text: string, w: int): (r: string)
    ensures |r| == (if w <= 0 then 0 else if w < |text| then w else |text|)
    ensures r == text[..|r|]
  {
    if w <= 0 then [] else if w < |text| then text[..w] else text
  }

  /**
    * What Truncate returns: the first `w` runes of `text`, followed by the
    * ellipsis exactly when the visible width of `text` exceeds `w`. The cut
    * counts runes, while the ellipsis decision measures display width.
    */
  function Truncated(rw: RuneWidth, text: string, w: int, l: seq<Arg>): (r: string)
    ensures Width(rw, StripANSI(text)) <= w ==> r == Cut(text, w)
    ensures Width(rw, StripANSI(text)) > w ==> r == Cut(text, w) + EllipsisOf(l)
  {
    Cut(text, w) + (if Width(rw, StripANSI(text)) <= w then "" else EllipsisOf(l))
  }

  /** A rune is never narrower than one column. */
  predicate Visible(rw: RuneWidth)
  {
    forall c :: rw(c) >= 1
  }

  lemma {:induction false} WidthAtLeastLength(rw: RuneWidth, s: string)
    requires Visible(rw)
    ensures Width(rw, s) >= |s|
  {
    if s != [] {
      WidthAtLeastLength(rw, s[1..]);
    }
  }

  /** Plain text that fits in `w` columns comes back untouched. */
  lemma TruncateKeepsFittingText(rw: RuneWidth, text: string, w: int, l: seq<Arg>)
    requires Visible(rw) && ESC !in text && Width(rw, text) <= w
    ensures Truncated(rw, text, w, l) == text
  {
    WidthAtLeastLength(rw, text);
  }

  /**
    * Without the one-column floor a fitting text can still lose runes: the
    * cut counts runes, so a combining mark (zero columns) after a letter is
    * dropped although the text fits in one column and gets no ellipsis.
    */
  lemma TruncateCutsZeroWidth(rw: RuneWidth, text: string)
    requires rw('a') == 1 && rw('\U{0301}') == 0
    requires text == "a\U{0301}"
    ensures Width(rw, StripANSI(text)) == 1
    ensures Truncated(rw, text, 1, []) == "a" != text
  {
    assert ESC !in text;
    WidthAppend(rw, "a", "\U{0301}");
    WidthSingle(rw, 'a');
    WidthSingle(rw, '\U{0301}');
    assert "a" + "\U{0301}" == text;
  }

  /** The result never holds more than `w` runes of the text besides the ellipsis. */
  lemma TruncateBound(rw: RuneWidth, text: string, w: int, l: seq<Arg>)
    ensures |Truncated(rw, text, w, l)| <= (if w <= 0 then 0 else w) + |EllipsisOf(l)|
  {
  }

  /** The cases of auxiliary/functions_test.go:212-236, with one column per ASCII letter. */
  lemma TruncateExamples(rw: RuneWidth, text: string)
    requires rw('s') == 1 && rw('t') == 1 && rw('r') == 1 && rw('i') == 1 && rw('n') == 1 && rw('g') == 1
    requires text == "string"
    ensures Truncated(rw, text, 4, [StringArg("")]) == "stri"
    ensures Truncated(rw, text, 4, [StringArg("...")]) == "stri..."
    ensures Truncated(rw, text, 4, [OtherArg]) == "stri\U{2026}"
    ensures Truncated(rw, text, 9, [StringArg("\U{2026}")]) == "string"
  {
    assert Width(rw, StripANSI(text)) == 6 by {
      assert ESC !in text;
      WidthOfString(rw);
    }
    var cut := Cut(text, 4);
    assert cut == "stri";
    assert cut + "..." == "stri...";
    assert cut + DefaultEllipsis == "stri\U{2026}";
  }

  lemma WidthOfString(rw: RuneWidth)
    requires rw('s') == 1 && rw('t') == 1 && rw('r') == 1 && rw('i') == 1 && rw('n') == 1 && rw('g') == 1
    ensures Width(rw, "string") == 6
  {
    WidthAppend(rw, "str", "ing");
    WidthAppend(rw, "s", "tr");
    WidthAppend(rw, "t", "r");
    WidthAppend(rw, "i", "ng");
    WidthAppend(rw, "n", "g");
    WidthSingle(rw, 's');
    WidthSingle(rw, 't');
    WidthSingle(rw, 'r');
    WidthSingle(rw, 'i');
    WidthSingle(rw, 'n');
    WidthSingle(rw, 'g');
  }

  /**
    * Truncate (auxiliary/functions.go:63-83): picks the ellipsis, drops it
    * when the text fits, then walks the runes and cuts before the first
    * one past `w`.
    */
  method Truncate(rw: RuneWidth, text: string, w: int, l: seq<Arg>) returns (r: string)
    ensures r == Truncated(rw, text, w, l)
  {
    var end := DefaultEllipsis;
    if l != [] {
      match l[0]
      case StringArg(v) => end := v;
      case OtherArg =>
    }
    if Width(rw, StripANSI(text)) <= w {
      end := "";
    }
    var result := text;
    var chars := 0;
    var i := 0;
    while i < |text|
      invariant 0 <= i <= |text| && chars == i
      invariant i == 0 || i <= w
      invariant result == text
    {
      if chars >= w {
        result := text[..i];
        break;
      }
      chars := chars + 1;
      i := i + 1;
    }
    r := result + end;
  }
}
