/**
  * helpers.go: the cursor-control sequences a frame ends with, the
  * debugging escape replacement, and the two loops that load a ring.
  */
module Helpers {
  import opened Auxiliary
  import opened Rings
  import opened Text

  /** The decimal digit for 0 <= d < 10. */
  function Digit(d: nat): (c: char)
    requires d < 10
    ensures '0' <= c <= '9' && (c as int) - ('0' as int) == d
  {
    ('0' as int + d) as char
  }

  predicate IsDigit(c: char)
  {
    '0' <= c <= '9'
  }

  /** What `%v` prints for a non-negative int: its decimal digits. */
  function Decimal(n: nat): (r: string)
    ensures r != []
    ensures AllDigits(r)
    ensures n > 0 ==> r[0] != '0'
    ensures n < 10 <==> |r| == 1
  {
    if n < 10 then [Digit(n)] else Decimal(n / 10) + [Digit(n % 10)]
  }

  predicate AllDigits(s: string)
  {
    forall k :: 0 <= k < |s| ==> IsDigit(s[k])
  }

  /** The number a string of decimal digits denotes. */
  function DigitsValue(s: string): nat
    requires AllDigits(s)
  {
    if s == [] then 0
    else DigitsValue(s[..|s| - 1]) * 10 + ((s[|s| - 1] as int) - ('0' as int)) as nat
  }

  /** Reading back the digits `%v` prints gives the number printed. */
  lemma {:induction false} DecimalRoundTrip(n: nat)
    ensures DigitsValue(Decimal(n)) == n
  {
    if n >= 10 {
      var d := Decimal(n / 10);
      DecimalRoundTrip(n / 10);
      assert (d + [Digit(n % 10)])[..|d|] == d;
    }
  }

  /** ESC [ <count> <final>: a control sequence with one numeric parameter. */
  function ControlSequence(count: nat, final: char): (r: string)
    ensures r != [] && r[|r| - 1] == final
  {
    [ESC, '['] + Decimal(count) + [final]
  }

  /**
    * A control sequence is one CSI sequence whose parameter reads back as
    * the count, and which the ANSI stripper removes entirely.
    */
  lemma ControlSequenceMeaning(count: nat, final: char)
    requires IsAsciiLetter(final)
    ensures IsCsi(ControlSequence(count, final))
    ensures var r := ControlSequence(count, final); AllDigits(r[2..|r| - 1]) && DigitsValue(r[2..|r| - 1]) == count
    ensures StripANSI(ControlSequence(count, final)) == []
  {
    var digits := Decimal(count);
    var r := ControlSequence(count, final);
    assert forall k :: 0 <= k < |digits| ==> !IsAsciiLetter(digits[k]) by {
      forall k | 0 <= k < |digits| ensures !IsAsciiLetter(digits[k]) {
        assert IsDigit(digits[k]);
      }
    }
    CsiOf(digits, final);
    StripCsi(r);
    assert r[2..|r| - 1] == digits;
    DecimalRoundTrip(count);
  }

  /**
    * moveBackSequence (helpers.go:12-17): nothing for a non-positive
    * width, otherwise "ESC [ w D".
    */
  function MoveBackSequence(w: int): (r: string)
    ensures r == [] <==> w <= 0
  {
    if w <= 0 then "" else ControlSequence(w, 'D')
  }

  /**
    * A move back by a positive width is the CSI sequence that moves the
    * cursor w columns left; every move back strips to nothing, so it adds
    * no width to a frame.
    */
  lemma MoveBackSequenceMeaning(w: int)
    ensures w > 0 ==> var r := MoveBackSequence(w);
                      IsCsi(r) && r[|r| - 1] == 'D' && AllDigits(r[2..|r| - 1]) && DigitsValue(r[2..|r| - 1]) == w
    ensures StripANSI(MoveBackSequence(w)) == []
  {
    if w > 0 {
      ControlSequenceMeaning(w, 'D');
    }
  }

  /**
    * eraseSequence (helpers.go:20-25): nothing for a width below one,
    * otherwise "ESC [ w X".
    */
  function EraseSequence(w: int): (r: string)
    ensures r == [] <==> w < 1
  {
    if w < 1 then "" else ControlSequence(w, 'X')
  }

  /**
    * An erase of a width of one or more is the CSI sequence that erases w
    * columns; every erase strips to nothing.
    */
  lemma EraseSequenceMeaning(w: int)
    ensures w >= 1 ==> var r := EraseSequence(w);
                       IsCsi(r) && r[|r| - 1] == 'X' && AllDigits(r[2..|r| - 1]) && DigitsValue(r[2..|r| - 1]) == w
    ensures StripANSI(EraseSequence(w)) == []
  {
    if w >= 1 {
      ControlSequenceMeaning(w, 'X');
    }
  }

  /** The cases of helpers_test.go:7-13 and helpers_test.go:25-31. */
  lemma SequenceExamples()
    ensures MoveBackSequence(0) == "" && MoveBackSequence(-10) == ""
    ensures MoveBackSequence(1) == "\U{1B}[1D" && MoveBackSequence(3) == "\U{1B}[3D"
    ensures MoveBackSequence(10) == "\U{1B}[10D"
    ensures EraseSequence(0) == "" && EraseSequence(-10) == ""
    ensures EraseSequence(1) == "\U{1B}[1X" && EraseSequence(3) == "\U{1B}[3X"
    ensures EraseSequence(10) == "\U{1B}[10X"
  {
    assert Decimal(10) == Decimal(1) + [Digit(0)];
  }

  /**
    * replaceEscapes (helpers.go:28-30): every ESC becomes the two
    * characters `\e`, everything else is kept.
    */
  function ReplaceEscapes(s: string): (r: string)
    ensures ESC !in r
    ensures ESC !in s ==> r == s
    ensures |r| >= |s|
  {
    if s == [] then []
    else (if s[0] == ESC then "\\e" else [s[0]]) + ReplaceEscapes(s[1..])
  }

  /** The inverse reading: `\e` back to ESC. */
  function RestoreEscapes(t: string): (s: string)
    ensures |s| <= |t|
  {
    if t == [] then []
    else if |t| >= 2 && t[0] == '\\' && t[1] == 'e' then [ESC] + RestoreEscapes(t[2..])
    else [t[0]] + RestoreEscapes(t[1..])
  }

  /**
    * On text without backslashes, replacing escapes loses nothing: the
    * original comes back.
    */
  lemma {:induction false} ReplaceEscapesRoundTrip(s: string)
    requires '\\' !in s
    ensures RestoreEscapes(ReplaceEscapes(s)) == s
  {
    if s != [] {
      assert '\\' !in s[1..] by {
        assert forall c :: c in s[1..] ==> c in s;
      }
      ReplaceEscapesRoundTrip(s[1..]);
      var t := ReplaceEscapes(s);
      if s[0] == ESC {
        assert t == "\\e" + ReplaceEscapes(s[1..]);
        assert t[2..] == ReplaceEscapes(s[1..]);
      } else {
        assert t == [s[0]] + ReplaceEscapes(s[1..]);
        assert t[1..] == ReplaceEscapes(s[1..]);
      }
    }
  }

  /** A literal `\e` and a real ESC print the same: the replacement is for display only. */
  lemma ReplaceEscapesNotInjective()
    ensures ReplaceEscapes([ESC]) == ReplaceEscapes("\\e")
  {
    assert ReplaceEscapes("\\e") == "\\" + ReplaceEscapes("e");
  }

  /** Replacement works rune by rune, so it distributes over concatenation. */
  lemma {:induction false} ReplaceEscapesAppend(a: string, b: string)
    ensures ReplaceEscapes(a + b) == ReplaceEscapes(a) + ReplaceEscapes(b)
  {
    if a == [] {
      assert a + b == b;
    } else {
      assert (a + b)[0] == a[0] && (a + b)[1..] == a[1..] + b;
      ReplaceEscapesAppend(a[1..], b);
    }
  }

  /** An ESC followed by plain text prints as `\e` and that text. */
  lemma EscapeThenPlain(p: string)
    requires ESC !in p
    ensures ReplaceEscapes([ESC] + p) == "\\e" + p
  {
  }

  /** The cases of helpers_test.go:48-55 with escapes around plain text. */
  lemma ReplaceEscapesExamples(a: string, b: string)
    requires a == "\U{1B}x1b" && b == "\U{1B}x1b\U{1B}"
    ensures ReplaceEscapes("") == ""
    ensures ReplaceEscapes(a) == "\\ex1b"
    ensures ReplaceEscapes(b) == "\\ex1b\\e"
  {
    assert ReplaceEscapes(a) == "\\ex1b" by {
      assert ESC !in "x1b" && a == [ESC] + "x1b" by {}
      EscapeThenPlain("x1b");
    }
    assert b == a + ([ESC] + "") by {}
    EscapeThenPlain("");
    ReplaceEscapesAppend(a, [ESC] + "");
    assert "\\ex1b\\e" == "\\ex1b" + ("\\e" + "") by {}
  }

  /**
    * The cases of helpers_test.go:48-55 on control sequences: the escape of
    * an erase and both escapes of `ESC[2m text ESC[0m` print as `\e`.
    */
  lemma ReplaceEscapesCodeExamples(c: string, d: string, p: string, q: string)
    requires c == "\U{1B}[1X" && d == "\U{1B}[2mtext\U{1B}[0m" && p == "[2mtext" && q == "[0m"
    ensures ReplaceEscapes(c) == "\\e[1X"
    ensures ReplaceEscapes(d) == "\\e[2mtext\\e[0m"
  {
    assert ReplaceEscapes(c) == "\\e[1X" by {
      assert ESC !in "[1X" && c == [ESC] + "[1X" by {}
      EscapeThenPlain("[1X");
    }
    assert ESC !in p && ESC !in q by {}
    assert d == ([ESC] + p) + ([ESC] + q) by {}
    assert "\\e[2mtext\\e[0m" == ("\\e" + p) + ("\\e" + q) by {}
    EscapeThenPlain(p);
    EscapeThenPlain(q);
    ReplaceEscapesAppend([ESC] + p, [ESC] + q);
  }

  /**
    * applyCharSet (helpers.go:43-51): a ring of len(charSet) elements,
    * loaded one value per step while the cursor walks once round, so it
    * ends on the first character again. An empty set gives nil.
    */
  method ApplyCharSet(charSet: seq<string>) returns (r: Ring)
    ensures r.Valid()
    ensures r.Nil? <==> charSet == []
    ensures r.Cycle? ==> r.values == charSet && r.pos == 0
  {
    var u := |charSet|;
    r := NewRing(u);
    var i := 0;
    while i < u
      invariant 0 <= i <= u
      invariant u == 0 ==> r.Nil?
      invariant u > 0 ==> r.Cycle? && r.Valid() && |r.values| == u
      invariant u > 0 ==> r.pos == (if i == u then 0 else i)
      invariant u > 0 ==> forall k :: 0 <= k < i ==> r.values[k] == charSet[k]
    {
      r := r.SetValue(charSet[i]);
      r := r.Next();
      i := i + 1;
    }
  }

  /**
    * createColorSet (helpers.go:32-41): `styles` is what the prototype's
    * handler returns; element k of the ring is style k with the element's
    * format substituted in, and the cursor ends on the first style.
    */
  method CreateColorSet(styles: seq<string>, format: string, sprintf: Sprintf) returns (r: Ring)
    ensures r.Valid()
    ensures r.Nil? <==> styles == []
    ensures r.Cycle? ==> |r.values| == |styles| && r.pos == 0
    ensures r.Cycle? ==> forall k :: 0 <= k < |styles| ==> r.values[k] == sprintf(styles[k], format)
  {
    var u := |styles|;
    r := NewRing(u);
    var i := 0;
    while i < u
      invariant 0 <= i <= u
      invariant u == 0 ==> r.Nil?
      invariant u > 0 ==> r.Cycle? && r.Valid() && |r.values| == u
      invariant u > 0 ==> r.pos == (if i == u then 0 else i)
      invariant u > 0 ==> forall k :: 0 <= k < i ==> r.values[k] == sprintf(styles[k], format)
    {
      r := r.SetValue(sprintf(styles[i], format));
      r := r.Next();
      i := i + 1;
    }
  }
}
