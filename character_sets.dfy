/**
  * character_sets.go: the catalogue of spinner variants, the clock sets
  * generated at start-up and the width-conformity check every set must
  * pass.
  */
module CharacterSets {
  import opened Text
  import opened Errors

  /** Durations are counted in nanoseconds, as time.Duration does. */
  const Millisecond: int := 1_000_000

  /** maxCharSetSize (character_sets.go:18). */
  const MaxCharSetSize: nat := 60

  /** Variant identifiers of the generated sets (character_sets.go:21-30). */
  const Clock: int := 5
  const HalfClock: int := 6
  const HalfClock2: int := 7

  /**
    * One catalogue entry: the refresh interval and the frames. The entry's
    * colour palette is not part of this model.
    */
  datatype Settings = Settings(interval: int, chars: seq<string>)

  /** The clock face showing (i+1) o'clock, U+1F550 onwards. */
  function ClockRune(i: nat): (c: char)
    requires i < 12
    ensures c as int == 0x1F550 + i
  {
    (0x1F550 + i) as char
  }

  /** The clock face showing half past (i+1), U+1F55C onwards. */
  function HalfPastRune(i: nat): (c: char)
    requires i < 12
    ensures c as int == 0x1F55C + i
  {
    (0x1F55C + i) as char
  }

  /** Twelve full hours. */
  function ClockChars(): (r: seq<string>)
    ensures |r| == 12
  {
    seq(12, k requires 0 <= k < 12 => [ClockRune(k)])
  }

  /** Full and half hours interleaved: 1:00, 1:30, 2:00, ... */
  function HalfClockChars(): (r: seq<string>)
    ensures |r| == 24
  {
    seq(24, k requires 0 <= k < 24 => if k % 2 == 0 then [ClockRune(k / 2)] else [HalfPastRune(k / 2)])
  }

  /** The twelve full hours followed by the twelve half hours. */
  function HalfClock2Chars(): (r: seq<string>)
    ensures |r| == 24
  {
    seq(24, k requires 0 <= k < 24 => if k < 12 then [ClockRune(k)] else [HalfPastRune(k - 12)])
  }

  /** The catalogue after fillCharSets: the three clock entries set, the rest as given. */
  function Filled(literals: map<int, Settings>): (r: map<int, Settings>)
    ensures r.Keys == literals.Keys + {Clock, HalfClock, HalfClock2}
    ensures forall v :: v in literals && v != Clock && v != HalfClock && v != HalfClock2 ==> r[v] == literals[v]
  {
    literals[Clock := Settings(150 * Millisecond, ClockChars())]
            [HalfClock := Settings(300 * Millisecond, HalfClockChars())]
            [HalfClock2 := Settings(150 * Millisecond, HalfClock2Chars())]
  }

  /**
    * fillCharSets (character_sets.go:275-305): one loop builds the hour
    * and the interleaved sets, the second set is a copy of the hours
    * extended by a second loop with the half hours.
    */
  method FillCharSets(literals: map<int, Settings>) returns (r: map<int, Settings>)
    ensures r == Filled(literals)
  {
    var clockChars: seq<string> := [];
    var halfClockChars: seq<string> := [];
    var i := 0;
    while i < 12
      invariant 0 <= i <= 12
      invariant clockChars == ClockChars()[..i]
      invariant halfClockChars == HalfClockChars()[..2 * i]
    {
      assert HalfClockChars()[2 * i] == [ClockRune(i)];
      assert HalfClockChars()[2 * i + 1] == [HalfPastRune(i)];
      clockChars := clockChars + [[ClockRune(i)]];
      halfClockChars := halfClockChars + [[ClockRune(i)], [HalfPastRune(i)]];
      i := i + 1;
    }
    assert clockChars == ClockChars();
    assert halfClockChars == HalfClockChars();
    var halfClockChars2 := clockChars;
    assert halfClockChars2 == HalfClock2Chars()[..12];
    i := 0;
    while i < 12
      invariant 0 <= i <= 12
      invariant halfClockChars2 == HalfClock2Chars()[..12 + i]
    {
      halfClockChars2 := halfClockChars2 + [[HalfPastRune(i)]];
      i := i + 1;
    }
    assert halfClockChars2 == HalfClock2Chars();
    r := literals[Clock := Settings(150 * Millisecond, clockChars)];
    r := r[HalfClock := Settings(300 * Millisecond, halfClockChars)];
    r := r[HalfClock2 := Settings(150 * Millisecond, halfClockChars2)];
  }

  /** Both half-hour variants show the same 24 faces, in a different order. */
  lemma HalfClocksSameFaces()
    ensures forall s :: s in HalfClockChars() <==> s in HalfClock2Chars()
  {
    forall s | s in HalfClockChars() ensures s in HalfClock2Chars() {
      var k :| 0 <= k < 24 && HalfClockChars()[k] == s;
      if k % 2 == 0 {
        assert HalfClock2Chars()[k / 2] == s;
      } else {
        assert HalfClock2Chars()[12 + k / 2] == s;
      }
    }
    forall s | s in HalfClock2Chars() ensures s in HalfClockChars() {
      var k :| 0 <= k < 24 && HalfClock2Chars()[k] == s;
      if k < 12 {
        assert HalfClockChars()[2 * k] == s;
      } else {
        assert HalfClockChars()[2 * (k - 12) + 1] == s;
      }
    }
  }

  /** The display width of every frame of a set. */
  function Widths(rw: RuneWidth, c: seq<string>): (ws: seq<nat>)
    ensures |ws| == |c|
    ensures forall k :: 0 <= k < |c| ==> ws[k] == Width(rw, c[k])
  {
    seq(|c|, k requires 0 <= k < |c| => Width(rw, c[k]))
  }

  predicate SameWidths(ws: seq<nat>)
  {
    forall k :: 0 <= k < |ws| ==> ws[k] == ws[0]
  }

  /**
    * checkCharSet's verdict (character_sets.go:307-321): too many frames
    * first, then frames of differing display width.
    */
  function CharSetVerdict(rw: RuneWidth, c: seq<string>): (r: Outcome)
    ensures r == Pass <==> |c| <= MaxCharSetSize && forall k :: 0 <= k < |c| ==> Width(rw, c[k]) == Width(rw, c[0])
    ensures |c| > MaxCharSetSize ==> r == Fail(CharSetTooBig(|c|))
  {
    if |c| > MaxCharSetSize then Fail(CharSetTooBig(|c|))
    else if !SameWidths(Widths(rw, c)) then Fail(AmbiguousWidths(c, Widths(rw, c)))
    else Pass
  }

  /**
    * checkCharSet (character_sets.go:307-321): a size check, a loop that
    * measures every frame, and a loop that compares every width with the
    * first.
    */
  method CheckCharSet(rw: RuneWidth, c: seq<string>) returns (r: Outcome)
    ensures r == CharSetVerdict(rw, c)
  {
    if |c| > MaxCharSetSize {
      return Fail(CharSetTooBig(|c|));
    }
    var widths: seq<nat> := [];
    for i := 0 to |c|
      invariant widths == Widths(rw, c)[..i]
    {
      widths := widths + [Width(rw, c[i])];
    }
    assert widths == Widths(rw, c);
    for j := 0 to |widths|
      invariant forall k :: 0 <= k < j ==> widths[k] == widths[0]
    {
      if widths[j] != widths[0] {
        return Fail(AmbiguousWidths(c, widths));
      }
    }
    return Pass;
  }

  /** The cases of character_sets_test.go:16-35, with the widths runewidth gives digits and spaces. */
  lemma CheckCharSetExamples(rw: RuneWidth)
    requires rw('0') == 1 && rw(' ') == 1
    ensures CharSetVerdict(rw, []) == Pass
    ensures CharSetVerdict(rw, seq(MaxCharSetSize + 5, _ => "-")).Fail?
    ensures CharSetVerdict(rw, ["0", "  ", "0"]).Fail?
  {
    var c := ["0", "  ", "0"];
    WidthSingle(rw, '0');
    assert Width(rw, "  ") == 2 by {
      WidthAppend(rw, " ", " ");
      WidthSingle(rw, ' ');
    }
    assert Width(rw, c[1]) != Width(rw, c[0]);
  }

  /** The numbers case of character_sets_test.go:26-30: ten one-column digits conform. */
  lemma CheckCharSetDigits(rw: RuneWidth, c: seq<string>)
    requires forall d :: '0' <= d <= '9' ==> rw(d) == 1
    requires c == ["0", "1", "2", "3", "4", "5", "6", "7", "8", "9"]
    ensures CharSetVerdict(rw, c) == Pass
  {
    forall k | 0 <= k < |c| ensures |c[k]| == 1 && rw(c[k][0]) == 1 {
      assert c[k] == [('0' as int + k) as char];
    }
    SingleRunesConform(rw, c, 1);
  }

  /** Every set of one-rune frames whose runes are equally wide conforms. */
  lemma {:induction false} SingleRunesConform(rw: RuneWidth, c: seq<string>, w: nat)
    requires |c| <= MaxCharSetSize
    requires forall k :: 0 <= k < |c| ==> |c[k]| == 1 && rw(c[k][0]) == w
    ensures CharSetVerdict(rw, c) == Pass
  {
    forall k | 0 <= k < |c| ensures Width(rw, c[k]) == w {
      assert c[k] == [c[k][0]];
      WidthSingle(rw, c[k][0]);
    }
  }

  /** With all clock faces equally wide, the generated clock sets pass the check. */
  lemma ClocksConform(rw: RuneWidth)
    requires forall i :: 0 <= i < 12 ==> rw(ClockRune(i)) == rw(ClockRune(0)) && rw(HalfPastRune(i)) == rw(ClockRune(0))
    ensures CharSetVerdict(rw, ClockChars()) == Pass
    ensures CharSetVerdict(rw, HalfClockChars()) == Pass
    ensures CharSetVerdict(rw, HalfClock2Chars()) == Pass
  {
    var w := rw(ClockRune(0));
    SingleRunesConform(rw, ClockChars(), w);
    SingleRunesConform(rw, HalfClockChars(), w);
    SingleRunesConform(rw, HalfClock2Chars(), w);
  }

  /** Every catalogue entry passes the check. */
  predicate Conforming(rw: RuneWidth, catalogue: map<int, Settings>)
  {
    forall v :: v in catalogue ==> CharSetVerdict(rw, catalogue[v].chars) == Pass
  }

  /**
    * init (character_sets.go:263-273): fill in the clocks, then check
    * every entry. Go panics on the first failing entry; here `ok` is false
    * exactly when some entry fails.
    */
  method Init(rw: RuneWidth, literals: map<int, Settings>) returns (catalogue: map<int, Settings>, ok: bool)
    ensures catalogue == Filled(literals)
    ensures ok <==> Conforming(rw, catalogue)
  {
    catalogue := FillCharSets(literals);
    var pending := catalogue.Keys;
    while pending != {}
      invariant pending <= catalogue.Keys
      invariant forall v :: v in catalogue && v !in pending ==> CharSetVerdict(rw, catalogue[v].chars) == Pass
      decreases |pending|
    {
      var n :| n in pending;
      var err := CheckCharSet(rw, catalogue[n].chars);
      if err.Fail? {
        return catalogue, false;
      }
      pending := pending - {n};
    }
    ok := true;
  }
}
