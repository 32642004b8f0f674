/**
  * element.go: one of the three parts of a spinner frame (the rotating
  * character, the message, the progress indicator), with its colour ring.
  */
module Elements {
  import opened Text
  import opened Rings
  import opened Helpers

  /**
    * elementSettings (element.go:24-30). `colorizingSet` names a colour
    * prototype; the templates its handler produces are looked up through a
    * function the caller supplies.
    */
  datatype ElementSettings = ElementSettings(
    colorizingSet: int,
    format: string,
    spacer: string,
    auxFormat: string,
    charSet: seq<string>)

  /**
    * What one colorized call returns for the current text and colour ring:
    * nothing for empty text, the text itself without a colour ring, and
    * otherwise the text inside the template after the one designated.
    */
  function Colorize(current: string, colors: Ring, sprintf: Sprintf): (r: string)
    requires colors.Valid()
    ensures current == "" ==> r == ""
    ensures current != "" && colors.Nil? ==> r == current
  {
    if current == "" then ""
    else if colors.Nil? then current
    else sprintf(colors.Next().Value(), current)
  }

  /** Where the colour ring stands after one colorized call. */
  function ColorsAfter(current: string, colors: Ring): (r: Ring)
    requires colors.Valid()
    ensures r.Valid() && r.Len() == colors.Len()
    ensures current == "" || colors.Nil? ==> r == colors
  {
    if current == "" || colors.Nil? then colors else colors.Next()
  }

  /** The outputs of `n` consecutive colorized calls on unchanged text. */
  function ColorizedRun(current: string, colors: Ring, sprintf: Sprintf, n: nat): (r: seq<string>)
    requires colors.Valid()
    ensures |r| == n
    decreases n
  {
    if n == 0 then []
    else [Colorize(current, colors, sprintf)] + ColorizedRun(current, ColorsAfter(current, colors), sprintf, n - 1)
  }

  /**
    * With a colour ring built from `styles` for `format` (as createColorSet
    * leaves it), call k paints the text with style (k+1) mod len(styles):
    * the colours cycle through every style in order.
    */
  lemma {:induction false} ColorizedRunCycles(current: string, styles: seq<string>, format: string,
                                              sprintf: Sprintf, start: nat, n: nat, k: nat)
    requires current != "" && styles != [] && start < |styles| && k < n
    ensures ColorizedRun(current, Cycle(seq(|styles|, i requires 0 <= i < |styles| => sprintf(styles[i], format)), start), sprintf, n)[k]
            == sprintf(sprintf(styles[(start + k + 1) % |styles|], format), current)
    decreases k
  {
    var values := seq(|styles|, i requires 0 <= i < |styles| => sprintf(styles[i], format));
    var colors := Cycle(values, start);
    var rest := ColorizedRun(current, ColorsAfter(current, colors), sprintf, n - 1);
    assert ColorizedRun(current, colors, sprintf, n) == [Colorize(current, colors, sprintf)] + rest;
    if k == 0 {
      AdvanceForward(colors, 1);
      assert Advance(colors, false, 1) == colors.Next();
    } else {
      var next := colors.Next();
      assert ColorsAfter(current, colors) == next;
      ColorizedRunCycles(current, styles, format, sprintf, next.pos, n - 1, k - 1);
      AdvanceForward(colors, 1);
      assert Advance(colors, false, 1) == next;
      assert next.pos == (start + 1) % |styles|;
      ModSum(start + 1, k, |styles|);
    }
  }

  lemma ModSum(a: nat, k: nat, n: nat)
    requires n > 0
    ensures (a % n + k) % n == (a + k) % n
  {
    DivModUnique(a, n, a / n, a % n);
    var q := (a % n + k) / n;
    var m := (a % n + k) % n;
    DivModUnique(a + k, n, a / n + q, m);
  }

  /** With frames of one common width, stepping the ring keeps the displayed width. */
  lemma StepKeepsWidth(rw: RuneWidth, r: Ring, reversed: bool)
    requires r.Cycle? && r.Valid()
    requires forall k :: 0 <= k < |r.values| ==> Width(rw, r.values[k]) == Width(rw, r.values[0])
    ensures Width(rw, Step(r, reversed).Value()) == Width(rw, r.Value())
  {
  }

  /** element (element.go:13-22). */
  class Element {
    const rw: RuneWidth
    const sprintf: Sprintf
    var format: string
    var spacer: string
    var current: string
    var currentWidth: int
    var charSet: Ring
    var colorFormat: Ring
    var reversed: bool
    var emptyFormat: string

    predicate Valid()
      reads this
    {
      charSet.Valid() && colorFormat.Valid()
    }

    /**
      * A rotating element's recorded width is that of its designated frame
      * plus the formatted spacer, which is what newElement computes.
      */
    predicate WidthMatchesFrame()
      reads this
      requires Valid()
    {
      charSet.Cycle? ==> currentWidth == Width(rw, charSet.Value()) + Width(rw, sprintf(format, spacer))
    }

    /** All frames of the character ring are equally wide, as checkCharSet demands. */
    predicate UniformFrames()
      reads this
    {
      charSet.Cycle? ==> forall k :: 0 <= k < |charSet.values| ==> Width(rw, charSet.values[k]) == Width(rw, charSet.values[0])
    }

    /**
      * What newElement leaves behind for settings `s` and the prototype's
      * colour templates `styles`: the colour ring of the templates around
      * format+spacer at its first entry, the character ring of the set at
      * its first frame, the width of that frame plus the formatted spacer
      * (0 without a set), and empty text.
      */
    predicate BuiltFrom(s: ElementSettings, styles: seq<string>)
      reads this
    {
      && Valid() && WidthMatchesFrame()
      && format == s.format && spacer == s.spacer
      && current == "" && emptyFormat == "" && !reversed
      && (colorFormat.Nil? <==> styles == [])
      && (colorFormat.Cycle? ==> colorFormat.pos == 0 && |colorFormat.values| == |styles|)
      && (colorFormat.Cycle? ==> forall k :: 0 <= k < |styles| ==> colorFormat.values[k] == sprintf(styles[k], s.format + s.spacer))
      && (charSet.Nil? <==> s.charSet == [])
      && (charSet.Cycle? ==> charSet.values == s.charSet && charSet.pos == 0)
      && (s.charSet == [] ==> currentWidth == 0)
    }

    /** newElement (element.go:53-68). */
    constructor (s: ElementSettings, styles: seq<string>, rw: RuneWidth, sprintf: Sprintf)
      ensures this.rw == rw && this.sprintf == sprintf
      ensures BuiltFrom(s, styles)
    {
      var colors := CreateColorSet(styles, s.format + s.spacer, sprintf);
      var chars := ApplyCharSet(s.charSet);
      this.rw := rw;
      this.sprintf := sprintf;
      format := s.format;
      spacer := s.spacer;
      current := "";
      emptyFormat := "";
      reversed := false;
      colorFormat := colors;
      charSet := chars;
      currentWidth := if chars.Cycle? then Width(rw, chars.Value()) + Width(rw, sprintf(s.format, s.spacer)) else 0;
    }

    /**
      * update (element.go:32-41): a rotating element steps its ring, back
      * when reversed, and shows the new frame; the width is left as it
      * was, which stays exact when the frames are equally wide.
      */
    method Update()
      requires Valid()
      modifies this`charSet, this`current
      ensures Valid()
      ensures old(WidthMatchesFrame()) && UniformFrames() ==> WidthMatchesFrame()
      ensures old(charSet).Nil? ==> charSet == old(charSet) && current == old(current)
      ensures old(charSet).Cycle? ==> charSet == Step(old(charSet), reversed) && current == charSet.Value()
    {
      if charSet.Cycle? {
        if UniformFrames() {
          StepKeepsWidth(rw, charSet, reversed);
        }
        if reversed {
          charSet := charSet.Prev();
        } else {
          charSet := charSet.Next();
        }
        current := charSet.Value();
      }
    }

    /**
      * setCurrent (element.go:43-51): new text, and its width once
      * formatted with the spacer; empty text has width 0.
      */
    method SetCurrent(s: string)
      modifies this`current, this`currentWidth, this`emptyFormat
      ensures current == s
      ensures s == "" ==> currentWidth == 0 && emptyFormat == ""
      ensures s != "" ==> currentWidth == Width(rw, sprintf(format + spacer, s)) && emptyFormat == old(emptyFormat)
    {
      current := s;
      if s == "" {
        emptyFormat := "";
        currentWidth := 0;
        return;
      }
      currentWidth := Width(rw, sprintf(format + spacer, current));
    }

    /**
      * colorized (element.go:71-83): the current text painted with the next
      * colour of the ring, which advances; empty text or no ring leaves the
      * ring where it is.
      */
    method Colorized() returns (r: string)
      requires Valid()
      modifies this`colorFormat
      ensures Valid()
      ensures r == Colorize(current, old(colorFormat), sprintf)
      ensures colorFormat == ColorsAfter(current, old(colorFormat))
    {
      if current == "" {
        return "";
      }
      if colorFormat.Cycle? {
        colorFormat := colorFormat.Next();
        return sprintf(colorFormat.Value(), current);
      }
      return current;
    }
  }
}
