/**
  * Stand-ins for the two libraries the spinner relies on for text:
  * go-runewidth (display width) and fmt.Sprintf with a one-slot template.
  * Both are taken as parameters, so nothing here fixes their behaviour
  * beyond what the spinner itself depends on.
  */
module Text {

  /** runewidth.RuneWidth: the number of terminal cells one rune occupies. */
  type RuneWidth = char -> nat

  /** fmt.Sprintf(template, arg) for a template holding a single `%s` slot. */
  type Sprintf = (string, string) -> string

  /** runewidth.StringWidth: the sum of the cell widths of the runes of `s`. */
  function Width(rw: RuneWidth, s: string): nat
  {
    if s == [] then 0 else rw(s[0]) + Width(rw, s[1..])
  }

  /** Widths add up over concatenation. */
  lemma {:induction false} WidthAppend(rw: RuneWidth, a: string, b: string)
    ensures Width(rw, a + b) == Width(rw, a) + Width(rw, b)
  {
    if a != [] {
      assert (a + b)[1..] == a[1..] + b;
      WidthAppend(rw, a[1..], b);
    } else {
      assert a + b == b;
    }
  }

  /** Splitting a string at any point splits its width. */
  lemma WidthSplit(rw: RuneWidth, s: string, n: nat)
    requires n <= |s|
    ensures Width(rw, s) == Width(rw, s[..n]) + Width(rw, s[n..])
  {
    assert s == s[..n] + s[n..];
    WidthAppend(rw, s[..n], s[n..]);
  }

  /** The width of a single rune string is the rune's own width. */
  lemma WidthSingle(rw: RuneWidth, c: char)
    ensures Width(rw, [c]) == rw(c)
  {
    assert [c][1..] == [];
  }
}
