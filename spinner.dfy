/**
  * spinner.go: the Spinner object, its construction from options, and the
  * frame it assembles and writes on every tick while active.
  */
module Spinners {
  import opened Text
  import opened Errors
  import opened Auxiliary
  import opened Rings
  import opened Helpers
  import opened CharacterSets
  import opened Elements
  import opened Options

  /** Cursor hide and show sequences written by Start and Stop. */
  const HideCursorSequence: string := "\U{1B}[?25l"
  const ShowCursorSequence: string := "\U{1B}[?25h"

  /** Colourising set names (color/coloring_sets.go:4-7). */
  const C256Rainbow: int := 0
  const C256YellowWhite: int := 1

  /** The configuration New starts from before any option (spinner.go:49-78). */
  function Defaults(env: Env): (c: Config)
    ensures c.elementsOrder == [Char, Progress, Message] && IsElementOrder(c.elementsOrder)
    ensures c.colorLevel == TColor256 && c.hideCursor && !c.reversed
    ensures c.prefix == "" && c.prefixWidth == 0 && c.finalMessage == ""
    ensures c.charSettings.charSet == env.defaultChars && c.messageSettings.charSet == [] && c.progressSettings.charSet == []
  {
    Config(
      interval := env.defaultIntervalMs * Millisecond,
      colorLevel := TColor256,
      elementsOrder := [Char, Progress, Message],
      charSettings := ElementSettings(C256Rainbow, "%s", " ", "", env.defaultChars),
      messageSettings := ElementSettings(env.darkSet, "%s", " ", "", []),
      progressSettings := ElementSettings(C256YellowWhite, "%s", " ", "%.0f%%", []),
      prefix := "",
      prefixWidth := 0,
      reversed := false,
      finalMessage := "",
      hideCursor := true,
      maxMessageWidth := 0,
      messageEllipsis := "")
  }

  /** The default variant's interval and frames are ones the options would accept. */
  predicate SoundDefaults(env: Env)
  {
    MinInterval <= env.defaultIntervalMs * Millisecond <= MaxInterval && CharSetVerdict(env.rw, env.defaultChars) == Pass
  }

  /** The defaults are well formed when the default variant is. */
  lemma DefaultsWellFormed(env: Env)
    requires SoundDefaults(env)
    ensures WellFormed(Defaults(env), env)
  {
    assert StripANSI("") == "";
  }

  /** A prefix wider than MaxPrefixWidth columns is refused with its width. */
  lemma WidePrefixRefused(c: Config, env: Env, p: string)
    requires FrameWidth(env.rw, p) > MaxPrefixWidth
    ensures Configure(c, Prefix(p), env) == Err(PrefixTooLong(FrameWidth(env.rw, p)))
  {
  }

  /** The prefix case of spinner_test.go:100-164: eleven digits are too wide. */
  lemma NewRejectsPrefix(c: Config, env: Env, p: string)
    requires forall d :: '0' <= d <= '9' ==> env.rw(d) == 1
    requires p == "12345678901"
    ensures Configure(c, Prefix(p), env) == Err(PrefixTooLong(11))
  {
    DigitsFrameWidth(env.rw, p);
    WidePrefixRefused(c, env, p);
  }

  /** Text of digits alone is as wide as it is long once colour codes are removed. */
  lemma DigitsFrameWidth(rw: RuneWidth, s: string)
    requires forall d :: '0' <= d <= '9' ==> rw(d) == 1
    requires forall k :: 0 <= k < |s| ==> '0' <= s[k] <= '9'
    ensures FrameWidth(rw, s) == |s|
  {
    assert ESC !in s;
    DigitsWide(rw, s);
  }

  /** The order cases of spinner_test.go:100-164: a repeat, a missing element, an unknown one. */
  lemma NewRejectsOrder(c: Config, env: Env)
    ensures Configure(c, Order([Char, Char, Message]), env).Err?
    ensures Configure(c, Order([Char, Char]), env).Err?
    ensures Configure(c, Order([Char, Char, Message, Progress, 4]), env).Err?
    ensures Configure(c, Order([Message, Progress, 4]), env).Err?
  {
    OrderVerdictMeaning([Char, Char, Message]);
    assert Progress !in [Char, Char, Message];
    OrderVerdictMeaning([Char, Char]);
    OrderVerdictMeaning([Char, Char, Message, Progress, 4]);
    assert 4 in [Char, Char, Message, Progress, 4];
    OrderVerdictMeaning([Message, Progress, 4]);
    assert 4 in [Message, Progress, 4];
  }

  /**
    * The remaining cases of spinner_test.go:100-164: an unknown and an
    * unsupported colour level, an unknown variant, an oversized set, and
    * intervals below and above the bounds.
    */
  lemma NewRejectsOthers(c: Config, env: Env)
    requires 12323 !in env.catalogue
    ensures Configure(c, ColorLevel(13), env) == Err(UnknownColorLevel(13))
    ensures Configure(c, ColorLevel(TTrueColor), env) == Err(UnsupportedColorLevel(TTrueColor))
    ensures Configure(c, Variant(12323), env) == Err(UnknownVariant(12323))
    ensures Configure(c, CharSet(seq(MaxCharSetSize + 5, _ => "-")), env) == Err(CharSetTooBig(MaxCharSetSize + 5))
    ensures Configure(c, Interval(10 * Millisecond), env) == Err(IntervalTooSmall(10 * Millisecond))
    ensures Configure(c, Interval(10000 * Millisecond), env) == Err(IntervalTooBig(10000 * Millisecond))
  {
  }

  /** A string of decimal digits is as wide as it is long. */
  lemma {:induction false} DigitsWide(rw: RuneWidth, s: string)
    requires forall d :: '0' <= d <= '9' ==> rw(d) == 1
    requires forall k :: 0 <= k < |s| ==> '0' <= s[k] <= '9'
    ensures Width(rw, s) == |s|
  {
    if s != [] {
      DigitsWide(rw, s[1..]);
    }
  }

  /** The painted text of the element an identifier names. */
  function Pick(id: int, charText: string, messageText: string, progressText: string): string
  {
    if id == Char then charText else if id == Options.Message then messageText else progressText
  }

  /**
    * The frame assembleCurrentFrame writes (spinner.go:160-175): prefix and
    * the three painted parts, an erase of the columns the previous frame
    * had beyond this one, and a move back over this frame's width.
    */
  function FrameText(prefix: string, a: string, b: string, c: string, previousWidth: int, width: int): string
  {
    prefix + a + b + c + EraseSequence(previousWidth - width) + MoveBackSequence(width)
  }

  /**
    * The cursor sequences at the end of a frame take no columns: a frame
    * whose parts close every escape sequence they open strips to exactly
    * what its prefix and parts strip to, and to the parts themselves when
    * they carry no escapes.
    */
  lemma FrameShowsBody(prefix: string, a: string, b: string, c: string, previousWidth: int, width: int)
    requires ClosedCsis(prefix + a + b + c)
    ensures StripANSI(FrameText(prefix, a, b, c, previousWidth, width)) == StripANSI(prefix + a + b + c)
    ensures ESC !in prefix + a + b + c ==>
              StripANSI(FrameText(prefix, a, b, c, previousWidth, width)) == prefix + a + b + c
  {
    var body := prefix + a + b + c;
    var erase := EraseSequence(previousWidth - width);
    var back := MoveBackSequence(width);
    assert FrameText(prefix, a, b, c, previousWidth, width) == body + (erase + back);
    MoveBackSequenceMeaning(width);
    EraseSequenceMeaning(previousWidth - width);
    if erase == [] {
      assert erase + back == back;
    } else {
      assert (erase + back)[0] == erase[0];
      StripCsiPrefix(erase, back);
    }
    StripAppendClosed(body, erase + back);
    assert StripANSI(body) + [] == StripANSI(body);
  }

  /** Spinner (spinner.go:19-44). The lock, the stop channel and the ticker are not modelled. */
  class Spinner {
    const env: Env
    var elements: map<int, Element>
    var elementsOrder: seq<int>
    var character: Element?
    var message: Element?
    var progress: Element?
    var active: bool
    var colorLevel: int
    var currentFrame: string
    var currentFrameWidth: int
    var previousFrameWidth: int
    var interval: int
    var finalMessage: string
    var reversed: bool
    var hideCursor: bool
    var prefix: string
    var prefixWidth: int
    var charSettings: ElementSettings
    var messageSettings: ElementSettings
    var progressSettings: ElementSettings
    var maxMessageWidth: int
    var messageEllipsis: string
    /** Everything written to the spinner's Writer, one entry per write. */
    var output: seq<string>

    /** The configuration fields, as one value. */
    function Config(): Config
      reads this
    {
      Options.Config(interval, colorLevel, elementsOrder, charSettings, messageSettings, progressSettings,
                     prefix, prefixWidth, reversed, finalMessage, hideCursor, maxMessageWidth, messageEllipsis)
    }

    /**
      * The three elements exist, are distinct, are the ones the element map
      * names, and the order names each of them once.
      */
    ghost predicate Valid()
      reads this, character, message, progress
    {
      && character != null && message != null && progress != null
      && character != message && character != progress && message != progress
      && elements == map[Char := character, Options.Message := message, Options.Progress := progress]
      && character.Valid() && message.Valid() && progress.Valid()
      && character.rw == env.rw && message.rw == env.rw && progress.rw == env.rw
      && character.sprintf == env.sprintf && message.sprintf == env.sprintf && progress.sprintf == env.sprintf
      && IsElementOrder(elementsOrder)
    }

    /** Each element is as newElement builds it from its settings and its prototype's colour templates. */
    predicate ElementsBuilt()
      reads this, character, message, progress
    {
      && character != null && message != null && progress != null
      && character.BuiltFrom(charSettings, env.styles(charSettings.colorizingSet))
      && message.BuiltFrom(messageSettings, env.styles(messageSettings.colorizingSet))
      && progress.BuiltFrom(progressSettings, env.styles(progressSettings.colorizingSet))
    }

    /** The struct literal of New (spinner.go:49-78), before any option. */
    constructor (env: Env)
      ensures this.env == env
      ensures Config() == Defaults(env)
      ensures !active && output == [] && currentFrame == "" && currentFrameWidth == 0 && previousFrameWidth == 0
      ensures character == null && message == null && progress == null && elements == map[]
    {
      this.env := env;
      elements := map[];
      elementsOrder := [Char, Options.Progress, Options.Message];
      character := null;
      message := null;
      progress := null;
      active := false;
      colorLevel := TColor256;
      currentFrame := "";
      currentFrameWidth := 0;
      previousFrameWidth := 0;
      interval := env.defaultIntervalMs * Millisecond;
      finalMessage := "";
      reversed := false;
      hideCursor := true;
      prefix := "";
      prefixWidth := 0;
      charSettings := ElementSettings(C256Rainbow, "%s", " ", "", env.defaultChars);
      messageSettings := ElementSettings(env.darkSet, "%s", " ", "", []);
      progressSettings := ElementSettings(C256YellowWhite, "%s", " ", "%.0f%%", []);
      maxMessageWidth := 0;
      messageEllipsis := "";
      output := [];
    }

    /**
      * What applying option `o` with outcome `r` did: on success the
      * configuration became what Configure says, on a refusal it is as it
      * was and `r` carries Configure's error.
      */
    twostate predicate Applied(o: Option, r: Outcome)
      reads this
    {
      match Configure(old(Config()), o, env)
      case Ok(c) => r == Pass && Config() == c
      case Err(e) => r == Fail(e) && Config() == old(Config())
    }

    /** One option applied to the spinner: the closure each option constructor of options.go returns. */
    method ApplyOption(o: Option) returns (r: Outcome)
      modifies this`interval, this`colorLevel, this`elementsOrder, this`charSettings, this`messageSettings,
               this`progressSettings, this`prefix, this`prefixWidth, this`reversed, this`finalMessage,
               this`hideCursor, this`maxMessageWidth, this`messageEllipsis
      ensures Applied(o, r)
    {
      r := Pass;
      match o
      case ColorLevel(cl) =>
        r := ApplyColorLevel(cl);
      case Order(xs) =>
        r := ApplyOrder(xs);
      case Variant(v) =>
        r := ApplyVariant(v);
      case CharSet(cs) =>
        r := ApplyCharSetOption(cs);
      case Interval(d) =>
        r := ApplyInterval(d);
      case Prefix(p) =>
        r := ApplyPrefix(p);
      case MessageFormat(f) =>
        ApplyMessageFormat(f);
      case ProgressFormat(f) =>
        ApplyProgressFormat(f);
      case ProgressIndicatorFormat(f) =>
        ApplyProgressIndicatorFormat(f);
      case Format(f) =>
        ApplyFormat(f);
      case Reverse =>
        ApplyReverse();
      case FinalMessage(m) =>
        ApplyFinalMessage(m);
      case HideCursor(h) =>
        ApplyHideCursor(h);
      case MaxMessageLength(l) =>
        r := ApplyMaxMessageLength(l);
      case MessageEllipsis(l) =>
        r := ApplyMessageEllipsis(l);
    }

    /** The MaxMessageLength option (options.go:189-197): a negative length counts as zero. */
    method ApplyMaxMessageLength(l: int) returns (r: Outcome)
      modifies this`maxMessageWidth
      ensures Applied(MaxMessageLength(l), r)
    {
      var len := l;
      if len < 0 {
        len := 0;
      }
      maxMessageWidth := len;
      r := Pass;
    }

    /** The MessageFormat option (options.go:116-122). */
    method ApplyMessageFormat(f: string)
      modifies this`messageSettings
      ensures Applied(MessageFormat(f), Pass)
    {
      messageSettings := messageSettings.(format := f);
    }

    /** The ProgressFormat option (options.go:125-131). */
    method ApplyProgressFormat(f: string)
      modifies this`progressSettings
      ensures Applied(ProgressFormat(f), Pass)
    {
      progressSettings := progressSettings.(format := f);
    }

    /** The ProgressIndicatorFormat option (options.go:134-140): the format of the percentage. */
    method ApplyProgressIndicatorFormat(f: string)
      modifies this`progressSettings
      ensures Applied(ProgressIndicatorFormat(f), Pass)
    {
      progressSettings := progressSettings.(auxFormat := f);
    }

    /** The Format option (options.go:143-149): the character element's format. */
    method ApplyFormat(f: string)
      modifies this`charSettings
      ensures Applied(Format(f), Pass)
    {
      charSettings := charSettings.(format := f);
    }

    /** The Reverse option (options.go:165-170). */
    method ApplyReverse()
      modifies this`reversed
      ensures Applied(Reverse, Pass)
    {
      reversed := true;
    }

    /** The FinalMessage option (options.go:173-178). */
    method ApplyFinalMessage(m: string)
      modifies this`finalMessage
      ensures Applied(FinalMessage(m), Pass)
    {
      finalMessage := m;
    }

    /** The HideCursor option (options.go:181-186). */
    method ApplyHideCursor(h: bool)
      modifies this`hideCursor
      ensures Applied(HideCursor(h), Pass)
    {
      hideCursor := h;
    }

    /** The ColorLevel option (options.go:34-46): unknown levels first, then unsupported ones. */
    method ApplyColorLevel(cl: int) returns (r: Outcome)
      modifies this`colorLevel
      ensures Applied(ColorLevel(cl), r)
    {
      if cl !in SupportedLevels {
        return Fail(UnknownColorLevel(cl));
      }
      if !SupportedLevels[cl] {
        return Fail(UnsupportedColorLevel(cl));
      }
      colorLevel := cl;
      r := Pass;
    }

    /** The Order option (options.go:49-67). */
    method ApplyOrder(xs: seq<int>) returns (r: Outcome)
      modifies this`elementsOrder
      ensures Applied(Order(xs), r)
    {
      var u := OrderOption(xs);
      if u.Err? {
        return Fail(u.error);
      }
      elementsOrder := u.value;
      r := Pass;
    }

    /** The Variant option (options.go:70-79): interval and frames of a catalogue entry. */
    method ApplyVariant(v: int) returns (r: Outcome)
      modifies this`interval, this`charSettings
      ensures Applied(Variant(v), r)
    {
      if v !in env.catalogue {
        return Fail(UnknownVariant(v));
      }
      interval := env.catalogue[v].interval;
      charSettings := charSettings.(charSet := env.catalogue[v].chars);
      r := Pass;
    }

    /** The CharSet option (options.go:82-91). */
    method ApplyCharSetOption(cs: seq<string>) returns (r: Outcome)
      modifies this`charSettings
      ensures Applied(CharSet(cs), r)
    {
      r := CheckCharSet(env.rw, cs);
      if r.Fail? {
        return;
      }
      charSettings := charSettings.(charSet := cs);
    }

    /** The Interval option (options.go:94-103). */
    method ApplyInterval(d: int) returns (r: Outcome)
      modifies this`interval
      ensures Applied(Interval(d), r)
    {
      r := CheckInterval(d);
      if r.Fail? {
        return;
      }
      interval := d;
    }

    /** The Prefix option (options.go:152-162): prefix and its width. */
    method ApplyPrefix(p: string) returns (r: Outcome)
      modifies this`prefix, this`prefixWidth
      ensures Applied(Prefix(p), r)
    {
      var width := FrameWidth(env.rw, p);
      if width > MaxPrefixWidth {
        return Fail(PrefixTooLong(width));
      }
      prefix := p;
      prefixWidth := width;
      r := Pass;
    }

    /** The MessageEllipsis option (options.go:200-209). */
    method ApplyMessageEllipsis(l: string) returns (r: Outcome)
      modifies this`messageEllipsis
      ensures Applied(MessageEllipsis(l), r)
    {
      var width := FrameWidth(env.rw, l);
      if width > MaxEllipsisWidth {
        return Fail(EllipsisTooLong(width));
      }
      messageEllipsis := l;
      r := Pass;
    }

    /**
      * The option loop of New (spinner.go:80-84): the options in turn,
      * stopping at the first that is refused.
      */
    method ApplyOptions(options: seq<Option>) returns (r: Outcome)
      modifies this`interval, this`colorLevel, this`elementsOrder, this`charSettings, this`messageSettings,
               this`progressSettings, this`prefix, this`prefixWidth, this`reversed, this`finalMessage,
               this`hideCursor, this`maxMessageWidth, this`messageEllipsis
      ensures ConfigureAll(old(Config()), options, env).Ok? ==> r == Pass && Config() == ConfigureAll(old(Config()), options, env).value
      ensures ConfigureAll(old(Config()), options, env).Err? ==> r == Fail(ConfigureAll(old(Config()), options, env).error)
      ensures IsElementOrder(old(elementsOrder)) ==> IsElementOrder(elementsOrder)
    {
      ghost var start := Config();
      for i := 0 to |options|
        invariant ConfigureAll(start, options[..i], env) == Ok(Config())
        invariant IsElementOrder(start.elementsOrder) ==> IsElementOrder(elementsOrder)
      {
        ConfigureAllAppend(start, options[..i], [options[i]], env);
        assert options[..i + 1] == options[..i] + [options[i]];
        if IsElementOrder(elementsOrder) {
          KeepsElementOrder(Config(), options[i], env);
        }
        r := ApplyOption(options[i]);
        if r.Fail? {
          ConfigureAllAppend(start, options[..i + 1], options[i + 1..], env);
          assert options[..i + 1] + options[i + 1..] == options;
          return;
        }
      }
      assert options[..|options|] == options;
      r := Pass;
    }

    /**
      * createElements (spinner.go:94-115): a fresh element per settings
      * record, each with its prototype's colour templates, and the map from
      * identifier to element. The spinner's reversed flag is not passed on.
      */
    method CreateElements()
      requires IsElementOrder(elementsOrder)
      modifies this`character, this`message, this`progress, this`elements
      ensures Valid()
      ensures fresh(character) && fresh(message) && fresh(progress)
      ensures ElementsBuilt()
      ensures Config() == old(Config()) && active == old(active) && output == old(output)
      ensures currentFrame == old(currentFrame) && currentFrameWidth == old(currentFrameWidth)
      ensures previousFrameWidth == old(previousFrameWidth)
    {
      var c, m, p := NewElements(env, charSettings, messageSettings, progressSettings);
      SetElements(c, m, p);
    }

    /** The assignments that end createElements: the three fields and the element map. */
    method SetElements(c: Element, m: Element, p: Element)
      modifies this`character, this`message, this`progress, this`elements
      ensures character == c && message == m && progress == p
      ensures elements == map[Char := c, Options.Message := m, Options.Progress := p]
      ensures Config() == old(Config()) && active == old(active) && output == old(output)
      ensures currentFrame == old(currentFrame) && currentFrameWidth == old(currentFrameWidth)
      ensures previousFrameWidth == old(previousFrameWidth)
    {
      character, message, progress := c, m, p;
      elements := map[Char := c, Options.Message := m, Options.Progress := p];
    }

    /** Active (spinner.go:118-120). */
    method Active() returns (a: bool)
      ensures a == active
    {
      return active;
    }

    /**
      * Start (spinner.go:123-137): nothing when already active; otherwise
      * hide the cursor if asked to and become active.
      */
    method Start()
      modifies this`active, this`output
      ensures active
      ensures old(active) ==> output == old(output)
      ensures !old(active) ==> output == old(output) + (if hideCursor then [HideCursorSequence] else [])
    {
      if active {
        return;
      }
      if hideCursor {
        Write(HideCursorSequence);
      }
      active := true;
    }

    /** updateCurrentFrame (spinner.go:155-158): only the character element rotates. */
    method UpdateCurrentFrame()
      requires Valid()
      modifies character`charSet, character`current
      ensures Valid()
      ensures old(character.charSet).Nil? ==> character.charSet == old(character.charSet) && character.current == old(character.current)
      ensures old(character.charSet).Cycle? ==> character.charSet == Step(old(character.charSet), character.reversed) && character.current == character.charSet.Value()
      ensures old(character.WidthMatchesFrame()) && character.UniformFrames() ==> character.WidthMatchesFrame()
    {
      character.Update();
    }

    /**
      * assembleCurrentFrame (spinner.go:160-175): the prefix and the three
      * elements, each painted in its next colour, in the configured order;
      * then an erase of the columns the previous frame had beyond this one,
      * and a move back over this frame so the next one overwrites it.
      */
    method AssembleCurrentFrame()
      requires Valid()
      modifies this`previousFrameWidth, this`currentFrameWidth, this`currentFrame
      modifies character`colorFormat, message`colorFormat, progress`colorFormat
      ensures Valid()
      ensures previousFrameWidth == old(currentFrameWidth)
      ensures currentFrameWidth == prefixWidth + character.currentWidth + message.currentWidth + progress.currentWidth
      ensures character.colorFormat == ColorsAfter(character.current, old(character.colorFormat))
      ensures message.colorFormat == ColorsAfter(message.current, old(message.colorFormat))
      ensures progress.colorFormat == ColorsAfter(progress.current, old(progress.colorFormat))
      ensures currentFrame == FrameText(prefix,
                Pick(elementsOrder[0], old(Colorize(character.current, character.colorFormat, env.sprintf)),
                     old(Colorize(message.current, message.colorFormat, env.sprintf)),
                     old(Colorize(progress.current, progress.colorFormat, env.sprintf))),
                Pick(elementsOrder[1], old(Colorize(character.current, character.colorFormat, env.sprintf)),
                     old(Colorize(message.current, message.colorFormat, env.sprintf)),
                     old(Colorize(progress.current, progress.colorFormat, env.sprintf))),
                Pick(elementsOrder[2], old(Colorize(character.current, character.colorFormat, env.sprintf)),
                     old(Colorize(message.current, message.colorFormat, env.sprintf)),
                     old(Colorize(progress.current, progress.colorFormat, env.sprintf))),
                previousFrameWidth, currentFrameWidth)
    {
      previousFrameWidth := currentFrameWidth;
      var c := character.Colorized();
      var m := message.Colorized();
      var p := progress.Colorized();
      currentFrameWidth := prefixWidth + character.currentWidth + message.currentWidth + progress.currentWidth;
      currentFrame := FrameText(prefix, Pick(elementsOrder[0], c, m, p), Pick(elementsOrder[1], c, m, p),
                                Pick(elementsOrder[2], c, m, p), previousFrameWidth, currentFrameWidth);
    }

    /**
      * One tick of spin (spinner.go:145-150): rotate, assemble and write
      * the frame.
      */
    method Tick()
      requires Valid()
      modifies this`previousFrameWidth, this`currentFrameWidth, this`currentFrame, this`output
      modifies character`charSet, character`current, character`colorFormat, message`colorFormat, progress`colorFormat
      ensures Valid()
      ensures output == old(output) + [currentFrame]
      ensures old(character.charSet).Cycle? ==> character.charSet == Step(old(character.charSet), character.reversed) && character.current == character.charSet.Value()
      ensures old(character.charSet).Nil? ==> character.charSet == old(character.charSet)
      ensures old(character.WidthMatchesFrame()) && character.UniformFrames() ==> character.WidthMatchesFrame()
      ensures currentFrameWidth == prefixWidth + character.currentWidth + message.currentWidth + progress.currentWidth
      ensures previousFrameWidth == old(currentFrameWidth)
    {
      UpdateCurrentFrame();
      AssembleCurrentFrame();
      Write(currentFrame);
    }

    /**
      * spin (spinner.go:139-153) for `ticks` ticker events before the stop
      * signal: the character ring advances one place per tick and every
      * frame is written.
      */
    method Spin(ticks: nat)
      requires Valid()
      modifies this`previousFrameWidth, this`currentFrameWidth, this`currentFrame, this`output
      modifies character`charSet, character`current, character`colorFormat, message`colorFormat, progress`colorFormat
      ensures Valid()
      ensures |output| == |old(output)| + ticks && output[..|old(output)|] == old(output)
      ensures old(character.charSet).Cycle? ==> character.charSet == Advance(old(character.charSet), character.reversed, ticks)
      ensures old(character.charSet).Nil? ==> character.charSet == old(character.charSet)
      ensures old(character.WidthMatchesFrame()) && old(character.UniformFrames()) ==> character.WidthMatchesFrame()
    {
      var i := 0;
      while i < ticks
        invariant 0 <= i <= ticks
        invariant Valid()
        invariant |output| == |old(output)| + i && output[..|old(output)|] == old(output)
        invariant old(character.charSet).Cycle? ==> character.charSet == Advance(old(character.charSet), character.reversed, i)
        invariant old(character.charSet).Nil? ==> character.charSet == old(character.charSet)
        invariant character.UniformFrames() == old(character.UniformFrames())
        invariant old(character.WidthMatchesFrame()) && old(character.UniformFrames()) ==> character.WidthMatchesFrame()
        invariant character == old(character) && message == old(message) && progress == old(progress)
      {
        Tick();
        i := i + 1;
      }
    }

    /**
      * Stop (spinner.go:178-193): when active, erase the frame, become
      * inactive, then write the final message if there is one and show the
      * cursor if it was hidden.
      */
    method Stop()
      modifies this`active, this`output
      ensures !active
      ensures !old(active) ==> output == old(output)
      ensures old(active) ==>
                output == old(output) + [EraseSequence(currentFrameWidth)]
                          + (if finalMessage != "" then [finalMessage] else [])
                          + (if hideCursor then [ShowCursorSequence] else [])
    {
      if active {
        EraseFrame();
        active := false;
        if finalMessage != "" {
          Write(finalMessage);
        }
        if hideCursor {
          Write(ShowCursorSequence);
        }
      }
    }

    /** Erase (spinner.go:201-205). */
    method Erase()
      modifies this`output
      ensures output == old(output) + (if active then [EraseSequence(currentFrameWidth)] else [])
    {
      EraseFrame();
    }

    /** erase (spinner.go:208-213): the erase sequence for the current width, only while active. */
    method EraseFrame()
      modifies this`output
      ensures output == old(output) + (if active then [EraseSequence(currentFrameWidth)] else [])
    {
      if active {
        Write(EraseSequence(currentFrameWidth));
      }
    }

    /** Current (spinner.go:216-220): writes the last assembled frame again. */
    method Current()
      modifies this`output
      ensures output == old(output) + [currentFrame]
    {
      Write(currentFrame);
    }

    /**
      * Message (spinner.go:223-228): the message element shows `m` as
      * given; its width is that of `m` in the message format.
      */
    method Message(m: string)
      requires Valid()
      modifies message`current, message`currentWidth, message`emptyFormat
      ensures Valid()
      ensures message.current == m
      ensures m == "" ==> message.currentWidth == 0 && message.emptyFormat == ""
      ensures m != "" ==> message.currentWidth == Width(env.rw, env.sprintf(message.format + message.spacer, m))
      ensures m != "" ==> message.emptyFormat == old(message.emptyFormat)
    {
      message.SetCurrent(m);
    }

    /**
      * Progress (spinner.go:231-243): the fraction is clamped into [0, 1];
      * a positive one is shown as a percentage in the indicator format,
      * zero clears the progress element.
      */
    method Progress(p: real)
      requires Valid()
      modifies progress`current, progress`currentWidth, progress`emptyFormat
      ensures Valid()
      ensures p <= 0.0 ==> progress.current == ""
      ensures p > 0.0 ==> progress.current == env.percent(progressSettings.auxFormat, Bounds(p) * 100.0)
      ensures progress.current == "" ==> progress.currentWidth == 0 && progress.emptyFormat == ""
      ensures progress.current != "" ==>
                progress.currentWidth == Width(env.rw, env.sprintf(progress.format + progress.spacer, progress.current))
      ensures progress.current != "" ==> progress.emptyFormat == old(progress.emptyFormat)
    {
      var q := Bounds(p);
      var r: string;
      if q > 0.0 {
        r := env.percent(progressSettings.auxFormat, q * 100.0);
      } else {
        r := "";
      }
      progress.SetCurrent(r);
    }

    /** write (spinner.go:251-254): one entry appended to the output. */
    method Write(v: string)
      modifies this`output
      ensures output == old(output) + [v]
    {
      output := output + [v];
    }
  }

  /**
    * The three newElement calls of createElements (spinner.go:94-115): one
    * fresh element per settings record, with its prototype's colour templates.
    */
  method NewElements(env: Env, cs: ElementSettings, ms: ElementSettings, ps: ElementSettings)
    returns (c: Element, m: Element, p: Element)
    ensures fresh(c) && fresh(m) && fresh(p) && c != m && c != p && m != p
    ensures c.rw == env.rw && m.rw == env.rw && p.rw == env.rw
    ensures c.sprintf == env.sprintf && m.sprintf == env.sprintf && p.sprintf == env.sprintf
    ensures c.BuiltFrom(cs, env.styles(cs.colorizingSet))
    ensures m.BuiltFrom(ms, env.styles(ms.colorizingSet))
    ensures p.BuiltFrom(ps, env.styles(ps.colorizingSet))
  {
    c := new Element(cs, env.styles(cs.colorizingSet), env.rw, env.sprintf);
    m := new Element(ms, env.styles(ms.colorizingSet), env.rw, env.sprintf);
    p := new Element(ps, env.styles(ps.colorizingSet), env.rw, env.sprintf);
  }

  /**
    * New (spinner.go:47-92): the defaults, then each option in turn until
    * one fails, then the elements. It fails exactly when some option is
    * refused, with the first refused option's error.
    */
  method New(options: seq<Option>, env: Env) returns (r: Result<Spinner>)
    ensures r.Ok? <==> ConfigureAll(Defaults(env), options, env).Ok?
    ensures r.Err? ==> r.error == ConfigureAll(Defaults(env), options, env).error
    ensures r.Ok? ==> fresh(r.value) && r.value.Valid() && r.value.env == env
    ensures r.Ok? ==> r.value.Config() == ConfigureAll(Defaults(env), options, env).value
    ensures r.Ok? ==> !r.value.active && r.value.output == [] && !r.value.character.reversed
    ensures r.Ok? ==> r.value.currentFrame == "" && r.value.currentFrameWidth == 0 && r.value.previousFrameWidth == 0
    ensures r.Ok? ==> r.value.ElementsBuilt()
    ensures r.Ok? ==> r.value.messageSettings.charSet == [] && r.value.progressSettings.charSet == []
    ensures r.Ok? ==> r.value.message.currentWidth == 0 && r.value.progress.currentWidth == 0
    ensures r.Ok? && SoundDefaults(env) && SoundCatalogue(env) ==> WellFormed(r.value.Config(), env)
  {
    var s := new Spinner(env);
    assert !s.active && s.output == [] && s.currentFrame == "" && s.currentFrameWidth == 0 && s.previousFrameWidth == 0;
    var err := s.ApplyOptions(options);
    assert !s.active && s.output == [] && s.currentFrame == "" && s.currentFrameWidth == 0 && s.previousFrameWidth == 0;
    if err.Fail? {
      return Err(err.error);
    }
    ghost var c := s.Config();
    ConfigureAllKeepsStillFrames(Defaults(env), options, env);
    assert c.messageSettings.charSet == [] && c.progressSettings.charSet == [];
    s.CreateElements();
    assert !s.active && s.output == [] && s.currentFrame == "" && s.currentFrameWidth == 0 && s.previousFrameWidth == 0;
    assert s.Config() == c;
    assert s.messageSettings.charSet == [] && s.progressSettings.charSet == [];
    assert s.Valid() && s.ElementsBuilt();
    assert s.message.currentWidth == 0 && s.progress.currentWidth == 0;
    OptionsKeepWellFormed(options, env);
    r := Ok(s);
  }

  /** Options New accepts keep sound defaults well formed. */
  lemma OptionsKeepWellFormed(options: seq<Option>, env: Env)
    ensures ConfigureAll(Defaults(env), options, env).Ok? && SoundDefaults(env) && SoundCatalogue(env) ==>
              WellFormed(ConfigureAll(Defaults(env), options, env).value, env)
  {
    if SoundDefaults(env) && SoundCatalogue(env) {
      DefaultsWellFormed(env);
      ConfigureAllPreservesWellFormed(Defaults(env), options, env);
    }
  }

  /** No accepted option leaves an order that misses or repeats an element. */
  lemma KeepsElementOrder(c: Config, o: Option, env: Env)
    requires IsElementOrder(c.elementsOrder)
    ensures Configure(c, o, env).Ok? ==> IsElementOrder(Configure(c, o, env).value.elementsOrder)
  {
    if o.Order? {
      OrderVerdictMeaning(o.order);
    }
  }
}
