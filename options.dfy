/**
  * options.go: the functional options New accepts. Each option is modelled
  * by its effect on a snapshot of the spinner's configuration; the
  * spinner's ApplyOption performs the same change in place.
  */
module Options {
  import opened Text
  import opened Errors
  import opened Auxiliary
  import opened CharacterSets
  import opened Elements

  /** Element identifiers (options.go:12-19). */
  const Char: int := 1
  const Message: int := 2
  const Progress: int := 3

  /** options.go:21-28, durations in nanoseconds. */
  const MaxPrefixWidth: nat := 10
  const MinInterval: int := 20 * Millisecond
  const MaxInterval: int := 5000 * Millisecond

  /** The widest message ellipsis MessageEllipsis accepts (options.go:203). */
  const MaxEllipsisWidth: nat := 3

  /** Colour support levels and which of them the spinner supports (color/color.go:6-32). */
  const TNoColor: int := 0
  const TColor16: int := 16
  const TColor256: int := 256
  const TTrueColor: int := 4096
  const SupportedLevels: map<int, bool> := map[TNoColor := true, TColor16 := true, TColor256 := true, TTrueColor := false]

  /**
    * What the options and the spinner get from outside the core: display
    * widths, Sprintf with one argument, Sprintf of a percentage, the
    * catalogue of variants, the colour templates of each colourising set,
    * the index of the dark set, and the default variant's interval (in
    * milliseconds) and frames.
    */
  datatype Env = Env(
    rw: RuneWidth,
    sprintf: Sprintf,
    percent: (string, real) -> string,
    catalogue: map<int, Settings>,
    styles: int -> seq<string>,
    darkSet: int,
    defaultIntervalMs: int,
    defaultChars: seq<string>)

  /** The configuration fields of Spinner that options set (spinner.go:19-44). */
  datatype Config = Config(
    interval: int,
    colorLevel: int,
    elementsOrder: seq<int>,
    charSettings: ElementSettings,
    messageSettings: ElementSettings,
    progressSettings: ElementSettings,
    prefix: string,
    prefixWidth: int,
    reversed: bool,
    finalMessage: string,
    hideCursor: bool,
    maxMessageWidth: int,
    messageEllipsis: string)

  /** One functional option, with its argument (options.go:34-209). */
  datatype Option =
    | ColorLevel(level: int)
    | Order(order: seq<int>)
    | Variant(variant: int)
    | CharSet(chars: seq<string>)
    | Interval(duration: int)
    | MessageFormat(messageFormat: string)
    | ProgressFormat(progressFormat: string)
    | ProgressIndicatorFormat(indicatorFormat: string)
    | Format(charFormat: string)
    | Prefix(prefix: string)
    | Reverse
    | FinalMessage(finalMessage: string)
    | HideCursor(hide: bool)
    | MaxMessageLength(length: int)
    | MessageEllipsis(ellipsis: string)

  /** frameWidth (spinner.go:246-248): display width once colour codes are removed. */
  function FrameWidth(rw: RuneWidth, f: string): (w: nat)
    ensures w <= Width(rw, f)
    ensures ESC !in f ==> w == Width(rw, f)
  {
    StripNarrower(rw, f);
    Width(rw, StripANSI(f))
  }

  /** checkInterval (options.go:105-113): too small is reported before too big. */
  function CheckInterval(d: int): (r: Outcome)
    ensures r == Pass <==> MinInterval <= d <= MaxInterval
    ensures d < MinInterval ==> r == Fail(IntervalTooSmall(d))
    ensures d > MaxInterval ==> r == Fail(IntervalTooBig(d))
  {
    if d < MinInterval then Fail(IntervalTooSmall(d))
    else if d > MaxInterval then Fail(IntervalTooBig(d))
    else Pass
  }

  /** sort.Ints on a three-element slice. */
  function Sort3(t: seq<int>): (r: seq<int>)
    requires |t| == 3
    ensures |r| == 3 && r[0] <= r[1] <= r[2]
    ensures multiset(r) == multiset(t)
  {
    assert t == [t[0], t[1], t[2]];
    if t[0] <= t[1] then
      if t[1] <= t[2] then t
      else if t[0] <= t[2] then [t[0], t[2], t[1]]
      else [t[2], t[0], t[1]]
    else
      if t[0] <= t[2] then [t[1], t[0], t[2]]
      else if t[1] <= t[2] then [t[1], t[2], t[0]]
      else [t[2], t[1], t[0]]
  }

  /**
    * The Order option's verdict (options.go:49-67): the distinct values,
    * which must be three and, sorted, exactly Char, Message, Progress.
    */
  function OrderVerdict(o: seq<int>): Result<seq<int>>
  {
    var u := Dedup(o);
    if |u| != 3 then Err(OrderNotThreeUnique(o))
    else if Sort3(u) != [Char, Message, Progress] then Err(OrderWrongIdentifiers(o))
    else Ok(u)
  }

  /** An order names each element exactly once. */
  predicate IsElementOrder(u: seq<int>)
  {
    |u| == 3 && NoDuplicates(u) && forall k :: 0 <= k < 3 ==> Char <= u[k] <= Progress
  }

  /**
    * Order accepts exactly the argument lists whose values are the three
    * element identifiers, repeats allowed, and then keeps them in order of
    * first mention.
    */
  lemma OrderVerdictMeaning(o: seq<int>)
    ensures OrderVerdict(o).Ok? <==> forall x :: x in o <==> Char <= x <= Progress
    ensures OrderVerdict(o).Ok? ==> OrderVerdict(o).value == Dedup(o) && IsElementOrder(Dedup(o))
  {
    if OrderVerdict(o).Ok? {
      AcceptedOrderNamesElements(o);
    }
    if forall x :: x in o <==> Char <= x <= Progress {
      ElementsOrderAccepted(o);
    }
  }

  /** Sorting three values keeps exactly the values there were. */
  lemma SortKeepsValues(t: seq<int>)
    requires |t| == 3
    ensures forall x :: x in Sort3(t) <==> x in t
  {
    assert t == [t[0], t[1], t[2]];
  }

  lemma AcceptedOrderNamesElements(o: seq<int>)
    requires OrderVerdict(o).Ok?
    ensures forall x :: x in o <==> Char <= x <= Progress
    ensures IsElementOrder(Dedup(o))
  {
    var u := Dedup(o);
    assert |u| == 3 && Sort3(u) == [Char, Message, Progress];
    SortKeepsValues(u);
    forall x ensures x in u <==> Char <= x <= Progress {
      assert x in u <==> x in Sort3(u);
      assert x in [Char, Message, Progress] <==> x == 1 || x == 2 || x == 3;
    }
    forall k | 0 <= k < 3 ensures Char <= u[k] <= Progress {
      assert u[k] in u;
    }
  }

  /** Four identifiers from 1..3 cannot all differ. */
  lemma ThreeValuesOnly(a: int, b: int, c: int, d: int)
    requires Char <= a <= Progress && Char <= b <= Progress
    requires Char <= c <= Progress && Char <= d <= Progress
    ensures a == b || a == c || a == d || b == c || b == d || c == d
  {
  }

  lemma ElementsOrderAccepted(o: seq<int>)
    requires forall x :: x in o <==> Char <= x <= Progress
    ensures OrderVerdict(o).Ok?
  {
    var u := Dedup(o);
    assert 1 in u && 2 in u && 3 in u;
    assert |u| <= 3 by {
      if |u| > 3 {
        assert u[0] in u && u[1] in u && u[2] in u && u[3] in u;
        ThreeValuesOnly(u[0], u[1], u[2], u[3]);
      }
    }
    var r := Sort3(u);
    SortKeepsValues(u);
    assert r[0] in u && r[1] in u && r[2] in u;
    assert 1 in r && 2 in r && 3 in r;
  }

  /**
    * Order's body (options.go:49-67): Unique, a length check, a sorted
    * copy compared with [1, 2, 3].
    */
  method OrderOption(o: seq<int>) returns (r: Result<seq<int>>)
    ensures r == OrderVerdict(o)
    ensures r.Ok? <==> forall x :: x in o <==> Char <= x <= Progress
  {
    OrderVerdictMeaning(o);
    var u := Unique(o);
    if |u| != 3 {
      return Err(OrderNotThreeUnique(o));
    }
    var c := Sort3(u);
    var same := Equal(c, [Char, Message, Progress]);
    if !same {
      return Err(OrderWrongIdentifiers(o));
    }
    return Ok(u);
  }

  /** MaxMessageLength clamps a negative length to 0 (options.go:189-196). */
  function ClampLength(l: int): (r: int)
    ensures r >= 0
    ensures l >= 0 ==> r == l
    ensures l < 0 ==> r == 0
  {
    if l < 0 then 0 else l
  }

  /**
    * The effect of one option on the configuration: the new configuration,
    * or the error the option returns (options.go:34-209).
    */
  function Configure(c: Config, o: Option, env: Env): Result<Config>
  {
    match o
    case ColorLevel(cl) =>
      if cl !in SupportedLevels then Err(UnknownColorLevel(cl))
      else if !SupportedLevels[cl] then Err(UnsupportedColorLevel(cl))
      else Ok(c.(colorLevel := cl))
    case Order(xs) =>
      (match OrderVerdict(xs)
       case Err(e) => Err(e)
       case Ok(u) => Ok(c.(elementsOrder := u)))
    case Variant(v) =>
      if v !in env.catalogue then Err(UnknownVariant(v))
      else Ok(c.(interval := env.catalogue[v].interval,
                 charSettings := c.charSettings.(charSet := env.catalogue[v].chars)))
    case CharSet(cs) =>
      (match CharSetVerdict(env.rw, cs)
       case Fail(e) => Err(e)
       case Pass => Ok(c.(charSettings := c.charSettings.(charSet := cs))))
    case Interval(d) =>
      (match CheckInterval(d)
       case Fail(e) => Err(e)
       case Pass => Ok(c.(interval := d)))
    case MessageFormat(f) => Ok(c.(messageSettings := c.messageSettings.(format := f)))
    case ProgressFormat(f) => Ok(c.(progressSettings := c.progressSettings.(format := f)))
    case ProgressIndicatorFormat(f) => Ok(c.(progressSettings := c.progressSettings.(auxFormat := f)))
    case Format(f) => Ok(c.(charSettings := c.charSettings.(format := f)))
    case Prefix(p) =>
      var w := FrameWidth(env.rw, p);
      if w > MaxPrefixWidth then Err(PrefixTooLong(w))
      else Ok(c.(prefix := p, prefixWidth := w))
    case Reverse => Ok(c.(reversed := true))
    case FinalMessage(m) => Ok(c.(finalMessage := m))
    case HideCursor(h) => Ok(c.(hideCursor := h))
    case MaxMessageLength(l) => Ok(c.(maxMessageWidth := ClampLength(l)))
    case MessageEllipsis(l) =>
      var w := FrameWidth(env.rw, l);
      if w > MaxEllipsisWidth then Err(EllipsisTooLong(w))
      else Ok(c.(messageEllipsis := l))
  }

  /** The options New applies in turn, stopping at the first error (spinner.go:80-85). */
  function ConfigureAll(c: Config, opts: seq<Option>, env: Env): Result<Config>
    decreases |opts|
  {
    if opts == [] then Ok(c)
    else
      match Configure(c, opts[0], env)
      case Err(e) => Err(e)
      case Ok(c') => ConfigureAll(c', opts[1..], env)
  }

  /**
    * No option gives the message or progress element frames: only the
    * character element's set is ever replaced.
    */
  lemma {:induction false} ConfigureAllKeepsStillFrames(c: Config, opts: seq<Option>, env: Env)
    ensures ConfigureAll(c, opts, env).Ok? ==>
              && ConfigureAll(c, opts, env).value.messageSettings.charSet == c.messageSettings.charSet
              && ConfigureAll(c, opts, env).value.progressSettings.charSet == c.progressSettings.charSet
    decreases |opts|
  {
    if opts != [] && Configure(c, opts[0], env).Ok? {
      ConfigureAllKeepsStillFrames(Configure(c, opts[0], env).value, opts[1..], env);
    }
  }

  /**
    * Which options are refused, stated on the arguments alone: an unknown
    * or unsupported colour level, an order that is not the three element
    * identifiers, an unknown variant, a set that is too big or of uneven
    * width, an interval outside [20ms, 5s], a prefix wider than 10
    * columns, an ellipsis wider than 3. Every other option is accepted.
    */
  ghost predicate Refused(o: Option, env: Env)
  {
    match o
    case ColorLevel(cl) => cl != TNoColor && cl != TColor16 && cl != TColor256
    case Order(xs) => !(forall x :: x in xs <==> Char <= x <= Progress)
    case Variant(v) => v !in env.catalogue
    case CharSet(cs) =>
      |cs| > MaxCharSetSize || exists k :: 0 <= k < |cs| && Width(env.rw, cs[k]) != Width(env.rw, cs[0])
    case Interval(d) => d < MinInterval || d > MaxInterval
    case Prefix(p) => Width(env.rw, StripANSI(p)) > MaxPrefixWidth
    case MessageEllipsis(l) => Width(env.rw, StripANSI(l)) > MaxEllipsisWidth
    case _ => false
  }

  /** An option fails exactly when its argument is refused, whatever the configuration. */
  lemma ConfigureFailsExactly(c: Config, o: Option, env: Env)
    ensures Configure(c, o, env).Err? <==> Refused(o, env)
  {
    if o.Order? {
      OrderVerdictMeaning(o.order);
    }
  }

  /** What New and every accepted option keep true of the configuration. */
  predicate WellFormed(c: Config, env: Env)
  {
    && c.colorLevel in SupportedLevels && SupportedLevels[c.colorLevel]
    && IsElementOrder(c.elementsOrder)
    && MinInterval <= c.interval <= MaxInterval
    && CharSetVerdict(env.rw, c.charSettings.charSet) == Pass
    && c.prefixWidth == FrameWidth(env.rw, c.prefix) <= MaxPrefixWidth
    && FrameWidth(env.rw, c.messageEllipsis) <= MaxEllipsisWidth
    && c.maxMessageWidth >= 0
  }

  /** Every catalogue entry has a conforming set and an interval the Interval option would accept. */
  predicate SoundCatalogue(env: Env)
  {
    && Conforming(env.rw, env.catalogue)
    && forall v :: v in env.catalogue ==> MinInterval <= env.catalogue[v].interval <= MaxInterval
  }

  /** Every option that succeeds keeps the configuration well formed. */
  lemma ConfigurePreservesWellFormed(c: Config, o: Option, env: Env)
    requires WellFormed(c, env) && SoundCatalogue(env)
    ensures Configure(c, o, env).Ok? ==> WellFormed(Configure(c, o, env).value, env)
  {
    if o.Order? {
      OrderVerdictMeaning(o.order);
    }
  }

  /** A list of options that all succeed keeps the configuration well formed. */
  lemma {:induction false} ConfigureAllPreservesWellFormed(c: Config, opts: seq<Option>, env: Env)
    requires WellFormed(c, env) && SoundCatalogue(env)
    ensures ConfigureAll(c, opts, env).Ok? ==> WellFormed(ConfigureAll(c, opts, env).value, env)
    decreases |opts|
  {
    if opts != [] {
      ConfigurePreservesWellFormed(c, opts[0], env);
      if Configure(c, opts[0], env).Ok? {
        ConfigureAllPreservesWellFormed(Configure(c, opts[0], env).value, opts[1..], env);
      }
    }
  }

  /** Options given in two lists are the options of the first list, then of the second. */
  lemma {:induction false} ConfigureAllAppend(c: Config, a: seq<Option>, b: seq<Option>, env: Env)
    ensures ConfigureAll(c, a + b, env) ==
            match ConfigureAll(c, a, env)
            case Err(e) => Err(e)
            case Ok(c') => ConfigureAll(c', b, env)
    decreases |a|
  {
    if a != [] {
      assert (a + b)[0] == a[0] && (a + b)[1..] == a[1..] + b;
      if Configure(c, a[0], env).Ok? {
        ConfigureAllAppend(Configure(c, a[0], env).value, a[1..], b, env);
      }
    } else {
      assert a + b == b;
    }
  }

  /** The first refused option decides the error New returns. */
  lemma {:induction false} ConfigureAllFirstError(c: Config, opts: seq<Option>, env: Env)
    ensures ConfigureAll(c, opts, env).Err? <==> exists k :: 0 <= k < |opts| && Refused(opts[k], env)
    decreases |opts|
  {
    if opts != [] {
      ConfigureFailsExactly(c, opts[0], env);
      if Configure(c, opts[0], env).Ok? {
        ConfigureAllFirstError(Configure(c, opts[0], env).value, opts[1..], env);
        if exists k :: 0 <= k < |opts| && Refused(opts[k], env) {
          var k :| 0 <= k < |opts| && Refused(opts[k], env);
          assert k > 0 && Refused(opts[1..][k - 1], env);
        }
        if exists k :: 0 <= k < |opts[1..]| && Refused(opts[1..][k], env) {
          var k :| 0 <= k < |opts[1..]| && Refused(opts[1..][k], env);
          assert Refused(opts[k + 1], env);
        }
      }
    }
  }
}
