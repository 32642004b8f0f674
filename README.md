# go-cli-spinner in Dafny

A model of the frame engine of the `go-cli-spinner` terminal spinner, with proofs about it.

A spinner has three display elements:
- the rotating character;
- the message;
- the progress indicator.

Each element holds a ring of frames and a ring of colour templates. On every tick, the character element steps its frame ring. The spinner then paints each element with the next colour of its colour ring. It joins the prefix and the three painted parts in the configured order. It appends two ECMA-48 control sequences:
- ECH, "erase character" (section 8.3.38), over the columns the previous frame had beyond this one;
- CUB, "cursor backward" (section 8.3.18), over this frame's width.

The result is written to the output.

Options configure a spinner before it is created, and each option either changes the configuration or is refused with an error. The helpers around this are:
- an ANSI stripper, modelled as a left-to-right scanner for `ESC [ <non-letters> <letter>`;
- first-occurrence de-duplication;
- slice equality;
- width-checked truncation;
- escape visualisation;
- the clock frame sets generated at start-up;
- the width-conformity check every frame set must pass.

Module layout, one module per source file, plus three support modules (`Text`, `Errors`, `Rings`):

- `text.dfy` (`Text`): display width and one-slot `Sprintf`, both taken as parameters.
- `errors.dfy` (`Errors`): the error each refusal reports, and Go's `(T, error)` and bare `error` as `Result` and `Outcome`.
- `auxiliary.dfy` (`Auxiliary`): auxiliary/functions.go.
- `rings.dfy` (`Rings`): `container/ring` as a sequence plus a cursor.
- `helpers.dfy` (`Helpers`): helpers.go.
- `character_sets.dfy` (`CharacterSets`): character_sets.go.
- `element.dfy` (`Elements`): element.go, with `Element` as a class whose methods update its fields.
- `options.dfy` (`Options`): options.go.
  - `Configure` is each option's effect on a configuration value.
  - `Refused` states which arguments each option rejects.
- `spinner.dfy` (`Spinners`): spinner.go, with `Spinner` as a class.
  - Each option closure is a method proved to do what `Configure` says.
  - The output writer is an append-only log `output`.

The default ellipsis of `Truncate` is U+2026 HORIZONTAL ELLIPSIS, the character auxiliary/functions_test.go:225 expects. The literal at auxiliary/functions.go:64 appears as "â€¦", which is that character's UTF-8 bytes displayed in another encoding; the model follows the test.

Where the project's own description and its code disagree, the model follows the code:
- Stripping is not idempotent. An ESC that does not open a sequence can join the text left behind a removed sequence, and a second pass then removes that text (`Auxiliary.StripNotIdempotent`).
- `Message` sets the message as given and does not truncate it (spinner.go:223-228).
- The `Reverse` option sets only the spinner's flag, and no element ever receives it. The character therefore always rotates forward (`Spinners.Spinner.CreateElements` ensures `ElementsBuilt`, in which no element is reversed).

## Model

| member | source | states |
|---|---|---|
| Auxiliary.CsiLength | auxiliary/functions.go:11-13 | The length of the `ESC [ <non-letters> <letter>` sequence a string starts with, which is a CSI sequence, or 0 when the string does not start with ESC or has no such sequence |
| Auxiliary.CsiLengthComplete | auxiliary/functions.go:11-13 | Any CSI prefix of a string is exactly the one CsiLength finds, so the match is unique |
| Auxiliary.LetterFrom | auxiliary/functions.go:12 | The first ASCII letter at or after a position, with no letter before it |
| Auxiliary.StripANSI | auxiliary/functions.go:15-18 | Stripping never lengthens a string and leaves a string without ESC unchanged |
| Auxiliary.StripNarrower | auxiliary/functions.go:15-18 | Stripping never increases the display width |
| Auxiliary.StripCsiPrefix | auxiliary/functions.go:15-18 | A complete CSI sequence at the front is removed whole and the rest is stripped on its own |
| Auxiliary.StripPlainPrefix | auxiliary/functions.go:15-18 | Text without ESC in front of the rest is kept verbatim |
| Auxiliary.ClosedSuffix | auxiliary/functions.go:15-18 | Dropping a prefix of text whose every `ESC [` is closed by a later letter keeps that true |
| Auxiliary.CsiLengthExtends | auxiliary/functions.go:12 | A sequence matched at the front of a string is still the match once text is appended |
| Auxiliary.CsiLengthStaysZero | auxiliary/functions.go:12 | Closed text with no sequence at its front gains none when text not starting with `[` is appended |
| Auxiliary.StripAppendClosed | auxiliary/functions.go:15-18 | Text whose every `ESC [` is closed strips independently of what follows, unless that starts with `[` |
| Auxiliary.StripLoneEscape | auxiliary/functions.go:15-18 | An ESC not followed by `[` is kept and scanning resumes after it |
| Auxiliary.CsiOf | auxiliary/functions.go:12 | `ESC [` + letter-free parameters + a letter is a CSI sequence |
| Auxiliary.StripCsi | auxiliary/functions.go:15-18 | A lone CSI sequence strips to the empty string |
| Auxiliary.StripSurrounded | auxiliary/functions_test.go:22-36 | Text wrapped in an opening and a closing colour sequence strips to the text |
| Auxiliary.StripTrailing | auxiliary/functions_test.go:37-41 | Text followed by an erase and a move-back strips to the text |
| Auxiliary.StripRejoins | auxiliary/functions.go:15-18 | ESC + CSI + `[2m` strips to `ESC [2m`, which strips again to nothing |
| Auxiliary.StripNotIdempotent | auxiliary/functions.go:15-18 | Some string changes when stripped twice |
| Auxiliary.Bounds | auxiliary/functions.go:20-29 | The result lies in [0, 1], equals f inside it, 0 below it and 1 above it |
| Auxiliary.Dedup | auxiliary/functions.go:31-46 | The result has no duplicates, holds exactly the input's values and is no longer than the input |
| Auxiliary.DedupKeepsFirstOrder | auxiliary/functions.go:39-44 | The kept values appear in the order of their first occurrences in the input |
| Auxiliary.DedupPair | auxiliary/functions.go:39-44 | Two values are both kept when they differ, and one is kept when they are equal |
| Auxiliary.DedupExamples | auxiliary/functions_test.go:105-129 | [] stays [], [x y z] stays, [x y y z] becomes [x y z], and [y y] becomes [y] |
| Auxiliary.FirstIndex | auxiliary/functions.go:39-44 | The position of the first occurrence of a value |
| Auxiliary.Unique | auxiliary/functions.go:31-46 | The seen-map loop returns exactly Dedup of its input, including the empty input |
| Auxiliary.Equal | auxiliary/functions.go:48-60 | True iff the lengths match and the values are pointwise equal, which is iff the sequences are equal |
| Auxiliary.Cut | auxiliary/functions.go:73-81 | The first w runes: none for w ≤ 0 and all of them for a shorter text |
| Auxiliary.Truncated | auxiliary/functions.go:62-83 | The first w runes, with the ellipsis appended iff the stripped width exceeds w |
| Auxiliary.TruncateKeepsFittingText | auxiliary/functions.go:70-81 | Plain text that fits in w columns comes back unchanged when every rune takes at least one column |
| Auxiliary.TruncateCutsZeroWidth | auxiliary/functions.go:70-81 | With a zero-width combining mark, text that fits in one column still loses the mark and gets no ellipsis |
| Auxiliary.TruncateBound | auxiliary/functions.go:73-82 | The result holds at most max(w, 0) runes of text besides the ellipsis |
| Auxiliary.TruncateExamples | auxiliary/functions_test.go:212-236 | "string" cut at 4 with "", "..." and a non-string ellipsis, and at 9 without a cut |
| Auxiliary.Truncate | auxiliary/functions.go:62-83 | The rune-walking loop returns exactly Truncated |
| Helpers.Decimal | helpers.go:16 | `%v` of a natural is a non-empty digit string with no leading zero, one digit long iff below 10 |
| Helpers.DecimalRoundTrip | helpers.go:16 | Reading back the printed digits gives the number |
| Helpers.ControlSequence | helpers.go:16 | The sequence ends with its final letter |
| Helpers.ControlSequenceMeaning | helpers.go:12-25 | `ESC [ n <letter>` is a CSI sequence whose parameter reads back as n, and it strips to nothing |
| Helpers.MoveBackSequence | helpers.go:11-17 | Empty iff w ≤ 0 |
| Helpers.MoveBackSequenceMeaning | helpers.go:11-17 | For w > 0, the CSI sequence ending in `D` with parameter w; every move back strips to nothing |
| Helpers.EraseSequence | helpers.go:19-25 | Empty iff w < 1 |
| Helpers.EraseSequenceMeaning | helpers.go:19-25 | For w ≥ 1, the CSI sequence ending in `X` with parameter w; every erase strips to nothing |
| Helpers.SequenceExamples | helpers_test.go:7-31 | Move back and erase for 0, −10, 1, 3 and 10 |
| Helpers.ReplaceEscapes | helpers.go:27-30 | No ESC is left, text without ESC is unchanged, and the result is never shorter |
| Helpers.RestoreEscapes | helpers.go:27-30 | Reading `\e` back as ESC never lengthens |
| Helpers.ReplaceEscapesRoundTrip | helpers.go:27-30 | On text without backslashes, the replacement can be undone |
| Helpers.ReplaceEscapesNotInjective | helpers.go:27-30 | A real ESC and a literal `\e` print the same |
| Helpers.ReplaceEscapesAppend | helpers.go:27-30 | Replacing escapes distributes over concatenation |
| Helpers.EscapeThenPlain | helpers.go:27-30 | An ESC followed by text without ESC prints as `\e` and that text |
| Helpers.ReplaceEscapesExamples | helpers_test.go:48-55 | "" → "", `ESCx1b` → `\ex1b` and `ESCx1bESC` → `\ex1b\e` |
| Helpers.ReplaceEscapesCodeExamples | helpers_test.go:48-55 | `ESC[1X` → `\e[1X` and `ESC[2mtextESC[0m` → `\e[2mtext\e[0m` |
| Helpers.ApplyCharSet | helpers.go:43-51 | Nil for an empty set; otherwise a ring of exactly the set's frames, in order, with the cursor on the first |
| Helpers.CreateColorSet | helpers.go:32-41 | Nil for no styles; otherwise entry k is style k applied to the format, with the cursor on the first |
| Rings.NewRing | helpers.go:35 | ring.New(n) is nil iff n ≤ 0, else n entries with the cursor at 0 |
| Rings.Step | element.go:34-38 | One step backward when reversed, forward otherwise; the frames are unchanged |
| Rings.Advance | element.go:32-41 | n steps keep the frames |
| Rings.NextPrevInverse | element.go:34-38 | Next and Prev undo each other |
| Rings.AdvanceForward | element.go:34-40 | n forward steps move the cursor to (pos + n) mod len |
| Rings.AdvanceBackward | element.go:34-40 | n backward steps move the cursor to (pos − n) mod len |
| Rings.FullTurn | element.go:34-40 | len steps in either direction return to the same frame |
| Rings.ValueAfter | helpers.go:43-51 | k forward steps from a fresh frame ring show frame k mod n |
| CharacterSets.ClockRune | character_sets.go:13 | Hour face i is U+1F550 + i |
| CharacterSets.HalfPastRune | character_sets.go:14 | Half-hour face i is U+1F55C + i |
| CharacterSets.ClockChars | character_sets.go:280-281 | Twelve frames |
| CharacterSets.HalfClockChars | character_sets.go:280-282 | Twenty-four frames |
| CharacterSets.HalfClock2Chars | character_sets.go:284-288 | Twenty-four frames |
| CharacterSets.Filled | character_sets.go:289-304 | The catalogue gains the three clock entries and keeps every other entry |
| CharacterSets.FillCharSets | character_sets.go:275-305 | The append loops build exactly the three clock sets: hours, hours and half hours interleaved, and hours then half hours |
| CharacterSets.HalfClocksSameFaces | character_sets.go:280-288 | Both half-hour variants show the same faces |
| CharacterSets.Widths | character_sets.go:311-315 | Entry k is the width of frame k |
| CharacterSets.CharSetVerdict | character_sets.go:307-321 | Pass iff at most 60 frames and every frame is as wide as the first; more than 60 frames reports the size |
| CharacterSets.CheckCharSet | character_sets.go:307-321 | The measuring and comparing loops return exactly CharSetVerdict |
| CharacterSets.CheckCharSetExamples | character_sets_test.go:16-35 | The empty set passes; 65 frames and {"0", "  ", "0"} fail |
| CharacterSets.CheckCharSetDigits | character_sets_test.go:26-30 | The ten one-column digits pass |
| CharacterSets.SingleRunesConform | character_sets.go:307-321 | Sets of equally wide one-rune frames pass |
| CharacterSets.ClocksConform | character_sets.go:263-305 | With equally wide clock faces, all three generated sets pass |
| CharacterSets.Init | character_sets.go:263-273 | The catalogue is Filled, and ok (no panic) iff every entry passes the check |
| Elements.Colorize | element.go:70-83 | Empty text paints as "", and text without a colour ring as itself |
| Elements.ColorsAfter | element.go:70-83 | The colour ring keeps its length and stays put for empty text or no ring |
| Elements.ColorizedRun | element.go:70-83 | The outputs of n successive colorized calls on unchanged text, one per call; what each one paints is stated by ColorizedRunCycles |
| Elements.ColorizedRunCycles | element.go:70-83 | Call k paints with style (start + k + 1) mod len: the colours cycle in order |
| Elements.StepKeepsWidth | element.go:32-41 | With equally wide frames, a step keeps the displayed width |
| Elements.Element.constructor | element.go:53-68 | newElement (`BuiltFrom`): format and spacer from the settings; colour ring entry k is style k applied to format+spacer, at position 0, Nil without styles; frame ring is the set at position 0, Nil without frames; width is the first frame's plus the formatted spacer, 0 without frames; empty text and empty format, not reversed |
| Elements.Element.Update | element.go:32-41 | No-op without frames; otherwise one step (back when reversed), current becomes the new frame, and the width stays exact for uniform sets |
| Elements.Element.SetCurrent | element.go:43-51 | Empty text has width 0 and clears emptyFormat; other text is as wide as format+spacer applied to it |
| Elements.Element.Colorized | element.go:70-83 | Returns Colorize of the current text and moves the colour ring to ColorsAfter |
| Options.FrameWidth | spinner.go:245-248 | The stripped width is at most the raw width, and equal to it without ESC |
| Options.CheckInterval | options.go:105-113 | Pass iff 20 ms ≤ d ≤ 5 s; too small is reported before too big |
| Options.Sort3 | options.go:55-57 | Sorted, and a permutation of the three values |
| Options.SortKeepsValues | options.go:55-57 | Sorting keeps exactly the values |
| Options.OrderVerdictMeaning | options.go:48-67 | Order accepts iff its values are exactly {1, 2, 3}, and then yields Dedup of the arguments, a permutation of [1, 2, 3] |
| Options.AcceptedOrderNamesElements | options.go:49-67 | An accepted order names exactly the three elements, each once |
| Options.ElementsOrderAccepted | options.go:49-67 | Arguments whose values are exactly {1, 2, 3} are accepted |
| Options.ThreeValuesOnly | options.go:52 | Four identifiers in 1..3 cannot all differ |
| Options.OrderOption | options.go:49-67 | Unique, length check, sort and compare return exactly the verdict, which succeeds iff the values are {1, 2, 3} |
| Options.ClampLength | options.go:189-197 | Negative lengths become 0 and others are kept |
| Options.ConfigureFailsExactly | options.go:33-209 | Each option fails iff its argument is refused, whatever the configuration |
| Options.ConfigurePreservesWellFormed | options.go:33-209 | An accepted option keeps the configuration well formed: supported colour level, a permutation order, interval in range, conforming frames, bounded prefix and ellipsis, and a non-negative message width |
| Options.ConfigureAllPreservesWellFormed | spinner.go:79-85 | Options that all succeed keep the configuration well formed |
| Options.ConfigureAllAppend | spinner.go:79-85 | Two option lists apply as the first, then the second |
| Options.ConfigureAllFirstError | spinner.go:79-85 | The option list fails iff some option in it is refused |
| Options.ConfigureAllKeepsStillFrames | options.go:33-209 | No option list changes the message or progress frame sets |
| Spinners.Defaults | spinner.go:49-78 | Order [Char, Progress, Message], TColor256, cursor hidden, not reversed, no prefix, no final message, default frames for the character and none for the others |
| Spinners.DefaultsWellFormed | spinner.go:49-78 | Defaults are well formed when the default variant is |
| Spinners.WidePrefixRefused | options.go:151-162 | A prefix wider than 10 columns is refused with its width |
| Spinners.NewRejectsPrefix | spinner_test.go:109-113 | "12345678901" is refused as 11 columns wide |
| Spinners.DigitsFrameWidth | spinner.go:245-248 | A digit string is as wide as it is long |
| Spinners.NewRejectsOrder | spinner_test.go:124-143 | The four bad orders are refused |
| Spinners.NewRejectsOthers | spinner_test.go:114-163 | Colour level 13 and TTrueColor, variant 12323, 65 frames, and 10 ms and 10 s intervals are refused with their errors |
| Spinners.FrameShowsBody | spinner.go:160-175 | When the prefix and painted parts close every `ESC [` they open, the frame strips to exactly what they strip to, and to the parts themselves when they have no escapes: the trailing erase and move-back take no columns |
| Spinners.Spinner.constructor | spinner.go:49-78 | The struct literal: configuration equals Defaults, inactive, empty output, no elements yet |
| Spinners.Spinner.ApplyOption | options.go:33-209 | The configuration becomes what Configure gives on success and is unchanged with Configure's error on refusal |
| Spinners.Spinner.ApplyColorLevel | options.go:33-46 | Unknown level, then unsupported level, or the level is set |
| Spinners.Spinner.ApplyOrder | options.go:48-67 | The order is set to the verdict's value, or unchanged with its error |
| Spinners.Spinner.ApplyVariant | options.go:69-79 | Unknown variant, or the entry's interval and frames |
| Spinners.Spinner.ApplyCharSetOption | options.go:81-91 | The check's error, or the frames are set |
| Spinners.Spinner.ApplyInterval | options.go:93-103 | checkInterval's error, or the interval is set |
| Spinners.Spinner.ApplyMessageFormat | options.go:115-122 | The message format is set |
| Spinners.Spinner.ApplyProgressFormat | options.go:124-131 | The progress format is set |
| Spinners.Spinner.ApplyProgressIndicatorFormat | options.go:133-140 | The percentage format is set |
| Spinners.Spinner.ApplyFormat | options.go:142-149 | The character format is set |
| Spinners.Spinner.ApplyPrefix | options.go:151-162 | Too wide, or prefix and its stripped width are set |
| Spinners.Spinner.ApplyReverse | options.go:164-170 | The reversed flag is set |
| Spinners.Spinner.ApplyFinalMessage | options.go:172-178 | The final message is set |
| Spinners.Spinner.ApplyHideCursor | options.go:180-186 | The cursor flag is set |
| Spinners.Spinner.ApplyMaxMessageLength | options.go:188-197 | The clamped length is set; never refused |
| Spinners.Spinner.ApplyMessageEllipsis | options.go:199-209 | Wider than 3 columns is refused, or the ellipsis is set |
| Spinners.Spinner.ApplyOptions | spinner.go:79-85 | Applying the options in turn gives ConfigureAll's configuration, or the first refusal's error, and keeps a valid order |
| Spinners.NewElements | spinner.go:94-107 | Three fresh, distinct elements, each exactly as newElement builds it from its settings and its prototype's colour templates |
| Spinners.Spinner.CreateElements | spinner.go:94-115 | The three elements are fresh, distinct and mapped by identifier. Each is as newElement builds it from its own settings (rings, widths, empty text and format, not reversed). The configuration, activity, output and frame fields are unchanged |
| Spinners.Spinner.SetElements | spinner.go:109-113 | The three element fields and the element map hold the new elements. The configuration, activity, output and frame fields are unchanged |
| Spinners.Spinner.Active | spinner.go:117-120 | Reports the active flag |
| Spinners.Spinner.Start | spinner.go:122-137 | Active afterwards; when already active nothing is written, otherwise the hide-cursor sequence is written iff hideCursor |
| Spinners.Spinner.UpdateCurrentFrame | spinner.go:155-158 | Only the character steps, and its width stays exact for uniform sets |
| Spinners.Spinner.AssembleCurrentFrame | spinner.go:160-175 | previousFrameWidth takes the old width, and the new width is the prefix plus the three elements. The frame is the prefix, the parts in configured order each painted in its next colour, the erase of previous − current columns and the move back over current; each colour ring advances once |
| Spinners.Spinner.Tick | spinner.go:145-150 | The character steps once, the frame is assembled with the width arithmetic above, and exactly that frame is appended to the output |
| Spinners.Spinner.Spin | spinner.go:139-153 | After n ticks, the character ring has advanced n steps, n frames have been appended, and earlier output is kept |
| Spinners.Spinner.Stop | spinner.go:177-193 | Inactive afterwards. When active, it writes the erase of the current width, then the final message if non-empty, then the show-cursor sequence if hidden; when inactive it writes nothing, so a second Stop is a no-op |
| Spinners.Spinner.Erase | spinner.go:200-205 | Writes the erase of the current width only while active; nothing else changes |
| Spinners.Spinner.EraseFrame | spinner.go:207-213 | Writes the erase of the current width only while active |
| Spinners.Spinner.Current | spinner.go:215-220 | Writes exactly the current frame |
| Spinners.Spinner.Message | spinner.go:222-228 | The message shows m untruncated, with the width of m in the message format; empty m gives width 0 and clears the empty format, other m keeps it |
| Spinners.Spinner.Progress | spinner.go:230-243 | A non-positive fraction clears the indicator; otherwise it shows the clamped percentage in the indicator format. Empty text gives width 0 and clears the empty format; other text gets its width in the element format and keeps the empty format |
| Spinners.Spinner.Write | spinner.go:250-254 | Exactly one entry is appended to the output |
| Spinners.New | spinner.go:46-92 | Fails iff some option is refused, with the first refusal's error. Otherwise it returns a fresh, valid spinner whose configuration is the options applied to the defaults (well formed when the defaults and catalogue are sound). The spinner is inactive, with empty output, an empty current frame and both frame widths 0. Its elements are as newElement builds them; message and progress have no frames and width 0 |
| Spinners.OptionsKeepWellFormed | spinner.go:46-92 | The options New accepts leave sound defaults well formed |
| Spinners.KeepsElementOrder | options.go:48-67 | No accepted option breaks the order's permutation property |

## Left out

- Concurrency: the mutex, the `spin` goroutine, the ticker and the stop channel, including the blocking send in Stop (spinner.go:139-153, 184). `Spin(n)` runs n ticks in sequence instead. Because no goroutine gates them, Tick and Spin may also run on an inactive spinner, which the source never does.
- Output: the `Writer` (a colorable stderr) is replaced by the log `output`, one entry per write.
- `runewidth.StringWidth` is a per-rune width function passed as a parameter, summed over the string. `fmt.Sprintf` with one `%s` slot and the percentage format are also parameters; general format verbs are not modelled.
- The regular expression library: stripping is the explicit scanner `StripANSI`. spinner.go:247 calls `auxiliary.Strip`, which auxiliary/functions.go does not define; it is modelled as `StripANSI`.
- The colour prototypes and their handlers (`color.Prototypes`, `CDark`), the variant catalogue literals (character_sets.go:69-261) with their palettes, and the default variant's interval and frames. All come in through the parameter `Env`. color/coloring_sets.go beyond the two set names, and spinner/character_sets.go, are not part of this model.
- The demo programs (main.go, examples/) are not part of this model.
- `colorLevel` is stored and checked but not used for painting, as in the source.
- Slices are sequences, so `nil` and empty are the same value. `Unique(nil)` and `Unique([])` both give `[]`.
- `maxMessageWidth` and `messageEllipsis` are assigned by options.go:194 and options.go:206 but are not declared in the struct at spinner.go:19-44. The model adds them as configuration fields.
- `createElements` cannot fail, since `newElement` always returns a nil error. Its error paths (spinner.go:98-108, 88-90) are therefore not modelled.
- `init` panics on the first set that fails the check. `CharacterSets.Init` reports this as `ok == false` instead.
- Strings are sequences of Unicode scalar values, not Go's byte strings: invalid UTF-8 cannot be represented. Go cuts strings at byte offsets; the model cuts at rune positions, which is what Truncate's `range` walk over runes amounts to.
- Auxiliary.Truncate: an explicitly passed empty variadic slice (`Truncate(s, w, []interface{}{}...)`) is non-nil in Go and panics at `l[0]`; the model cannot tell it from no argument and uses the default ellipsis.
- Auxiliary.Bounds: clamps a `real`. float32 rounding and NaN are not modelled.
- Spinners.Spinner.Progress: the fraction is a `real`, so float32 rounding of `p * 100` is not modelled.
- Rings.NewRing: Go's fresh ring holds nil values; the model holds empty strings, which every caller overwrites before use.
- Options.Sort3: stands in for `sort.Ints`, specified only on the three-element slices Order passes it.
- Spinners.Spinner.AssembleCurrentFrame: paints the three elements in the fixed order character, message, progress, then places them in the configured order. Each painting moves only its own element's colour ring, so the frame and the final state equal those of painting in the configured order.
- Spinners.Spinner.Tick: states the frame's widths and the written entry, but not the frame's text. The text is stated by AssembleCurrentFrame.
- Spinners.Spinner.Spin: states the number of frames written and the character's position, not the text of each frame.
