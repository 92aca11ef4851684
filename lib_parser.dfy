/** The first revision of the parser, src/lib.rs: a `Beatmap` with a raw
    `[General]` record and a `[Difficulty]` record, the two in-place section
    decoders, and the line-by-line driver `parse` that tracks the current
    section and dispatches each content line to its section's decoder. */
module LibParser {
  import opened Wrappers
  import opened Text
  import opened Numbers
  import opened Float32
  import opened FileSections
  import opened GeneralFields
  import DifficultySection

  /** This revision keeps `Countdown` and `Mode` as `u32` and `SampleSet` and
      `OverlayPosition` as the text of the value. */
  type RawGeneral = GeneralOf<nat, string, nat, string>

  type RawValue = Value<nat, string, nat, string>

  function Verbatim(s: string): Option<string> {
    Some(s)
  }

  /** The converters of this revision. */
  function RawDecoders(): Decoders<nat, string, nat, string> {
    Decoders(ParseU32, Verbatim, ParseU32, Verbatim)
  }

  /** `General::new()` of this revision. */
  function NewGeneral(): (g: RawGeneral)
    ensures g.audioFilename == "" && g.audioHash == "" && g.skinPreference == ""
    ensures g.audioLeadIn == 0 && g.countdownOffset == 0 && g.previewTime == -1
    ensures g.countdown == 1 && g.sampleSet == "Normal" && g.mode == 0 && g.overlayPosition == "NoChange"
    ensures g.stackLeniency == Finite(0.7)
    ensures g.storyFireInFront
    ensures !g.letterboxInBreaks && !g.useSkinSprites && !g.alwaysShowPlayfield && !g.epilepsyWarning
    ensures !g.specialStyle && !g.widescreenStoryboard && !g.samplesMatchPlaybackRate
  {
    GeneralOf("", 0, "", -1, 1, "Normal", Finite(0.7), 0, false, true, false, false, "NoChange", "",
              false, 0, false, false, false)
  }

  /** `parse_general` of this revision, on values. */
  function ApplyRawGeneral(g: RawGeneral, line: string): Result<RawGeneral, ParseError> {
    ApplyGeneral(RawDecoders(), g, line)
  }

  /** The raw converters: `Countdown` and `Mode` accept exactly the `u32`
      texts, while `SampleSet` and `OverlayPosition` accept any text, unknown
      names included, and store it unchanged. */
  lemma RawDecodeEnumFields(v: string)
    ensures Decode(RawDecoders(), Countdown, v).Some? <==> ParseU32(v).Some?
    ensures Decode(RawDecoders(), Mode, v).Some? <==> ParseU32(v).Some?
    ensures ParseU32(v).Some? ==>
              && Decode(RawDecoders(), Countdown, v) == Some(CountdownValue(ParseU32(v).value))
              && Decode(RawDecoders(), Mode, v) == Some(ModeValue(ParseU32(v).value))
    ensures Decode(RawDecoders(), SampleSet, v) == Some(SampleSetValue(v))
    ensures Decode(RawDecoders(), OverlayPosition, v) == Some(OverlayValue(v))
  {
  }

  /** A successful line leaves a sample set or overlay position that is the
      previous one or the trimmed value of the line. */
  lemma RawTextFieldsFromLine(g: RawGeneral, line: string)
    requires ApplyRawGeneral(g, line).Success?
    ensures var h := ApplyRawGeneral(g, line).value;
      && (h.sampleSet != g.sampleSet ==>
            KeyOf(line) == Some(SampleSet) && h.sampleSet == Trim(SplitOnce(line, ':').value.1))
      && (h.overlayPosition != g.overlayPosition ==>
            KeyOf(line) == Some(OverlayPosition) && h.overlayPosition == Trim(SplitOnce(line, ':').value.1))
  {
    ApplyGeneralCases(RawDecoders(), g, line);
    if KeyOf(line).Some? {
      SetEnumFields(g, KeyOf(line).value, ValueOf(RawDecoders(), line).value);
    }
  }

  /** The parser's state that outlives one line. */
  class Beatmap {
    var general: RawGeneral
    var difficulty: DifficultySection.Difficulty

    /** `Beatmap::new()`: both sections at their defaults. */
    constructor ()
      ensures general == NewGeneral() && difficulty == DifficultySection.New()
    {
      general := NewGeneral();
      difficulty := DifficultySection.New();
    }
  }

  /** `parse_general`: the line is split at its first colon and both halves
      trimmed; the source's panic on a line without a colon is returned as
      `Fail`, and the record is then left as it was. */
  method ParseGeneral(line: string, beatmap: Beatmap) returns (outcome: Outcome<ParseError>)
    modifies beatmap
    ensures beatmap.difficulty == old(beatmap.difficulty)
    ensures match ApplyRawGeneral(old(beatmap.general), line)
      case Success(g) => outcome == Pass && beatmap.general == g
      case Failure(e) => outcome == Fail(e) && beatmap.general == old(beatmap.general)
  {
    var split := SplitOnce(line, ':');
    if split.None? {
      return Fail(MissingColon(line));
    }
    var key, value := Trim(split.value.0), Trim(split.value.1);
    outcome := ParseGeneralEntry(key, value, beatmap);
  }

  /** The `match` of `parse_general` on the trimmed key.  Its nineteen arms
      are the key table `FieldOf` (`KeyTable` proves it recognises exactly
      those names) and their converters the table `Decode`; the arm then
      assigns its one field in place.  Any other key changes nothing, and a
      value that does not convert (a panic in the source) is returned as
      `Fail` with the record unchanged. */
  method ParseGeneralEntry(key: string, value: string, beatmap: Beatmap) returns (outcome: Outcome<ParseError>)
    modifies beatmap
    ensures beatmap.difficulty == old(beatmap.difficulty)
    ensures match ApplyField(RawDecoders(), old(beatmap.general), key, value)
      case Success(g) => outcome == Pass && beatmap.general == g
      case Failure(e) => outcome == Fail(e) && beatmap.general == old(beatmap.general)
  {
    var field := FieldOf(key);
    if field.None? {
      return Pass;
    }
    var x := Decode(RawDecoders(), field.value, value);
    if x.None? {
      return Fail(InvalidValue(key, value));
    }
    match field.value {
    case AudioFilename => beatmap.general := beatmap.general.(audioFilename := x.value.text);
    case AudioLeadIn => beatmap.general := beatmap.general.(audioLeadIn := x.value.unsigned);
    case AudioHash => beatmap.general := beatmap.general.(audioHash := x.value.text);
    case PreviewTime => beatmap.general := beatmap.general.(previewTime := x.value.signed);
    case Countdown => beatmap.general := beatmap.general.(countdown := x.value.countdown);
    case SampleSet => beatmap.general := beatmap.general.(sampleSet := x.value.sampleSet);
    case StackLeniency => beatmap.general := beatmap.general.(stackLeniency := x.value.fraction);
    case Mode => beatmap.general := beatmap.general.(mode := x.value.mode);
    case LetterboxInBreaks => beatmap.general := beatmap.general.(letterboxInBreaks := x.value.flag);
    case StoryFireInFront => beatmap.general := beatmap.general.(storyFireInFront := x.value.flag);
    case UseSkinSprites => beatmap.general := beatmap.general.(useSkinSprites := x.value.flag);
    case AlwaysShowPlayfield => beatmap.general := beatmap.general.(alwaysShowPlayfield := x.value.flag);
    case OverlayPosition => beatmap.general := beatmap.general.(overlayPosition := x.value.overlay);
    case SkinPreference => beatmap.general := beatmap.general.(skinPreference := x.value.text);
    case EpilepsyWarning => beatmap.general := beatmap.general.(epilepsyWarning := x.value.flag);
    case CountdownOffset => beatmap.general := beatmap.general.(countdownOffset := x.value.unsigned);
    case SpecialStyle => beatmap.general := beatmap.general.(specialStyle := x.value.flag);
    case WidescreenStoryboard => beatmap.general := beatmap.general.(widescreenStoryboard := x.value.flag);
    case SamplesMatchPlaybackRate => beatmap.general := beatmap.general.(samplesMatchPlaybackRate := x.value.flag);
    }
    outcome := Pass;
  }

  /** `parse_difficulty`: split at the first colon and trimmed, with the same
      error treatment as `ParseGeneral`. */
  method ParseDifficulty(line: string, beatmap: Beatmap) returns (outcome: Outcome<ParseError>)
    modifies beatmap
    ensures beatmap.general == old(beatmap.general)
    ensures match DifficultySection.ApplyDifficulty(old(beatmap.difficulty), line)
      case Success(d) => outcome == Pass && beatmap.difficulty == d
      case Failure(e) => outcome == Fail(e) && beatmap.difficulty == old(beatmap.difficulty)
  {
    var split := SplitOnce(line, ':');
    if split.None? {
      return Fail(MissingColon(line));
    }
    var key, value := Trim(split.value.0), Trim(split.value.1);
    outcome := ParseDifficultyEntry(key, value, beatmap);
  }

  /** The `match` of `parse_difficulty` on the trimmed key: each of the six
      names reads the value as an `f32` and assigns its field in place. */
  method ParseDifficultyEntry(key: string, value: string, beatmap: Beatmap) returns (outcome: Outcome<ParseError>)
    modifies beatmap
    ensures beatmap.general == old(beatmap.general)
    ensures match DifficultySection.ApplyField(old(beatmap.difficulty), key, value)
      case Success(d) => outcome == Pass && beatmap.difficulty == d
      case Failure(e) => outcome == Fail(e) && beatmap.difficulty == old(beatmap.difficulty)
  {
    match DifficultySection.FieldOf(key) {
    case None =>
    case Some(f) =>
      var x := ParseF32(value);
      if x.None? {
        return Fail(InvalidValue(key, value));
      }
      if f == DifficultySection.HpDrainRate {
        beatmap.difficulty := beatmap.difficulty.(hp := x.value);
      } else if f == DifficultySection.CircleSize {
        beatmap.difficulty := beatmap.difficulty.(cs := x.value);
      } else if f == DifficultySection.OverallDifficulty {
        beatmap.difficulty := beatmap.difficulty.(od := x.value);
      } else if f == DifficultySection.ApproachRate {
        beatmap.difficulty := beatmap.difficulty.(ar := x.value);
      } else if f == DifficultySection.SliderMultiplier {
        beatmap.difficulty := beatmap.difficulty.(sliderMultiplier := x.value);
      } else {
        beatmap.difficulty := beatmap.difficulty.(sliderTickrate := x.value);
      }
    }
    outcome := Pass;
  }

  /** The tests' loop `for line in lines { parse_general(line, &mut beatmap) }`,
      which stops at the first line that panics. */
  method ParseGeneralLines(lines: seq<string>, beatmap: Beatmap) returns (outcome: Outcome<ParseError>)
    modifies beatmap
    ensures beatmap.difficulty == old(beatmap.difficulty)
    ensures match ApplyGeneralLines(RawDecoders(), old(beatmap.general), lines)
      case Success(g) => outcome == Pass && beatmap.general == g
      case Failure(e) => outcome == Fail(e)
  {
    var i := 0;
    while i < |lines|
      invariant 0 <= i <= |lines| && beatmap.difficulty == old(beatmap.difficulty)
      invariant ApplyGeneralLines(RawDecoders(), old(beatmap.general), lines) ==
                ApplyGeneralLines(RawDecoders(), beatmap.general, lines[i..])
    {
      ghost var before := beatmap.general;
      assert lines[i..][0] == lines[i] && lines[i..][1..] == lines[i + 1..];
      outcome := ParseGeneral(lines[i], beatmap);
      if outcome.Fail? {
        return;
      }
      ApplyGeneralLinesCons(RawDecoders(), before, lines[i..], beatmap.general);
      i := i + 1;
    }
    assert lines[i..] == [];
    outcome := Pass;
  }

  /** The same loop over `parse_difficulty`. */
  method ParseDifficultyLines(lines: seq<string>, beatmap: Beatmap) returns (outcome: Outcome<ParseError>)
    modifies beatmap
    ensures beatmap.general == old(beatmap.general)
    ensures match DifficultySection.ApplyDifficultyLines(old(beatmap.difficulty), lines)
      case Success(d) => outcome == Pass && beatmap.difficulty == d
      case Failure(e) => outcome == Fail(e)
  {
    var i := 0;
    while i < |lines|
      invariant 0 <= i <= |lines| && beatmap.general == old(beatmap.general)
      invariant DifficultySection.ApplyDifficultyLines(old(beatmap.difficulty), lines) ==
                DifficultySection.ApplyDifficultyLines(beatmap.difficulty, lines[i..])
    {
      ghost var before := beatmap.difficulty;
      assert lines[i..][0] == lines[i] && lines[i..][1..] == lines[i + 1..];
      outcome := ParseDifficulty(lines[i], beatmap);
      if outcome.Fail? {
        return;
      }
      DifficultySection.ApplyDifficultyLinesCons(before, lines[i..], beatmap.difficulty);
      i := i + 1;
    }
    assert lines[i..] == [];
    outcome := Pass;
  }

  /** Which lines `parse` hands on.  `AsWritten` is the condition of
      src/lib.rs, which admits only blank lines; `Intended` admits the
      non-blank lines that are not comments. */
  datatype Guard = AsWritten | Intended

  predicate Admits(guard: Guard, line: string) {
    match guard
    case AsWritten => Trim(line) == "" && !StartsWith(line, "//")
    case Intended => Trim(line) != "" && !StartsWith(line, "//")
  }

  /** A line the section classifier recognises as a `[Section]` header. */
  predicate IsHeader(getSection: string -> FileSection, line: string) {
    getSection(line) != NotHeader(line)
  }

  /** What `parse` carries from line to line: the current section and the
      beatmap. */
  datatype State = State(section: FileSection, general: RawGeneral, difficulty: DifficultySection.Difficulty)

  /** Before the first line: the `Format` section and both records at their
      defaults. */
  function Init(): (s: State)
    ensures s.section == Format && s.general == NewGeneral() && s.difficulty == DifficultySection.New()
  {
    State(Format, NewGeneral(), DifficultySection.New())
  }

  /** One iteration of the loop of `parse`: a line the guard does not admit is
      skipped, a header switches the section, and any other line goes to the
      decoder of the current section; a section without one fails (the
      source's `todo!()`). */
  function Step(guard: Guard, getSection: string -> FileSection, s: State, line: string): Result<State, ParseError> {
    if !Admits(guard, line) then Success(s)
    else if IsHeader(getSection, line) then Success(s.(section := getSection(line)))
    else
      match s.section
      case General =>
        (match ApplyRawGeneral(s.general, line)
         case Failure(e) => Failure(e)
         case Success(g) => Success(s.(general := g)))
      case Difficulty =>
        (match DifficultySection.ApplyDifficulty(s.difficulty, line)
         case Failure(e) => Failure(e)
         case Success(d) => Success(s.(difficulty := d)))
      case _ => Failure(UnsupportedSection(s.section))
  }

  /** The loop over all lines, stopping at the first error. */
  function Run(guard: Guard, getSection: string -> FileSection, s: State, lines: seq<string>): Result<State, ParseError>
    decreases |lines|
  {
    if lines == [] then Success(s)
    else
      match Step(guard, getSection, s, lines[0])
      case Failure(e) => Failure(e)
      case Success(t) => Run(guard, getSection, t, lines[1..])
  }

  /** `parse` on values: the lines of the text, from the initial state. */
  function ParseText(guard: Guard, getSection: string -> FileSection, text: string): Result<State, ParseError> {
    Run(guard, getSection, Init(), Lines(text))
  }

  lemma RunCons(guard: Guard, getSection: string -> FileSection, s: State, lines: seq<string>, i: nat)
    requires i < |lines|
    ensures Run(guard, getSection, s, lines[i..]) ==
            match Step(guard, getSection, s, lines[i])
            case Failure(e) => Failure(e)
            case Success(t) => Run(guard, getSection, t, lines[i + 1..])
  {
    assert lines[i..][0] == lines[i];
    assert lines[i..][1..] == lines[i + 1..];
  }

  /** `Step` case by case. */
  lemma StepCases(guard: Guard, getSection: string -> FileSection, s: State, line: string)
    ensures !Admits(guard, line) ==> Step(guard, getSection, s, line) == Success(s)
    ensures Admits(guard, line) && IsHeader(getSection, line) ==>
              Step(guard, getSection, s, line) == Success(s.(section := getSection(line)))
    ensures Admits(guard, line) && !IsHeader(getSection, line) && s.section == General ==>
              Step(guard, getSection, s, line) ==
              match ApplyRawGeneral(s.general, line)
              case Failure(e) => Failure(e)
              case Success(g) => Success(s.(general := g))
    ensures Admits(guard, line) && !IsHeader(getSection, line) && s.section == Difficulty ==>
              Step(guard, getSection, s, line) ==
              match DifficultySection.ApplyDifficulty(s.difficulty, line)
              case Failure(e) => Failure(e)
              case Success(d) => Success(s.(difficulty := d))
    ensures Admits(guard, line) && !IsHeader(getSection, line) && s.section != General && s.section != Difficulty ==>
              Step(guard, getSection, s, line) == Failure(UnsupportedSection(s.section))
  {
  }

  /** `parse`: a fresh beatmap, the current section starting at `Format`, and
      each line of `text` in turn; the source panics where this returns
      `Fail`.  The section classifier `get_section` is the parameter
      `getSection`, and `guard` selects the line condition (the source's is
      `AsWritten`). */
  method Parse(guard: Guard, getSection: string -> FileSection, text: string)
    returns (beatmap: Beatmap, outcome: Outcome<ParseError>)
    ensures fresh(beatmap)
    ensures match ParseText(guard, getSection, text)
      case Success(s) => outcome == Pass && beatmap.general == s.general && beatmap.difficulty == s.difficulty
      case Failure(e) => outcome == Fail(e)
  {
    beatmap := new Beatmap();
    var currentSection := Format;
    var lines := Lines(text);
    var i := 0;
    while i < |lines|
      invariant i <= |lines|
      invariant Run(guard, getSection, Init(), lines) ==
                Run(guard, getSection, State(currentSection, beatmap.general, beatmap.difficulty), lines[i..])
    {
      ghost var step := Step(guard, getSection, State(currentSection, beatmap.general, beatmap.difficulty), lines[i]);
      RunCons(guard, getSection, State(currentSection, beatmap.general, beatmap.difficulty), lines, i);
      var o;
      currentSection, o := ParseLine(guard, getSection, currentSection, lines[i], beatmap);
      if o.Fail? {
        assert step == Failure(o.error);
        return beatmap, o;
      }
      assert step == Success(State(currentSection, beatmap.general, beatmap.difficulty));
      i := i + 1;
    }
    assert lines[i..] == [];
    outcome := Pass;
  }

  /** The body of the loop of `parse` for one line, with `section` the
      current section: the beatmap and the section it leaves are those of
      `Step`. */
  method ParseLine(guard: Guard, getSection: string -> FileSection, section: FileSection, line: string,
                   beatmap: Beatmap)
    returns (next: FileSection, outcome: Outcome<ParseError>)
    modifies beatmap
    ensures match Step(guard, getSection, State(section, old(beatmap.general), old(beatmap.difficulty)), line)
      case Success(t) =>
        outcome == Pass && next == t.section && beatmap.general == t.general && beatmap.difficulty == t.difficulty
      case Failure(e) => outcome == Fail(e)
  {
    StepCases(guard, getSection, State(section, beatmap.general, beatmap.difficulty), line);
    next := section;
    outcome := Pass;
    var admitted := match guard
      case AsWritten => Trim(line) == "" && !StartsWith(line, "//")
      case Intended => Trim(line) != "" && !StartsWith(line, "//");
    if !admitted {
      return;
    }
    if getSection(line) != NotHeader(line) {
      next := getSection(line);
      return;
    }
    match section {
    case General =>
      outcome := ParseGeneral(line, beatmap);
    case Difficulty =>
      outcome := ParseDifficulty(line, beatmap);
    case _ =>
      outcome := Fail(UnsupportedSection(section));
    }
  }

  /** A blank line is never a comment. */
  lemma BlankNotComment(line: string)
    requires Trim(line) == ""
    ensures !StartsWith(line, "//")
  {
    TrimEmpty(line);
  }

  /** Where the section changes and which record a line can change, under
      either guard: the section changes only at an admitted header, to that
      header's section; `general` changes only in `[General]` and
      `difficulty` only in `[Difficulty]`, and only through a content line. */
  lemma StepFrame(guard: Guard, getSection: string -> FileSection, s: State, line: string)
    ensures var r := Step(guard, getSection, s, line);
      && (r.Success? && r.value.section != s.section ==>
            Admits(guard, line) && IsHeader(getSection, line) && r.value.section == getSection(line))
      && (r.Success? && r.value.general != s.general ==>
            Admits(guard, line) && !IsHeader(getSection, line) && s.section == General)
      && (r.Success? && r.value.difficulty != s.difficulty ==>
            Admits(guard, line) && !IsHeader(getSection, line) && s.section == Difficulty)
      && (r.Failure? ==> Admits(guard, line) && !IsHeader(getSection, line))
  {
    StepCases(guard, getSection, s, line);
  }

  /** Under either guard, admitted content lines in `[General]` are decoded
      in order into the general record, and nothing else changes. */
  lemma {:induction false} RunGeneralSection(guard: Guard, getSection: string -> FileSection, s: State,
                                             lines: seq<string>)
    requires s.section == General
    requires forall i :: 0 <= i < |lines| ==> Admits(guard, lines[i]) && !IsHeader(getSection, lines[i])
    ensures Run(guard, getSection, s, lines) ==
            match ApplyGeneralLines(RawDecoders(), s.general, lines)
            case Failure(e) => Failure(e)
            case Success(g) => Success(s.(general := g))
    decreases |lines|
  {
    if lines != [] {
      StepCases(guard, getSection, s, lines[0]);
      match ApplyRawGeneral(s.general, lines[0])
      case Failure(e) =>
      case Success(g) =>
        ApplyGeneralLinesCons(RawDecoders(), s.general, lines, g);
        forall i | 0 <= i < |lines| - 1
          ensures Admits(guard, lines[1..][i]) && !IsHeader(getSection, lines[1..][i])
        {
          assert lines[1..][i] == lines[i + 1];
        }
        RunGeneralSection(guard, getSection, s.(general := g), lines[1..]);
    }
  }

  /** The same for `[Difficulty]` and the difficulty record. */
  lemma {:induction false} RunDifficultySection(guard: Guard, getSection: string -> FileSection, s: State,
                                                lines: seq<string>)
    requires s.section == Difficulty
    requires forall i :: 0 <= i < |lines| ==> Admits(guard, lines[i]) && !IsHeader(getSection, lines[i])
    ensures Run(guard, getSection, s, lines) ==
            match DifficultySection.ApplyDifficultyLines(s.difficulty, lines)
            case Failure(e) => Failure(e)
            case Success(d) => Success(s.(difficulty := d))
    decreases |lines|
  {
    if lines != [] {
      StepCases(guard, getSection, s, lines[0]);
      match DifficultySection.ApplyDifficulty(s.difficulty, lines[0])
      case Failure(e) =>
      case Success(d) =>
        DifficultySection.ApplyDifficultyLinesCons(s.difficulty, lines, d);
        forall i | 0 <= i < |lines| - 1
          ensures Admits(guard, lines[1..][i]) && !IsHeader(getSection, lines[1..][i])
        {
          assert lines[1..][i] == lines[i + 1];
        }
        RunDifficultySection(guard, getSection, s.(difficulty := d), lines[1..]);
    }
  }

  /** As written, lines that are not blank are all skipped: the state after
      them is the state before, whatever headers and settings they hold. */
  lemma {:induction false} AsWrittenSkipsContent(getSection: string -> FileSection, s: State, lines: seq<string>)
    requires forall i :: 0 <= i < |lines| ==> Trim(lines[i]) != ""
    ensures Run(AsWritten, getSection, s, lines) == Success(s)
    decreases |lines|
  {
    if lines != [] {
      StepCases(AsWritten, getSection, s, lines[0]);
      assert forall i :: 0 <= i < |lines| - 1 ==> lines[1..][i] == lines[i + 1];
      AsWrittenSkipsContent(getSection, s, lines[1..]);
    }
  }

  /** As written, `parse` returns the defaults for every text without blank
      lines. */
  lemma AsWrittenIgnoresText(getSection: string -> FileSection, text: string)
    requires forall i :: 0 <= i < |Lines(text)| ==> Trim(Lines(text)[i]) != ""
    ensures ParseText(AsWritten, getSection, text) == Success(Init())
  {
    AsWrittenSkipsContent(getSection, Init(), Lines(text));
  }

  /** As written, with a classifier that takes no blank line for a header,
      the first blank line fails in the `Format` section, and a text without
      blank lines leaves the state as it was. */
  lemma {:induction false} AsWrittenFailsAtBlankLine(getSection: string -> FileSection, s: State, lines: seq<string>)
    requires s.section == Format
    requires forall l :: Trim(l) == "" ==> getSection(l) == NotHeader(l)
    ensures (exists i :: 0 <= i < |lines| && Trim(lines[i]) == "") ==>
              Run(AsWritten, getSection, s, lines) == Failure(UnsupportedSection(Format))
    ensures (forall i :: 0 <= i < |lines| ==> Trim(lines[i]) != "") ==>
              Run(AsWritten, getSection, s, lines) == Success(s)
    decreases |lines|
  {
    if lines != [] {
      StepCases(AsWritten, getSection, s, lines[0]);
      if Trim(lines[0]) == "" {
        BlankNotComment(lines[0]);
      } else {
        assert forall i :: 0 <= i < |lines| - 1 ==> lines[1..][i] == lines[i + 1];
        AsWrittenFailsAtBlankLine(getSection, s, lines[1..]);
        if exists i :: 0 <= i < |lines| && Trim(lines[i]) == "" {
          var i :| 0 <= i < |lines| && Trim(lines[i]) == "";
          assert lines[1..][i - 1] == lines[i];
        }
      }
    }
  }

  /** As written, a `[General]` header followed by settings changes nothing:
      the settings never reach the decoder. */
  lemma AsWrittenSkipsSection(getSection: string -> FileSection, header: string, body: seq<string>)
    requires Trim(header) != ""
    requires forall i :: 0 <= i < |body| ==> Trim(body[i]) != ""
    ensures Run(AsWritten, getSection, Init(), [header] + body) == Success(Init())
  {
    var lines := [header] + body;
    assert forall i :: 0 <= i < |lines| ==> Trim(lines[i]) != "" by {
      forall i | 0 <= i < |lines| ensures Trim(lines[i]) != "" {
        if i > 0 {
          assert lines[i] == body[i - 1];
        }
      }
    }
    AsWrittenSkipsContent(getSection, Init(), lines);
  }

  /** With the intended guard, blank lines and comments are skipped. */
  lemma {:induction false} IntendedSkipsBlankAndComments(getSection: string -> FileSection, s: State,
                                                         lines: seq<string>)
    requires forall i :: 0 <= i < |lines| ==> Trim(lines[i]) == "" || StartsWith(lines[i], "//")
    ensures Run(Intended, getSection, s, lines) == Success(s)
    decreases |lines|
  {
    if lines != [] {
      StepCases(Intended, getSection, s, lines[0]);
      assert forall i :: 0 <= i < |lines| - 1 ==> lines[1..][i] == lines[i + 1];
      IntendedSkipsBlankAndComments(getSection, s, lines[1..]);
    }
  }

  /** With the intended guard, a `[General]` header followed by settings
      decodes the settings, in order, into the default record. */
  lemma IntendedReadsSection(getSection: string -> FileSection, header: string, body: seq<string>)
    requires getSection(header) == General && Trim(header) != "" && !StartsWith(header, "//")
    requires forall i :: 0 <= i < |body| ==>
               Trim(body[i]) != "" && !StartsWith(body[i], "//") && !IsHeader(getSection, body[i])
    ensures Run(Intended, getSection, Init(), [header] + body) ==
            match ApplyGeneralLines(RawDecoders(), NewGeneral(), body)
            case Failure(e) => Failure(e)
            case Success(g) => Success(State(General, g, DifficultySection.New()))
  {
    var lines := [header] + body;
    StepCases(Intended, getSection, Init(), header);
    assert lines[0] == header && lines[1..] == body;
    RunGeneralSection(Intended, getSection, Init().(section := General), body);
  }

  const GeneralHeader: string := "[General]"

  /** The section classifier of the example below: `[General]` is the only
      header. */
  function ExampleSections(line: string): FileSection {
    if line == GeneralHeader then General else NotHeader(line)
  }

  /** The setting `Mode: 1` after some indentation `w`. */
  function ExampleSetting(w: string): string {
    Entry(w, KeyName(Mode), " " + TestText(Mode))
  }

  /** A `[General]` header and that setting on the next line. */
  function ExampleText(w: string): string {
    Join([GeneralHeader, ExampleSetting(w)], "\n")
  }

  /** The two lines `[General]` and `Mode: 1`, the second indented or not:
      the source's guard skips both and `parse` returns the default mode 0,
      while the intended guard sets the mode to 1. */
  lemma GuardExample(w: string)
    requires AllWhitespace(w) && '\n' !in w
    ensures ParseText(AsWritten, ExampleSections, ExampleText(w)) == Success(Init())
    ensures Init().general.mode == 0
    ensures ParseText(Intended, ExampleSections, ExampleText(w)) ==
            Success(State(General, NewGeneral().(mode := 1), DifficultySection.New()))
  {
    ExampleAsWritten(w);
    ExampleIntended(w);
  }

  lemma ExampleAsWritten(w: string)
    requires AllWhitespace(w) && '\n' !in w
    ensures ParseText(AsWritten, ExampleSections, ExampleText(w)) == Success(Init())
  {
    ExampleLines(w);
    ExampleLinesPlain(w);
    HeaderPlain();
    AsWrittenSkipsPair(ExampleSections, GeneralHeader, ExampleSetting(w));
  }

  lemma ExampleIntended(w: string)
    requires AllWhitespace(w) && '\n' !in w
    ensures ParseText(Intended, ExampleSections, ExampleText(w)) ==
            Success(State(General, NewGeneral().(mode := 1), DifficultySection.New()))
  {
    var setting := ExampleSetting(w);
    ExampleLines(w);
    ExampleLinesPlain(w);
    HeaderPlain();
    ExampleNotHeader(w);
    ExampleSettingDecodes(w);
    ApplyDecodesTo(RawDecoders(), NewGeneral(), setting, Mode, ModeValue(1));
    assert Set(NewGeneral(), Mode, ModeValue(1)) == NewGeneral().(mode := 1);
    ApplyGeneralLinesSingle(RawDecoders(), NewGeneral(), [setting], NewGeneral().(mode := 1));
    IntendedReadsPair(ExampleSections, GeneralHeader, setting);
  }

  /** Two lines that are not blank leave the defaults as they were. */
  lemma AsWrittenSkipsPair(getSection: string -> FileSection, header: string, setting: string)
    requires Trim(header) != "" && Trim(setting) != ""
    ensures Run(AsWritten, getSection, Init(), [header, setting]) == Success(Init())
  {
    assert [header, setting] == [header] + [setting];
    AsWrittenSkipsSection(getSection, header, [setting]);
  }

  /** A `[General]` header and one setting decode that setting. */
  lemma IntendedReadsPair(getSection: string -> FileSection, header: string, setting: string)
    requires getSection(header) == General && Trim(header) != "" && !StartsWith(header, "//")
    requires Trim(setting) != "" && !StartsWith(setting, "//") && !IsHeader(getSection, setting)
    ensures Run(Intended, getSection, Init(), [header, setting]) ==
            match ApplyGeneralLines(RawDecoders(), NewGeneral(), [setting])
            case Failure(e) => Failure(e)
            case Success(g) => Success(State(General, g, DifficultySection.New()))
  {
    assert [header, setting] == [header] + [setting];
    IntendedReadsSection(getSection, header, [setting]);
  }

  lemma ExampleNotHeader(w: string)
    ensures !IsHeader(ExampleSections, ExampleSetting(w))
  {
    var setting := ExampleSetting(w);
    assert setting[|setting| - 1] == '1';
  }

  /** Neither line is blank or a comment. */
  lemma ExampleLinesPlain(w: string)
    requires AllWhitespace(w)
    ensures Trim(ExampleSetting(w)) != "" && !StartsWith(ExampleSetting(w), "//")
  {
    assert KeyName(Mode)[0] == 'M';
    EntryNotBlank(w, KeyName(Mode), " " + TestText(Mode));
  }

  lemma HeaderPlain()
    ensures Trim(GeneralHeader) != "" && !StartsWith(GeneralHeader, "//")
  {
    TrimUnique([], GeneralHeader, []);
    assert [] + GeneralHeader + [] == GeneralHeader;
  }

  lemma ExampleLines(w: string)
    requires '\n' !in w
    ensures Lines(ExampleText(w)) == [GeneralHeader, ExampleSetting(w)]
  {
    var raw := " " + TestText(Mode);
    TestTextPlain(Mode);
    KeyNamePlain(Mode);
    assert raw[|raw| - 1] == '1';
    EntryOneLine(w, KeyName(Mode), raw);
    LinesOfJoined([GeneralHeader, ExampleSetting(w)]);
  }

  lemma ExampleSettingDecodes(w: string)
    requires AllWhitespace(w)
    ensures DecodesTo(RawDecoders(), ExampleSetting(w), Mode, ModeValue(1))
  {
    TestTextPlain(Mode);
    TrimSpaced(TestText(Mode));
    OneFacts();
    EntryDecodesTo(RawDecoders(), w, Mode, " " + TestText(Mode), ModeValue(1));
  }
}
