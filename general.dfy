/** The typed `[General]` section of hoshizora-parser/src/general.rs: the
    shared nineteen-key record with the four enumerations, its defaults, and
    the decoder with the enumeration mappers plugged in. */
module TypedGeneral {
  import opened Wrappers
  import opened Text
  import opened Numbers
  import opened Float32
  import opened FileSections
  import opened GeneralFields
  import GeneralEnums

  type General = GeneralOf<GeneralEnums.Countdown, GeneralEnums.SampleSet, GeneralEnums.Mode, GeneralEnums.OverlayPosition>

  type TypedValue = Value<GeneralEnums.Countdown, GeneralEnums.SampleSet, GeneralEnums.Mode, GeneralEnums.OverlayPosition>

  /** The converters of this revision: the enumerations' `from_str`. */
  function TypedDecoders(): Decoders<GeneralEnums.Countdown, GeneralEnums.SampleSet, GeneralEnums.Mode, GeneralEnums.OverlayPosition> {
    Decoders(GeneralEnums.CountdownFromStr, GeneralEnums.SampleSetFromStr,
             GeneralEnums.ModeFromStr, GeneralEnums.OverlayFromStr)
  }

  /** `General::new()`, which `General::default()` returns as well. */
  function New(): (g: General)
    ensures g.audioFilename == "" && g.audioHash == "" && g.skinPreference == ""
    ensures g.audioLeadIn == 0 && g.countdownOffset == 0 && g.previewTime == -1
    ensures g.countdown == GeneralEnums.Countdown.Normal && g.sampleSet == GeneralEnums.SampleSet.Normal
    ensures g.mode == GeneralEnums.Osu && g.overlayPosition == GeneralEnums.NoChange
    ensures g.stackLeniency == Finite(0.7)
    ensures g.storyFireInFront
    ensures !g.letterboxInBreaks && !g.useSkinSprites && !g.alwaysShowPlayfield && !g.epilepsyWarning
    ensures !g.specialStyle && !g.widescreenStoryboard && !g.samplesMatchPlaybackRate
  {
    GeneralOf("", 0, "", -1, GeneralEnums.Countdown.Normal, GeneralEnums.SampleSet.Normal, Finite(0.7),
              GeneralEnums.Osu, false, true, false, false, GeneralEnums.NoChange, "", false, 0,
              false, false, false)
  }

  /** `parse_general` of this revision. */
  function ApplyTypedGeneral(g: General, line: string): Result<General, ParseError> {
    ApplyGeneral(TypedDecoders(), g, line)
  }

  /** The default sample set `Normal` cannot be produced by decoding: after a
      line succeeds, `Normal` is there only if it was there before. */
  lemma SampleSetNormalOnlyByDefault(g: General, line: string)
    requires ApplyTypedGeneral(g, line).Success?
    requires ApplyTypedGeneral(g, line).value.sampleSet == GeneralEnums.SampleSet.Normal
    ensures g.sampleSet == GeneralEnums.SampleSet.Normal
  {
    ChangedEnumFromConverter(TypedDecoders(), g, line);
    if g.sampleSet != GeneralEnums.SampleSet.Normal {
      var v :| GeneralEnums.SampleSetFromStr(v) == Some(GeneralEnums.SampleSet.Normal);
      GeneralEnums.SampleSetNeverNormal(v);
    }
  }

  /** The expected record of that test. */
  function TestExpected(): General {
    GeneralOf("audio.mp3", 0, "afjskldfjaldksfjklasf", 10, GeneralEnums.Countdown.None, GeneralEnums.Drum,
              Finite(0.75), GeneralEnums.Taiko, true, false, true, true, GeneralEnums.Below, "Seoul v10",
              true, 1, true, true, true)
  }

  /** The value each line is expected to write: the expected record's field. */
  function TestValues(): (r: seq<TypedValue>)
    ensures |r| == |AllFields|
  {
    seq(|AllFields|, i requires 0 <= i < |AllFields| => Get(TestExpected(), AllFields[i]))
  }

  /** The test's lines as `lines` yields them from the multi-line literal:
      the first flush left, every later one after the literal's indentation
      `w` (twelve spaces in the source). */
  function TestLines(w: string): (r: seq<string>)
    ensures |r| == |AllFields|
  {
    seq(|AllFields|, i requires 0 <= i < |AllFields| =>
      Entry(if i == 0 then "" else w, KeyName(AllFields[i]), " " + TestText(AllFields[i])))
  }

  /** The test: its nineteen lines are what `lines` gives back from their
      join, and, decoded in turn into the defaults, they give the expected
      record, for any indentation without line feeds. */
  lemma TestParseGeneral(w: string)
    requires AllWhitespace(w) && '\n' !in w
    ensures Lines(Join(TestLines(w), "\n")) == TestLines(w)
    ensures ApplyGeneralLines(TypedDecoders(), New(), TestLines(w)) == Success(TestExpected())
  {
    var lines := TestLines(w);
    TestLinesDecode(w);
    TestLinesPlain(w);
    LinesOfJoined(lines);
    ApplyGeneralLinesDecode(TypedDecoders(), New(), lines, AllFields, TestValues());
    TestExpectedReads();
  }

  lemma TestLinesDecode(w: string)
    requires AllWhitespace(w)
    ensures forall i :: 0 <= i < |AllFields| ==> DecodesTo(TypedDecoders(), TestLines(w)[i], AllFields[i], TestValues()[i])
  {
    forall i | 0 <= i < |AllFields|
      ensures DecodesTo(TypedDecoders(), TestLines(w)[i], AllFields[i], TestValues()[i])
    {
      var f := AllFields[i];
      TestTextPlain(f);
      TrimSpaced(TestText(f));
      TestTextDecode(f);
      EntryDecodesTo(TypedDecoders(), if i == 0 then "" else w, f, " " + TestText(f), TestValues()[i]);
    }
  }

  lemma TestLinesPlain(w: string)
    requires '\n' !in w
    ensures forall i :: 0 <= i < |AllFields| ==>
              '\n' !in TestLines(w)[i] && StripCarriageReturn(TestLines(w)[i]) == TestLines(w)[i]
    ensures TestLines(w)[|AllFields| - 1] != ""
  {
    forall i | 0 <= i < |AllFields|
      ensures '\n' !in TestLines(w)[i] && StripCarriageReturn(TestLines(w)[i]) == TestLines(w)[i]
    {
      var f := AllFields[i];
      TestTextPlain(f);
      KeyNamePlain(f);
      var raw := " " + TestText(f);
      assert raw[|raw| - 1] == TestText(f)[|TestText(f)| - 1];
      EntryOneLine(if i == 0 then "" else w, KeyName(f), raw);
    }
  }

  /** Writing the test's values over the defaults gives the expected record. */
  lemma TestExpectedReads()
    requires forall i :: 0 <= i < |AllFields| ==> Fits(AllFields[i], TestValues()[i])
    ensures SetAll(New(), AllFields, TestValues()) == TestExpected()
  {
    forall i | 0 <= i < |AllFields| ensures Get(TestExpected(), AllFields[i]) == TestValues()[i] {
    }
    SetAllFieldsReads(New(), TestValues(), TestExpected());
  }

  /** Each text of the test converts to the expected field value. */
  lemma TestTextDecode(f: Field)
    ensures Decode(TypedDecoders(), f, TestText(f)) == Some(Get(TestExpected(), f))
  {
    match f
    case AudioLeadIn | StoryFireInFront => ZeroFacts();
    case Countdown => CountdownZeroFact();
    case PreviewTime => TenFact();
    case SampleSet => DrumFact();
    case StackLeniency => FractionFact();
    case Mode => ModeOneFact();
    case LetterboxInBreaks | UseSkinSprites | AlwaysShowPlayfield | EpilepsyWarning
      | CountdownOffset | SpecialStyle | WidescreenStoryboard | SamplesMatchPlaybackRate => OneFacts();
    case _ =>
  }

  lemma CountdownZeroFact()
    ensures GeneralEnums.CountdownFromStr("0") == Some(GeneralEnums.Countdown.None)
  {
    assert NatToString(0) == "0";
    GeneralEnums.CountdownRoundTrip(GeneralEnums.Countdown.None);
  }

  lemma ModeOneFact()
    ensures GeneralEnums.ModeFromStr("1") == Some(GeneralEnums.Taiko)
  {
    assert NatToString(1) == "1";
    GeneralEnums.ModeRoundTrip(GeneralEnums.Taiko);
  }

  lemma DrumFact()
    ensures GeneralEnums.SampleSetFromStr("Drum") == Some(GeneralEnums.Drum)
  {
    TrimUnique([], "Drum", []);
    assert [] + "Drum" + [] == "Drum";
  }
}
