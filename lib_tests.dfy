/** The two tests of src/lib.rs, and the one of src/difficulty.rs, as
    statements about the first revision: the lines of each multi-line
    literal, decoded in turn from `Beatmap::new()`, give the expected
    sections. */
module LibTests {
  import opened Wrappers
  import opened Text
  import opened Numbers
  import opened Float32
  import opened FileSections
  import opened GeneralFields
  import opened LibParser
  import DifficultySection

  /** The expected record of `test_parse_general`, with the raw countdown,
      mode, sample set and overlay. */
  function RawTestExpected(): RawGeneral {
    GeneralOf("audio.mp3", 0, "afjskldfjaldksfjklasf", 10, 0, "Drum", Finite(0.75), 1, true, false, true,
              true, "Below", "Seoul v10", true, 1, true, true, true)
  }

  /** What follows each value on its line: the `LetterboxInBreaks` line of
      this test ends in a space. */
  function RawTail(f: Field): string {
    if f == LetterboxInBreaks then " " else ""
  }

  /** Everything after the colon on the line of `f`. */
  function RawTestRaw(f: Field): string {
    " " + TestText(f) + RawTail(f)
  }

  function RawTestValues(): (r: seq<RawValue>)
    ensures |r| == |AllFields|
  {
    seq(|AllFields|, i requires 0 <= i < |AllFields| => Get(RawTestExpected(), AllFields[i]))
  }

  /** The test's lines: the first flush left, the later ones after the
      literal's indentation `w`. */
  function RawTestLines(w: string): (r: seq<string>)
    ensures |r| == |AllFields|
  {
    seq(|AllFields|, i requires 0 <= i < |AllFields| =>
      Entry(if i == 0 then "" else w, KeyName(AllFields[i]), RawTestRaw(AllFields[i])))
  }

  /** `test_parse_general` of src/lib.rs on values: its nineteen lines, the
      one with a trailing space included, decode into the expected record. */
  lemma TestParseRawGeneral(w: string)
    requires AllWhitespace(w) && '\n' !in w
    ensures Lines(Join(RawTestLines(w), "\n")) == RawTestLines(w)
    ensures ApplyGeneralLines(RawDecoders(), NewGeneral(), RawTestLines(w)) == Success(RawTestExpected())
  {
    var lines := RawTestLines(w);
    RawTestLinesDecode(w);
    RawTestLinesPlain(w);
    LinesOfJoined(lines);
    ApplyGeneralLinesDecode(RawDecoders(), NewGeneral(), lines, AllFields, RawTestValues());
    RawTestExpectedReads();
  }

  lemma RawTestLinesDecode(w: string)
    requires AllWhitespace(w)
    ensures forall i :: 0 <= i < |AllFields| ==>
              DecodesTo(RawDecoders(), RawTestLines(w)[i], AllFields[i], RawTestValues()[i])
  {
    forall i | 0 <= i < |AllFields|
      ensures DecodesTo(RawDecoders(), RawTestLines(w)[i], AllFields[i], RawTestValues()[i])
    {
      var f := AllFields[i];
      RawTestTrim(f);
      RawTestTextDecode(f);
      EntryDecodesTo(RawDecoders(), if i == 0 then "" else w, f, RawTestRaw(f), RawTestValues()[i]);
    }
  }

  /** The padding around each value is trimmed away. */
  lemma RawTestTrim(f: Field)
    ensures Trim(RawTestRaw(f)) == TestText(f)
  {
    TestTextPlain(f);
    TrimUnique(" ", TestText(f), RawTail(f));
  }

  lemma RawTestLinesPlain(w: string)
    requires '\n' !in w
    ensures forall i :: 0 <= i < |AllFields| ==>
              '\n' !in RawTestLines(w)[i] && StripCarriageReturn(RawTestLines(w)[i]) == RawTestLines(w)[i]
    ensures RawTestLines(w)[|AllFields| - 1] != ""
  {
    forall i | 0 <= i < |AllFields|
      ensures '\n' !in RawTestLines(w)[i] && StripCarriageReturn(RawTestLines(w)[i]) == RawTestLines(w)[i]
    {
      RawTestLinePlain(if i == 0 then "" else w, AllFields[i]);
    }
  }

  lemma RawTestLinePlain(indent: string, f: Field)
    requires '\n' !in indent
    ensures var line := Entry(indent, KeyName(f), RawTestRaw(f));
            '\n' !in line && StripCarriageReturn(line) == line
  {
    TestTextPlain(f);
    KeyNamePlain(f);
    var raw := RawTestRaw(f);
    assert raw[|raw| - 1] == if f == LetterboxInBreaks then ' ' else TestText(f)[|TestText(f)| - 1];
    EntryOneLine(indent, KeyName(f), raw);
  }

  /** Each value of the test converts to the expected field. */
  lemma RawTestTextDecode(f: Field)
    ensures Decode(RawDecoders(), f, TestText(f)) == Some(Get(RawTestExpected(), f))
  {
    match f
    case AudioLeadIn | StoryFireInFront | Countdown => ZeroFacts();
    case PreviewTime => TenFact();
    case StackLeniency => FractionFact();
    case Mode | LetterboxInBreaks | UseSkinSprites | AlwaysShowPlayfield | EpilepsyWarning
      | CountdownOffset | SpecialStyle | WidescreenStoryboard | SamplesMatchPlaybackRate => OneFacts();
    case _ =>
  }

  /** Writing the test's values over the defaults gives the expected record. */
  lemma RawTestExpectedReads()
    requires forall i :: 0 <= i < |AllFields| ==> Fits(AllFields[i], RawTestValues()[i])
    ensures SetAll(NewGeneral(), AllFields, RawTestValues()) == RawTestExpected()
  {
    forall i | 0 <= i < |AllFields| ensures Get(RawTestExpected(), AllFields[i]) == RawTestValues()[i] {
    }
    SetAllFieldsReads(NewGeneral(), RawTestValues(), RawTestExpected());
  }

  /** `test_parse_general` of src/lib.rs: from `Beatmap::new()`, each line of
      the literal goes to `parse_general`.  The beatmap ends with the
      expected record and `difficulty` still at `Difficulty::new()`. */
  method GeneralTest(w: string) returns (beatmap: Beatmap)
    requires AllWhitespace(w) && '\n' !in w
    ensures beatmap.general == RawTestExpected() && beatmap.difficulty == DifficultySection.New()
  {
    TestParseRawGeneral(w);
    beatmap := new Beatmap();
    var outcome := ParseGeneralLines(Lines(Join(RawTestLines(w), "\n")), beatmap);
  }

  /** `test_parse_difficulty` of src/lib.rs, and the same test in
      src/difficulty.rs: the six lines set the six fields and `general`
      stays at `General::new()`. */
  method DifficultyTest(w: string) returns (beatmap: Beatmap)
    requires AllWhitespace(w) && '\n' !in w
    ensures beatmap.difficulty == DifficultySection.TestExpected() && beatmap.general == NewGeneral()
  {
    DifficultySection.TestParseDifficulty(w);
    beatmap := new Beatmap();
    var outcome := ParseDifficultyLines(Lines(Join(DifficultySection.TestLines(w), "\n")), beatmap);
  }
}
