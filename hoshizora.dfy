/** The in-place section decoders of the second revision, hoshizora-parser:
    `parse_general` with the typed enumerations and `parse_metadata`, each
    writing one field of a mutable `Beatmap`, and the two tests that run
    them over their lines. */
module Hoshizora {
  import opened Wrappers
  import opened Text
  import opened Numbers
  import opened FileSections
  import opened GeneralFields
  import TypedGeneral
  import MetadataSection
  import DifficultySection

  /** The sections of hoshizora-parser's `Beatmap` that these decoders touch
      or that their tests compare. */
  class Beatmap {
    var general: TypedGeneral.General
    var metadata: MetadataSection.Metadata
    var difficulty: DifficultySection.Difficulty

    /** `Beatmap::default()`: every section at its default. */
    constructor ()
      ensures general == TypedGeneral.New()
      ensures metadata == MetadataSection.Default()
      ensures difficulty == DifficultySection.New()
    {
      general := TypedGeneral.New();
      metadata := MetadataSection.Default();
      difficulty := DifficultySection.New();
    }
  }

  /** `parse_general`: split at the first colon, both halves trimmed; a line
      without a colon (a panic in the source) is returned as `Fail`.  Only
      `general` may change. */
  method ParseGeneral(line: string, beatmap: Beatmap) returns (outcome: Outcome<ParseError>)
    modifies beatmap
    ensures beatmap.metadata == old(beatmap.metadata) && beatmap.difficulty == old(beatmap.difficulty)
    ensures match TypedGeneral.ApplyTypedGeneral(old(beatmap.general), line)
      case Success(g) => outcome == Pass && beatmap.general == g
      case Failure(e) => outcome == Fail(e) && beatmap.general == old(beatmap.general)
  {
    var split := SplitOnce(line, ':');
    if split.None? {
      return Fail(MissingColon(line));
    }
    var key, value := Trim(split.value.0), Trim(split.value.1);
    outcome := ParseGeneralEntry(key, value, beatmap);
  }

  /** The `match` of `parse_general` on the trimmed key: the nineteen names
      of the key table `FieldOf`, each converting the value with its field's
      converter (`from_str` for the four enumerations) and assigning the one
      field.  An unknown key changes nothing; a rejected value is `Fail`. */
  method ParseGeneralEntry(key: string, value: string, beatmap: Beatmap) returns (outcome: Outcome<ParseError>)
    modifies beatmap
    ensures beatmap.metadata == old(beatmap.metadata) && beatmap.difficulty == old(beatmap.difficulty)
    ensures match ApplyField(TypedGeneral.TypedDecoders(), old(beatmap.general), key, value)
      case Success(g) => outcome == Pass && beatmap.general == g
      case Failure(e) => outcome == Fail(e) && beatmap.general == old(beatmap.general)
  {
    var field := FieldOf(key);
    if field.None? {
      return Pass;
    }
    var x := Decode(TypedGeneral.TypedDecoders(), field.value, value);
    if x.None? {
      return Fail(InvalidValue(key, value));
    }
    match field.value {
    case AudioFilename => beatmap.general := beatmap.general.(audioFilename := x.value.text);
    case AudioLeadIn => beatmap.general := beatmap.general.(audioLeadIn := x.value.unsigned);
    case AudioHash => beatmap.general := beatmap.general.(audioHash := x.value.text);
    case PreviewTime => beatmap.general := beatmap.general.(previewTime := x.value.signed);
    case Countdown => beatmap.general := beatmap.general.(countdown := x.value.countdown);
    case SampleSet => beatmap.general := beatmap.general.(sampleSet := x.value.sampleSet);
    case StackLeniency => beatmap.general := beatmap.general.(stackLeniency := x.value.fraction);
    case Mode => beatmap.general := beatmap.general.(mode := x.value.mode);
    case LetterboxInBreaks => beatmap.general := beatmap.general.(letterboxInBreaks := x.value.flag);
    case StoryFireInFront => beatmap.general := beatmap.general.(storyFireInFront := x.value.flag);
    case UseSkinSprites => beatmap.general := beatmap.general.(useSkinSprites := x.value.flag);
    case AlwaysShowPlayfield => beatmap.general := beatmap.general.(alwaysShowPlayfield := x.value.flag);
    case OverlayPosition => beatmap.general := beatmap.general.(overlayPosition := x.value.overlay);
    case SkinPreference => beatmap.general := beatmap.general.(skinPreference := x.value.text);
    case EpilepsyWarning => beatmap.general := beatmap.general.(epilepsyWarning := x.value.flag);
    case CountdownOffset => beatmap.general := beatmap.general.(countdownOffset := x.value.unsigned);
    case SpecialStyle => beatmap.general := beatmap.general.(specialStyle := x.value.flag);
    case WidescreenStoryboard => beatmap.general := beatmap.general.(widescreenStoryboard := x.value.flag);
    case SamplesMatchPlaybackRate => beatmap.general := beatmap.general.(samplesMatchPlaybackRate := x.value.flag);
    }
    outcome := Pass;
  }

  /** `parse_metadata`: split at the first colon, both halves trimmed, with
      the same error treatment.  Only `metadata` may change. */
  method ParseMetadata(line: string, beatmap: Beatmap) returns (outcome: Outcome<ParseError>)
    modifies beatmap
    ensures beatmap.general == old(beatmap.general) && beatmap.difficulty == old(beatmap.difficulty)
    ensures match MetadataSection.ApplyMetadata(old(beatmap.metadata), line)
      case Success(m) => outcome == Pass && beatmap.metadata == m
      case Failure(e) => outcome == Fail(e) && beatmap.metadata == old(beatmap.metadata)
  {
    var split := SplitOnce(line, ':');
    if split.None? {
      return Fail(MissingColon(line));
    }
    var key, value := Trim(split.value.0), Trim(split.value.1);
    MetadataSection.ApplyMetadataSplit(beatmap.metadata, line);
    outcome := ParseMetadataEntry(key, value, beatmap);
  }

  /** The `match` of `parse_metadata` on the trimmed key: seven text keys
      copy the value, `Tags` splits it at every space, and the two
      identifiers read it as a `u32`. */
  method ParseMetadataEntry(key: string, value: string, beatmap: Beatmap) returns (outcome: Outcome<ParseError>)
    modifies beatmap
    ensures beatmap.general == old(beatmap.general) && beatmap.difficulty == old(beatmap.difficulty)
    ensures match MetadataSection.ApplyField(old(beatmap.metadata), key, value)
      case Success(m) => outcome == Pass && beatmap.metadata == m
      case Failure(e) => outcome == Fail(e) && beatmap.metadata == old(beatmap.metadata)
  {
    var field := MetadataSection.FieldOf(key);
    if field.None? {
      return Pass;
    }
    var f := field.value;
    var x := MetadataSection.Decode(f, value);
    if x.None? {
      return Fail(InvalidValue(key, value));
    }
    if f == MetadataSection.Title {
      beatmap.metadata := beatmap.metadata.(title := x.value.text);
    } else if f == MetadataSection.TitleUnicode {
      beatmap.metadata := beatmap.metadata.(titleUnicode := x.value.text);
    } else if f == MetadataSection.Artist {
      beatmap.metadata := beatmap.metadata.(artist := x.value.text);
    } else if f == MetadataSection.ArtistUnicode {
      beatmap.metadata := beatmap.metadata.(artistUnicode := x.value.text);
    } else if f == MetadataSection.Creator {
      beatmap.metadata := beatmap.metadata.(creator := x.value.text);
    } else if f == MetadataSection.Version {
      beatmap.metadata := beatmap.metadata.(version := x.value.text);
    } else if f == MetadataSection.Source {
      beatmap.metadata := beatmap.metadata.(source := x.value.text);
    } else if f == MetadataSection.Tags {
      beatmap.metadata := beatmap.metadata.(tags := x.value.tags);
    } else if f == MetadataSection.BeatmapId {
      beatmap.metadata := beatmap.metadata.(beatmapId := x.value.id);
    } else {
      beatmap.metadata := beatmap.metadata.(beatmapSetId := x.value.id);
    }
    outcome := Pass;
  }

  /** The tests' loop `for line in lines { parse_general(line, &mut beatmap) }`,
      which stops at the first line that panics. */
  method ParseGeneralLines(lines: seq<string>, beatmap: Beatmap) returns (outcome: Outcome<ParseError>)
    modifies beatmap
    ensures beatmap.metadata == old(beatmap.metadata) && beatmap.difficulty == old(beatmap.difficulty)
    ensures match ApplyGeneralLines(TypedGeneral.TypedDecoders(), old(beatmap.general), lines)
      case Success(g) => outcome == Pass && beatmap.general == g
      case Failure(e) => outcome == Fail(e)
  {
    var i := 0;
    while i < |lines|
      invariant 0 <= i <= |lines|
      invariant beatmap.metadata == old(beatmap.metadata) && beatmap.difficulty == old(beatmap.difficulty)
      invariant ApplyGeneralLines(TypedGeneral.TypedDecoders(), old(beatmap.general), lines) ==
                ApplyGeneralLines(TypedGeneral.TypedDecoders(), beatmap.general, lines[i..])
    {
      ghost var before := beatmap.general;
      assert lines[i..][0] == lines[i] && lines[i..][1..] == lines[i + 1..];
      outcome := ParseGeneral(lines[i], beatmap);
      if outcome.Fail? {
        return;
      }
      ApplyGeneralLinesCons(TypedGeneral.TypedDecoders(), before, lines[i..], beatmap.general);
      i := i + 1;
    }
    assert lines[i..] == [];
    outcome := Pass;
  }

  /** The same loop over `parse_metadata`. */
  method ParseMetadataLines(lines: seq<string>, beatmap: Beatmap) returns (outcome: Outcome<ParseError>)
    modifies beatmap
    ensures beatmap.general == old(beatmap.general) && beatmap.difficulty == old(beatmap.difficulty)
    ensures match MetadataSection.ApplyMetadataLines(old(beatmap.metadata), lines)
      case Success(m) => outcome == Pass && beatmap.metadata == m
      case Failure(e) => outcome == Fail(e)
  {
    var i := 0;
    while i < |lines|
      invariant 0 <= i <= |lines|
      invariant beatmap.general == old(beatmap.general) && beatmap.difficulty == old(beatmap.difficulty)
      invariant MetadataSection.ApplyMetadataLines(old(beatmap.metadata), lines) ==
                MetadataSection.ApplyMetadataLines(beatmap.metadata, lines[i..])
    {
      ghost var before := beatmap.metadata;
      assert lines[i..][0] == lines[i] && lines[i..][1..] == lines[i + 1..];
      outcome := ParseMetadata(lines[i], beatmap);
      if outcome.Fail? {
        return;
      }
      MetadataSection.ApplyMetadataLinesCons(before, lines[i..], beatmap.metadata);
      i := i + 1;
    }
    assert lines[i..] == [];
    outcome := Pass;
  }

  /** `test_parse_general`: from `Beatmap::default()`, each of the test's
      lines goes to `parse_general` in turn.  The beatmap ends with the
      expected `[General]` record and the other sections at their defaults. */
  method GeneralTest(w: string) returns (beatmap: Beatmap)
    requires AllWhitespace(w) && '\n' !in w
    ensures beatmap.general == TypedGeneral.TestExpected()
    ensures beatmap.metadata == MetadataSection.Default() && beatmap.difficulty == DifficultySection.New()
  {
    TypedGeneral.TestParseGeneral(w);
    beatmap := new Beatmap();
    var outcome := ParseGeneralLines(Lines(Join(TypedGeneral.TestLines(w), "\n")), beatmap);
  }

  /** `test_parse_metadata`: the same loop over the metadata test's lines
      with `parse_metadata`. */
  method MetadataTest(w: string) returns (beatmap: Beatmap)
    requires AllWhitespace(w) && '\n' !in w
    ensures beatmap.metadata == MetadataSection.TestExpected()
    ensures beatmap.general == TypedGeneral.New() && beatmap.difficulty == DifficultySection.New()
  {
    MetadataSection.TestParseMetadata(w);
    beatmap := new Beatmap();
    var outcome := ParseMetadataLines(Lines(Join(MetadataSection.TestLines(w), "\n")), beatmap);
  }
}
