/** The `[General]` section's nineteen keys, shared by both revisions of the
    parser.  The two revisions differ only in how `Countdown`, `SampleSet`,
    `Mode` and `OverlayPosition` are stored (raw numbers and strings in
    src/lib.rs, enumerations in hoshizora-parser), so the record is generic in
    those four types and the section decoder takes their converters as a
    `Decoders` value.

    The decoder is stated as a table: `FieldOf` maps a key to its field,
    `Decode` converts a value for a field, `Set` writes one field.  The
    in-place decoders of both revisions are proved equal to `ApplyGeneral`. */
module GeneralFields {
  import opened Wrappers
  import opened Text
  import opened Numbers
  import opened Float32
  import opened FileSections

  datatype GeneralOf<C, S, M, O> = GeneralOf(
    audioFilename: string,
    audioLeadIn: nat,
    audioHash: string,
    previewTime: int,
    countdown: C,
    sampleSet: S,
    stackLeniency: F32,
    mode: M,
    letterboxInBreaks: bool,
    storyFireInFront: bool,
    useSkinSprites: bool,
    alwaysShowPlayfield: bool,
    overlayPosition: O,
    skinPreference: string,
    epilepsyWarning: bool,
    countdownOffset: nat,
    specialStyle: bool,
    widescreenStoryboard: bool,
    samplesMatchPlaybackRate: bool)

  datatype Field =
    | AudioFilename | AudioLeadIn | AudioHash | PreviewTime | Countdown | SampleSet
    | StackLeniency | Mode | LetterboxInBreaks | StoryFireInFront | UseSkinSprites
    | AlwaysShowPlayfield | OverlayPosition | SkinPreference | EpilepsyWarning
    | CountdownOffset | SpecialStyle | WidescreenStoryboard | SamplesMatchPlaybackRate

  /** The key that selects each field. */
  function KeyName(f: Field): string {
    match f
    case AudioFilename => "AudioFilename"
    case AudioLeadIn => "AudioLeadIn"
    case AudioHash => "AudioHash"
    case PreviewTime => "PreviewTime"
    case Countdown => "Countdown"
    case SampleSet => "SampleSet"
    case StackLeniency => "StackLeniency"
    case Mode => "Mode"
    case LetterboxInBreaks => "LetterboxInBreaks"
    case StoryFireInFront => "StoryFireInFront"
    case UseSkinSprites => "UseSkinSprites"
    case AlwaysShowPlayfield => "AlwaysShowPlayfield"
    case OverlayPosition => "OverlayPosition"
    case SkinPreference => "SkinPreference"
    case EpilepsyWarning => "EpilepsyWarning"
    case CountdownOffset => "CountdownOffset"
    case SpecialStyle => "SpecialStyle"
    case WidescreenStoryboard => "WidescreenStoryboard"
    case SamplesMatchPlaybackRate => "SamplesMatchPlaybackRate"
  }

  /** Every field, in the order the decoder lists the keys. */
  const AllFields: seq<Field> :=
    [AudioFilename, AudioLeadIn, AudioHash, PreviewTime, Countdown, SampleSet, StackLeniency,
     Mode, LetterboxInBreaks, StoryFireInFront, UseSkinSprites, AlwaysShowPlayfield,
     OverlayPosition, SkinPreference, EpilepsyWarning, CountdownOffset, SpecialStyle,
     WidescreenStoryboard, SamplesMatchPlaybackRate]

  /** The first of `fields` whose key name is `key`. */
  function FindField(key: string, fields: seq<Field>): (r: Option<Field>)
    ensures r.Some? ==> r.value in fields && KeyName(r.value) == key
    ensures r.None? ==> forall f :: f in fields ==> KeyName(f) != key
  {
    if fields == [] then None
    else if KeyName(fields[0]) == key then Some(fields[0])
    else FindField(key, fields[1..])
  }

  /** The recognised-key table: an exact, case-sensitive match against the
      nineteen key names. */
  function FieldOf(key: string): Option<Field> {
    FindField(key, AllFields)
  }

  /** The position of each field in `AllFields`. */
  function FieldIndex(f: Field): (i: nat)
    ensures i < |AllFields| && AllFields[i] == f
  {
    match f
    case AudioFilename => 0
    case AudioLeadIn => 1
    case AudioHash => 2
    case PreviewTime => 3
    case Countdown => 4
    case SampleSet => 5
    case StackLeniency => 6
    case Mode => 7
    case LetterboxInBreaks => 8
    case StoryFireInFront => 9
    case UseSkinSprites => 10
    case AlwaysShowPlayfield => 11
    case OverlayPosition => 12
    case SkinPreference => 13
    case EpilepsyWarning => 14
    case CountdownOffset => 15
    case SpecialStyle => 16
    case WidescreenStoryboard => 17
    case SamplesMatchPlaybackRate => 18
  }

  /** `AllFields` lists every field exactly once. */
  lemma AllFieldsDistinct(i: nat, j: nat)
    requires i < |AllFields| && j < |AllFields| && AllFields[i] == AllFields[j]
    ensures i == j
  {
    AllFieldsIndexed(i);
    AllFieldsIndexed(j);
  }

  lemma AllFieldsIndexed(i: nat)
    requires i < |AllFields|
    ensures FieldIndex(AllFields[i]) == i
  {
    if i < 10 {
      assert i == 0 || i == 1 || i == 2 || i == 3 || i == 4 || i == 5 || i == 6 || i == 7 || i == 8 || i == 9;
    } else {
      assert i == 10 || i == 11 || i == 12 || i == 13 || i == 14 || i == 15 || i == 16 || i == 17 || i == 18;
    }
  }

  /** No two fields share a key name. */
  lemma KeyNameInjective(f: Field, f': Field)
    requires KeyName(f) == KeyName(f')
    ensures f == f'
  {
    assert |KeyName(f)| == |KeyName(f')|;
    assert KeyName(f)[0] == KeyName(f')[0];
  }

  /** The table recognises exactly the nineteen key names, each for its own
      field. */
  lemma KeyTable(key: string, f: Field)
    ensures FieldOf(key) == Some(f) <==> KeyName(f) == key
  {
    assert f in AllFields;
    if KeyName(f) == key {
      KeyNameInjective(FieldOf(key).value, f);
    }
  }

  /** One field's value, tagged with its kind. */
  datatype Value<C, S, M, O> =
    | TextValue(text: string)
    | Unsigned(unsigned: nat)
    | Signed(signed: int)
    | Flag(flag: bool)
    | Fraction(fraction: F32)
    | CountdownValue(countdown: C)
    | SampleSetValue(sampleSet: S)
    | ModeValue(mode: M)
    | OverlayValue(overlay: O)

  /** The revision-specific converters. */
  datatype Decoders<C, S, M, O> = Decoders(
    countdown: string -> Option<C>,
    sampleSet: string -> Option<S>,
    mode: string -> Option<M>,
    overlay: string -> Option<O>)

  predicate IsFlagField(f: Field) {
    f in {LetterboxInBreaks, StoryFireInFront, UseSkinSprites, AlwaysShowPlayfield,
          EpilepsyWarning, SpecialStyle, WidescreenStoryboard, SamplesMatchPlaybackRate}
  }

  /** The kind of value each field holds. */
  predicate Fits<C, S, M, O>(f: Field, x: Value<C, S, M, O>) {
    match f
    case AudioFilename | AudioHash | SkinPreference => x.TextValue?
    case AudioLeadIn | CountdownOffset => x.Unsigned?
    case PreviewTime => x.Signed?
    case Countdown => x.CountdownValue?
    case SampleSet => x.SampleSetValue?
    case StackLeniency => x.Fraction?
    case Mode => x.ModeValue?
    case OverlayPosition => x.OverlayValue?
    case _ => x.Flag?
  }

  /** The converter of each field, applied to the trimmed value: text is
      copied, `AudioLeadIn` and `CountdownOffset` are `u32`, `PreviewTime` is
      `i32`, `StackLeniency` is `f32`, the flags are `u8 != 0`, and the four
      remaining fields use the revision's converters. */
  function Decode<C, S, M, O>(dec: Decoders<C, S, M, O>, f: Field, v: string): (r: Option<Value<C, S, M, O>>)
    ensures r.Some? ==> Fits(f, r.value)
  {
    match f
    case AudioFilename | AudioHash | SkinPreference => Some(TextValue(v))
    case AudioLeadIn | CountdownOffset =>
      (match ParseU32(v) case None => None case Some(n) => Some(Unsigned(n)))
    case PreviewTime =>
      (match ParseI32(v) case None => None case Some(i) => Some(Signed(i)))
    case Countdown =>
      (match dec.countdown(v) case None => None case Some(c) => Some(CountdownValue(c)))
    case SampleSet =>
      (match dec.sampleSet(v) case None => None case Some(s) => Some(SampleSetValue(s)))
    case StackLeniency =>
      (match ParseF32(v) case None => None case Some(x) => Some(Fraction(x)))
    case Mode =>
      (match dec.mode(v) case None => None case Some(m) => Some(ModeValue(m)))
    case OverlayPosition =>
      (match dec.overlay(v) case None => None case Some(o) => Some(OverlayValue(o)))
    case _ =>
      (match ParseFlag(v) case None => None case Some(b) => Some(Flag(b)))
  }

  /** Reads one field. */
  function Get<C, S, M, O>(g: GeneralOf<C, S, M, O>, f: Field): (x: Value<C, S, M, O>)
    ensures Fits(f, x)
  {
    match f
    case AudioFilename => TextValue(g.audioFilename)
    case AudioLeadIn => Unsigned(g.audioLeadIn)
    case AudioHash => TextValue(g.audioHash)
    case PreviewTime => Signed(g.previewTime)
    case Countdown => CountdownValue(g.countdown)
    case SampleSet => SampleSetValue(g.sampleSet)
    case StackLeniency => Fraction(g.stackLeniency)
    case Mode => ModeValue(g.mode)
    case LetterboxInBreaks => Flag(g.letterboxInBreaks)
    case StoryFireInFront => Flag(g.storyFireInFront)
    case UseSkinSprites => Flag(g.useSkinSprites)
    case AlwaysShowPlayfield => Flag(g.alwaysShowPlayfield)
    case OverlayPosition => OverlayValue(g.overlayPosition)
    case SkinPreference => TextValue(g.skinPreference)
    case EpilepsyWarning => Flag(g.epilepsyWarning)
    case CountdownOffset => Unsigned(g.countdownOffset)
    case SpecialStyle => Flag(g.specialStyle)
    case WidescreenStoryboard => Flag(g.widescreenStoryboard)
    case SamplesMatchPlaybackRate => Flag(g.samplesMatchPlaybackRate)
  }

  /** Writes one field: afterwards it reads back as `x` and every other field
      reads as before. */
  function Set<C, S, M, O>(g: GeneralOf<C, S, M, O>, f: Field, x: Value<C, S, M, O>): (r: GeneralOf<C, S, M, O>)
    requires Fits(f, x)
    ensures Get(r, f) == x
  {
    match f
    case AudioFilename => g.(audioFilename := x.text)
    case AudioLeadIn => g.(audioLeadIn := x.unsigned)
    case AudioHash => g.(audioHash := x.text)
    case PreviewTime => g.(previewTime := x.signed)
    case Countdown => g.(countdown := x.countdown)
    case SampleSet => g.(sampleSet := x.sampleSet)
    case StackLeniency => g.(stackLeniency := x.fraction)
    case Mode => g.(mode := x.mode)
    case LetterboxInBreaks => g.(letterboxInBreaks := x.flag)
    case StoryFireInFront => g.(storyFireInFront := x.flag)
    case UseSkinSprites => g.(useSkinSprites := x.flag)
    case AlwaysShowPlayfield => g.(alwaysShowPlayfield := x.flag)
    case OverlayPosition => g.(overlayPosition := x.overlay)
    case SkinPreference => g.(skinPreference := x.text)
    case EpilepsyWarning => g.(epilepsyWarning := x.flag)
    case CountdownOffset => g.(countdownOffset := x.unsigned)
    case SpecialStyle => g.(specialStyle := x.flag)
    case WidescreenStoryboard => g.(widescreenStoryboard := x.flag)
    case SamplesMatchPlaybackRate => g.(samplesMatchPlaybackRate := x.flag)
  }

  /** Writing one field leaves every other field as it was. */
  lemma SetOther<C, S, M, O>(g: GeneralOf<C, S, M, O>, f: Field, x: Value<C, S, M, O>, f': Field)
    requires Fits(f, x) && f' != f
    ensures Get(Set(g, f, x), f') == Get(g, f')
  {
    match f
    case AudioFilename | AudioLeadIn | AudioHash | PreviewTime | Countdown | SampleSet | StackLeniency | Mode | LetterboxInBreaks | StoryFireInFront => SetOtherFirst(g, f, x, f');
    case _ => SetOtherLast(g, f, x, f');
  }

  lemma SetOtherFirst<C, S, M, O>(g: GeneralOf<C, S, M, O>, f: Field, x: Value<C, S, M, O>, f': Field)
    requires Fits(f, x) && f' != f
    requires f == AudioFilename || f == AudioLeadIn || f == AudioHash || f == PreviewTime || f == Countdown || f == SampleSet || f == StackLeniency || f == Mode || f == LetterboxInBreaks || f == StoryFireInFront
    ensures Get(Set(g, f, x), f') == Get(g, f')
  {
  }

  lemma SetOtherLast<C, S, M, O>(g: GeneralOf<C, S, M, O>, f: Field, x: Value<C, S, M, O>, f': Field)
    requires Fits(f, x) && f' != f
    requires f == UseSkinSprites || f == AlwaysShowPlayfield || f == OverlayPosition || f == SkinPreference || f == EpilepsyWarning || f == CountdownOffset || f == SpecialStyle || f == WidescreenStoryboard || f == SamplesMatchPlaybackRate
    ensures Get(Set(g, f, x), f') == Get(g, f')
  {
  }

  /** `Get` sees every field: two records that read alike are equal. */
  lemma Extensionality<C, S, M, O>(g: GeneralOf<C, S, M, O>, h: GeneralOf<C, S, M, O>)
    requires forall f :: Get(g, f) == Get(h, f)
    ensures g == h
  {
    SameFirstFields(g, h);
    SameMiddleFields(g, h);
    SameLastFields(g, h);
  }

  lemma SameFirstFields<C, S, M, O>(g: GeneralOf<C, S, M, O>, h: GeneralOf<C, S, M, O>)
    requires forall f :: Get(g, f) == Get(h, f)
    ensures g.audioFilename == h.audioFilename && g.audioLeadIn == h.audioLeadIn && g.audioHash == h.audioHash && g.previewTime == h.previewTime && g.countdown == h.countdown && g.sampleSet == h.sampleSet && g.stackLeniency == h.stackLeniency && g.mode == h.mode
  {
    assert Get(g, AudioFilename) == Get(h, AudioFilename);
    assert Get(g, AudioLeadIn) == Get(h, AudioLeadIn);
    assert Get(g, AudioHash) == Get(h, AudioHash);
    assert Get(g, PreviewTime) == Get(h, PreviewTime);
    assert Get(g, Countdown) == Get(h, Countdown);
    assert Get(g, SampleSet) == Get(h, SampleSet);
    assert Get(g, StackLeniency) == Get(h, StackLeniency);
    assert Get(g, Mode) == Get(h, Mode);
  }

  lemma SameMiddleFields<C, S, M, O>(g: GeneralOf<C, S, M, O>, h: GeneralOf<C, S, M, O>)
    requires forall f :: Get(g, f) == Get(h, f)
    ensures g.letterboxInBreaks == h.letterboxInBreaks && g.storyFireInFront == h.storyFireInFront && g.useSkinSprites == h.useSkinSprites && g.alwaysShowPlayfield == h.alwaysShowPlayfield && g.overlayPosition == h.overlayPosition && g.skinPreference == h.skinPreference
  {
    assert Get(g, LetterboxInBreaks) == Get(h, LetterboxInBreaks);
    assert Get(g, StoryFireInFront) == Get(h, StoryFireInFront);
    assert Get(g, UseSkinSprites) == Get(h, UseSkinSprites);
    assert Get(g, AlwaysShowPlayfield) == Get(h, AlwaysShowPlayfield);
    assert Get(g, OverlayPosition) == Get(h, OverlayPosition);
    assert Get(g, SkinPreference) == Get(h, SkinPreference);
  }

  lemma SameLastFields<C, S, M, O>(g: GeneralOf<C, S, M, O>, h: GeneralOf<C, S, M, O>)
    requires forall f :: Get(g, f) == Get(h, f)
    ensures g.epilepsyWarning == h.epilepsyWarning && g.countdownOffset == h.countdownOffset && g.specialStyle == h.specialStyle && g.widescreenStoryboard == h.widescreenStoryboard && g.samplesMatchPlaybackRate == h.samplesMatchPlaybackRate
  {
    assert Get(g, EpilepsyWarning) == Get(h, EpilepsyWarning);
    assert Get(g, CountdownOffset) == Get(h, CountdownOffset);
    assert Get(g, SpecialStyle) == Get(h, SpecialStyle);
    assert Get(g, WidescreenStoryboard) == Get(h, WidescreenStoryboard);
    assert Get(g, SamplesMatchPlaybackRate) == Get(h, SamplesMatchPlaybackRate);
  }

  /** Writing back a field's own value changes nothing. */
  lemma SetGet<C, S, M, O>(g: GeneralOf<C, S, M, O>, f: Field)
    ensures Set(g, f, Get(g, f)) == g
  {
    match f {
    case AudioFilename =>
    case AudioLeadIn =>
    case AudioHash =>
    case PreviewTime =>
    case Countdown =>
    case SampleSet =>
    case StackLeniency =>
    case Mode =>
    case LetterboxInBreaks =>
    case StoryFireInFront =>
    case UseSkinSprites =>
    case AlwaysShowPlayfield =>
    case OverlayPosition =>
    case SkinPreference =>
    case EpilepsyWarning =>
    case CountdownOffset =>
    case SpecialStyle =>
    case WidescreenStoryboard =>
    case SamplesMatchPlaybackRate =>
    }
  }

  /** A second write to a field replaces the first. */
  lemma SetSet<C, S, M, O>(g: GeneralOf<C, S, M, O>, f: Field, x: Value<C, S, M, O>, y: Value<C, S, M, O>)
    requires Fits(f, x) && Fits(f, y)
    ensures Set(Set(g, f, x), f, y) == Set(g, f, y)
  {
    match f
    case AudioFilename | AudioLeadIn | AudioHash | PreviewTime | Countdown | SampleSet | StackLeniency | Mode | LetterboxInBreaks | StoryFireInFront => SetSetFirst(g, f, x, y);
    case _ => SetSetLast(g, f, x, y);
  }

  lemma SetSetFirst<C, S, M, O>(g: GeneralOf<C, S, M, O>, f: Field, x: Value<C, S, M, O>, y: Value<C, S, M, O>)
    requires Fits(f, x) && Fits(f, y)
    requires f == AudioFilename || f == AudioLeadIn || f == AudioHash || f == PreviewTime || f == Countdown || f == SampleSet || f == StackLeniency || f == Mode || f == LetterboxInBreaks || f == StoryFireInFront
    ensures Set(Set(g, f, x), f, y) == Set(g, f, y)
  {
    match f {
    case AudioFilename =>
    case AudioLeadIn =>
    case AudioHash =>
    case PreviewTime =>
    case Countdown =>
    case SampleSet =>
    case StackLeniency =>
    case Mode =>
    case LetterboxInBreaks =>
    case StoryFireInFront =>
    case _ =>
    }
  }

  lemma SetSetLast<C, S, M, O>(g: GeneralOf<C, S, M, O>, f: Field, x: Value<C, S, M, O>, y: Value<C, S, M, O>)
    requires Fits(f, x) && Fits(f, y)
    requires f == UseSkinSprites || f == AlwaysShowPlayfield || f == OverlayPosition || f == SkinPreference || f == EpilepsyWarning || f == CountdownOffset || f == SpecialStyle || f == WidescreenStoryboard || f == SamplesMatchPlaybackRate
    ensures Set(Set(g, f, x), f, y) == Set(g, f, y)
  {
    match f {
    case UseSkinSprites =>
    case AlwaysShowPlayfield =>
    case OverlayPosition =>
    case SkinPreference =>
    case EpilepsyWarning =>
    case CountdownOffset =>
    case SpecialStyle =>
    case WidescreenStoryboard =>
    case SamplesMatchPlaybackRate =>
    case _ =>
    }
  }

  /** Writes to two different fields commute. */
  lemma SetCommute<C, S, M, O>(g: GeneralOf<C, S, M, O>, f: Field, x: Value<C, S, M, O>,
                               f': Field, y: Value<C, S, M, O>)
    requires f != f' && Fits(f, x) && Fits(f', y)
    ensures Set(Set(g, f, x), f', y) == Set(Set(g, f', y), f, x)
  {
    var a := Set(Set(g, f, x), f', y);
    var b := Set(Set(g, f', y), f, x);
    forall e ensures Get(a, e) == Get(b, e) {
      SetCommuteAt(g, f, x, f', y, e);
    }
    Extensionality(a, b);
  }

  lemma SetCommuteAt<C, S, M, O>(g: GeneralOf<C, S, M, O>, f: Field, x: Value<C, S, M, O>,
                                 f': Field, y: Value<C, S, M, O>, e: Field)
    requires f != f' && Fits(f, x) && Fits(f', y)
    ensures Get(Set(Set(g, f, x), f', y), e) == Get(Set(Set(g, f', y), f, x), e)
  {
    if e == f {
      SetOther(Set(g, f, x), f', y, e);
    } else if e == f' {
      SetOther(Set(g, f', y), f, x, e);
    } else {
      SetOther(Set(g, f', y), f, x, e);
      SetOther(Set(g, f, x), f', y, e);
      SetOther(g, f, x, e);
      SetOther(g, f', y, e);
    }
  }

  /** The section decoder on one line: split at the first colon, look the
      trimmed key up, convert the trimmed value, write the one field.  A line
      without a colon and a value its converter rejects are errors; an unknown
      key leaves the record as it is. */
  function ApplyGeneral<C, S, M, O>(dec: Decoders<C, S, M, O>, g: GeneralOf<C, S, M, O>, line: string)
    : (r: Result<GeneralOf<C, S, M, O>, ParseError>)
  {
    match SplitOnce(line, ':')
    case None => Failure(MissingColon(line))
    case Some((k, v)) => ApplyField(dec, g, Trim(k), Trim(v))
  }

  /** The decoder once the line is split and both halves trimmed. */
  function ApplyField<C, S, M, O>(dec: Decoders<C, S, M, O>, g: GeneralOf<C, S, M, O>, key: string, value: string)
    : (r: Result<GeneralOf<C, S, M, O>, ParseError>)
  {
    match FieldOf(key)
    case None => Success(g)
    case Some(f) =>
      match Decode(dec, f, value)
      case None => Failure(InvalidValue(key, value))
      case Some(x) => Success(Set(g, f, x))
  }

  /** The field a line addresses, if its key is recognised. */
  function KeyOf(line: string): Option<Field> {
    match SplitOnce(line, ':')
    case None => None
    case Some((k, _)) => FieldOf(Trim(k))
  }

  /** The value a line's converter produces, if the key is recognised. */
  function ValueOf<C, S, M, O>(dec: Decoders<C, S, M, O>, line: string): Option<Value<C, S, M, O>>
    requires KeyOf(line).Some?
  {
    Decode(dec, KeyOf(line).value, Trim(SplitOnce(line, ':').value.1))
  }

  /** The decoder in terms of the key and the value: a line without a colon
      fails, an unknown key changes nothing, a rejected value fails, and
      otherwise the key's field is set to the converted value. */
  lemma ApplyGeneralCases<C, S, M, O>(dec: Decoders<C, S, M, O>, g: GeneralOf<C, S, M, O>, line: string)
    ensures ':' !in line ==> ApplyGeneral(dec, g, line) == Failure(MissingColon(line))
    ensures ':' in line && KeyOf(line).None? ==> ApplyGeneral(dec, g, line) == Success(g)
    ensures KeyOf(line).Some? && ValueOf(dec, line).None? ==>
              ApplyGeneral(dec, g, line).Failure? && ApplyGeneral(dec, g, line).error.InvalidValue?
    ensures KeyOf(line).Some? && ValueOf(dec, line).Some? ==>
              ApplyGeneral(dec, g, line) == Success(Set(g, KeyOf(line).value, ValueOf(dec, line).value))
  {
  }

  /** What decoding `key:value` does, for a key without a colon and any
      value, colons included: the unknown-key, bad-value and success cases,
      and on success exactly the key's field changes. */
  lemma ApplyGeneralKeyValue<C, S, M, O>(dec: Decoders<C, S, M, O>, g: GeneralOf<C, S, M, O>,
                                         key: string, value: string)
    requires ':' !in key
    ensures var r := ApplyGeneral(dec, g, key + ":" + value);
      && (FieldOf(Trim(key)).None? ==> r == Success(g))
      && (FieldOf(Trim(key)).Some? ==>
            var f := FieldOf(Trim(key)).value;
            && (r.Success? <==> Decode(dec, f, Trim(value)).Some?)
            && (r.Failure? ==> r.error == InvalidValue(Trim(key), Trim(value)))
            && (r.Success? ==>
                  && Get(r.value, f) == Decode(dec, f, Trim(value)).value
                  && forall f' :: f' != f ==> Get(r.value, f') == Get(g, f')))
  {
    var line := key + ":" + value;
    SplitOnceUnique(line, ':', key, value);
    if FieldOf(Trim(key)).Some? {
      var f := FieldOf(Trim(key)).value;
      var r := ApplyGeneral(dec, g, line);
      if r.Success? {
        forall f' | f' != f ensures Get(r.value, f') == Get(g, f') {
          SetOther(g, f, Decode(dec, f, Trim(value)).value, f');
        }
      }
    }
  }

  /** Whether a line fails, and how, depends on the line alone. */
  lemma ApplyGeneralFailureIndependent<C, S, M, O>(dec: Decoders<C, S, M, O>,
                                                   g: GeneralOf<C, S, M, O>, h: GeneralOf<C, S, M, O>, line: string)
    ensures ApplyGeneral(dec, g, line).Failure? <==> ApplyGeneral(dec, h, line).Failure?
    ensures ApplyGeneral(dec, g, line).Failure? ==>
              ApplyGeneral(dec, g, line).error == ApplyGeneral(dec, h, line).error
  {
    ApplyGeneralCases(dec, g, line);
    ApplyGeneralCases(dec, h, line);
  }

  /** Decoding the same line twice has the effect of decoding it once. */
  lemma ApplyGeneralIdempotent<C, S, M, O>(dec: Decoders<C, S, M, O>, g: GeneralOf<C, S, M, O>, line: string)
    requires ApplyGeneral(dec, g, line).Success?
    ensures ApplyGeneral(dec, ApplyGeneral(dec, g, line).value, line) == ApplyGeneral(dec, g, line)
  {
    var h := ApplyGeneral(dec, g, line).value;
    ApplyGeneralCases(dec, g, line);
    ApplyGeneralCases(dec, h, line);
    if KeyOf(line).Some? {
      SetSet(g, KeyOf(line).value, ValueOf(dec, line).value, ValueOf(dec, line).value);
    }
  }

  /** For a repeated key the last line wins. */
  lemma ApplyGeneralLastWins<C, S, M, O>(dec: Decoders<C, S, M, O>, g: GeneralOf<C, S, M, O>,
                                         first: string, second: string)
    requires KeyOf(first).Some? && KeyOf(first) == KeyOf(second)
    requires ApplyGeneral(dec, g, first).Success?
    ensures ApplyGeneral(dec, ApplyGeneral(dec, g, first).value, second) == ApplyGeneral(dec, g, second)
  {
    var h := ApplyGeneral(dec, g, first).value;
    ApplyGeneralCases(dec, g, first);
    ApplyGeneralCases(dec, g, second);
    ApplyGeneralCases(dec, h, second);
    ApplyGeneralFailureIndependent(dec, g, h, second);
    if ValueOf(dec, second).Some? {
      SetSet(g, KeyOf(first).value, ValueOf(dec, first).value, ValueOf(dec, second).value);
    }
  }

  /** Lines for two different keys can be decoded in either order. */
  lemma ApplyGeneralCommute<C, S, M, O>(dec: Decoders<C, S, M, O>, g: GeneralOf<C, S, M, O>,
                                        first: string, second: string)
    requires KeyOf(first).Some? && KeyOf(second).Some? && KeyOf(first) != KeyOf(second)
    requires ApplyGeneral(dec, g, first).Success? && ApplyGeneral(dec, g, second).Success?
    ensures var a := ApplyGeneral(dec, ApplyGeneral(dec, g, first).value, second);
            var b := ApplyGeneral(dec, ApplyGeneral(dec, g, second).value, first);
            a.Success? && a == b
  {
    var h1 := ApplyGeneral(dec, g, first).value;
    var h2 := ApplyGeneral(dec, g, second).value;
    ApplyGeneralCases(dec, g, first);
    ApplyGeneralCases(dec, g, second);
    ApplyGeneralCases(dec, h1, second);
    ApplyGeneralCases(dec, h2, first);
    SetCommute(g, KeyOf(first).value, ValueOf(dec, first).value, KeyOf(second).value, ValueOf(dec, second).value);
  }

  /** Only a write to one of the four revision-specific fields changes it. */
  lemma SetEnumFields<C, S, M, O>(g: GeneralOf<C, S, M, O>, f: Field, x: Value<C, S, M, O>)
    requires Fits(f, x)
    ensures var h := Set(g, f, x);
      && (h.countdown != g.countdown ==> f == Countdown && x == CountdownValue(h.countdown))
      && (h.sampleSet != g.sampleSet ==> f == SampleSet && x == SampleSetValue(h.sampleSet))
      && (h.mode != g.mode ==> f == Mode && x == ModeValue(h.mode))
      && (h.overlayPosition != g.overlayPosition ==> f == OverlayPosition && x == OverlayValue(h.overlayPosition))
  {
    if f !in {Countdown, SampleSet, Mode, OverlayPosition} {
      SetOther(g, f, x, Countdown);
      SetOther(g, f, x, SampleSet);
      SetOther(g, f, x, Mode);
      SetOther(g, f, x, OverlayPosition);
    }
  }

  /** The four revision-specific fields are decoded by the revision's
      converters. */
  lemma DecodeEnumFields<C, S, M, O>(dec: Decoders<C, S, M, O>, f: Field, v: string, x: Value<C, S, M, O>)
    requires Decode(dec, f, v) == Some(x)
    ensures f == Countdown ==> dec.countdown(v) == Some(x.countdown)
    ensures f == SampleSet ==> dec.sampleSet(v) == Some(x.sampleSet)
    ensures f == Mode ==> dec.mode(v) == Some(x.mode)
    ensures f == OverlayPosition ==> dec.overlay(v) == Some(x.overlay)
  {
  }

  /** A changed sample set, countdown, mode or overlay position is one the
      revision's converter produced. */
  lemma ChangedEnumFromConverter<C, S, M, O>(dec: Decoders<C, S, M, O>, g: GeneralOf<C, S, M, O>, line: string)
    requires ApplyGeneral(dec, g, line).Success?
    ensures var h := ApplyGeneral(dec, g, line).value;
      && (h.countdown != g.countdown ==> exists v :: dec.countdown(v) == Some(h.countdown))
      && (h.sampleSet != g.sampleSet ==> exists v :: dec.sampleSet(v) == Some(h.sampleSet))
      && (h.mode != g.mode ==> exists v :: dec.mode(v) == Some(h.mode))
      && (h.overlayPosition != g.overlayPosition ==> exists v :: dec.overlay(v) == Some(h.overlayPosition))
  {
    ApplyGeneralCases(dec, g, line);
    if KeyOf(line).Some? {
      var f := KeyOf(line).value;
      var v := Trim(SplitOnce(line, ':').value.1);
      var x := ValueOf(dec, line).value;
      DecodeEnumFields(dec, f, v, x);
      SetEnumFields(g, f, x);
    }
  }

  /** A line whose key names `f` and whose value converts to `x`. */
  ghost predicate DecodesTo<C, S, M, O>(dec: Decoders<C, S, M, O>, line: string, f: Field, x: Value<C, S, M, O>) {
    KeyOf(line) == Some(f) && ValueOf(dec, line) == Some(x)
  }

  /** Such a line writes `x` into `f`, whatever the record. */
  lemma ApplyDecodesTo<C, S, M, O>(dec: Decoders<C, S, M, O>, g: GeneralOf<C, S, M, O>, line: string,
                                   f: Field, x: Value<C, S, M, O>)
    requires DecodesTo(dec, line, f, x)
    ensures Fits(f, x) && ApplyGeneral(dec, g, line) == Success(Set(g, f, x))
  {
    ApplyGeneralCases(dec, g, line);
  }

  /** Key names are trimmed and hold no colon and no line feed. */
  lemma KeyNamePlain(f: Field)
    ensures Trimmed(KeyName(f)) && ':' !in KeyName(f) && '\n' !in KeyName(f)
  {
    KeyNameWord(f);
    PlainWordFacts(KeyName(f));
  }

  lemma KeyNameWord(f: Field)
    ensures PlainWord(KeyName(f))
  {
    KeyNameWords1();
    KeyNameWords2();
    KeyNameWords3();
    KeyNameWords4();
  }

  lemma KeyNameWords1()
    ensures PlainWord("AudioFilename")
         && PlainWord("AudioLeadIn")
         && PlainWord("AudioHash")
         && PlainWord("PreviewTime")
         && PlainWord("Countdown")
  {
  }

  lemma KeyNameWords2()
    ensures PlainWord("SampleSet")
         && PlainWord("StackLeniency")
         && PlainWord("Mode")
         && PlainWord("LetterboxInBreaks")
         && PlainWord("StoryFireInFront")
  {
  }

  lemma KeyNameWords3()
    ensures PlainWord("UseSkinSprites")
         && PlainWord("AlwaysShowPlayfield")
         && PlainWord("OverlayPosition")
         && PlainWord("SkinPreference")
         && PlainWord("EpilepsyWarning")
  {
  }

  lemma KeyNameWords4()
    ensures PlainWord("CountdownOffset")
         && PlainWord("SpecialStyle")
         && PlainWord("WidescreenStoryboard")
         && PlainWord("SamplesMatchPlaybackRate")
  {
  }

  /** The line for field `f` after some indentation writes the converted
      value into `f`. */
  lemma EntryDecodesTo<C, S, M, O>(dec: Decoders<C, S, M, O>, indent: string, f: Field, raw: string,
                                   x: Value<C, S, M, O>)
    requires AllWhitespace(indent) && Decode(dec, f, Trim(raw)) == Some(x)
    ensures DecodesTo(dec, Entry(indent, KeyName(f), raw), f, x)
  {
    var key := KeyName(f);
    KeyNamePlain(f);
    KeyTable(key, f);
    EntrySplits(indent, key, raw);
  }

  /** The test loop: every line decoded in turn, stopping at the first error. */
  function ApplyGeneralLines<C, S, M, O>(dec: Decoders<C, S, M, O>, g: GeneralOf<C, S, M, O>, lines: seq<string>)
    : (r: Result<GeneralOf<C, S, M, O>, ParseError>)
    decreases |lines|
  {
    if lines == [] then Success(g)
    else match ApplyGeneral(dec, g, lines[0])
      case Failure(e) => Failure(e)
      case Success(h) => ApplyGeneralLines(dec, h, lines[1..])
  }

  lemma ApplyGeneralLinesCons<C, S, M, O>(dec: Decoders<C, S, M, O>, g: GeneralOf<C, S, M, O>, lines: seq<string>,
                                          h: GeneralOf<C, S, M, O>)
    requires lines != [] && ApplyGeneral(dec, g, lines[0]) == Success(h)
    ensures ApplyGeneralLines(dec, g, lines) == ApplyGeneralLines(dec, h, lines[1..])
  {
  }


  /** The loop over a single line is that line's decoding. */
  lemma ApplyGeneralLinesSingle<C, S, M, O>(dec: Decoders<C, S, M, O>, g: GeneralOf<C, S, M, O>, lines: seq<string>,
                                            h: GeneralOf<C, S, M, O>)
    requires |lines| == 1 && ApplyGeneral(dec, g, lines[0]) == Success(h)
    ensures ApplyGeneralLines(dec, g, lines) == Success(h)
  {
    assert lines[1..] == [];
  }

  /** The writes `fs[i] := xs[i]`, in order. */
  function SetAll<C, S, M, O>(g: GeneralOf<C, S, M, O>, fs: seq<Field>, xs: seq<Value<C, S, M, O>>)
    : GeneralOf<C, S, M, O>
    requires |fs| == |xs| && forall i :: 0 <= i < |fs| ==> Fits(fs[i], xs[i])
    decreases |fs|
  {
    if fs == [] then g else SetAll(Set(g, fs[0], xs[0]), fs[1..], xs[1..])
  }

  /** After the writes, a field none of them names reads as before... */
  lemma {:induction false} GetSetAllUntouched<C, S, M, O>(g: GeneralOf<C, S, M, O>, fs: seq<Field>,
                                                          xs: seq<Value<C, S, M, O>>, f: Field)
    requires |fs| == |xs| && (forall i :: 0 <= i < |fs| ==> Fits(fs[i], xs[i])) && f !in fs
    ensures Get(SetAll(g, fs, xs), f) == Get(g, f)
    decreases |fs|
  {
    if fs != [] {
      SetOther(g, fs[0], xs[0], f);
      assert forall i :: 0 <= i < |fs| - 1 ==> fs[1..][i] == fs[i + 1];
      GetSetAllUntouched(Set(g, fs[0], xs[0]), fs[1..], xs[1..], f);
    }
  }

  /** ... and a field reads as the last write to it. */
  lemma {:induction false} GetSetAllLast<C, S, M, O>(g: GeneralOf<C, S, M, O>, fs: seq<Field>,
                                                     xs: seq<Value<C, S, M, O>>, i: nat)
    requires |fs| == |xs| && (forall j :: 0 <= j < |fs| ==> Fits(fs[j], xs[j]))
    requires i < |fs| && forall j :: i < j < |fs| ==> fs[j] != fs[i]
    ensures Get(SetAll(g, fs, xs), fs[i]) == xs[i]
    decreases |fs|
  {
    var h := Set(g, fs[0], xs[0]);
    assert forall j :: 0 <= j < |fs| - 1 ==> fs[1..][j] == fs[j + 1] && xs[1..][j] == xs[j + 1];
    if i == 0 {
      assert fs[0] !in fs[1..];
      GetSetAllUntouched(h, fs[1..], xs[1..], fs[0]);
    } else {
      GetSetAllLast(h, fs[1..], xs[1..], i - 1);
    }
  }

  /** Writing one value to each of the nineteen fields, in table order,
      gives the record that reads as those values. */
  lemma SetAllFieldsReads<C, S, M, O>(g: GeneralOf<C, S, M, O>, xs: seq<Value<C, S, M, O>>, h: GeneralOf<C, S, M, O>)
    requires |xs| == |AllFields| && forall i :: 0 <= i < |AllFields| ==> Fits(AllFields[i], xs[i])
    requires forall i :: 0 <= i < |AllFields| ==> Get(h, AllFields[i]) == xs[i]
    ensures SetAll(g, AllFields, xs) == h
  {
    var r := SetAll(g, AllFields, xs);
    forall i | 0 <= i < |AllFields| ensures Get(r, AllFields[i]) == xs[i] {
      SetAllFieldReads(g, xs, i);
    }
    forall f ensures Get(r, f) == Get(h, f) {
      var i := FieldIndex(f);
    }
    Extensionality(r, h);
  }

  lemma SetAllFieldReads<C, S, M, O>(g: GeneralOf<C, S, M, O>, xs: seq<Value<C, S, M, O>>, i: nat)
    requires |xs| == |AllFields| && forall j :: 0 <= j < |AllFields| ==> Fits(AllFields[j], xs[j])
    requires i < |AllFields|
    ensures Get(SetAll(g, AllFields, xs), AllFields[i]) == xs[i]
  {
    forall j | i < j < |AllFields| ensures AllFields[j] != AllFields[i] {
      if AllFields[j] == AllFields[i] {
        AllFieldsDistinct(i, j);
      }
    }
    GetSetAllLast(g, AllFields, xs, i);
  }

  /** Lines that each decode to a write perform those writes in order. */
  lemma {:induction false} ApplyGeneralLinesDecode<C, S, M, O>(dec: Decoders<C, S, M, O>, g: GeneralOf<C, S, M, O>,
                                                               lines: seq<string>, fs: seq<Field>,
                                                               xs: seq<Value<C, S, M, O>>)
    requires |lines| == |fs| == |xs|
    requires forall i :: 0 <= i < |lines| ==> DecodesTo(dec, lines[i], fs[i], xs[i])
    ensures forall i :: 0 <= i < |fs| ==> Fits(fs[i], xs[i])
    ensures ApplyGeneralLines(dec, g, lines) == Success(SetAll(g, fs, xs))
    decreases |lines|
  {
    DecodedFit(dec, lines, fs, xs);
    if lines != [] {
      ApplyDecodesTo(dec, g, lines[0], fs[0], xs[0]);
      var h := Set(g, fs[0], xs[0]);
      DecodedTail(dec, lines, fs, xs);
      ApplyGeneralLinesCons(dec, g, lines, h);
      ApplyGeneralLinesDecode(dec, h, lines[1..], fs[1..], xs[1..]);
    }
  }

  lemma DecodedFit<C, S, M, O>(dec: Decoders<C, S, M, O>, lines: seq<string>, fs: seq<Field>,
                               xs: seq<Value<C, S, M, O>>)
    requires |lines| == |fs| == |xs|
    requires forall i :: 0 <= i < |lines| ==> DecodesTo(dec, lines[i], fs[i], xs[i])
    ensures forall i :: 0 <= i < |fs| ==> Fits(fs[i], xs[i])
  {
    forall i | 0 <= i < |fs| ensures Fits(fs[i], xs[i]) {
      DecodesToFits(dec, lines[i], fs[i], xs[i]);
    }
  }

  lemma DecodesToFits<C, S, M, O>(dec: Decoders<C, S, M, O>, line: string, f: Field, x: Value<C, S, M, O>)
    requires DecodesTo(dec, line, f, x)
    ensures Fits(f, x)
  {
  }

  lemma DecodedTail<C, S, M, O>(dec: Decoders<C, S, M, O>, lines: seq<string>, fs: seq<Field>,
                                xs: seq<Value<C, S, M, O>>)
    requires |lines| == |fs| == |xs| && lines != []
    requires forall i :: 0 <= i < |lines| ==> DecodesTo(dec, lines[i], fs[i], xs[i])
    ensures forall i :: 0 <= i < |lines| - 1 ==> DecodesTo(dec, lines[1..][i], fs[1..][i], xs[1..][i])
  {
    forall i | 0 <= i < |lines| - 1 ensures DecodesTo(dec, lines[1..][i], fs[1..][i], xs[1..][i]) {
      assert lines[1..][i] == lines[i + 1];
    }
  }


  /** The tests of `parse_general` in src/lib.rs and in
      hoshizora-parser/src/general.rs set every field once, in the order of
      `AllFields`, with the same texts: this is each line's value, trimmed. */
  function TestText(f: Field): string {
    match f
    case AudioFilename => "audio.mp3"
    case AudioLeadIn => "0"
    case AudioHash => "afjskldfjaldksfjklasf"
    case PreviewTime => "10"
    case Countdown => "0"
    case SampleSet => "Drum"
    case StackLeniency => "0.75"
    case Mode => "1"
    case LetterboxInBreaks => "1"
    case StoryFireInFront => "0"
    case UseSkinSprites => "1"
    case AlwaysShowPlayfield => "1"
    case OverlayPosition => "Below"
    case SkinPreference => "Seoul v10"
    case EpilepsyWarning => "1"
    case CountdownOffset => "1"
    case SpecialStyle => "1"
    case WidescreenStoryboard => "1"
    case SamplesMatchPlaybackRate => "1"
  }

  /** Each text of the tests is a nonempty single-line trimmed string. */
  lemma TestTextPlain(f: Field)
    ensures Trimmed(TestText(f)) && '\n' !in TestText(f) && TestText(f) != ""
    ensures TestText(f)[|TestText(f)| - 1] != '\r'
  {
  }

  lemma ZeroFacts()
    ensures ParseU32("0") == Some(0) && ParseU8("0") == Some(0)
  {
    assert NatToString(0) == "0";
    ParseU32RoundTrip(0);
    ParseU8RoundTrip(0);
  }

  lemma OneFacts()
    ensures ParseU32("1") == Some(1) && ParseU8("1") == Some(1)
  {
    assert NatToString(1) == "1";
    ParseU32RoundTrip(1);
    ParseU8RoundTrip(1);
  }

  lemma TenFact()
    ensures ParseI32("10") == Some(10)
  {
    assert NatToString(10) == "10";
    ParseI32RoundTrip(10);
  }

  lemma FractionFact()
    ensures ParseF32("0.75") == Some(Finite(0.75))
  {
    FractionDigits();
    ParseF32OfFixedPoint("0", "75");
    assert "0" + "." + "75" == "0.75";
    assert Pow10(-2) == 0.01;
    assert Scale(75, -2) == 0.75;
  }

  lemma FractionDigits()
    ensures AllDigits("0") && AllDigits("75") && DigitsValue("0" + "75") == 75
  {
    DigitsValueSnoc("7", '5');
    assert "75" == "7" + "5";
    DigitsValueLeadingZero("75");
  }
}
