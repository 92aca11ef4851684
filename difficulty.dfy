/** The `[Difficulty]` section: six `f32` settings, each read from the
    trimmed value after the first colon.  src/lib.rs and src/difficulty.rs
    hold the same record, defaults and decoder. */
module DifficultySection {
  import opened Wrappers
  import opened Text
  import opened Float32
  import opened Numbers
  import opened FileSections

  datatype Difficulty = Difficulty(
    hp: F32,
    cs: F32,
    od: F32,
    ar: F32,
    sliderMultiplier: F32,
    sliderTickrate: F32)

  /** `Difficulty::new()`. */
  function New(): (d: Difficulty)
    ensures d.hp == Finite(5.0) && d.cs == Finite(5.0) && d.od == Finite(5.0) && d.ar == Finite(5.0)
    ensures d.sliderMultiplier == Finite(1.4) && d.sliderTickrate == Finite(1.0)
  {
    Difficulty.Difficulty(Finite(5.0), Finite(5.0), Finite(5.0), Finite(5.0), Finite(1.4), Finite(1.0))
  }

  datatype Field = HpDrainRate | CircleSize | OverallDifficulty | ApproachRate | SliderMultiplier | SliderTickRate

  /** The key that selects each field. */
  function KeyName(f: Field): string {
    match f
    case HpDrainRate => "HPDrainRate"
    case CircleSize => "CircleSize"
    case OverallDifficulty => "OverallDifficulty"
    case ApproachRate => "ApproachRate"
    case SliderMultiplier => "SliderMultiplier"
    case SliderTickRate => "SliderTickRate"
  }

  /** Every field, in the order the decoder lists the keys. */
  const AllFields: seq<Field> := [HpDrainRate, CircleSize, OverallDifficulty, ApproachRate, SliderMultiplier, SliderTickRate]

  /** The first of `fields` whose key name is `key`. */
  function FindField(key: string, fields: seq<Field>): (r: Option<Field>)
    ensures r.Some? ==> r.value in fields && KeyName(r.value) == key
    ensures r.None? ==> forall f :: f in fields ==> KeyName(f) != key
  {
    if fields == [] then None
    else if KeyName(fields[0]) == key then Some(fields[0])
    else FindField(key, fields[1..])
  }

  /** The recognised-key table: an exact, case-sensitive match. */
  function FieldOf(key: string): Option<Field> {
    FindField(key, AllFields)
  }

  /** The position of each field in `AllFields`. */
  function FieldIndex(f: Field): (i: nat)
    ensures i < |AllFields| && AllFields[i] == f
  {
    match f
    case HpDrainRate => 0
    case CircleSize => 1
    case OverallDifficulty => 2
    case ApproachRate => 3
    case SliderMultiplier => 4
    case SliderTickRate => 5
  }

  /** `AllFields` lists every field exactly once. */
  lemma AllFieldsDistinct(i: nat, j: nat)
    requires i < |AllFields| && j < |AllFields| && AllFields[i] == AllFields[j]
    ensures i == j
  {
    assert FieldIndex(AllFields[i]) == i && FieldIndex(AllFields[j]) == j;
  }

  /** No two fields share a key name. */
  lemma KeyNameInjective(f: Field, f': Field)
    requires KeyName(f) == KeyName(f')
    ensures f == f'
  {
    assert |KeyName(f)| == |KeyName(f')|;
    assert KeyName(f)[0] == KeyName(f')[0];
  }

  /** The table recognises exactly the six key names, each for its own field. */
  lemma KeyTable(key: string, f: Field)
    ensures FieldOf(key) == Some(f) <==> KeyName(f) == key
  {
    assert f in AllFields;
    if KeyName(f) == key {
      KeyNameInjective(FieldOf(key).value, f);
    }
  }

  /** Key names are trimmed and hold no colon and no line feed. */
  lemma KeyNamePlain(f: Field)
    ensures Trimmed(KeyName(f)) && ':' !in KeyName(f) && '\n' !in KeyName(f)
  {
    KeyNameWords();
    PlainWordFacts(KeyName(f));
  }

  lemma KeyNameWords()
    ensures PlainWord("HPDrainRate")
         && PlainWord("CircleSize")
         && PlainWord("OverallDifficulty")
         && PlainWord("ApproachRate")
         && PlainWord("SliderMultiplier")
         && PlainWord("SliderTickRate")
  {
  }

  /** Reads one field. */
  function Get(d: Difficulty, f: Field): F32 {
    match f
    case HpDrainRate => d.hp
    case CircleSize => d.cs
    case OverallDifficulty => d.od
    case ApproachRate => d.ar
    case SliderMultiplier => d.sliderMultiplier
    case SliderTickRate => d.sliderTickrate
  }

  /** Writes one field: afterwards it reads back as `x`. */
  function Set(d: Difficulty, f: Field, x: F32): (r: Difficulty)
    ensures Get(r, f) == x
  {
    match f
    case HpDrainRate => d.(hp := x)
    case CircleSize => d.(cs := x)
    case OverallDifficulty => d.(od := x)
    case ApproachRate => d.(ar := x)
    case SliderMultiplier => d.(sliderMultiplier := x)
    case SliderTickRate => d.(sliderTickrate := x)
  }

  /** Writing one field leaves every other field as it was. */
  lemma SetOther(d: Difficulty, f: Field, x: F32, f': Field)
    requires f' != f
    ensures Get(Set(d, f, x), f') == Get(d, f')
  {
  }

  /** `Get` sees every field: two records that read alike are equal. */
  lemma Extensionality(d: Difficulty, e: Difficulty)
    requires forall f :: Get(d, f) == Get(e, f)
    ensures d == e
  {
    assert Get(d, HpDrainRate) == Get(e, HpDrainRate);
    assert Get(d, CircleSize) == Get(e, CircleSize);
    assert Get(d, OverallDifficulty) == Get(e, OverallDifficulty);
    assert Get(d, ApproachRate) == Get(e, ApproachRate);
    assert Get(d, SliderMultiplier) == Get(e, SliderMultiplier);
    assert Get(d, SliderTickRate) == Get(e, SliderTickRate);
  }

  /** A second write to a field replaces the first. */
  lemma SetSet(d: Difficulty, f: Field, x: F32, y: F32)
    ensures Set(Set(d, f, x), f, y) == Set(d, f, y)
  {
  }

  /** The section decoder on one line: split at the first colon, look the
      trimmed key up, read the trimmed value as an `f32`, write the one
      field. */
  function ApplyDifficulty(d: Difficulty, line: string): Result<Difficulty, ParseError> {
    match SplitOnce(line, ':')
    case None => Failure(MissingColon(line))
    case Some((k, v)) => ApplyField(d, Trim(k), Trim(v))
  }

  /** The decoder once the line is split and both halves trimmed. */
  function ApplyField(d: Difficulty, key: string, value: string): Result<Difficulty, ParseError> {
    match FieldOf(key)
    case None => Success(d)
    case Some(f) =>
      match ParseF32(value)
      case None => Failure(InvalidValue(key, value))
      case Some(x) => Success(Set(d, f, x))
  }

  /** The field a line addresses, if its key is recognised. */
  function KeyOf(line: string): Option<Field> {
    match SplitOnce(line, ':')
    case None => None
    case Some((k, _)) => FieldOf(Trim(k))
  }

  /** The trimmed value of a line with a colon, read as an `f32`. */
  function ValueOf(line: string): Option<F32>
    requires ':' in line
  {
    ParseF32(Trim(SplitOnce(line, ':').value.1))
  }

  /** The decoder in terms of the key and the value. */
  lemma ApplyDifficultyCases(d: Difficulty, line: string)
    ensures ':' !in line ==> ApplyDifficulty(d, line) == Failure(MissingColon(line))
    ensures ':' in line && KeyOf(line).None? ==> ApplyDifficulty(d, line) == Success(d)
    ensures KeyOf(line).Some? && ValueOf(line).None? ==>
              ApplyDifficulty(d, line).Failure? && ApplyDifficulty(d, line).error.InvalidValue?
    ensures KeyOf(line).Some? && ValueOf(line).Some? ==>
              ApplyDifficulty(d, line) == Success(Set(d, KeyOf(line).value, ValueOf(line).value))
  {
  }

  /** What decoding `key:value` does, for a key without a colon and any
      value, colons included: unknown keys change nothing, and a known key
      either fails on a value that is not an `f32` or changes exactly its own
      field. */
  lemma ApplyDifficultyKeyValue(d: Difficulty, key: string, value: string)
    requires ':' !in key
    ensures var r := ApplyDifficulty(d, key + ":" + value);
      && (FieldOf(Trim(key)).None? ==> r == Success(d))
      && (FieldOf(Trim(key)).Some? ==>
            var f := FieldOf(Trim(key)).value;
            && (r.Success? <==> ParseF32(Trim(value)).Some?)
            && (r.Failure? ==> r.error == InvalidValue(Trim(key), Trim(value)))
            && (r.Success? ==>
                  && Get(r.value, f) == ParseF32(Trim(value)).value
                  && forall f' :: f' != f ==> Get(r.value, f') == Get(d, f')))
  {
    var line := key + ":" + value;
    SplitOnceUnique(line, ':', key, value);
    if FieldOf(Trim(key)).Some? {
      var f := FieldOf(Trim(key)).value;
      var r := ApplyDifficulty(d, line);
      if r.Success? {
        forall f' | f' != f ensures Get(r.value, f') == Get(d, f') {
          SetOther(d, f, ParseF32(Trim(value)).value, f');
        }
      }
    }
  }

  /** Decoding the same line twice has the effect of decoding it once. */
  lemma ApplyDifficultyIdempotent(d: Difficulty, line: string)
    requires ApplyDifficulty(d, line).Success?
    ensures ApplyDifficulty(ApplyDifficulty(d, line).value, line) == ApplyDifficulty(d, line)
  {
    var e := ApplyDifficulty(d, line).value;
    ApplyDifficultyCases(d, line);
    ApplyDifficultyCases(e, line);
    if KeyOf(line).Some? {
      SetSet(d, KeyOf(line).value, ValueOf(line).value, ValueOf(line).value);
    }
  }

  /** For a repeated key the last line wins. */
  lemma ApplyDifficultyLastWins(d: Difficulty, first: string, second: string)
    requires KeyOf(first).Some? && KeyOf(first) == KeyOf(second)
    requires ApplyDifficulty(d, first).Success?
    ensures ApplyDifficulty(ApplyDifficulty(d, first).value, second) == ApplyDifficulty(d, second)
  {
    var e := ApplyDifficulty(d, first).value;
    ApplyDifficultyCases(d, first);
    ApplyDifficultyCases(d, second);
    ApplyDifficultyCases(e, second);
    if ValueOf(second).Some? {
      SetSet(d, KeyOf(first).value, ValueOf(first).value, ValueOf(second).value);
    }
  }

  /** The test loop: every line decoded in turn, stopping at the first error. */
  function ApplyDifficultyLines(d: Difficulty, lines: seq<string>): Result<Difficulty, ParseError>
    decreases |lines|
  {
    if lines == [] then Success(d)
    else match ApplyDifficulty(d, lines[0])
      case Failure(e) => Failure(e)
      case Success(e) => ApplyDifficultyLines(e, lines[1..])
  }

  lemma ApplyDifficultyLinesCons(d: Difficulty, lines: seq<string>, e: Difficulty)
    requires lines != [] && ApplyDifficulty(d, lines[0]) == Success(e)
    ensures ApplyDifficultyLines(d, lines) == ApplyDifficultyLines(e, lines[1..])
  {
  }


  /** A line whose key names `f` and whose value reads as `x`. */
  predicate DecodesTo(line: string, f: Field, x: F32) {
    KeyOf(line) == Some(f) && ValueOf(line) == Some(x)
  }

  /** Such a line writes `x` into `f`, whatever the record. */
  lemma ApplyDecodesTo(d: Difficulty, line: string, f: Field, x: F32)
    requires DecodesTo(line, f, x)
    ensures ApplyDifficulty(d, line) == Success(Set(d, f, x))
  {
    ApplyDifficultyCases(d, line);
  }

  /** The line for field `f` after some indentation writes the value it
      carries into `f`. */
  lemma EntryDecodesTo(indent: string, f: Field, raw: string, x: F32)
    requires AllWhitespace(indent) && ParseF32(Trim(raw)) == Some(x)
    ensures DecodesTo(Entry(indent, KeyName(f), raw), f, x)
  {
    KeyNamePlain(f);
    KeyTable(KeyName(f), f);
    EntrySplits(indent, KeyName(f), raw);
  }

  /** The writes `fs[i] := xs[i]`, in order. */
  function SetAll(d: Difficulty, fs: seq<Field>, xs: seq<F32>): Difficulty
    requires |fs| == |xs|
    decreases |fs|
  {
    if fs == [] then d else SetAll(Set(d, fs[0], xs[0]), fs[1..], xs[1..])
  }

  /** After the writes, a field none of them names reads as before... */
  lemma {:induction false} GetSetAllUntouched(d: Difficulty, fs: seq<Field>, xs: seq<F32>, f: Field)
    requires |fs| == |xs| && f !in fs
    ensures Get(SetAll(d, fs, xs), f) == Get(d, f)
    decreases |fs|
  {
    if fs != [] {
      SetOther(d, fs[0], xs[0], f);
      assert forall i :: 0 <= i < |fs| - 1 ==> fs[1..][i] == fs[i + 1];
      GetSetAllUntouched(Set(d, fs[0], xs[0]), fs[1..], xs[1..], f);
    }
  }

  /** ... and a field reads as the last write to it. */
  lemma {:induction false} GetSetAllLast(d: Difficulty, fs: seq<Field>, xs: seq<F32>, i: nat)
    requires |fs| == |xs|
    requires i < |fs| && forall j :: i < j < |fs| ==> fs[j] != fs[i]
    ensures Get(SetAll(d, fs, xs), fs[i]) == xs[i]
    decreases |fs|
  {
    var e := Set(d, fs[0], xs[0]);
    assert forall j :: 0 <= j < |fs| - 1 ==> fs[1..][j] == fs[j + 1] && xs[1..][j] == xs[j + 1];
    if i == 0 {
      assert fs[0] !in fs[1..];
      GetSetAllUntouched(e, fs[1..], xs[1..], fs[0]);
    } else {
      GetSetAllLast(e, fs[1..], xs[1..], i - 1);
    }
  }

  /** Lines that each decode to a write perform those writes in order. */
  lemma {:induction false} ApplyDifficultyLinesDecode(d: Difficulty, lines: seq<string>, fs: seq<Field>, xs: seq<F32>)
    requires |lines| == |fs| == |xs|
    requires forall i :: 0 <= i < |lines| ==> DecodesTo(lines[i], fs[i], xs[i])
    ensures ApplyDifficultyLines(d, lines) == Success(SetAll(d, fs, xs))
    decreases |lines|
  {
    if lines != [] {
      ApplyDecodesTo(d, lines[0], fs[0], xs[0]);
      var e := Set(d, fs[0], xs[0]);
      ApplyDifficultyLinesCons(d, lines, e);
      forall i | 0 <= i < |lines| - 1 ensures DecodesTo(lines[1..][i], fs[1..][i], xs[1..][i]) {
        assert lines[1..][i] == lines[i + 1] && fs[1..][i] == fs[i + 1] && xs[1..][i] == xs[i + 1];
      }
      ApplyDifficultyLinesDecode(e, lines[1..], fs[1..], xs[1..]);
    }
  }

  /** The tests in src/difficulty.rs and src/lib.rs set every field once, in
      the order of `AllFields`, with nothing between the colon and the value;
      this is that value. */
  function TestText(f: Field): string {
    match f
    case HpDrainRate => "6.0"
    case CircleSize => "4.2"
    case OverallDifficulty => "8.5"
    case ApproachRate => "9.8"
    case SliderMultiplier => "1.4"
    case SliderTickRate => "2.0"
  }

  /** The expected record of those tests. */
  function TestExpected(): Difficulty {
    Difficulty.Difficulty(Finite(6.0), Finite(4.2), Finite(8.5), Finite(9.8), Finite(1.4), Finite(2.0))
  }

  /** The value each line is expected to write: the expected record's field. */
  function TestValues(): (r: seq<F32>)
    ensures |r| == |AllFields|
  {
    seq(|AllFields|, i requires 0 <= i < |AllFields| => Get(TestExpected(), AllFields[i]))
  }

  /** The tests' lines: the first flush left, every later one after the
      literal's indentation `w`. */
  function TestLines(w: string): (r: seq<string>)
    ensures |r| == |AllFields|
  {
    seq(|AllFields|, i requires 0 <= i < |AllFields| =>
      Entry(if i == 0 then "" else w, KeyName(AllFields[i]), TestText(AllFields[i])))
  }

  /** The test: its six lines are what `lines` gives back from their join,
      and, decoded in turn into the defaults, they give the expected record,
      for any indentation without line feeds. */
  lemma TestParseDifficulty(w: string)
    requires AllWhitespace(w) && '\n' !in w
    ensures Lines(Join(TestLines(w), "\n")) == TestLines(w)
    ensures ApplyDifficultyLines(New(), TestLines(w)) == Success(TestExpected())
  {
    var lines := TestLines(w);
    TestLinesDecode(w);
    TestLinesPlain(w);
    LinesOfJoined(lines);
    ApplyDifficultyLinesDecode(New(), lines, AllFields, TestValues());
    TestExpectedReads();
  }

  lemma TestLinesDecode(w: string)
    requires AllWhitespace(w)
    ensures forall i :: 0 <= i < |AllFields| ==> DecodesTo(TestLines(w)[i], AllFields[i], TestValues()[i])
  {
    forall i | 0 <= i < |AllFields|
      ensures DecodesTo(TestLines(w)[i], AllFields[i], TestValues()[i])
    {
      TestEntryDecodes(if i == 0 then "" else w, AllFields[i]);
    }
  }

  lemma TestEntryDecodes(indent: string, f: Field)
    requires AllWhitespace(indent)
    ensures DecodesTo(Entry(indent, KeyName(f), TestText(f)), f, Get(TestExpected(), f))
  {
    TestTextPlain(f);
    TrimmedSelf(TestText(f));
    TestTextDecode(f);
    EntryDecodesTo(indent, f, TestText(f), Get(TestExpected(), f));
  }

  lemma TestLinesPlain(w: string)
    requires '\n' !in w
    ensures forall i :: 0 <= i < |AllFields| ==>
              '\n' !in TestLines(w)[i] && StripCarriageReturn(TestLines(w)[i]) == TestLines(w)[i]
    ensures TestLines(w)[|AllFields| - 1] != ""
  {
    forall i | 0 <= i < |AllFields|
      ensures '\n' !in TestLines(w)[i] && StripCarriageReturn(TestLines(w)[i]) == TestLines(w)[i]
    {
      var f := AllFields[i];
      TestTextPlain(f);
      KeyNamePlain(f);
      EntryOneLine(if i == 0 then "" else w, KeyName(f), TestText(f));
    }
  }

  /** Writing the test's values over the defaults gives the expected record. */
  lemma TestExpectedReads()
    ensures SetAll(New(), AllFields, TestValues()) == TestExpected()
  {
    var xs := TestValues();
    var r := SetAll(New(), AllFields, xs);
    forall i | 0 <= i < |AllFields| ensures Get(r, AllFields[i]) == xs[i] {
      forall j | i < j < |AllFields| ensures AllFields[j] != AllFields[i] {
        if AllFields[j] == AllFields[i] {
          AllFieldsDistinct(i, j);
        }
      }
      GetSetAllLast(New(), AllFields, xs, i);
    }
    forall f ensures Get(r, f) == Get(TestExpected(), f) {
      var i := FieldIndex(f);
    }
    Extensionality(r, TestExpected());
  }

  /** Each value of the test is a trimmed single-line string. */
  lemma TestTextPlain(f: Field)
    ensures Trimmed(TestText(f)) && '\n' !in TestText(f)
    ensures TestText(f) == "" || TestText(f)[|TestText(f)| - 1] != '\r'
  {
  }

  /** Each value of the test reads as the expected setting. */
  lemma TestTextDecode(f: Field)
    ensures ParseF32(TestText(f)) == Some(Get(TestExpected(), f))
  {
    match f
    case HpDrainRate => TenthsFact('6', '0', "6.0", 6.0);
    case CircleSize => TenthsFact('4', '2', "4.2", 4.2);
    case OverallDifficulty => TenthsFact('8', '5', "8.5", 8.5);
    case ApproachRate => TenthsFact('9', '8', "9.8", 9.8);
    case SliderMultiplier => TenthsFact('1', '4', "1.4", 1.4);
    case SliderTickRate => TenthsFact('2', '0', "2.0", 2.0);
  }

  /** The value `a.b` as a test writes it. */
  lemma TenthsFact(a: char, b: char, s: string, x: real)
    requires IsDigit(a) && IsDigit(b) && s == [a] + "." + [b]
    requires x == (10 * DigitValue(a) + DigitValue(b)) as real / 10.0
    ensures ParseF32(s) == Some(Finite(x))
  {
    ParseF32OfTenths(a, b);
  }
}
