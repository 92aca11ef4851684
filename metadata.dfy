/** The `[Metadata]` section of hoshizora-parser/src/metadata.rs: seven text
    keys stored verbatim after trimming, the `Tags` list split at single
    spaces, and the two identifiers read as `u32`.  As for `[General]`, the
    decoder is stated as a key table, a per-field converter and a one-field
    write. */
module MetadataSection {
  import opened Wrappers
  import opened Text
  import opened Numbers
  import opened FileSections

  datatype Metadata = Metadata(
    title: string,
    titleUnicode: string,
    artist: string,
    artistUnicode: string,
    creator: string,
    version: string,
    source: string,
    tags: seq<string>,
    beatmapId: nat,
    beatmapSetId: nat)

  /** The derived `Metadata::default()`. */
  function Default(): (m: Metadata)
    ensures m.title == "" && m.titleUnicode == "" && m.artist == "" && m.artistUnicode == ""
    ensures m.creator == "" && m.version == "" && m.source == ""
    ensures m.tags == [] && m.beatmapId == 0 && m.beatmapSetId == 0
  {
    Metadata.Metadata("", "", "", "", "", "", "", [], 0, 0)
  }

  datatype Field =
    | Title | TitleUnicode | Artist | ArtistUnicode | Creator | Version | Source
    | Tags | BeatmapId | BeatmapSetId

  /** The key that selects each field. */
  function KeyName(f: Field): string {
    match f
    case Title => "Title"
    case TitleUnicode => "TitleUnicode"
    case Artist => "Artist"
    case ArtistUnicode => "ArtistUnicode"
    case Creator => "Creator"
    case Version => "Version"
    case Source => "Source"
    case Tags => "Tags"
    case BeatmapId => "BeatmapID"
    case BeatmapSetId => "BeatmapSetID"
  }

  /** Every field, in the order the decoder lists the keys. */
  const AllFields: seq<Field> :=
    [Title, TitleUnicode, Artist, ArtistUnicode, Creator, Version, Source, Tags, BeatmapId, BeatmapSetId]

  /** The first of `fields` whose key name is `key`. */
  function FindField(key: string, fields: seq<Field>): (r: Option<Field>)
    ensures r.Some? ==> r.value in fields && KeyName(r.value) == key
    ensures r.None? ==> forall f :: f in fields ==> KeyName(f) != key
  {
    if fields == [] then None
    else if KeyName(fields[0]) == key then Some(fields[0])
    else FindField(key, fields[1..])
  }

  /** The recognised-key table: an exact, case-sensitive match. */
  function FieldOf(key: string): Option<Field> {
    FindField(key, AllFields)
  }

  /** The position of each field in `AllFields`. */
  function FieldIndex(f: Field): (i: nat)
    ensures i < |AllFields| && AllFields[i] == f
  {
    match f
    case Title => 0
    case TitleUnicode => 1
    case Artist => 2
    case ArtistUnicode => 3
    case Creator => 4
    case Version => 5
    case Source => 6
    case Tags => 7
    case BeatmapId => 8
    case BeatmapSetId => 9
  }

  /** `AllFields` lists every field exactly once. */
  lemma AllFieldsDistinct(i: nat, j: nat)
    requires i < |AllFields| && j < |AllFields| && AllFields[i] == AllFields[j]
    ensures i == j
  {
    assert FieldIndex(AllFields[i]) == i && FieldIndex(AllFields[j]) == j;
  }

  /** No two fields share a key name. */
  lemma KeyNameInjective(f: Field, f': Field)
    requires KeyName(f) == KeyName(f')
    ensures f == f'
  {
    assert |KeyName(f)| == |KeyName(f')|;
    assert KeyName(f)[0] == KeyName(f')[0];
    assert KeyName(f)[|KeyName(f)| - 1] == KeyName(f')[|KeyName(f')| - 1];
  }

  /** The table recognises exactly the ten key names, each for its own field. */
  lemma KeyTable(key: string, f: Field)
    ensures FieldOf(key) == Some(f) <==> KeyName(f) == key
  {
    assert f in AllFields;
    if KeyName(f) == key {
      KeyNameInjective(FieldOf(key).value, f);
    }
  }

  /** Key names are trimmed and hold no colon and no line feed. */
  lemma KeyNamePlain(f: Field)
    ensures Trimmed(KeyName(f)) && ':' !in KeyName(f) && '\n' !in KeyName(f)
  {
    KeyNameWord(f);
    PlainWordFacts(KeyName(f));
  }

  lemma KeyNameWord(f: Field)
    ensures PlainWord(KeyName(f))
  {
    KeyNameWords1();
    KeyNameWords2();
  }

  lemma KeyNameWords1()
    ensures PlainWord("Title")
         && PlainWord("TitleUnicode")
         && PlainWord("Artist")
         && PlainWord("ArtistUnicode")
         && PlainWord("Creator")
  {
  }

  lemma KeyNameWords2()
    ensures PlainWord("Version")
         && PlainWord("Source")
         && PlainWord("Tags")
         && PlainWord("BeatmapID")
         && PlainWord("BeatmapSetID")
  {
  }

  /** One field's value, tagged with its kind. */
  datatype Value =
    | TextValue(text: string)
    | TagList(tags: seq<string>)
    | Id(id: nat)

  predicate IsTextField(f: Field) {
    f != Tags && f != BeatmapId && f != BeatmapSetId
  }

  /** The kind of value each field holds. */
  predicate Fits(f: Field, x: Value) {
    match f
    case Tags => x.TagList?
    case BeatmapId | BeatmapSetId => x.Id?
    case _ => x.TextValue?
  }

  /** The list `split(' ')` produces from a trimmed `Tags` value. */
  function TagsOf(v: string): (r: seq<string>)
    ensures |r| >= 1 && forall i :: 0 <= i < |r| ==> ' ' !in r[i]
  {
    Split(v, ' ')
  }

  /** The converter of each field, applied to the trimmed value: text is
      copied, `Tags` is split at every space, and the identifiers are `u32`. */
  function Decode(f: Field, v: string): (r: Option<Value>)
    ensures r.Some? ==> Fits(f, r.value)
  {
    match f
    case Tags => Some(TagList(TagsOf(v)))
    case BeatmapId | BeatmapSetId =>
      (match ParseU32(v) case None => None case Some(n) => Some(Id(n)))
    case _ => Some(TextValue(v))
  }

  /** Text keys keep the value verbatim, the empty value included. */
  lemma DecodeText(f: Field, v: string)
    requires IsTextField(f)
    ensures Decode(f, v) == Some(TextValue(v))
  {
  }

  /** The tag list is the value's space-separated words in order: joining
      them with single spaces gives the value back, there is one more of
      them than there are spaces, none holds a space, and an empty value is
      the one empty tag. */
  lemma DecodeTags(v: string)
    ensures Decode(Tags, v).Some?
    ensures var t := Decode(Tags, v).value.tags;
      && Join(t, " ") == v
      && |t| == multiset(v)[' '] + 1
      && (forall i :: 0 <= i < |t| ==> ' ' !in t[i])
      && (v == "" ==> t == [""])
  {
    JoinSplit(v, ' ');
    SplitCount(v, ' ');
  }

  /** Conversely, the words are recovered from their join. */
  lemma TagsOfJoin(words: seq<string>)
    requires |words| >= 1 && forall i :: 0 <= i < |words| ==> ' ' !in words[i]
    ensures TagsOf(Join(words, " ")) == words
  {
    SplitJoin(words, ' ');
  }

  /** The identifiers accept exactly the `u32` texts. */
  lemma DecodeIds(f: Field, v: string)
    requires f == BeatmapId || f == BeatmapSetId
    ensures Decode(f, v).Some? <==> ParseU32(v).Some?
    ensures Decode(f, v).Some? ==> Decode(f, v).value == Id(ParseU32(v).value) && Decode(f, v).value.id <= U32_MAX
  {
  }

  /** Reads one field. */
  function Get(m: Metadata, f: Field): (x: Value)
    ensures Fits(f, x)
  {
    match f
    case Title => TextValue(m.title)
    case TitleUnicode => TextValue(m.titleUnicode)
    case Artist => TextValue(m.artist)
    case ArtistUnicode => TextValue(m.artistUnicode)
    case Creator => TextValue(m.creator)
    case Version => TextValue(m.version)
    case Source => TextValue(m.source)
    case Tags => TagList(m.tags)
    case BeatmapId => Id(m.beatmapId)
    case BeatmapSetId => Id(m.beatmapSetId)
  }

  /** Writes one field: afterwards it reads back as `x`. */
  function Set(m: Metadata, f: Field, x: Value): (r: Metadata)
    requires Fits(f, x)
    ensures Get(r, f) == x
  {
    match f
    case Title => m.(title := x.text)
    case TitleUnicode => m.(titleUnicode := x.text)
    case Artist => m.(artist := x.text)
    case ArtistUnicode => m.(artistUnicode := x.text)
    case Creator => m.(creator := x.text)
    case Version => m.(version := x.text)
    case Source => m.(source := x.text)
    case Tags => m.(tags := x.tags)
    case BeatmapId => m.(beatmapId := x.id)
    case BeatmapSetId => m.(beatmapSetId := x.id)
  }

  /** Writing one field leaves every other field as it was. */
  lemma SetOther(m: Metadata, f: Field, x: Value, f': Field)
    requires Fits(f, x) && f' != f
    ensures Get(Set(m, f, x), f') == Get(m, f')
  {
  }

  /** `Get` sees every field: two records that read alike are equal. */
  lemma Extensionality(m: Metadata, n: Metadata)
    requires forall f :: Get(m, f) == Get(n, f)
    ensures m == n
  {
    assert Get(m, Title) == Get(n, Title);
    assert Get(m, TitleUnicode) == Get(n, TitleUnicode);
    assert Get(m, Artist) == Get(n, Artist);
    assert Get(m, ArtistUnicode) == Get(n, ArtistUnicode);
    assert Get(m, Creator) == Get(n, Creator);
    assert Get(m, Version) == Get(n, Version);
    assert Get(m, Source) == Get(n, Source);
    assert Get(m, Tags) == Get(n, Tags);
    assert Get(m, BeatmapId) == Get(n, BeatmapId);
    assert Get(m, BeatmapSetId) == Get(n, BeatmapSetId);
  }

  /** A second write to a field replaces the first. */
  lemma SetSet(m: Metadata, f: Field, x: Value, y: Value)
    requires Fits(f, x) && Fits(f, y)
    ensures Set(Set(m, f, x), f, y) == Set(m, f, y)
  {
  }

  /** The section decoder on one line: split at the first colon, look the
      trimmed key up, convert the trimmed value, write the one field. */
  function ApplyMetadata(m: Metadata, line: string): Result<Metadata, ParseError> {
    match SplitOnce(line, ':')
    case None => Failure(MissingColon(line))
    case Some((k, v)) =>
      match FieldOf(Trim(k))
      case None => Success(m)
      case Some(f) =>
        match Decode(f, Trim(v))
        case None => Failure(InvalidValue(Trim(k), Trim(v)))
        case Some(x) => Success(Set(m, f, x))
  }

  /** The decoder once the line is split and both halves trimmed. */
  function ApplyField(m: Metadata, key: string, value: string): Result<Metadata, ParseError> {
    match FieldOf(key)
    case None => Success(m)
    case Some(f) =>
      match Decode(f, value)
      case None => Failure(InvalidValue(key, value))
      case Some(x) => Success(Set(m, f, x))
  }

  /** The line decoder is the split followed by that. */
  lemma ApplyMetadataSplit(m: Metadata, line: string)
    requires SplitOnce(line, ':').Some?
    ensures ApplyMetadata(m, line) ==
            ApplyField(m, Trim(SplitOnce(line, ':').value.0), Trim(SplitOnce(line, ':').value.1))
  {
  }

  /** The field a line addresses, if its key is recognised. */
  function KeyOf(line: string): Option<Field> {
    match SplitOnce(line, ':')
    case None => None
    case Some((k, _)) => FieldOf(Trim(k))
  }

  /** The value a line's converter produces, if the key is recognised. */
  function ValueOf(line: string): Option<Value>
    requires KeyOf(line).Some?
  {
    Decode(KeyOf(line).value, Trim(SplitOnce(line, ':').value.1))
  }

  /** The decoder in terms of the key and the value. */
  lemma ApplyMetadataCases(m: Metadata, line: string)
    ensures ':' !in line ==> ApplyMetadata(m, line) == Failure(MissingColon(line))
    ensures ':' in line && KeyOf(line).None? ==> ApplyMetadata(m, line) == Success(m)
    ensures KeyOf(line).Some? && ValueOf(line).None? ==>
              ApplyMetadata(m, line).Failure? && ApplyMetadata(m, line).error.InvalidValue?
    ensures KeyOf(line).Some? && ValueOf(line).Some? ==>
              ApplyMetadata(m, line) == Success(Set(m, KeyOf(line).value, ValueOf(line).value))
  {
  }

  /** What decoding `key:value` does, for a key without a colon and any
      value, colons included: unknown keys change nothing, and a known key
      either fails with its value or changes exactly its own field. */
  lemma ApplyMetadataKeyValue(m: Metadata, key: string, value: string)
    requires ':' !in key
    ensures var r := ApplyMetadata(m, key + ":" + value);
      && (FieldOf(Trim(key)).None? ==> r == Success(m))
      && (FieldOf(Trim(key)).Some? ==>
            var f := FieldOf(Trim(key)).value;
            && (r.Success? <==> Decode(f, Trim(value)).Some?)
            && (r.Failure? ==> r.error == InvalidValue(Trim(key), Trim(value)))
            && (r.Success? ==>
                  && Get(r.value, f) == Decode(f, Trim(value)).value
                  && forall f' :: f' != f ==> Get(r.value, f') == Get(m, f')))
  {
    var line := key + ":" + value;
    SplitOnceUnique(line, ':', key, value);
    if FieldOf(Trim(key)).Some? {
      var f := FieldOf(Trim(key)).value;
      var r := ApplyMetadata(m, line);
      if r.Success? {
        forall f' | f' != f ensures Get(r.value, f') == Get(m, f') {
          SetOther(m, f, Decode(f, Trim(value)).value, f');
        }
      }
    }
  }

  /** Only a line without a colon, or an identifier line whose value is not
      a `u32`, fails. */
  lemma ApplyMetadataFailures(m: Metadata, line: string)
    ensures ApplyMetadata(m, line).Failure? <==>
              || ':' !in line
              || ((KeyOf(line) == Some(BeatmapId) || KeyOf(line) == Some(BeatmapSetId))
                  && ParseU32(Trim(SplitOnce(line, ':').value.1)).None?)
  {
    ApplyMetadataCases(m, line);
    if KeyOf(line).Some? {
      DecodeRejects(KeyOf(line).value, Trim(SplitOnce(line, ':').value.1));
    }
  }

  /** Only the identifiers reject a value, and only one that is not a
      `u32`. */
  lemma DecodeRejects(f: Field, v: string)
    ensures Decode(f, v).None? <==> (f == BeatmapId || f == BeatmapSetId) && ParseU32(v).None?
  {
  }

  /** Decoding the same line twice has the effect of decoding it once. */
  lemma ApplyMetadataIdempotent(m: Metadata, line: string)
    requires ApplyMetadata(m, line).Success?
    ensures ApplyMetadata(ApplyMetadata(m, line).value, line) == ApplyMetadata(m, line)
  {
    var n := ApplyMetadata(m, line).value;
    ApplyMetadataCases(m, line);
    ApplyMetadataCases(n, line);
    if KeyOf(line).Some? {
      SetSet(m, KeyOf(line).value, ValueOf(line).value, ValueOf(line).value);
    }
  }

  /** For a repeated key the last line wins. */
  lemma ApplyMetadataLastWins(m: Metadata, first: string, second: string)
    requires KeyOf(first).Some? && KeyOf(first) == KeyOf(second)
    requires ApplyMetadata(m, first).Success?
    ensures ApplyMetadata(ApplyMetadata(m, first).value, second) == ApplyMetadata(m, second)
  {
    var n := ApplyMetadata(m, first).value;
    ApplyMetadataCases(m, first);
    ApplyMetadataCases(m, second);
    ApplyMetadataCases(n, second);
    if ValueOf(second).Some? {
      SetSet(m, KeyOf(first).value, ValueOf(first).value, ValueOf(second).value);
    }
  }

  /** The test loop: every line decoded in turn, stopping at the first error. */
  function ApplyMetadataLines(m: Metadata, lines: seq<string>): Result<Metadata, ParseError>
    decreases |lines|
  {
    if lines == [] then Success(m)
    else match ApplyMetadata(m, lines[0])
      case Failure(e) => Failure(e)
      case Success(n) => ApplyMetadataLines(n, lines[1..])
  }

  lemma ApplyMetadataLinesCons(m: Metadata, lines: seq<string>, n: Metadata)
    requires lines != [] && ApplyMetadata(m, lines[0]) == Success(n)
    ensures ApplyMetadataLines(m, lines) == ApplyMetadataLines(n, lines[1..])
  {
  }


  /** A line whose key names `f` and whose value converts to `x`. */
  predicate DecodesTo(line: string, f: Field, x: Value) {
    KeyOf(line) == Some(f) && ValueOf(line) == Some(x)
  }

  /** Such a line writes `x` into `f`, whatever the record. */
  lemma ApplyDecodesTo(m: Metadata, line: string, f: Field, x: Value)
    requires DecodesTo(line, f, x)
    ensures Fits(f, x) && ApplyMetadata(m, line) == Success(Set(m, f, x))
  {
    ApplyMetadataCases(m, line);
  }

  /** The line for field `f` after some indentation writes the converted
      value into `f`. */
  lemma EntryDecodesTo(indent: string, f: Field, raw: string, x: Value)
    requires AllWhitespace(indent) && Decode(f, Trim(raw)) == Some(x)
    ensures DecodesTo(Entry(indent, KeyName(f), raw), f, x)
  {
    KeyNamePlain(f);
    KeyTable(KeyName(f), f);
    EntrySplits(indent, KeyName(f), raw);
  }

  /** The writes `fs[i] := xs[i]`, in order. */
  function SetAll(m: Metadata, fs: seq<Field>, xs: seq<Value>): Metadata
    requires |fs| == |xs| && forall i :: 0 <= i < |fs| ==> Fits(fs[i], xs[i])
    decreases |fs|
  {
    if fs == [] then m else SetAll(Set(m, fs[0], xs[0]), fs[1..], xs[1..])
  }

  /** After the writes, a field none of them names reads as before... */
  lemma {:induction false} GetSetAllUntouched(m: Metadata, fs: seq<Field>, xs: seq<Value>, f: Field)
    requires |fs| == |xs| && (forall i :: 0 <= i < |fs| ==> Fits(fs[i], xs[i])) && f !in fs
    ensures Get(SetAll(m, fs, xs), f) == Get(m, f)
    decreases |fs|
  {
    if fs != [] {
      SetOther(m, fs[0], xs[0], f);
      assert forall i :: 0 <= i < |fs| - 1 ==> fs[1..][i] == fs[i + 1];
      GetSetAllUntouched(Set(m, fs[0], xs[0]), fs[1..], xs[1..], f);
    }
  }

  /** ... and a field reads as the last write to it. */
  lemma {:induction false} GetSetAllLast(m: Metadata, fs: seq<Field>, xs: seq<Value>, i: nat)
    requires |fs| == |xs| && (forall j :: 0 <= j < |fs| ==> Fits(fs[j], xs[j]))
    requires i < |fs| && forall j :: i < j < |fs| ==> fs[j] != fs[i]
    ensures Get(SetAll(m, fs, xs), fs[i]) == xs[i]
    decreases |fs|
  {
    var n := Set(m, fs[0], xs[0]);
    assert forall j :: 0 <= j < |fs| - 1 ==> fs[1..][j] == fs[j + 1] && xs[1..][j] == xs[j + 1];
    if i == 0 {
      assert fs[0] !in fs[1..];
      GetSetAllUntouched(n, fs[1..], xs[1..], fs[0]);
    } else {
      GetSetAllLast(n, fs[1..], xs[1..], i - 1);
    }
  }

  /** Lines that each decode to a write perform those writes in order. */
  lemma {:induction false} ApplyMetadataLinesDecode(m: Metadata, lines: seq<string>, fs: seq<Field>, xs: seq<Value>)
    requires |lines| == |fs| == |xs|
    requires forall i :: 0 <= i < |lines| ==> DecodesTo(lines[i], fs[i], xs[i])
    ensures forall i :: 0 <= i < |fs| ==> Fits(fs[i], xs[i])
    ensures ApplyMetadataLines(m, lines) == Success(SetAll(m, fs, xs))
    decreases |lines|
  {
    DecodedFit(lines, fs, xs);
    if lines != [] {
      ApplyDecodesTo(m, lines[0], fs[0], xs[0]);
      var n := Set(m, fs[0], xs[0]);
      DecodedTail(lines, fs, xs);
      ApplyMetadataLinesCons(m, lines, n);
      ApplyMetadataLinesDecode(n, lines[1..], fs[1..], xs[1..]);
    }
  }

  lemma DecodedFit(lines: seq<string>, fs: seq<Field>, xs: seq<Value>)
    requires |lines| == |fs| == |xs|
    requires forall i :: 0 <= i < |lines| ==> DecodesTo(lines[i], fs[i], xs[i])
    ensures forall i :: 0 <= i < |fs| ==> Fits(fs[i], xs[i])
  {
    forall i | 0 <= i < |fs| ensures Fits(fs[i], xs[i]) {
      ApplyDecodesTo(Default(), lines[i], fs[i], xs[i]);
    }
  }

  lemma DecodedTail(lines: seq<string>, fs: seq<Field>, xs: seq<Value>)
    requires |lines| == |fs| == |xs| && lines != []
    requires forall i :: 0 <= i < |lines| ==> DecodesTo(lines[i], fs[i], xs[i])
    ensures forall i :: 0 <= i < |lines| - 1 ==> DecodesTo(lines[1..][i], fs[1..][i], xs[1..][i])
  {
    forall i | 0 <= i < |lines| - 1 ensures DecodesTo(lines[1..][i], fs[1..][i], xs[1..][i]) {
      assert lines[1..][i] == lines[i + 1];
    }
  }


  /** The test in hoshizora-parser/src/metadata.rs sets every field once, in
      the order of `AllFields`, with nothing between the colon and the value;
      this is that value. */
  function TestText(f: Field): string {
    match f
    case Title => "End Time"
    case TitleUnicode => "End Time"
    case Artist => "Cres"
    case ArtistUnicode => "Cres"
    case Creator => "PaRaDogi"
    case Version => "Dogi"
    case Source => ""
    case Tags => "DeviousPanda"
    case BeatmapId => "2797865"
    case BeatmapSetId => "1351450"
  }

  /** The expected record of that test. */
  function TestExpected(): Metadata {
    Metadata.Metadata("End Time", "End Time", "Cres", "Cres", "PaRaDogi", "Dogi", "", ["DeviousPanda"], 2797865, 1351450)
  }

  /** The value each line is expected to write: the expected record's field. */
  function TestValues(): (r: seq<Value>)
    ensures |r| == |AllFields|
  {
    seq(|AllFields|, i requires 0 <= i < |AllFields| => Get(TestExpected(), AllFields[i]))
  }

  /** The test's lines: the first flush left, every later one after the
      literal's indentation `w`. */
  function TestLines(w: string): (r: seq<string>)
    ensures |r| == |AllFields|
  {
    seq(|AllFields|, i requires 0 <= i < |AllFields| =>
      Entry(if i == 0 then "" else w, KeyName(AllFields[i]), TestText(AllFields[i])))
  }

  /** The test: its ten lines are what `lines` gives back from their join,
      and, decoded in turn into the defaults, they give the expected record
      (the empty `Source:` included), for any indentation without line
      feeds. */
  lemma TestParseMetadata(w: string)
    requires AllWhitespace(w) && '\n' !in w
    ensures Lines(Join(TestLines(w), "\n")) == TestLines(w)
    ensures ApplyMetadataLines(Default(), TestLines(w)) == Success(TestExpected())
  {
    var lines := TestLines(w);
    TestLinesDecode(w);
    TestLinesPlain(w);
    LinesOfJoined(lines);
    ApplyMetadataLinesDecode(Default(), lines, AllFields, TestValues());
    TestExpectedReads();
  }

  lemma TestLinesDecode(w: string)
    requires AllWhitespace(w)
    ensures forall i :: 0 <= i < |AllFields| ==> DecodesTo(TestLines(w)[i], AllFields[i], TestValues()[i])
  {
    forall i | 0 <= i < |AllFields|
      ensures DecodesTo(TestLines(w)[i], AllFields[i], TestValues()[i])
    {
      TestEntryDecodes(if i == 0 then "" else w, AllFields[i]);
    }
  }

  lemma TestEntryDecodes(indent: string, f: Field)
    requires AllWhitespace(indent)
    ensures DecodesTo(Entry(indent, KeyName(f), TestText(f)), f, Get(TestExpected(), f))
  {
    TestTextPlain(f);
    TrimmedSelf(TestText(f));
    TestTextDecode(f);
    EntryDecodesTo(indent, f, TestText(f), Get(TestExpected(), f));
  }

  lemma TestLinesPlain(w: string)
    requires '\n' !in w
    ensures forall i :: 0 <= i < |AllFields| ==>
              '\n' !in TestLines(w)[i] && StripCarriageReturn(TestLines(w)[i]) == TestLines(w)[i]
    ensures TestLines(w)[|AllFields| - 1] != ""
  {
    forall i | 0 <= i < |AllFields|
      ensures '\n' !in TestLines(w)[i] && StripCarriageReturn(TestLines(w)[i]) == TestLines(w)[i]
    {
      var f := AllFields[i];
      TestTextPlain(f);
      KeyNamePlain(f);
      EntryOneLine(if i == 0 then "" else w, KeyName(f), TestText(f));
    }
  }

  /** Writing the test's values over the defaults gives the expected record. */
  lemma TestExpectedReads()
    requires forall i :: 0 <= i < |AllFields| ==> Fits(AllFields[i], TestValues()[i])
    ensures SetAll(Default(), AllFields, TestValues()) == TestExpected()
  {
    var xs := TestValues();
    var r := SetAll(Default(), AllFields, xs);
    forall i | 0 <= i < |AllFields| ensures Get(r, AllFields[i]) == xs[i] {
      forall j | i < j < |AllFields| ensures AllFields[j] != AllFields[i] {
        if AllFields[j] == AllFields[i] {
          AllFieldsDistinct(i, j);
        }
      }
      GetSetAllLast(Default(), AllFields, xs, i);
    }
    forall f ensures Get(r, f) == Get(TestExpected(), f) {
      var i := FieldIndex(f);
    }
    Extensionality(r, TestExpected());
  }

  /** Each value of the test is a trimmed single-line string. */
  lemma TestTextPlain(f: Field)
    ensures Trimmed(TestText(f)) && '\n' !in TestText(f)
    ensures TestText(f) == "" || TestText(f)[|TestText(f)| - 1] != '\r'
  {
  }

  /** Each value of the test converts to the expected field value. */
  lemma TestTextDecode(f: Field)
    ensures Decode(f, TestText(f)) == Some(Get(TestExpected(), f))
  {
    match f
    case Tags => TagsFact();
    case BeatmapId => BeatmapIdFact();
    case BeatmapSetId => BeatmapSetIdFact();
    case _ =>
  }

  lemma BeatmapIdFact()
    ensures ParseU32("2797865") == Some(2797865)
  {
    BeatmapIdDigits();
    ParseDigits("2797865", false, 0, U32_MAX);
  }

  /** The digits, folded in from the left. */
  lemma BeatmapIdDigits()
    ensures AllDigits("2797865") && DigitsValue("2797865") == 2797865
  {
    DigitsValueSnoc("2", '7');
    assert "27" == "2" + "7";
    DigitsValueSnoc("27", '9');
    assert "279" == "27" + "9";
    DigitsValueSnoc("279", '7');
    assert "2797" == "279" + "7";
    DigitsValueSnoc("2797", '8');
    assert "27978" == "2797" + "8";
    DigitsValueSnoc("27978", '6');
    assert "279786" == "27978" + "6";
    DigitsValueSnoc("279786", '5');
    assert "2797865" == "279786" + "5";
  }

  lemma BeatmapSetIdFact()
    ensures ParseU32("1351450") == Some(1351450)
  {
    BeatmapSetIdDigits();
    ParseDigits("1351450", false, 0, U32_MAX);
  }

  /** The digits, folded in from the left. */
  lemma BeatmapSetIdDigits()
    ensures AllDigits("1351450") && DigitsValue("1351450") == 1351450
  {
    DigitsValueSnoc("1", '3');
    assert "13" == "1" + "3";
    DigitsValueSnoc("13", '5');
    assert "135" == "13" + "5";
    DigitsValueSnoc("135", '1');
    assert "1351" == "135" + "1";
    DigitsValueSnoc("1351", '4');
    assert "13514" == "1351" + "4";
    DigitsValueSnoc("13514", '5');
    assert "135145" == "13514" + "5";
    DigitsValueSnoc("135145", '0');
    assert "1351450" == "135145" + "0";
  }

  lemma TagsFact()
    ensures TagsOf("DeviousPanda") == ["DeviousPanda"]
  {
    assert ' ' !in "DeviousPanda";
    assert IndexOf("DeviousPanda", ' ').None?;
  }
}
