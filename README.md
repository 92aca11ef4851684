# pippi-parser: the section-scoped line decoder

This project is a Dafny model of the line decoder at the core of pippi-parser, an osu! beatmap (`.osu`) parser written in Rust. A beatmap is a text of `[Section]` headers, each followed by `Key: Value` lines. The model covers two revisions of the parser.

- **src/lib.rs** is the first revision.
  - Its `Beatmap` holds a raw `General` record, in which countdown and mode are `u32` and sample set and overlay position are text, and a `Difficulty` record.
  - `parse` walks the lines of a text. It keeps the current section, which starts at `Format`. It switches section at a header and sends every other line to the decoder of the current section.
  - `parse_general` and `parse_difficulty` are the section decoders. They write one field of the beatmap in place.
- **hoshizora-parser** is the second revision. Its `parse_general` stores countdown, sample set, mode and overlay position as enumerations read by their `from_str` mappings. It adds `parse_metadata` for the `[Metadata]` section. src/difficulty.rs holds the `Difficulty` record and its `parse_difficulty`, which is the same as the one in src/lib.rs.

Every decoder works the same way. It splits the line at the first colon, trims both halves, and looks the key up in a fixed, case-sensitive table. It then converts the value and assigns the one field the key names. An unknown key changes nothing. A line without a colon, and a value its converter rejects, make the source panic (`unwrap`). The model returns an explicit error for these instead.

The model is organised as follows.

- **Data.** Each record is a `datatype`. Each beatmap is a `class` whose fields the decoders reassign. The nineteen `[General]` keys share one generic record, `GeneralFields.GeneralOf`. The two revisions differ only in the four converters they plug in: `LibParser.RawDecoders` for the first, `TypedGeneral.TypedDecoders` for the second.
- **Specifications.** Each section has a key table (`FieldOf`, `KeyName`), a converter per field (`Decode`), and field access (`Get`, `Set`). These compose into a function that applies one line: `ApplyGeneral`, `ApplyMetadata` or `ApplyDifficulty`.
- **Decoders.** The in-place decoders are methods with `modifies beatmap`. Each method's `ensures` ties the new record to that function of the old record.
- **Driver.** The loop of `parse` is a method proved against `LibParser.Run`, which applies `Step` line by line. The driver takes the line guard as a parameter. `AsWritten` is the source's condition; `Intended` is the one the surrounding code evidently meant (see Findings).
- **Primitives.** Rust's `str::trim` (Unicode White_Space), `split_once`, `split`, `lines`, integer `parse` for `u8`, `u32` and `i32`, and `f32` parsing are modelled in the modules `Text`, `Numbers` and `Float32`. `f32` values are kept as exact reals.
- **Tests.** The tests of the source are lemmas and methods. Each states that the test's lines, decoded in turn from the defaults, give the expected record. The lines come from the multi-line literal split with `lines`, for any indentation `w`.

The quirks of the source are modelled as written:
- `SampleSet::from_str` maps both "1" and "Normal" to `Default`, and never returns `Normal`.
- `OverlayPosition` neither trims nor ignores case.
- A boolean field is true for any `u8` other than 0.
- `Tags` splits at every single space, so an empty value gives `[""]`.

## Model

| member | source | states |
|---|---|---|
| Text.TrimStart | src/lib.rs:115 | the result is a suffix of the input, everything removed is whitespace, and the result does not start with whitespace |
| Text.TrimEnd | src/lib.rs:115 | the result is a prefix of the input, everything removed is whitespace, and the result does not end with whitespace |
| Text.Trim | src/lib.rs:115 | definition of `trim`; `TrimSpec`, `TrimUnique`, `TrimEmpty` and `TrimIdempotent` state it |
| Text.TrimSpec | src/lib.rs:115-117 | `trim` returns a contiguous slice with no whitespace at either end, and only whitespace lies outside it |
| Text.TrimUnique | src/lib.rs:115-117 | whitespace, then a trimmed word, then whitespace trims to exactly that word |
| Text.TrimEmpty | src/lib.rs:97 | a line trims to the empty string exactly when every character is whitespace |
| Text.TrimIdempotent | hoshizora-parser/src/general.rs:43 | trimming twice is trimming once |
| Text.IndexOf | src/lib.rs:114 | the first occurrence of a character, or none exactly when the character is absent |
| Text.SplitOnce | src/lib.rs:114 | `split_once(':')` fails exactly when there is no colon; otherwise key, colon and value rebuild the line, and the key holds no colon, so a value may contain colons |
| Text.SplitOnceUnique | src/lib.rs:114 | a colon-free key followed by a colon and any value is split into exactly that key and value |
| Text.Split | hoshizora-parser/src/metadata.rs:56 | `split(' ')` gives at least one piece and no piece holds the separator |
| Text.JoinSplit | hoshizora-parser/src/metadata.rs:56 | joining the pieces of a split with the separator gives back the text |
| Text.SplitJoin | hoshizora-parser/src/metadata.rs:56 | splitting the join of separator-free pieces gives back the pieces, in order |
| Text.SplitCount | hoshizora-parser/src/metadata.rs:56 | a split gives one piece more than the text has separators |
| Text.Join | hoshizora-parser/src/metadata.rs:56 | definition of joining pieces with a separator, the inverse of `split`; `JoinSplit` and `SplitJoin` state it |
| Text.Lines | src/lib.rs:96 | no line that `lines` yields holds a line feed |
| Text.StripCarriageReturn | src/lib.rs:96 | definition of the carriage-return removal `lines` applies at a line's end; `LinesCons` and `LinesOfTerminated` state it |
| Text.LinesCons | src/lib.rs:96 | the first line ends at the first line feed, losing a carriage return just before it |
| Text.LinesOfTerminated | src/lib.rs:96 | lines each followed by "\n" or "\r\n" are given back by `lines` |
| Text.LinesOfJoined | src/lib.rs:192 | single lines joined with line feeds, the last one not empty, are given back by `lines` |
| Text.EntrySplits | src/lib.rs:114-115 | an indented `Key:` line splits into that key and the trimmed rest |
| Numbers.ParseInteger | src/lib.rs:117 | an accepted text is an optional sign (`-` only when signed) followed by digits, and its value lies within the type's range |
| Numbers.ParseDigits | src/lib.rs:117 | digits alone parse to their decimal value when it is in range, and fail otherwise |
| Numbers.ParsePlus | src/lib.rs:117 | a leading `+` does not change the result |
| Numbers.ParseMinus | src/lib.rs:119 | a leading `-` negates for signed types, within range, and fails for unsigned ones |
| Numbers.ParseU8 | src/lib.rs:125 | `parse::<u8>` accepts exactly the integer texts from 0 to 255 |
| Numbers.ParseU32 | src/lib.rs:117 | `parse::<u32>` accepts exactly the integer texts from 0 to 4294967295 |
| Numbers.ParseI32 | src/lib.rs:119 | `parse::<i32>` results lie between -2147483648 and 2147483647 |
| Numbers.ParseFlag | src/lib.rs:124-146 | a flag is defined exactly when the value is a `u8`, and it is true exactly when that `u8` is from 1 to 255 |
| Numbers.NatToString | src/lib.rs:117 | decimal rendering yields digits whose value is the number |
| Numbers.ParseU32RoundTrip | src/lib.rs:117 | every `u32` is recovered from its decimal text |
| Numbers.ParseU8RoundTrip | src/lib.rs:125 | every `u8` is recovered from its decimal text |
| Numbers.ParseI32RoundTrip | src/lib.rs:119 | every `i32` is recovered from its decimal text |
| Float32.ParseF32 | src/lib.rs:122 | an accepted text is not empty and not a sign alone, and a finite result has the sign of the text |
| Float32.ParseF32OfNat | src/lib.rs:122 | an integer literal parses to its own value |
| Float32.ParseF32OfFixedPoint | src/difficulty.rs:29-36 | `a.b` parses to the digits of a and b scaled by ten to the minus the length of b |
| Float32.ParseF32OfTenths | src/difficulty.rs:29-36 | a one-digit decimal such as `4.2` parses to its value in tenths |
| GeneralEnums.CountdownTable | hoshizora-parser/src/general.rs:17-28 | `Countdown::from_str` yields a speed exactly when the trimmed text is an `i32` equal to that speed's code 0 to 3 |
| GeneralEnums.CountdownRejects | hoshizora-parser/src/general.rs:17-28 | it fails exactly on non-integers and on integers outside 0 to 3 |
| GeneralEnums.CountdownRoundTrip | hoshizora-parser/src/general.rs:17-28 | every speed is read back from its code |
| GeneralEnums.CountdownSigns | hoshizora-parser/src/general.rs:18-24 | "-0" and "+1" are accepted as codes 0 and 1, and "4" and "-1" are rejected |
| GeneralEnums.CountdownFromStr | hoshizora-parser/src/general.rs:14-29 | definition of `Countdown::from_str`; `CountdownTable`, `CountdownRejects`, `CountdownRoundTrip` and `CountdownSigns` state it |
| GeneralEnums.ModeTable | hoshizora-parser/src/general.rs:64-75 | `Mode::from_str` yields a mode exactly when the trimmed text is an `i32` equal to that mode's code 0 to 3 |
| GeneralEnums.ModeRejects | hoshizora-parser/src/general.rs:64-75 | it fails exactly on non-integers and on integers outside 0 to 3 |
| GeneralEnums.ModeRoundTrip | hoshizora-parser/src/general.rs:64-75 | every mode is read back from its code |
| GeneralEnums.ModeFromStr | hoshizora-parser/src/general.rs:61-76 | definition of `Mode::from_str`; `ModeTable`, `ModeRejects` and `ModeRoundTrip` state it |
| GeneralEnums.SampleSetTable | hoshizora-parser/src/general.rs:42-50 | `SampleSet::from_str` yields a sample set exactly when the trimmed text is one of its tokens: "0", "1" and "Normal" for `Default`; "2" and "Soft"; "3" and "Drum"; none for `Normal` |
| GeneralEnums.SampleSetNeverNormal | hoshizora-parser/src/general.rs:45 | the `Normal` variant is never produced |
| GeneralEnums.SampleSetFromStr | hoshizora-parser/src/general.rs:39-51 | definition of `SampleSet::from_str`; `SampleSetTable` and `SampleSetNeverNormal` state it |
| GeneralEnums.OverlayTable | hoshizora-parser/src/general.rs:78-83 | the derived `OverlayPosition::from_str` accepts exactly the three variant names, each for its variant |
| GeneralEnums.OverlayIsExact | hoshizora-parser/src/general.rs:78-83 | "below" and " Below" are rejected and "Below" is accepted |
| GeneralEnums.OverlayFromStr | hoshizora-parser/src/general.rs:78-83 | definition of the derived `OverlayPosition::from_str`; `OverlayTable` and `OverlayIsExact` state it |
| GeneralEnums.TrimmingMappersIgnorePadding | hoshizora-parser/src/general.rs:14-76 | the countdown, mode and sample-set mappers give the same answer on a text and on its trimmed form |
| GeneralFields.KeyName | src/lib.rs:116-146 | definition of the key each field is written under; `KeyTable` and `KeyNameInjective` state it |
| GeneralFields.FieldOf | src/lib.rs:115-147 | definition of the key match of `parse_general`; `KeyTable` states it |
| GeneralFields.FindField | src/lib.rs:115-147 | a key found in a table is the name of a field in it, and no field of the table has a key that is not found |
| GeneralFields.FieldIndex | src/lib.rs:28-49 | every field has its place in the list of the nineteen fields |
| GeneralFields.KeyTable | src/lib.rs:115-147 | the key table recognises a key exactly when it is the name of that field, case and all |
| GeneralFields.KeyNameInjective | src/lib.rs:115-147 | no two fields share a key |
| GeneralFields.Decode | src/lib.rs:116-146 | each field's converter yields a value of that field's kind |
| GeneralFields.Get | src/lib.rs:28-49 | reading a field yields a value of its kind |
| GeneralFields.Set | src/lib.rs:116-146 | writing a field stores the value there |
| GeneralFields.SetOther | src/lib.rs:116-146 | writing one field leaves every other field as it was |
| GeneralFields.Extensionality | src/lib.rs:28-49 | two records that agree on every field are equal |
| GeneralFields.SetGet | src/lib.rs:116-146 | writing back a field's value changes nothing |
| GeneralFields.SetSet | src/lib.rs:116-146 | a second write to a field overrides the first |
| GeneralFields.SetCommute | src/lib.rs:116-146 | writes to two different fields commute |
| GeneralFields.ApplyGeneral | src/lib.rs:113-149 | definition of `parse_general` on a record, generic in the four converters; `ApplyGeneralCases`, `ApplyGeneralKeyValue` and `ApplyDecodesTo` state it |
| GeneralFields.ApplyField | src/lib.rs:115-148 | definition of the match on the trimmed key and value; `ApplyGeneralKeyValue` states it |
| GeneralFields.ApplyGeneralCases | src/lib.rs:113-149 | `parse_general` fails without a colon, changes nothing for an unknown key, fails when the value does not convert, and otherwise writes the converted value into the key's field |
| GeneralFields.ApplyGeneralKeyValue | src/lib.rs:113-149 | for `key:value`, an unknown trimmed key changes nothing; a known one succeeds exactly when the trimmed value converts, stores it in its field and leaves every other field unchanged, and fails with that key and value otherwise |
| GeneralFields.ApplyGeneralFailureIndependent | src/lib.rs:113-149 | whether a line fails, and with which error, does not depend on the record |
| GeneralFields.ApplyGeneralIdempotent | src/lib.rs:113-149 | applying a line a second time changes nothing |
| GeneralFields.ApplyGeneralLastWins | src/lib.rs:113-149 | of two lines with the same key, the last one wins |
| GeneralFields.ApplyGeneralCommute | src/lib.rs:113-149 | successful lines with different keys can be applied in either order |
| GeneralFields.SetEnumFields | src/lib.rs:120-134 | a write changes countdown, sample set, mode or overlay only when that is the field written |
| GeneralFields.DecodeEnumFields | src/lib.rs:120-134 | the four enumeration-like fields take their values from the revision's converters |
| GeneralFields.ChangedEnumFromConverter | hoshizora-parser/src/general.rs:147-162 | after a successful line, a changed enumeration field holds a value its converter can produce |
| GeneralFields.ApplyDecodesTo | src/lib.rs:113-149 | a line that names a field and whose value converts sets exactly that field |
| GeneralFields.EntryDecodesTo | src/lib.rs:114-115 | an indented `Key:` line whose trimmed rest converts decodes to that field and value |
| GeneralFields.ApplyGeneralLines | src/lib.rs:192-194 | definition of the tests' loop over `parse_general`; `ApplyGeneralLinesCons`, `ApplyGeneralLinesSingle` and `ApplyGeneralLinesDecode` state it |
| GeneralFields.ApplyGeneralLinesCons | src/lib.rs:192-194 | after a successful first line, the loop goes on from the updated record |
| GeneralFields.ApplyGeneralLinesSingle | src/lib.rs:192-194 | a one-line loop gives the result of that line |
| GeneralFields.GetSetAllUntouched | src/lib.rs:192-194 | fields that no line names keep their values |
| GeneralFields.GetSetAllLast | src/lib.rs:192-194 | each field holds the value of the last line that names it |
| GeneralFields.SetAllFieldsReads | src/lib.rs:28-49 | writing one value to each of the nineteen fields gives the record that reads as those values, whatever it started from |
| GeneralFields.ApplyGeneralLinesDecode | src/lib.rs:192-194 | lines that each decode to a field and value, fed in order, give the record with those values written in order |
| LibParser.NewGeneral | src/lib.rs:51-75 | `General::new()`: empty texts, zero lead-in and offset, preview time -1, countdown 1, sample set "Normal", mode 0, overlay "NoChange", stack leniency 0.7, story fire in front true and every other flag false |
| LibParser.RawDecodeEnumFields | src/lib.rs:120-134 | in this revision countdown and mode accept exactly the `u32` texts, and sample set and overlay store any text unchanged |
| LibParser.RawDecoders | src/lib.rs:120-134 | definition of this revision's converters: `u32` for countdown and mode, the trimmed text for sample set and overlay; `RawDecodeEnumFields` states it |
| LibParser.ApplyRawGeneral | src/lib.rs:113-149 | definition of this revision's `parse_general`; `RawDecodeEnumFields` and `RawTextFieldsFromLine` state it, with every `GeneralFields.ApplyGeneral` lemma |
| LibParser.RawTextFieldsFromLine | src/lib.rs:121-134 | a changed sample set or overlay position holds the trimmed value of a line with that key |
| LibParser.Beatmap.constructor | src/lib.rs:83-90 | `Beatmap::new()`: both sections at their defaults |
| LibParser.ParseGeneral | src/lib.rs:113-149 | the in-place `parse_general` leaves the record `ApplyGeneral` gives, or reports its error with the record unchanged; `difficulty` never changes |
| LibParser.ParseGeneralEntry | src/lib.rs:115-148 | the nineteen-arm match writes the field the key table names with the converted value, and only that field |
| LibParser.ParseDifficulty | src/lib.rs:151-164 | the in-place `parse_difficulty` leaves the record `ApplyDifficulty` gives, or reports its error with the record unchanged; `general` never changes |
| LibParser.ParseDifficultyEntry | src/lib.rs:153-163 | the six-arm match writes the field the key names with the parsed `f32` |
| LibParser.ParseGeneralLines | src/lib.rs:192-194 | the test loop over `parse_general` ends with the record of the lines applied in order, or with the first error |
| LibParser.ParseDifficultyLines | src/lib.rs:234-236 | the test loop over `parse_difficulty` ends with the record of the lines applied in order, or with the first error |
| LibParser.Admits | src/lib.rs:97 | definition of the line guard, as written or as intended; `BlankNotComment`, `AsWrittenSkipsContent` and `IntendedSkipsBlankAndComments` state it |
| LibParser.IsHeader | src/lib.rs:98 | definition of the header test, `get_section` giving anything but `None(line)`; `StepCases` and `StepFrame` state it |
| LibParser.Step | src/lib.rs:96-107 | definition of one iteration of the loop of `parse`; `StepCases` and `StepFrame` state it |
| LibParser.Run | src/lib.rs:96-108 | definition of the loop of `parse`; `RunCons`, `RunGeneralSection` and `RunDifficultySection` state it |
| LibParser.ParseText | src/lib.rs:92-111 | definition of `parse` on the lines of a text; `AsWrittenIgnoresText` and `GuardExample` state it |
| LibParser.Init | src/lib.rs:93-94 | `parse` starts in `Format` with both records at their defaults |
| LibParser.RunCons | src/lib.rs:96-108 | the loop of `parse` is the first step followed by the loop over the rest |
| LibParser.StepCases | src/lib.rs:97-105 | one line: skipped when the guard rejects it, a section switch at a header, the current section's decoder otherwise, and a failure in any section without a decoder |
| LibParser.Parse | src/lib.rs:92-111 | `parse` returns a fresh beatmap holding the records `ParseText` gives, or that function's error |
| LibParser.ParseLine | src/lib.rs:96-107 | one iteration of the loop leaves the section and records that `Step` gives, or reports its error |
| LibParser.BlankNotComment | src/lib.rs:97 | a blank line never starts with "//" |
| LibParser.StepFrame | src/lib.rs:97-105 | the section changes only at an admitted header, to that header's section; `general` changes only in `[General]` and `difficulty` only in `[Difficulty]`, both through an admitted content line; a failure needs an admitted content line |
| LibParser.RunGeneralSection | src/lib.rs:101-102 | admitted content lines in `[General]` are decoded in order into the general record and nothing else changes |
| LibParser.RunDifficultySection | src/lib.rs:101-103 | admitted content lines in `[Difficulty]` are decoded in order into the difficulty record and nothing else changes |
| LibParser.AsWrittenSkipsContent | src/lib.rs:96-97 | as written, non-blank lines leave the state as it was, headers and settings alike |
| LibParser.AsWrittenIgnoresText | src/lib.rs:92-111 | as written, a text without blank lines yields the defaults of `Beatmap::new()` |
| LibParser.AsWrittenFailsAtBlankLine | src/lib.rs:97-104 | as written, with a classifier that takes no blank line for a header, the first blank line reaches `todo!()` in `Format` |
| LibParser.AsWrittenSkipsSection | src/lib.rs:97 | as written, a `[General]` header followed by settings changes nothing |
| LibParser.IntendedSkipsBlankAndComments | src/lib.rs:97 | with the intended guard, blank lines and comments are skipped |
| LibParser.IntendedReadsSection | src/lib.rs:97-102 | with the intended guard, a `[General]` header followed by settings decodes the settings, in order, into the default record |
| LibParser.GuardExample | src/lib.rs:97 | on the two lines `[General]` and `Mode: 1`, the source's guard returns mode 0 and the intended one mode 1 |
| LibTests.TestParseRawGeneral | src/lib.rs:171-222 | the nineteen lines of `test_parse_general`, trailing space included, are what `lines` yields and decode into the expected record |
| LibTests.RawTestTrim | src/lib.rs:180 | the padding around each value of the test, the trailing space included, is trimmed away |
| LibTests.RawTestTextDecode | src/lib.rs:172-218 | each value of the test converts to the expected field |
| LibTests.GeneralTest | src/lib.rs:170-223 | from `Beatmap::new()`, the test's lines give the expected `General` and leave `difficulty` at `Difficulty::new()` |
| LibTests.DifficultyTest | src/lib.rs:225-252 | from `Beatmap::new()`, the six lines set the expected difficulty and leave `general` at `General::new()` |
| TypedGeneral.New | hoshizora-parser/src/general.rs:108-138 | `General::new()`, which `default()` returns too: countdown `Normal`, sample set `Normal`, mode `Osu`, overlay `NoChange`, preview time -1, stack leniency 0.7, story fire in front true, every other flag false, empty texts and zero integers |
| TypedGeneral.SampleSetNormalOnlyByDefault | hoshizora-parser/src/general.rs:148 | after a successful line, the sample set is `Normal` only if it already was |
| TypedGeneral.TypedDecoders | hoshizora-parser/src/general.rs:147-162 | definition of this revision's converters, the four `from_str` of `GeneralEnums`; `SampleSetNormalOnlyByDefault` and `GeneralFields.ChangedEnumFromConverter` state it |
| TypedGeneral.ApplyTypedGeneral | hoshizora-parser/src/general.rs:140-178 | definition of the typed `parse_general`; `SampleSetNormalOnlyByDefault` states it, with every `GeneralFields.ApplyGeneral` lemma |
| TypedGeneral.TestParseGeneral | hoshizora-parser/src/general.rs:186-242 | the test's nineteen lines decode into the expected record: countdown `None`, sample set `Drum`, mode `Taiko`, overlay `Below`, story fire in front false |
| TypedGeneral.TestTextDecode | hoshizora-parser/src/general.rs:187-235 | each value of the test converts to the expected field |
| TypedGeneral.CountdownZeroFact | hoshizora-parser/src/general.rs:191 | "0" is the countdown `None` |
| TypedGeneral.ModeOneFact | hoshizora-parser/src/general.rs:194 | "1" is the mode `Taiko` |
| TypedGeneral.DrumFact | hoshizora-parser/src/general.rs:192 | "Drum" is the sample set `Drum` |
| Hoshizora.Beatmap.constructor | hoshizora-parser/src/general.rs:206 | `Beatmap::default()`: every section modelled here at its default |
| Hoshizora.ParseGeneral | hoshizora-parser/src/general.rs:140-178 | the typed in-place `parse_general` leaves the record `ApplyTypedGeneral` gives, or reports its error with the record unchanged; `metadata` and `difficulty` never change |
| Hoshizora.ParseGeneralEntry | hoshizora-parser/src/general.rs:142-177 | the match writes the field the key table names with the converted value, enumerations through their `from_str` |
| Hoshizora.ParseMetadata | hoshizora-parser/src/metadata.rs:46-61 | the in-place `parse_metadata` leaves the record `ApplyMetadata` gives, or reports its error with the record unchanged; `general` and `difficulty` never change |
| Hoshizora.ParseMetadataEntry | hoshizora-parser/src/metadata.rs:48-60 | the ten-arm match writes the field the key names with the converted value |
| Hoshizora.ParseGeneralLines | hoshizora-parser/src/general.rs:207-209 | the test loop over `parse_general` ends with the lines applied in order, or with the first error |
| Hoshizora.ParseMetadataLines | hoshizora-parser/src/metadata.rs:81-83 | the test loop over `parse_metadata` ends with the lines applied in order, or with the first error |
| Hoshizora.GeneralTest | hoshizora-parser/src/general.rs:185-243 | from `Beatmap::default()`, the test's lines give the expected `General`, and metadata and difficulty stay at their defaults |
| Hoshizora.MetadataTest | hoshizora-parser/src/metadata.rs:68-108 | from `Beatmap::default()`, the test's lines give the expected `Metadata`, and general and difficulty stay at their defaults |
| MetadataSection.Default | hoshizora-parser/src/metadata.rs:3-15 | `Metadata::default()`: every text empty, no tags, both identifiers 0 |
| MetadataSection.KeyName | hoshizora-parser/src/metadata.rs:49-58 | definition of the key each field is written under; `KeyTable` and `KeyNameInjective` state it |
| MetadataSection.FieldOf | hoshizora-parser/src/metadata.rs:48-59 | definition of the key match of `parse_metadata`; `KeyTable` states it |
| MetadataSection.FindField | hoshizora-parser/src/metadata.rs:48-59 | a key found in a table is the name of a field in it, and no field of the table has a key that is not found |
| MetadataSection.FieldIndex | hoshizora-parser/src/metadata.rs:3-15 | every field has its place in the list of the ten fields |
| MetadataSection.KeyTable | hoshizora-parser/src/metadata.rs:48-59 | the key table recognises a key exactly when it is the name of that field, case and all |
| MetadataSection.KeyNameInjective | hoshizora-parser/src/metadata.rs:48-59 | no two fields share a key |
| MetadataSection.TagsOf | hoshizora-parser/src/metadata.rs:56 | the tags are at least one piece, none containing a space |
| MetadataSection.Decode | hoshizora-parser/src/metadata.rs:49-58 | each field's converter yields a value of that field's kind |
| MetadataSection.DecodeText | hoshizora-parser/src/metadata.rs:49-55 | the seven text keys store the trimmed value verbatim |
| MetadataSection.DecodeTags | hoshizora-parser/src/metadata.rs:56 | `Tags` always succeeds; joining its pieces with a space gives back the value, there is one piece more than spaces, no piece holds a space, and an empty value gives `[""]` |
| MetadataSection.TagsOfJoin | hoshizora-parser/src/metadata.rs:56 | space-free words joined with spaces are split back into the same words, in order |
| MetadataSection.DecodeIds | hoshizora-parser/src/metadata.rs:57-58 | `BeatmapID` and `BeatmapSetID` succeed exactly when the value is a `u32`, and store it |
| MetadataSection.Get | hoshizora-parser/src/metadata.rs:3-15 | reading a field yields a value of its kind |
| MetadataSection.Set | hoshizora-parser/src/metadata.rs:49-58 | writing a field stores the value there |
| MetadataSection.SetOther | hoshizora-parser/src/metadata.rs:49-58 | writing one field leaves every other field as it was |
| MetadataSection.Extensionality | hoshizora-parser/src/metadata.rs:3-15 | two records that agree on every field are equal |
| MetadataSection.SetSet | hoshizora-parser/src/metadata.rs:49-58 | a second write to a field overrides the first |
| MetadataSection.ApplyMetadata | hoshizora-parser/src/metadata.rs:46-61 | definition of `parse_metadata` on a record; `ApplyMetadataCases`, `ApplyMetadataKeyValue` and `ApplyMetadataFailures` state it |
| MetadataSection.ApplyField | hoshizora-parser/src/metadata.rs:48-60 | definition of the match on the trimmed key and value; `ApplyMetadataKeyValue` states it |
| MetadataSection.ApplyMetadataSplit | hoshizora-parser/src/metadata.rs:47-48 | a line with a colon is decoded from its trimmed key and trimmed value |
| MetadataSection.ApplyMetadataCases | hoshizora-parser/src/metadata.rs:46-61 | `parse_metadata` fails without a colon, changes nothing for an unknown key, fails when the value does not convert, and otherwise writes the converted value into the key's field |
| MetadataSection.ApplyMetadataKeyValue | hoshizora-parser/src/metadata.rs:46-61 | for `key:value`, an unknown trimmed key changes nothing; a known one succeeds exactly when the trimmed value converts, stores it in its field and leaves every other field unchanged, and fails with that key and value otherwise |
| MetadataSection.ApplyMetadataFailures | hoshizora-parser/src/metadata.rs:47-58 | a line fails exactly when it has no colon, or when it names an identifier and its value is not a `u32` |
| MetadataSection.DecodeRejects | hoshizora-parser/src/metadata.rs:57-58 | only the identifiers' converter can fail, and only on non-`u32` values |
| MetadataSection.ApplyMetadataIdempotent | hoshizora-parser/src/metadata.rs:49-58 | applying a line a second time changes nothing |
| MetadataSection.ApplyMetadataLastWins | hoshizora-parser/src/metadata.rs:49-58 | of two lines with the same key, the last one wins |
| MetadataSection.ApplyMetadataLines | hoshizora-parser/src/metadata.rs:81-83 | definition of the test's loop over `parse_metadata`; `ApplyMetadataLinesCons` and `ApplyMetadataLinesDecode` state it |
| MetadataSection.ApplyMetadataLinesCons | hoshizora-parser/src/metadata.rs:81-83 | after a successful first line, the loop goes on from the updated record |
| MetadataSection.ApplyDecodesTo | hoshizora-parser/src/metadata.rs:47-58 | a line that names a field and whose value converts sets exactly that field |
| MetadataSection.EntryDecodesTo | hoshizora-parser/src/metadata.rs:47-48 | an indented `Key:` line whose trimmed rest converts decodes to that field and value |
| MetadataSection.GetSetAllUntouched | hoshizora-parser/src/metadata.rs:81-83 | fields that no line names keep their values |
| MetadataSection.GetSetAllLast | hoshizora-parser/src/metadata.rs:81-83 | each field holds the value of the last line that names it |
| MetadataSection.ApplyMetadataLinesDecode | hoshizora-parser/src/metadata.rs:81-83 | lines that each decode to a field and value, fed in order, give the record with those values written in order |
| MetadataSection.TestParseMetadata | hoshizora-parser/src/metadata.rs:69-107 | the test's ten lines, `Source:` with an empty value included, decode into the expected record: title "End Time", creator "PaRaDogi", empty source, tags ["DeviousPanda"], identifiers 2797865 and 1351450 |
| MetadataSection.TestTextDecode | hoshizora-parser/src/metadata.rs:70-101 | each value of the test converts to the expected field |
| MetadataSection.BeatmapIdFact | hoshizora-parser/src/metadata.rs:78 | "2797865" is the `u32` 2797865 |
| MetadataSection.BeatmapSetIdFact | hoshizora-parser/src/metadata.rs:79 | "1351450" is the `u32` 1351450 |
| MetadataSection.TagsFact | hoshizora-parser/src/metadata.rs:77 | "DeviousPanda" is the single tag "DeviousPanda" |
| DifficultySection.New | src/difficulty.rs:13-24 | `Difficulty::new()`: HP, CS, OD and AR 5.0, slider multiplier 1.4, slider tick rate 1.0 |
| DifficultySection.KeyName | src/difficulty.rs:29-36 | definition of the key each field is written under; `KeyTable` and `KeyNameInjective` state it |
| DifficultySection.FieldOf | src/difficulty.rs:28-37 | definition of the key match of `parse_difficulty`; `KeyTable` states it |
| DifficultySection.FindField | src/difficulty.rs:28-37 | a key found in a table is the name of a field in it, and no field of the table has a key that is not found |
| DifficultySection.FieldIndex | src/difficulty.rs:3-11 | every field has its place in the list of the six fields |
| DifficultySection.KeyTable | src/difficulty.rs:28-37 | the key table recognises exactly the six names, case and all, each for its field |
| DifficultySection.KeyNameInjective | src/difficulty.rs:28-37 | no two fields share a key |
| DifficultySection.Get | src/difficulty.rs:3-11 | definition of reading one field of the record; `Set`, `SetOther` and `Extensionality` state it |
| DifficultySection.Set | src/difficulty.rs:29-36 | writing a field stores the value there |
| DifficultySection.SetOther | src/difficulty.rs:29-36 | writing one field leaves every other field as it was |
| DifficultySection.Extensionality | src/difficulty.rs:3-11 | two records that agree on every field are equal |
| DifficultySection.SetSet | src/difficulty.rs:29-36 | a second write to a field overrides the first |
| DifficultySection.ApplyDifficulty | src/difficulty.rs:26-39 | definition of `parse_difficulty` on a record; `ApplyDifficultyCases`, `ApplyDifficultyKeyValue` and `ApplyDecodesTo` state it |
| DifficultySection.ApplyField | src/difficulty.rs:28-38 | definition of the match on the trimmed key and value; `ApplyDifficultyKeyValue` states it |
| DifficultySection.ApplyDifficultyCases | src/difficulty.rs:26-39 | `parse_difficulty` fails without a colon, changes nothing for an unknown key, fails when the value is not an `f32`, and otherwise writes the parsed value into the key's field |
| DifficultySection.ApplyDifficultyKeyValue | src/difficulty.rs:26-39 | for `key:value`, an unknown trimmed key changes nothing; a known one succeeds exactly when the trimmed value is an `f32`, stores it in its field and leaves the other five unchanged, and fails with that key and value otherwise |
| DifficultySection.ApplyDifficultyIdempotent | src/difficulty.rs:29-36 | applying a line a second time changes nothing |
| DifficultySection.ApplyDifficultyLastWins | src/difficulty.rs:29-36 | of two lines with the same key, the last one wins |
| DifficultySection.ApplyDifficultyLines | src/difficulty.rs:55-57 | definition of the test's loop over `parse_difficulty`; `ApplyDifficultyLinesCons` and `ApplyDifficultyLinesDecode` state it |
| DifficultySection.ApplyDifficultyLinesCons | src/difficulty.rs:55-57 | after a successful first line, the loop goes on from the updated record |
| DifficultySection.ApplyDecodesTo | src/difficulty.rs:27-36 | a line that names a field and whose value parses sets exactly that field |
| DifficultySection.EntryDecodesTo | src/difficulty.rs:27-28 | an indented `Key:` line whose trimmed rest parses decodes to that field and value |
| DifficultySection.GetSetAllUntouched | src/difficulty.rs:55-57 | fields that no line names keep their values |
| DifficultySection.GetSetAllLast | src/difficulty.rs:55-57 | each field holds the value of the last line that names it |
| DifficultySection.ApplyDifficultyLinesDecode | src/difficulty.rs:55-57 | lines that each decode to a field and value, fed in order, give the record with those values written in order |
| DifficultySection.TestParseDifficulty | src/difficulty.rs:47-73 | the test's six lines are what `lines` yields and decode into HP 6.0, CS 4.2, OD 8.5, AR 9.8, slider multiplier 1.4 and tick rate 2.0 |
| DifficultySection.TestTextDecode | src/difficulty.rs:48-53 | each value of the test parses to the expected `f32` |
| DifficultySection.TenthsFact | src/difficulty.rs:48-53 | a one-digit decimal of the test parses to its value in tenths |

## Left out

- `Metadata::new` (hoshizora-parser/src/metadata.rs:17-44) is not modelled. It is a constructor that copies its ten arguments into the fields and has nothing to state beyond that.
- `get_section` and the `file_sections` module are not part of this model. The driver receives the classifier as a parameter `getSection`. `NotHeader(line)` stands for the source's `FileSections::None(line)`.
- Float32.ParseF32: returns the exact decimal value as a real. It does not model rounding to the nearest `f32`, overflow to infinity, underflow to zero or the sign of zero. These need floating point.
- The panics (`unwrap`, `todo!()`) are modelled as `Fail`/`Failure` values naming the cause. Unwinding and the panic message are not modelled, because they are process behaviour. Where the source would panic, a decoder leaves the record unchanged. This matches the source, which computes the value before it assigns the field.
- strum's `EnumString` derive and its `ParseError` are replaced by the explicit name table of `OverlayFromStr`. Every rejection is `None`.
- The Format, Editor, Events, TimingPoints, Colours and HitObjects sections, and the matching fields of hoshizora-parser's `Beatmap` (format, editor, timing points, hit objects), are not modelled. Their code is not part of this model. The `editor` field that the src/difficulty.rs test compares is left out for the same reason.
- Hoshizora.Beatmap.constructor: takes the `[Difficulty]` default of hoshizora-parser to be `Difficulty::new()` of src/difficulty.rs. hoshizora-parser's own difficulty module is not part of this model.
- The test methods read the multi-line literals as lines joined by line feeds, with an abstract indentation `w`: any whitespace without line feeds, twelve spaces in the source. The literal's exact byte content is not restated.
- LibParser.ParseGeneralLines: on a line that fails, the contract gives the error but not the record left by the earlier lines. The source's test loop panics there, so no later code sees that record.
- LibParser.ParseDifficultyLines: on a line that fails, the contract gives the error but not the record left by the earlier lines, for the same reason.
- Hoshizora.ParseGeneralLines: on a line that fails, the contract gives the error but not the record left by the earlier lines, for the same reason.
- Hoshizora.ParseMetadataLines: on a line that fails, the contract gives the error but not the record left by the earlier lines, for the same reason.
- LibParser.Parse: on a failing line, the contract gives the error but not the beatmap. The source panics there and returns nothing.
- The source has no I/O, concurrency or serialisation in these files.

## Findings

| source | as written | input that shows it | evidently intended | confidence | as-written member | corrected member |
|---|---|---|---|---|---|---|
| src/lib.rs:97 | the guard of `parse` admits only lines that are blank after trimming, so every header and every setting is skipped, and the first blank line reaches `todo!()` while the section is still `Format` (unless the classifier takes a blank line for a header) | the text "[General]\nMode: 1" gives mode 0, the default | admit the lines that are not blank and are not `//` comments, so that the header selects `[General]` and the setting sets mode 1 | not executed | LibParser.GuardExample | LibParser.IntendedReadsSection |

The driver is parametric in the guard. `AsWritten` is the source's condition: `LibParser.AsWrittenSkipsContent`, `LibParser.AsWrittenIgnoresText` and `LibParser.AsWrittenFailsAtBlankLine` state what it does to any text. `Intended` is the corrected condition: `LibParser.IntendedSkipsBlankAndComments`, `LibParser.IntendedReadsSection` and `LibParser.RunDifficultySection` state that it skips blank lines and comments and decodes each section's settings in order. `LibParser.GuardExample` shows both guards on the same two-line input.
