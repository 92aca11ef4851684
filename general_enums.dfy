/** The enumerations of the typed `[General]` section and their `from_str`
    mappings (hoshizora-parser/src/general.rs).  `Countdown`, `SampleSet` and
    `Mode` trim their input; `OverlayPosition` is the derived name match,
    which neither trims nor ignores case.  Every rejected token is the
    `VariantNotFound` error, here `None`. */
module GeneralEnums {
  import opened Wrappers
  import opened Text
  import opened Numbers

  datatype Countdown = None | Normal | Half | Double

  datatype SampleSet = Default | Normal | Soft | Drum

  datatype Mode = Osu | Taiko | Catch | Mania

  datatype OverlayPosition = NoChange | Below | Above

  /** The integer code of each countdown speed. */
  function CountdownCode(c: Countdown): nat {
    match c
    case None => 0
    case Normal => 1
    case Half => 2
    case Double => 3
  }

  /** `Countdown::from_str`: the trimmed input read as an `i32`, then 0 to 3. */
  function CountdownFromStr(s: string): Option<Countdown> {
    CountdownOfCode(ParseI32(Trim(s)))
  }

  /** The speed with a code, if the code is one. */
  function CountdownOfCode(t: Option<int>): Option<Countdown> {
    match t
    case None => Option.None
    case Some(t) =>
      if t == 0 then Some(Countdown.None)
      else if t == 1 then Some(Countdown.Normal)
      else if t == 2 then Some(Half)
      else if t == 3 then Some(Double)
      else Option.None
  }

  /** Exactly the strings whose trimmed form is an `i32` equal to a code are
      accepted, each for the speed with that code. */
  lemma CountdownTable(s: string, c: Countdown)
    ensures CountdownFromStr(s) == Some(c) <==> ParseI32(Trim(s)) == Some(CountdownCode(c) as int)
  {
    CountdownCodes(ParseI32(Trim(s)), c);
  }

  /** Any other `i32`, and anything that is not an `i32`, is rejected. */
  lemma CountdownRejects(s: string)
    ensures CountdownFromStr(s).None? <==> (ParseI32(Trim(s)).None? || !(0 <= ParseI32(Trim(s)).value <= 3))
  {
    CountdownCodes(ParseI32(Trim(s)), Countdown.None);
  }

  lemma CountdownCodes(t: Option<int>, c: Countdown)
    ensures CountdownOfCode(t) == Some(c) <==> t == Some(CountdownCode(c) as int)
    ensures CountdownOfCode(t).None? <==> (t.None? || !(0 <= t.value <= 3))
  {
  }

  /** Every speed is recovered from its own code. */
  lemma CountdownRoundTrip(c: Countdown)
    ensures CountdownFromStr(NatToString(CountdownCode(c))) == Some(c)
  {
    var s := NatToString(CountdownCode(c));
    TrimDigitsSigned(s);
    ParseI32RoundTrip(CountdownCode(c));
  }

  /** The integer code of each game mode. */
  function ModeCode(m: Mode): nat {
    match m
    case Osu => 0
    case Taiko => 1
    case Catch => 2
    case Mania => 3
  }

  /** `Mode::from_str`: the trimmed input read as an `i32`, then 0 to 3. */
  function ModeFromStr(s: string): Option<Mode> {
    ModeOfCode(ParseI32(Trim(s)))
  }

  /** The mode with a code, if the code is one. */
  function ModeOfCode(t: Option<int>): Option<Mode> {
    match t
    case None => Option.None
    case Some(t) =>
      if t == 0 then Some(Osu)
      else if t == 1 then Some(Taiko)
      else if t == 2 then Some(Catch)
      else if t == 3 then Some(Mania)
      else Option.None
  }

  lemma ModeTable(s: string, m: Mode)
    ensures ModeFromStr(s) == Some(m) <==> ParseI32(Trim(s)) == Some(ModeCode(m) as int)
  {
    ModeCodes(ParseI32(Trim(s)), m);
  }

  lemma ModeRejects(s: string)
    ensures ModeFromStr(s).None? <==> (ParseI32(Trim(s)).None? || !(0 <= ParseI32(Trim(s)).value <= 3))
  {
    ModeCodes(ParseI32(Trim(s)), Osu);
  }

  lemma ModeCodes(t: Option<int>, m: Mode)
    ensures ModeOfCode(t) == Some(m) <==> t == Some(ModeCode(m) as int)
    ensures ModeOfCode(t).None? <==> (t.None? || !(0 <= t.value <= 3))
  {
  }

  lemma ModeRoundTrip(m: Mode)
    ensures ModeFromStr(NatToString(ModeCode(m))) == Some(m)
  {
    var s := NatToString(ModeCode(m));
    TrimDigitsSigned(s);
    ParseI32RoundTrip(ModeCode(m));
  }

  /** `SampleSet::from_str`: a code or a name, after trimming.  Both "1" and
      "Normal" give `Default`, as the source has it. */
  function SampleSetFromStr(s: string): Option<SampleSet> {
    SampleSetOfToken(Trim(s))
  }

  /** The sample set a trimmed token names. */
  function SampleSetOfToken(t: string): Option<SampleSet> {
    match t
    case "0" => Some(Default)
    case "1" | "Normal" => Some(Default)
    case "2" | "Soft" => Some(Soft)
    case "3" | "Drum" => Some(Drum)
    case _ => Option.None
  }

  /** The tokens each sample set is parsed from. */
  function SampleSetTokens(x: SampleSet): set<string> {
    match x
    case Default => {"0", "1", "Normal"}
    case Normal => {}
    case Soft => {"2", "Soft"}
    case Drum => {"3", "Drum"}
  }

  /** The token table, in both directions. */
  lemma SampleSetTable(s: string, x: SampleSet)
    ensures SampleSetFromStr(s) == Some(x) <==> Trim(s) in SampleSetTokens(x)
  {
    SampleSetTokenTable(Trim(s), x);
  }

  lemma SampleSetTokenTable(t: string, x: SampleSet)
    ensures SampleSetOfToken(t) == Some(x) <==> t in SampleSetTokens(x)
  {
  }

  /** The `Normal` variant is never produced. */
  lemma SampleSetNeverNormal(s: string)
    ensures SampleSetFromStr(s) != Some(SampleSet.Normal)
  {
    SampleSetTable(s, SampleSet.Normal);
  }

  /** The variant names of the overlay position. */
  function OverlayName(o: OverlayPosition): string {
    match o
    case NoChange => "NoChange"
    case Below => "Below"
    case Above => "Above"
  }

  /** The derived `OverlayPosition::from_str`: the exact variant name. */
  function OverlayFromStr(s: string): Option<OverlayPosition> {
    match s
    case "NoChange" => Some(NoChange)
    case "Below" => Some(Below)
    case "Above" => Some(Above)
    case _ => Option.None
  }

  /** Exactly the three variant names are accepted, each for its variant. */
  lemma OverlayTable(s: string, o: OverlayPosition)
    ensures OverlayFromStr(s) == Some(o) <==> s == OverlayName(o)
  {
  }

  /** The three trimming mappers give the same answer on a string and on its
      trimmed form. */
  lemma TrimmingMappersIgnorePadding(s: string)
    ensures CountdownFromStr(Trim(s)) == CountdownFromStr(s)
    ensures ModeFromStr(Trim(s)) == ModeFromStr(s)
    ensures SampleSetFromStr(Trim(s)) == SampleSetFromStr(s)
  {
    TrimIdempotent(s);
  }

  /** The overlay match does neither: padding and case both matter. */
  lemma OverlayIsExact()
    ensures OverlayFromStr("below") == Option.None
    ensures OverlayFromStr(" Below") == Option.None
    ensures OverlayFromStr("Below") == Some(Below)
  {
  }

  /** Signs are read as `i32` reads them: "-0" is code 0, "+1" is code 1, and
      "4" or "-1" are out of the table. */
  lemma CountdownSigns()
    ensures CountdownFromStr("-0") == Some(Countdown.None)
    ensures CountdownFromStr("+1") == Some(Countdown.Normal)
    ensures CountdownFromStr("4") == Option.None
    ensures CountdownFromStr("-1") == Option.None
  {
    SignedCodes();
    CodesOutOfTable();
  }

  lemma SignedCodes()
    ensures ParseI32(Trim("-0")) == Some(0) && ParseI32(Trim("+1")) == Some(1)
  {
    TrimDigitsSigned("-0");
    TrimDigitsSigned("+1");
    ParseMinus("0", true, I32_MIN, I32_MAX);
    ParsePlus("1", true, I32_MIN, I32_MAX);
    ParseDigits("1", true, I32_MIN, I32_MAX);
    assert "-0" == "-" + "0" && "+1" == "+" + "1";
  }

  lemma CodesOutOfTable()
    ensures ParseI32(Trim("4")) == Some(4) && ParseI32(Trim("-1")) == Some(-1)
  {
    TrimDigitsSigned("4");
    TrimDigitsSigned("-1");
    ParseDigits("4", true, I32_MIN, I32_MAX);
    ParseMinus("1", true, I32_MIN, I32_MAX);
    ParseDigits("1", true, I32_MIN, I32_MAX);
    assert "-1" == "-" + "1";
  }

  /** A sign followed by digits, or digits alone, has nothing to trim. */
  lemma TrimDigitsSigned(s: string)
    requires |s| >= 1 && AllDigits(s[1..]) && (IsDigit(s[0]) || s[0] == '+' || s[0] == '-')
    ensures Trim(s) == s
  {
    assert !IsWhitespace(s[0]) && !IsWhitespace(s[|s| - 1]);
    TrimUnique([], s, []);
    assert [] + s + [] == s;
  }
}
