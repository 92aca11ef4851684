/** The string primitives the decoders rely on: `str::trim`, `str::starts_with`,
    `str::split_once`, `str::split`, `[String]::join` and `str::lines`, each with
    the properties that pin down what it returns. */
module Text {
  import opened Wrappers

  /** Unicode White_Space, the property behind `char::is_whitespace` and
      therefore behind `str::trim`: U+0009..U+000D, U+0020, U+0085, U+00A0,
      U+1680, U+2000..U+200A, U+2028, U+2029, U+202F, U+205F and U+3000. */
  predicate IsWhitespace(c: char) {
    || ('\t' <= c <= '\r')
    || c == ' '
    || c == '\U{85}'
    || c == '\U{A0}'
    || c == '\U{1680}'
    || ('\U{2000}' <= c <= '\U{200A}')
    || c == '\U{2028}'
    || c == '\U{2029}'
    || c == '\U{202F}'
    || c == '\U{205F}'
    || c == '\U{3000}'
  }

  predicate AllWhitespace(s: string) {
    forall i :: 0 <= i < |s| ==> IsWhitespace(s[i])
  }

  /** No whitespace at either end (vacuously true of the empty string). */
  predicate Trimmed(s: string) {
    s == [] || (!IsWhitespace(s[0]) && !IsWhitespace(s[|s| - 1]))
  }

  /** `str::trim_start`: drops the leading whitespace, keeps the rest. */
  function TrimStart(s: string): (r: string)
    ensures |r| <= |s| && r == s[|s| - |r|..]
    ensures AllWhitespace(s[..|s| - |r|])
    ensures r == [] || !IsWhitespace(r[0])
  {
    if s != [] && IsWhitespace(s[0]) then
      var r := TrimStart(s[1..]);
      assert s[..|s| - |r|] == [s[0]] + s[1..][..|s[1..]| - |r|];
      r
    else
      s
  }

  /** `str::trim_end`: drops the trailing whitespace, keeps the rest. */
  function TrimEnd(s: string): (r: string)
    ensures |r| <= |s| && r == s[..|r|]
    ensures AllWhitespace(s[|r|..])
    ensures r == [] || !IsWhitespace(r[|r| - 1])
  {
    if s != [] && IsWhitespace(s[|s| - 1]) then
      var r := TrimEnd(s[..|s| - 1]);
      assert s[|r|..] == s[..|s| - 1][|r|..] + [s[|s| - 1]];
      r
    else
      s
  }

  /** `str::trim`: both ends. */
  function Trim(s: string): (r: string)
  {
    TrimEnd(TrimStart(s))
  }

  lemma {:induction false} TrimStartSkips(w: string, t: string)
    requires AllWhitespace(w)
    requires t == [] || !IsWhitespace(t[0])
    ensures TrimStart(w + t) == t
    decreases |w|
  {
    if w != [] {
      assert (w + t)[1..] == w[1..] + t;
      TrimStartSkips(w[1..], t);
    }
  }

  lemma {:induction false} TrimEndSkips(t: string, w: string)
    requires AllWhitespace(w)
    requires t == [] || !IsWhitespace(t[|t| - 1])
    ensures TrimEnd(t + w) == t
    decreases |w|
  {
    if w != [] {
      assert (t + w)[..|t + w| - 1] == t + w[..|w| - 1];
      TrimEndSkips(t, w[..|w| - 1]);
    }
  }

  /** What `trim` returns: the input is the result with whitespace on both
      sides, and the result has no whitespace at its ends. */
  lemma TrimSpec(s: string)
    ensures Trimmed(Trim(s))
    ensures exists i, j :: 0 <= i <= j <= |s| && Trim(s) == s[i..j]
                           && AllWhitespace(s[..i]) && AllWhitespace(s[j..])
  {
    var t := TrimStart(s);
    var i := |s| - |t|;
    var r := TrimEnd(t);
    if r != [] {
      assert r[0] == t[0];
    }
    assert Trimmed(r);
    assert s[i..i + |r|] == r by {
      assert t == s[i..];
      assert r == t[..|r|];
    }
    assert s[i + |r|..] == t[|r|..];
    assert AllWhitespace(s[..i]) && AllWhitespace(s[i + |r|..]);
    assert Trim(s) == s[i..i + |r|];
  }

  /** Conversely, any whitespace-padded trimmed string trims to itself: the
      decomposition of `TrimSpec` is unique. */
  lemma TrimUnique(w1: string, m: string, w2: string)
    requires AllWhitespace(w1) && AllWhitespace(w2) && Trimmed(m)
    ensures Trim(w1 + m + w2) == m
  {
    if m == [] {
      assert w1 + m + w2 == w1 + w2 + [];
      assert AllWhitespace(w1 + w2);
      TrimStartSkips(w1 + w2, []);
    } else {
      assert w1 + m + w2 == w1 + (m + w2);
      TrimStartSkips(w1, m + w2);
      TrimEndSkips(m, w2);
    }
  }

  /** One space before a trimmed string is trimmed away. */
  lemma TrimSpaced(m: string)
    requires Trimmed(m)
    ensures Trim(" " + m) == m
  {
    TrimUnique(" ", m, []);
    assert " " + m + [] == " " + m;
  }

  /** A trimmed string is its own trim. */
  lemma TrimmedSelf(m: string)
    requires Trimmed(m)
    ensures Trim(m) == m
  {
    TrimUnique([], m, []);
    assert [] + m + [] == m;
  }

  /** A string trims to nothing exactly when it is all whitespace. */
  lemma TrimEmpty(s: string)
    ensures Trim(s) == "" <==> AllWhitespace(s)
  {
    if AllWhitespace(s) {
      TrimUnique(s, [], []);
      assert s + [] + [] == s;
    }
  }

  lemma TrimIdempotent(s: string)
    ensures Trim(Trim(s)) == Trim(s)
  {
    TrimSpec(s);
    TrimmedSelf(Trim(s));
  }

  /** `str::starts_with` on a literal prefix. */
  predicate StartsWith(s: string, prefix: string) {
    |prefix| <= |s| && s[..|prefix|] == prefix
  }

  /** Position of the first occurrence of `c`, if any. */
  function IndexOf(s: string, c: char): (r: Option<nat>)
    ensures r.None? <==> c !in s
    ensures r.Some? ==> r.value < |s| && s[r.value] == c && c !in s[..r.value]
  {
    if s == [] then None
    else if s[0] == c then Some(0)
    else match IndexOf(s[1..], c)
      case None => None
      case Some(i) =>
        assert s[..i + 1] == [s[0]] + s[1..][..i];
        Some(i + 1)
  }

  lemma IndexOfUnique(s: string, c: char, i: nat)
    requires i < |s| && s[i] == c && c !in s[..i]
    ensures IndexOf(s, c) == Some(i)
  {
  }

  /** `str::split_once`: the text before and after the FIRST `c`. */
  function SplitOnce(s: string, c: char): (r: Option<(string, string)>)
    ensures r.None? <==> c !in s
    ensures r.Some? ==> r.value.0 + [c] + r.value.1 == s && c !in r.value.0
  {
    match IndexOf(s, c)
    case None => None
    case Some(i) =>
      assert s[..i] + [c] + s[i + 1..] == s;
      Some((s[..i], s[i + 1..]))
  }

  /** Any split of `s` at a `c` whose left part has no `c` is the one
      `SplitOnce` finds, so the right part may itself contain `c`. */
  lemma SplitOnceUnique(s: string, c: char, k: string, v: string)
    requires k + [c] + v == s && c !in k
    ensures SplitOnce(s, c) == Some((k, v))
  {
    assert s[..|k|] == k;
    IndexOfUnique(s, c, |k|);
    assert s[|k| + 1..] == v;
  }

  /** `str::split` on a single character: every piece between separators,
      including empty ones, in order. */
  function Split(s: string, c: char): (r: seq<string>)
    ensures |r| >= 1
    ensures forall i :: 0 <= i < |r| ==> c !in r[i]
    decreases |s|
  {
    match IndexOf(s, c)
    case None => [s]
    case Some(i) => [s[..i]] + Split(s[i + 1..], c)
  }

  /** `[String]::join`. */
  function Join(pieces: seq<string>, sep: string): string
  {
    if |pieces| == 0 then ""
    else if |pieces| == 1 then pieces[0]
    else pieces[0] + sep + Join(pieces[1..], sep)
  }

  lemma JoinCons(piece: string, pieces: seq<string>, sep: string)
    requires |pieces| >= 1
    ensures Join([piece] + pieces, sep) == piece + sep + Join(pieces, sep)
  {
    assert ([piece] + pieces)[1..] == pieces;
  }

  /** Joining the pieces back with the separator restores the input. */
  lemma {:induction false} JoinSplit(s: string, c: char)
    ensures Join(Split(s, c), [c]) == s
    decreases |s|
  {
    match IndexOf(s, c)
    case None =>
    case Some(i) =>
      var rest := Split(s[i + 1..], c);
      assert Split(s, c) == [s[..i]] + rest;
      JoinCons(s[..i], rest, [c]);
      JoinSplit(s[i + 1..], c);
      assert s == s[..i] + [c] + s[i + 1..];
  }

  /** Splitting a join of separator-free pieces gives the pieces back. */
  lemma {:induction false} SplitJoin(pieces: seq<string>, c: char)
    requires |pieces| >= 1
    requires forall i :: 0 <= i < |pieces| ==> c !in pieces[i]
    ensures Split(Join(pieces, [c]), c) == pieces
    decreases |pieces|
  {
    if |pieces| == 1 {
      assert IndexOf(pieces[0], c).None?;
    } else {
      var rest := pieces[1..];
      assert forall i :: 0 <= i < |rest| ==> c !in rest[i] by {
        forall i | 0 <= i < |rest| ensures c !in rest[i] {
          assert rest[i] == pieces[i + 1];
        }
      }
      SplitJoin(rest, c);
      SplitAt(pieces[0], Join(rest, [c]), c);
      assert pieces == [pieces[0]] + rest;
    }
  }

  /** A split at the first separator, then the rest. */
  lemma SplitAt(k: string, rest: string, c: char)
    requires c !in k
    ensures Split(k + [c] + rest, c) == [k] + Split(rest, c)
  {
    var s := k + [c] + rest;
    IndexOfUnique(s, c, |k|);
    assert s[..|k|] == k;
    assert s[|k| + 1..] == rest;
  }

  /** One piece more than there are separators. */
  lemma {:induction false} SplitCount(s: string, c: char)
    ensures |Split(s, c)| == multiset(s)[c] + 1
    decreases |s|
  {
    match IndexOf(s, c)
    case None =>
    case Some(i) =>
      SplitCount(s[i + 1..], c);
      assert s == s[..i] + [c] + s[i + 1..];
      assert multiset(s) == multiset(s[..i]) + multiset([c]) + multiset(s[i + 1..]);
  }

  /** A trailing carriage return, as `str::lines` strips before a line feed. */
  function StripCarriageReturn(line: string): (r: string)
  {
    if |line| > 0 && line[|line| - 1] == '\r' then line[..|line| - 1] else line
  }

  /** `str::lines`: the text split at each line feed, a carriage return just
      before the line feed removed, and no empty line after a final line feed.
      A last line without a line feed is returned as it is. */
  function Lines(text: string): (r: seq<string>)
    ensures forall i :: 0 <= i < |r| ==> '\n' !in r[i]
    decreases |text|
  {
    if text == [] then []
    else match IndexOf(text, '\n')
      case None => [text]
      case Some(i) => [StripCarriageReturn(text[..i])] + Lines(text[i + 1..])
  }

  predicate IsLineEnding(ending: string) {
    ending == "\n" || ending == "\r\n"
  }

  /** Lines each followed by the given line ending. */
  function Terminated(lines: seq<string>, ending: string): string
  {
    if lines == [] then "" else lines[0] + ending + Terminated(lines[1..], ending)
  }

  /** The first line ends at the first line feed. */
  lemma LinesCons(first: string, rest: string)
    requires '\n' !in first
    ensures Lines(first + "\n" + rest) == [StripCarriageReturn(first)] + Lines(rest)
  {
    var text := first + "\n" + rest;
    IndexOfUnique(text, '\n', |first|);
    assert text[..|first|] == first;
    assert text[|first| + 1..] == rest;
  }

  /** `lines` undoes writing lines out with either line ending. */
  lemma {:induction false} LinesOfTerminated(lines: seq<string>, ending: string)
    requires IsLineEnding(ending)
    requires forall i :: 0 <= i < |lines| ==>
               '\n' !in lines[i] && StripCarriageReturn(lines[i]) == lines[i]
    ensures Lines(Terminated(lines, ending)) == lines
    decreases |lines|
  {
    if lines != [] {
      var l := lines[0];
      var k := l + ending[..|ending| - 1];
      assert l + ending == k + "\n";
      assert '\n' !in k;
      assert StripCarriageReturn(k) == l;
      LinesCons(k, Terminated(lines[1..], ending));
      LinesOfTerminated(lines[1..], ending);
      assert lines == [l] + lines[1..];
    }
  }

  /** `lines` also undoes joining lines with line feeds, as a multi-line
      string literal without a final line feed is written, provided the last
      line is not empty. */
  lemma {:induction false} LinesOfJoined(lines: seq<string>)
    requires |lines| >= 1 && lines[|lines| - 1] != ""
    requires forall i :: 0 <= i < |lines| ==>
               '\n' !in lines[i] && StripCarriageReturn(lines[i]) == lines[i]
    ensures Lines(Join(lines, "\n")) == lines
    decreases |lines|
  {
    var l := lines[0];
    if |lines| == 1 {
      LinesOfSingle(l);
    } else {
      var rest := lines[1..];
      assert rest[|rest| - 1] == lines[|lines| - 1];
      assert forall i :: 0 <= i < |rest| ==> '\n' !in rest[i] && StripCarriageReturn(rest[i]) == rest[i] by {
        forall i | 0 <= i < |rest| ensures '\n' !in rest[i] && StripCarriageReturn(rest[i]) == rest[i] {
          assert rest[i] == lines[i + 1];
        }
      }
      LinesOfJoined(rest);
      JoinCons(l, rest, "\n");
      LinesCons(l, Join(rest, "\n"));
      assert lines == [l] + rest;
    }
  }

  lemma LinesOfSingle(l: string)
    requires l != "" && '\n' !in l
    ensures Lines(l) == [l]
  {
    assert IndexOf(l, '\n') == None;
  }

  /** A word that can stand as a key: trimmed, and no position holds a
      colon or a line feed. */
  predicate PlainWord(s: string) {
    Trimmed(s) && forall i :: 0 <= i < |s| ==> s[i] != ':' && s[i] != '\n'
  }

  lemma PlainWordFacts(s: string)
    requires PlainWord(s)
    ensures Trimmed(s) && ':' !in s && '\n' !in s
  {
  }

  /** A `Key:Value` line whose trimmed key and value are `key` and `value`. */
  predicate SplitsAs(line: string, key: string, value: string) {
    && SplitOnce(line, ':').Some?
    && Trim(SplitOnce(line, ':').value.0) == key
    && Trim(SplitOnce(line, ':').value.1) == value
  }

  /** A `key:value` line after some indentation, as the tests lay them out;
      `raw` is all of the line after the colon. */
  function Entry(indent: string, key: string, raw: string): string {
    indent + key + ":" + raw
  }

  /** An entry is one line. */
  lemma EntryOneLine(indent: string, key: string, raw: string)
    requires '\n' !in indent && '\n' !in key && '\n' !in raw && (raw == "" || raw[|raw| - 1] != '\r')
    ensures '\n' !in Entry(indent, key, raw)
    ensures StripCarriageReturn(Entry(indent, key, raw)) == Entry(indent, key, raw)
  {
    var e := Entry(indent, key, raw);
    assert e[|e| - 1] == if raw == "" then ':' else raw[|raw| - 1];
    assert e == indent + key + ":" + raw;
  }

  /** An entry whose key starts with neither whitespace nor a slash is
      neither blank nor a comment, whatever its indentation. */
  lemma EntryNotBlank(indent: string, key: string, raw: string)
    requires AllWhitespace(indent) && key != [] && !IsWhitespace(key[0]) && key[0] != '/'
    ensures Trim(Entry(indent, key, raw)) != "" && !StartsWith(Entry(indent, key, raw), "//")
  {
    var e := Entry(indent, key, raw);
    var rest := key + ":" + raw;
    assert e == indent + rest;
    assert e[|indent|] == key[0];
    NotBlankAt(e, |indent|);
    if indent != [] {
      assert e[0] == indent[0] && IsWhitespace(indent[0]);
    }
    assert e[0] != '/';
    NotPrefixAt(e, "//");
  }

  /** A string with one character that is not whitespace is not blank. */
  lemma NotBlankAt(s: string, i: nat)
    requires i < |s| && !IsWhitespace(s[i])
    ensures Trim(s) != ""
  {
    TrimEmpty(s);
  }

  /** A string does not start with a prefix whose first character differs
      from its own. */
  lemma NotPrefixAt(s: string, prefix: string)
    requires s != [] && prefix != [] && s[0] != prefix[0]
    ensures !StartsWith(s, prefix)
  {
  }

  /** Whitespace before the key is ignored, and the value is everything
      after the first colon, colons included. */
  lemma EntrySplits(indent: string, key: string, raw: string)
    requires AllWhitespace(indent) && Trimmed(key) && ':' !in key
    ensures SplitsAs(Entry(indent, key, raw), key, Trim(raw))
  {
    assert ':' !in indent + key by {
      assert forall c :: c in indent ==> IsWhitespace(c);
    }
    var line := Entry(indent, key, raw);
    assert line == (indent + key) + [':'] + raw;
    SplitOnceUnique(line, ':', indent + key, raw);
    TrimUnique(indent, key, []);
    assert indent + key + [] == indent + key;
  }
}
