/**
 * The pieces of Go's `strconv` and `strings` packages the tool relies on,
 * restricted to the single-character separators it uses.
 */
module GoText {
  import opened Wrappers

  /** The spellings `strconv.ParseBool` accepts, case-sensitively. */
  const TrueSpellings: set<string> := {"1", "t", "T", "TRUE", "true", "True"}
  const FalseSpellings: set<string> := {"0", "f", "F", "FALSE", "false", "False"}

  /** `strconv.ParseBool`; `None` stands for the syntax error it returns. */
  function ParseBool(s: string): (r: Option<bool>)
    ensures r == Some(true) <==> s in TrueSpellings
    ensures r == Some(false) <==> s in FalseSpellings
    ensures r == None <==> s !in TrueSpellings + FalseSpellings
  {
    if s == "1" || s == "t" || s == "T" || s == "TRUE" || s == "true" || s == "True" then Some(true)
    else if s == "0" || s == "f" || s == "F" || s == "FALSE" || s == "false" || s == "False" then Some(false)
    else None
  }

  /** `strconv.FormatBool`. */
  function FormatBool(b: bool): string {
    if b then "true" else "false"
  }

  lemma ParseFormatRoundTrip(b: bool)
    ensures ParseBool(FormatBool(b)) == Some(b)
  {
  }

  /** `strings.Index` for a one-character separator: the first position of `c`, or -1. */
  function IndexOf(s: string, c: char): (i: int)
    ensures -1 <= i < |s|
    ensures 0 <= i ==> s[i] == c
    ensures forall j :: 0 <= j < |s| && (i == -1 || j < i) ==> s[j] != c
  {
    IndexFrom(s, c, 0)
  }

  /** The first position of `c` at or after `start`, or -1. */
  function IndexFrom(s: string, c: char, start: nat): (i: int)
    requires start <= |s|
    ensures -1 <= i < |s|
    ensures 0 <= i ==> start <= i && s[i] == c
    ensures forall j :: start <= j < |s| && (i == -1 || j < i) ==> s[j] != c
    decreases |s| - start
  {
    if start == |s| then -1
    else if s[start] == c then start
    else IndexFrom(s, c, start + 1)
  }

  /** `strings.SplitN(s, sep, 2)`: cut at the first separator, if any. */
  function SplitFirst(s: string, sep: char): (parts: seq<string>)
    ensures |parts| == 1 || |parts| == 2
    ensures |parts[0]| <= |s| && parts[0] == s[..|parts[0]|]
    ensures forall j :: 0 <= j < |parts[0]| ==> s[j] != sep
    ensures |parts| == 1 ==> parts[0] == s
    ensures |parts| == 2 ==> |parts[0]| < |s| && s[|parts[0]|] == sep && parts[1] == s[|parts[0]| + 1..]
  {
    var i := IndexOf(s, sep);
    if i < 0 then
      assert s[..|s|] == s;
      [s]
    else
      var before := s[..i];
      assert |before| == i;
      [before, s[i + 1..]]
  }

  /** `strings.Join` for a one-character separator. */
  function Join(parts: seq<string>, sep: char): string
  {
    if |parts| == 0 then ""
    else if |parts| == 1 then parts[0]
    else parts[0] + [sep] + Join(parts[1..], sep)
  }

  /** Splitting and joining again gives back the original text. */
  lemma SplitJoinRoundTrip(s: string, sep: char)
    ensures Join(SplitFirst(s, sep), sep) == s
  {
    var parts := SplitFirst(s, sep);
    if |parts| == 2 {
      assert parts[1..] == [parts[1]];
      assert s == parts[0] + [sep] + parts[1];
    }
  }

  /** `strings.ReplaceAll` for one-character old and new strings. */
  function ReplaceAll(s: string, from: char, to: char): (r: string)
    ensures |r| == |s|
    ensures forall i :: 0 <= i < |s| ==> r[i] == (if s[i] == from then to else s[i])
  {
    seq(|s|, i requires 0 <= i < |s| => if s[i] == from then to else s[i])
  }
}
