/** `String.replaceFirst("../", replacement)` as Java evaluates it.  The
    pattern is a regular expression: two arbitrary characters (`.` matches
    anything but a line terminator) followed by a slash.  The replacement is
    not literal text: `Matcher.appendReplacement` reads `\c` as the character
    `c` and `$n` as capture group `n`; the pattern has no groups besides the
    whole match (group 0), so any other group reference throws. */
module JavaRegex {
  import opened JavaLang

  /** The characters `.` does not match when DOTALL is off. */
  predicate IsLineTerminator(c: char)
  {
    c == '\n' || c == '\r' || c == '\U{0085}' || c == '\U{2028}' || c == '\U{2029}'
  }

  /** The pattern `../` matches the three characters of `s` starting at `i`. */
  predicate MatchesAt(s: string, i: int)
  {
    0 <= i && i + 3 <= |s| && !IsLineTerminator(s[i]) && !IsLineTerminator(s[i + 1]) && s[i + 2] == '/'
  }

  /** The leftmost match at or after `from`, or -1. */
  function FirstMatchFrom(s: string, from: nat): (r: int)
    decreases |s| - from
    ensures r == -1 || (from <= r && MatchesAt(s, r))
    ensures forall j :: from <= j && (r == -1 || j < r) ==> !MatchesAt(s, j)
  {
    if from + 3 > |s| then -1
    else if MatchesAt(s, from) then from
    else FirstMatchFrom(s, from + 1)
  }

  /** Drops the leading zeros that extend a `$0` group reference. */
  function SkipZeros(r: string): (t: string)
    ensures |t| <= |r|
  {
    if r != [] && r[0] == '0' then SkipZeros(r[1..]) else r
  }

  /** The text `appendReplacement` produces from `replacement` for a match whose
      text is `matched`, or None when it throws (`\` at the end, `$` at the end,
      `${...}`, a `$` before a non-digit, or a group number other than 0). */
  function Expand(replacement: string, matched: string): Option<string>
    decreases |replacement|
  {
    if replacement == [] then Some([])
    else if replacement[0] == '\\' then
      if |replacement| == 1 then None
      else
        match Expand(replacement[2..], matched)
        case None => None
        case Some(rest) => Some([replacement[1]] + rest)
    else if replacement[0] == '$' then
      if |replacement| == 1 || replacement[1] != '0' then None
      else
        match Expand(SkipZeros(replacement[2..]), matched)
        case None => None
        case Some(rest) => Some(matched + rest)
    else
      match Expand(replacement[1..], matched)
      case None => None
      case Some(rest) => Some([replacement[0]] + rest)
  }

  /** The replacement has none of the characters `appendReplacement` treats specially. */
  predicate IsLiteralReplacement(replacement: string)
  {
    '\\' !in replacement && '$' !in replacement
  }

  /** `s.replaceFirst("../", replacement)`; None when it throws. */
  function ReplaceFirstDotDotSlash(s: string, replacement: string): Option<string>
  {
    var i := FirstMatchFrom(s, 0);
    if i < 0 then Some(s)
    else
      match Expand(replacement, s[i..i + 3])
      case None => None
      case Some(e) => Some(s[..i] + e + s[i + 3..])
  }

  /** Without `\` or `$` the replacement is inserted verbatim. */
  lemma {:induction false} ExpandLiteral(replacement: string, matched: string)
    requires IsLiteralReplacement(replacement)
    ensures Expand(replacement, matched) == Some(replacement)
    decreases |replacement|
  {
    if replacement != [] {
      assert IsLiteralReplacement(replacement[1..]);
      ExpandLiteral(replacement[1..], matched);
      assert [replacement[0]] + replacement[1..] == replacement;
    }
  }

  /** A `$` followed by a digit other than 0 names a group the pattern does not
      have, so the whole `replaceFirst` call throws once the pattern matches. */
  lemma BadGroupThrows(s: string, before: string, d: char, after: string)
    requires MatchesAt(s, FirstMatchFrom(s, 0))
    requires '1' <= d <= '9'
    requires IsLiteralReplacement(before)
    ensures ReplaceFirstDotDotSlash(s, before + ['$', d] + after).None?
  {
    ExpandBadGroupAt(before, d, after, s[FirstMatchFrom(s, 0)..FirstMatchFrom(s, 0) + 3]);
  }

  lemma {:induction false} ExpandBadGroupAt(before: string, d: char, after: string, matched: string)
    requires '1' <= d <= '9'
    requires IsLiteralReplacement(before)
    ensures Expand(before + ['$', d] + after, matched).None?
    decreases |before|
  {
    var r := before + ['$', d] + after;
    if before != [] {
      assert r[1..] == before[1..] + ['$', d] + after;
      assert IsLiteralReplacement(before[1..]);
      ExpandBadGroupAt(before[1..], d, after, matched);
    } else {
      assert r[0] == '$' && r[1] == d;
    }
  }

  /** The case the handlers rely on: a path that starts with `../` has exactly
      that prefix replaced by the (literal) replacement. */
  lemma ReplaceLeadingDotDotSlash(s: string, replacement: string)
    requires |s| >= 3 && s[..3] == "../"
    requires IsLiteralReplacement(replacement)
    ensures ReplaceFirstDotDotSlash(s, replacement) == Some(replacement + s[3..])
  {
    assert MatchesAt(s, 0);
    assert FirstMatchFrom(s, 0) == 0;
    ExpandLiteral(replacement, s[0..3]);
    assert s[..0] + replacement + s[3..] == replacement + s[3..];
  }

  /** Without any match the text comes back unchanged, whatever the replacement. */
  lemma NoMatchUnchanged(s: string, replacement: string)
    requires forall j :: !MatchesAt(s, j)
    ensures ReplaceFirstDotDotSlash(s, replacement) == Some(s)
  {
  }
}
