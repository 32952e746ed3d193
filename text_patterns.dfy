/**
 * Hand-written matchers for the regular expressions the scraping and brand
 * memory services run with `re.findall`. Each matcher says whether the
 * pattern matches at a position, where the match ends and what `findall`
 * reports for it (the whole match, or the single capture group). `\w`,
 * `\d` and IGNORECASE are taken over ASCII; `\s` is Python's `isspace`.
 */
module TextPatterns {
  import opened Wrappers
  import opened Strings

  predicate IsWordChar(c: char)
  {
    IsAsciiLetter(c) || IsDigit(c) || c == '_'
  }

  /** The class `[\w\s,]`. */
  predicate IsPhraseChar(c: char)
  {
    IsWordChar(c) || PyIsSpace(c) || c == ','
  }

  /** The class `[\s:]`. */
  predicate IsGapChar(c: char)
  {
    PyIsSpace(c) || c == ':'
  }

  predicate IsNotNewline(c: char)
  {
    c != '\n'
  }

  /** First index at or after `j` whose character fails `p` (the end of a greedy run). */
  function RunEnd(s: string, j: nat, p: char -> bool): (e: nat)
    requires j <= |s|
    ensures j <= e <= |s|
    ensures forall k :: j <= k < e ==> p(s[k])
    ensures e < |s| ==> !p(s[e])
    decreases |s| - j
  {
    if j == |s| || !p(s[j]) then j else RunEnd(s, j + 1, p)
  }

  /** Largest index `k` with `lo <= k < hi` and `s[k] != '\n'`. */
  function LastNonNewline(s: string, lo: nat, hi: nat): (r: Option<nat>)
    requires lo <= hi <= |s|
    ensures r.Some? ==> lo <= r.value < hi && s[r.value] != '\n'
    ensures r.Some? ==> forall k :: r.value < k < hi ==> s[k] == '\n'
    ensures r.None? ==> forall k :: lo <= k < hi ==> s[k] == '\n'
    decreases hi - lo
  {
    if lo == hi then None
    else if s[hi - 1] != '\n' then Some(hi - 1)
    else LastNonNewline(s, lo, hi - 1)
  }

  /** A match: the index where it ends and what `findall` reports for it. */
  datatype Match = Match(end: nat, reported: string)

  datatype Pattern =
      /** `<lead>[\w\s,]+` — reports the whole match. */
    | Phrase(lead: string)
      /** `\d+\+? (customers|clients|users|companies)` — reports the noun. */
    | CountNoun
      /** `(?:features?|benefits?|what we offer|our solution)[\s:]+([^\n]+)`, ignoring case — reports the capture. */
    | FeatureIntro
      /** `#[0-9a-fA-F]{6}` — reports the whole match. */
    | HexColor

  const CountNouns: seq<string> := ["customers", "clients", "users", "companies"]

  /** The alternatives of the feature pattern, in the order the regex tries them. */
  const FeatureLeads: seq<string> := ["feature", "benefit", "what we offer", "our solution"]

  /** `alt` occurs at `i` in `s`, compared after ASCII lower-casing if `fold`. */
  predicate AltAt(s: string, i: nat, alt: string, fold: bool)
  {
    i + |alt| <= |s| && (if fold then Lower(s[i..i + |alt|]) else s[i..i + |alt|]) == alt
  }

  /** The first alternative among `alts` (compared after ASCII lower-casing if `fold`) that occurs at `i`. */
  function FirstAltAt(s: string, i: nat, alts: seq<string>, fold: bool): (r: Option<nat>)
    requires i <= |s|
    ensures r.Some? ==> r.value < |alts| && AltAt(s, i, alts[r.value], fold)
    ensures r.Some? ==> forall j :: 0 <= j < r.value ==> !AltAt(s, i, alts[j], fold)
    ensures r.None? ==> forall j :: 0 <= j < |alts| ==> !AltAt(s, i, alts[j], fold)
    decreases |alts|
  {
    if |alts| == 0 then None
    else if AltAt(s, i, alts[0], fold) then Some(0)
    else
      var rest := FirstAltAt(s, i, alts[1..], fold);
      assert forall j :: 1 <= j < |alts| ==> alts[j] == alts[1..][j - 1];
      match rest
      case None => None
      case Some(k) => Some(k + 1)
  }

  /** The feature pattern's tail `[\s:]+([^\n]+)` at `p`, with the backtracking at the end of the text. */
  function GapThenLine(s: string, p: nat): (r: Option<(nat, nat)>)
    requires p <= |s|
    ensures r.Some? ==> p < r.value.0 < r.value.1 <= |s|
    ensures r.Some? ==> forall k :: p <= k < r.value.0 ==> IsGapChar(s[k])
    ensures r.Some? ==> forall k :: r.value.0 <= k < r.value.1 ==> s[k] != '\n'
  {
    if p == |s| || !IsGapChar(s[p]) then None
    else
      var q := RunEnd(s, p, IsGapChar);
      if q < |s| then Some((q, RunEnd(s, q, IsNotNewline)))
      else
        match LastNonNewline(s, p + 1, q)
        case None => None
        case Some(k) => Some((k, RunEnd(s, k, IsNotNewline)))
  }

  /** `<lead>[\w\s,]+` at `i`. */
  function PhraseAt(lead: string, s: string, i: nat): (r: Option<Match>)
    requires i < |s|
    ensures r.Some? ==> i < r.value.end <= |s|
  {
    var j := i + |lead|;
    if j < |s| && s[i..j] == lead && IsPhraseChar(s[j]) then
      var e := RunEnd(s, j, IsPhraseChar);
      Some(Match(e, s[i..e]))
    else None
  }

  /** `\d+\+? (customers|clients|users|companies)` at `i`, reporting the noun. */
  function CountNounAt(s: string, i: nat): (r: Option<Match>)
    requires i < |s|
    ensures r.Some? ==> i < r.value.end <= |s|
  {
    if !IsDigit(s[i]) then None
    else
      var j := RunEnd(s, i, IsDigit);
      var k := if j < |s| && s[j] == '+' then j + 1 else j;
      if k < |s| && s[k] == ' ' then
        match FirstAltAt(s, k + 1, CountNouns, false)
        case None => None
        case Some(n) => Some(Match(k + 1 + |CountNouns[n]|, CountNouns[n]))
      else None
  }

  /** The feature pattern at `i`, reporting the captured rest of the line: a non-empty piece of one line. */
  function FeatureAt(s: string, i: nat): (r: Option<Match>)
    requires i < |s|
    ensures r.Some? ==> i < r.value.end <= |s|
    ensures r.Some? ==> |r.value.reported| > 0 && '\n' !in r.value.reported
  {
    match FirstAltAt(s, i, FeatureLeads, true)
    case None => None
    case Some(n) =>
      var a := i + |FeatureLeads[n]|;
      var p := if n <= 1 && a < |s| && LowerChar(s[a]) == 's' then a + 1 else a;
      match GapThenLine(s, p)
      case None => None
      case Some(cap) =>
        var line := s[cap.0..cap.1];
        assert forall c :: 0 <= c < |line| ==> line[c] == s[cap.0 + c];
        Some(Match(cap.1, line))
  }

  /** `#[0-9a-fA-F]{6}` at `i`. */
  function HexColorAt(s: string, i: nat): (r: Option<Match>)
    requires i < |s|
    ensures r.Some? ==> i < r.value.end <= |s|
  {
    if i + 7 <= |s| && s[i] == '#' && forall k :: i + 1 <= k < i + 7 ==> IsHexDigit(s[k]) then
      Some(Match(i + 7, s[i..i + 7]))
    else None
  }

  /** Whether `pat` matches at index `i`, and if so the match. */
  function MatchAt(pat: Pattern, s: string, i: nat): (r: Option<Match>)
    requires i < |s|
    ensures r.Some? ==> i < r.value.end <= |s|
  {
    match pat
    case Phrase(lead) => PhraseAt(lead, s, i)
    case CountNoun => CountNounAt(s, i)
    case FeatureIntro => FeatureAt(s, i)
    case HexColor => HexColorAt(s, i)
  }

  /** `re.findall(pat, s[from:])`: leftmost matches, scanning on after the end of each one. */
  function FindAll(pat: Pattern, s: string, from: nat): seq<string>
    requires from <= |s|
    decreases |s| - from
  {
    if from == |s| then []
    else
      match MatchAt(pat, s, from)
      case None => FindAll(pat, s, from + 1)
      case Some(m) => [m.reported] + FindAll(pat, s, m.end)
  }

  /** Every social-proof count match reports one of the four nouns. */
  lemma {:induction false} CountNounReportsNoun(s: string, from: nat)
    requires from <= |s|
    ensures forall k :: 0 <= k < |FindAll(CountNoun, s, from)| ==> FindAll(CountNoun, s, from)[k] in CountNouns
    decreases |s| - from
  {
    if from < |s| {
      match MatchAt(CountNoun, s, from)
      case None => CountNounReportsNoun(s, from + 1);
      case Some(m) => CountNounReportsNoun(s, m.end);
    }
  }

  /** Every phrase match starts with its lead and continues with at least one `[\w\s,]` character. */
  lemma {:induction false} PhraseReportsLead(lead: string, s: string, from: nat)
    requires from <= |s|
    ensures forall k :: 0 <= k < |FindAll(Phrase(lead), s, from)| ==>
              var m := FindAll(Phrase(lead), s, from)[k];
              |m| > |lead| && StartsWith(m, lead) && forall c :: |lead| <= c < |m| ==> IsPhraseChar(m[c])
    decreases |s| - from
  {
    if from < |s| {
      match MatchAt(Phrase(lead), s, from)
      case None => PhraseReportsLead(lead, s, from + 1);
      case Some(m) =>
        PhraseReportsLead(lead, s, m.end);
        var j := from + |lead|;
        assert s[from..m.end][..|lead|] == s[from..j];
    }
  }

  /** Every feature capture is non-empty and lies within one line. */
  lemma {:induction false} FeatureCaptureOneLine(s: string, from: nat)
    requires from <= |s|
    ensures forall k :: 0 <= k < |FindAll(FeatureIntro, s, from)| ==>
              |FindAll(FeatureIntro, s, from)[k]| > 0 && '\n' !in FindAll(FeatureIntro, s, from)[k]
    decreases |s| - from
  {
    if from < |s| {
      match MatchAt(FeatureIntro, s, from)
      case None => FeatureCaptureOneLine(s, from + 1);
      case Some(m) => FeatureCaptureOneLine(s, m.end);
    }
  }

  /** Every colour match is '#' followed by six hexadecimal digits. */
  lemma {:induction false} HexColorShape(s: string, from: nat)
    requires from <= |s|
    ensures forall k :: 0 <= k < |FindAll(HexColor, s, from)| ==>
              var m := FindAll(HexColor, s, from)[k];
              |m| == 7 && m[0] == '#' && forall c :: 1 <= c < 7 ==> IsHexDigit(m[c])
    decreases |s| - from
  {
    if from < |s| {
      match MatchAt(HexColor, s, from)
      case None => HexColorShape(s, from + 1);
      case Some(m) =>
        HexColorShape(s, m.end);
        assert forall c :: 1 <= c < 7 ==> m.reported[c] == s[from + c];
    }
  }
}
