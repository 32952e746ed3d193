/**
 * Text helpers shared by the Python services and the TypeScript front end.
 * Case mapping is ASCII only; whitespace follows Python `str.isspace` and
 * the ECMAScript `String.prototype.trim` white-space set respectively.
 */
module Strings {
  import opened Wrappers

  function LowerChar(c: char): char
  {
    if 'A' <= c <= 'Z' then (c as int + 32) as char else c
  }

  function UpperChar(c: char): char
  {
    if 'a' <= c <= 'z' then (c as int - 32) as char else c
  }

  predicate IsAsciiLetter(c: char)
  {
    'a' <= c <= 'z' || 'A' <= c <= 'Z'
  }

  predicate IsDigit(c: char)
  {
    '0' <= c <= '9'
  }

  predicate IsHexDigit(c: char)
  {
    IsDigit(c) || 'a' <= c <= 'f' || 'A' <= c <= 'F'
  }

  /** Python `s.lower()` and JavaScript `s.toLowerCase()`, restricted to ASCII letters. */
  function Lower(s: string): (r: string)
    ensures |r| == |s|
    ensures forall i :: 0 <= i < |s| ==> r[i] == LowerChar(s[i])
  {
    seq(|s|, i requires 0 <= i < |s| => LowerChar(s[i]))
  }

  /** Lower-casing text without upper-case ASCII letters changes nothing. */
  lemma LowerNoop(s: string)
    requires forall i :: 0 <= i < |s| ==> !('A' <= s[i] <= 'Z')
    ensures Lower(s) == s
  {
  }

  /** A concatenation starts with its first part and holds its second part right after it. */
  lemma ConcatParts(a: string, b: string)
    ensures StartsWith(a + b, a) && OccursAt(a + b, b, |a|) && Contains(a + b, b)
  {
    assert (a + b)[..|a|] == a;
    assert (a + b)[|a|..|a| + |b|] == b;
    assert OccursAt(a + b, b, |a|);
  }

  /** Substring test: Python `sub in s`, JavaScript `s.includes(sub)`. */
  predicate Contains(s: string, sub: string)
  {
    exists i :: 0 <= i <= |s| - |sub| && OccursAt(s, sub, i)
  }

  /** `sub` occurs in `s` starting at index `i`. */
  predicate OccursAt(s: string, sub: string, i: int)
  {
    0 <= i <= |s| - |sub| && s[i..i + |sub|] == sub
  }

  /** Python `any(k in s for k in keys)`. */
  predicate ContainsAny(s: string, keys: seq<string>)
  {
    exists k :: 0 <= k < |keys| && Contains(s, keys[k])
  }

  lemma ContainsAnyCons(s: string, keys: seq<string>)
    requires |keys| > 0
    ensures ContainsAny(s, keys) <==> Contains(s, keys[0]) || ContainsAny(s, keys[1..])
  {
    if ContainsAny(s, keys) && !Contains(s, keys[0]) {
      var k :| 0 <= k < |keys| && Contains(s, keys[k]);
      assert keys[1..][k - 1] == keys[k];
    }
    if ContainsAny(s, keys[1..]) {
      var k :| 0 <= k < |keys| - 1 && Contains(s, keys[1..][k]);
      assert keys[k + 1] == keys[1..][k];
    }
  }

  /** Prefix test: Python `s.startswith(p)`, JavaScript `s.startsWith(p)`. */
  predicate StartsWith(s: string, p: string)
  {
    p <= s
  }

  /** Python truthiness of an optional string: present and non-empty. */
  predicate Truthy(o: Option<string>)
  {
    o.Some? && o.value != ""
  }

  /** The line `prefix` + text when the optional text is truthy, else no line. */
  function TextLine(prefix: string, o: Option<string>): (r: seq<string>)
    ensures |r| == if Truthy(o) then 1 else 0
  {
    if Truthy(o) then [prefix + o.value] else []
  }

  /** The line `prefix` + the joined items when there are any, else no line. */
  function ListLine(prefix: string, items: seq<string>, sep: string): (r: seq<string>)
    ensures |r| == if items != [] then 1 else 0
  {
    if items != [] then [prefix + Join(items, sep)] else []
  }

  /** Python `str(x)` of an optional JSON value: `None` prints as "None". */
  function Show(o: Option<string>): string
  {
    if o.Some? then o.value else "None"
  }

  /** Python `sep.join(parts)`, JavaScript `parts.join(sep)`. */
  function Join(parts: seq<string>, sep: string): string
  {
    if |parts| == 0 then ""
    else if |parts| == 1 then parts[0]
    else parts[0] + sep + Join(parts[1..], sep)
  }

  /** Python slicing `s[:n]` and JavaScript `slice(0, n)` / `substring(0, n)` for n >= 0. */
  function Take<T>(s: seq<T>, n: nat): (r: seq<T>)
    ensures |r| <= n && r <= s
    ensures |s| <= n ==> r == s
    ensures n <= |s| ==> |r| == n
  {
    if n >= |s| then s else s[..n]
  }

  /** Python `s.split(c)` for a single-character separator. */
  function Split(s: string, c: char): (r: seq<string>)
    ensures |r| >= 1
    decreases |s|
  {
    if |s| == 0 then [""]
    else
      var rest := Split(s[1..], c);
      if s[0] == c then [""] + rest else [[s[0]] + rest[0]] + rest[1..]
  }

  /** No piece produced by `Split` contains the separator. */
  lemma {:induction false} SplitPiecesFree(s: string, c: char)
    ensures forall k :: 0 <= k < |Split(s, c)| ==> c !in Split(s, c)[k]
    decreases |s|
  {
    if |s| > 0 {
      SplitPiecesFree(s[1..], c);
    }
  }

  /** Joining the pieces back with the separator restores the text. */
  lemma {:induction false} SplitJoin(s: string, c: char)
    ensures Join(Split(s, c), [c]) == s
    decreases |s|
  {
    if |s| > 0 {
      SplitJoin(s[1..], c);
      var rest := Split(s[1..], c);
      if s[0] != c && |rest| > 1 {
        assert Join(rest, [c]) == rest[0] + [c] + Join(rest[1..], [c]);
        assert [[s[0]] + rest[0]] + rest[1..] == [[s[0]] + rest[0]] + rest[1..];
        assert ([[s[0]] + rest[0]] + rest[1..])[1..] == rest[1..];
      }
      if s[0] == c {
        assert ([""] + rest)[1..] == rest;
      }
    }
  }

  /** Python `s.replace(pat, rep)`: every non-overlapping occurrence, scanned left to right. */
  function ReplaceAll(s: string, pat: string, rep: string): string
    requires |pat| > 0
    decreases |s|
  {
    if |s| == 0 then ""
    else if pat <= s then rep + ReplaceAll(s[|pat|..], pat, rep)
    else [s[0]] + ReplaceAll(s[1..], pat, rep)
  }

  /** Characters for which Python `str.isspace()` holds. */
  predicate PyIsSpace(c: char)
  {
    c == ' ' || '\t' <= c <= '\r' || '\U{1C}' <= c <= '\U{1F}' || c == '\U{85}' || c == '\U{A0}'
    || c == '\U{1680}' || '\U{2000}' <= c <= '\U{200A}' || c == '\U{2028}' || c == '\U{2029}'
    || c == '\U{202F}' || c == '\U{205F}' || c == '\U{3000}'
  }

  /** Characters removed by ECMAScript `String.prototype.trim` (white space and line terminators). */
  predicate JsIsSpace(c: char)
  {
    c == ' ' || '\t' <= c <= '\r' || c == '\U{A0}' || c == '\U{FEFF}' || c == '\U{1680}'
    || '\U{2000}' <= c <= '\U{200A}' || c == '\U{2028}' || c == '\U{2029}' || c == '\U{202F}'
    || c == '\U{205F}' || c == '\U{3000}'
  }

  function DropLeading(s: string, ws: char -> bool): (r: string)
    ensures |r| <= |s| && r == s[|s| - |r|..]
    ensures |r| > 0 ==> !ws(r[0])
    decreases |s|
  {
    if |s| > 0 && ws(s[0]) then DropLeading(s[1..], ws) else s
  }

  function DropTrailing(s: string, ws: char -> bool): (r: string)
    ensures |r| <= |s| && r == s[..|r|]
    ensures |r| > 0 ==> !ws(r[|r| - 1])
    decreases |s|
  {
    if |s| > 0 && ws(s[|s| - 1]) then DropTrailing(s[..|s| - 1], ws) else s
  }

  /** Remove leading and trailing characters satisfying `ws`. */
  function TrimBy(s: string, ws: char -> bool): (r: string)
    ensures |r| <= |s|
    ensures |r| > 0 ==> !ws(r[0]) && !ws(r[|r| - 1])
  {
    var d := DropLeading(s, ws);
    var r := DropTrailing(d, ws);
    assert |r| > 0 ==> r[0] == d[0];
    r
  }

  /** Trimming text that has no leading or trailing white space changes nothing. */
  lemma TrimByNoop(s: string, ws: char -> bool)
    requires |s| > 0 ==> !ws(s[0]) && !ws(s[|s| - 1])
    ensures TrimBy(s, ws) == s
  {
  }

  /** Python `s.strip()`. */
  function Strip(s: string): string
  {
    TrimBy(s, PyIsSpace)
  }

  /** JavaScript `s.trim()`. */
  function Trim(s: string): string
  {
    TrimBy(s, JsIsSpace)
  }

  /**
   * Python `str.title()` on ASCII text: a letter is upper-cased when the
   * character before it is not a letter, and lower-cased otherwise.
   */
  function Title(s: string, prevCased: bool): (r: string)
    ensures |r| == |s|
    decreases |s|
  {
    if |s| == 0 then ""
    else
      var c := if prevCased then LowerChar(s[0]) else UpperChar(s[0]);
      [c] + Title(s[1..], IsAsciiLetter(s[0]))
  }

  /** Per-character description of `Title`: non-letters are kept as they are. */
  lemma {:induction false} TitleKeepsNonLetters(s: string, prevCased: bool)
    ensures forall i :: 0 <= i < |s| && !IsAsciiLetter(s[i]) ==> Title(s, prevCased)[i] == s[i]
    decreases |s|
  {
    if |s| > 0 {
      TitleKeepsNonLetters(s[1..], IsAsciiLetter(s[0]));
      forall i | 0 <= i < |s| && !IsAsciiLetter(s[i])
        ensures Title(s, prevCased)[i] == s[i]
      {
        if i > 0 {
          assert Title(s, prevCased)[i] == Title(s[1..], IsAsciiLetter(s[0]))[i - 1];
          assert s[1..][i - 1] == s[i];
        }
      }
    }
  }

  function DigitChar(d: nat): char
    requires d < 10
  {
    ('0' as int + d) as char
  }

  /** Decimal rendering of a natural number (Python `str(n)`, JavaScript template `${n}`). */
  function NatToString(n: nat): (r: string)
    ensures |r| >= 1
    ensures forall i :: 0 <= i < |r| ==> IsDigit(r[i])
    decreases n
  {
    if n < 10 then [DigitChar(n)] else NatToString(n / 10) + [DigitChar(n % 10)]
  }

  function DigitValue(c: char): nat
    requires IsDigit(c)
  {
    c as int - '0' as int
  }

  /** Value of a string of decimal digits. */
  function DecimalValue(s: string): nat
    requires forall i :: 0 <= i < |s| ==> IsDigit(s[i])
    decreases |s|
  {
    if |s| == 0 then 0 else DecimalValue(s[..|s| - 1]) * 10 + DigitValue(s[|s| - 1])
  }

  /** Reading back a rendered number gives the number: rendering is injective. */
  lemma {:induction false} NatToStringRoundTrip(n: nat)
    ensures DecimalValue(NatToString(n)) == n
    decreases n
  {
    if n >= 10 {
      NatToStringRoundTrip(n / 10);
      var r := NatToString(n);
      assert r[..|r| - 1] == NatToString(n / 10);
    }
  }

  /** Index of the first occurrence of `c`, or `|s|` when there is none. */
  function IndexOf(s: string, c: char): (i: nat)
    ensures i <= |s|
    ensures i < |s| ==> s[i] == c
    ensures forall j :: 0 <= j < i ==> s[j] != c
    decreases |s|
  {
    if |s| == 0 then 0 else if s[0] == c then 0 else 1 + IndexOf(s[1..], c)
  }

  /** The first occurrence of `c` is where the text first has `c`. */
  lemma IndexOfAt(s: string, c: char, i: nat)
    requires i <= |s|
    requires forall j :: 0 <= j < i ==> s[j] != c
    requires i < |s| ==> s[i] == c
    ensures IndexOf(s, c) == i
  {
    var e := IndexOf(s, c);
    assert e < |s| ==> s[e] == c;
    assert forall j :: 0 <= j < e ==> s[j] != c;
  }

  /** Index of the last occurrence of `c`, if any. */
  function LastIndexOf(s: string, c: char): (r: Option<nat>)
    ensures r.Some? ==> r.value < |s| && s[r.value] == c
    ensures r.Some? ==> forall j :: r.value < j < |s| ==> s[j] != c
    ensures r.None? ==> c !in s
    decreases |s|
  {
    if |s| == 0 then None
    else if s[|s| - 1] == c then Some(|s| - 1)
    else LastIndexOf(s[..|s| - 1], c)
  }

  /** Python `s.partition(c)[0]`: the text before the first `c`. */
  function Before(s: string, c: char): string
  {
    s[..IndexOf(s, c)]
  }

  /** Python `s.split(c)[0]` is the text before the first `c`. */
  lemma {:induction false} SplitFirstIsBefore(s: string, c: char)
    ensures Split(s, c)[0] == Before(s, c) && c !in Before(s, c)
    decreases |s|
  {
    if |s| > 0 && s[0] != c {
      SplitFirstIsBefore(s[1..], c);
      assert Before(s, c) == [s[0]] + Before(s[1..], c);
    }
  }

  /** Python `s.partition(c)[2]`: the text after the first `c`, or "" when there is none. */
  function After(s: string, c: char): string
  {
    var i := IndexOf(s, c);
    if i < |s| then s[i + 1..] else ""
  }

  /** Python `s.replace(c, d, 1)`: the first `c` becomes `d`. */
  function ReplaceFirst(s: string, c: char, d: char): (r: string)
    ensures |r| == |s|
    ensures c in s ==> r[IndexOf(s, c)] == d && forall j :: 0 <= j < |s| && j != IndexOf(s, c) ==> r[j] == s[j]
    ensures c !in s ==> r == s
  {
    var i := IndexOf(s, c);
    if i < |s| then s[..i] + [d] + s[i + 1..] else s
  }

  /** The first part of a joined text is a prefix of it. */
  lemma JoinStartsWithFirst(parts: seq<string>, sep: string)
    requires |parts| >= 1
    ensures StartsWith(Join(parts, sep), parts[0])
  {
  }

  /** `Join` on a list of at least four parts, unfolded three times. */
  lemma JoinFour(a: string, b: string, c: string, d: string, tail: seq<string>, sep: string)
    ensures Join([a, b, c, d] + tail, sep) == a + sep + b + sep + c + sep + Join([d] + tail, sep)
  {
    var parts := [a, b, c, d] + tail;
    assert parts[1..] == [b, c, d] + tail;
    assert parts[1..][1..] == [c, d] + tail;
    assert parts[1..][1..][1..] == [d] + tail;
    var rest := Join([d] + tail, sep);
    assert Join(parts[1..][1..], sep) == c + sep + rest;
    assert Join(parts[1..], sep) == b + sep + (c + sep + rest);
    assert Join(parts, sep) == a + sep + (b + sep + (c + sep + rest));
    assert a + sep + (b + sep + (c + sep + rest)) == a + sep + b + sep + c + sep + rest;
  }

  /** A text without the separator is one piece. */
  lemma {:induction false} SplitNoSeparator(s: string, c: char)
    requires c !in s
    ensures Split(s, c) == [s]
    decreases |s|
  {
    if |s| > 0 {
      SplitNoSeparator(s[1..], c);
      assert [s[0]] + s[1..] == s;
    }
  }

  /** Splitting at the first separator: the piece before it, then the pieces of the rest. */
  lemma {:induction false} SplitAtFirst(x: string, c: char, rest: string)
    requires c !in x
    ensures Split(x + [c] + rest, c) == [x] + Split(rest, c)
    decreases |x|
  {
    if |x| == 0 {
      assert x + [c] + rest == [c] + rest;
      assert ([c] + rest)[1..] == rest;
    } else {
      SplitAtFirst(x[1..], c, rest);
      assert (x + [c] + rest)[1..] == x[1..] + [c] + rest;
      assert [x[0]] + x[1..] == x;
    }
  }

  /** Splitting a joined text gives back the pieces when none of them holds the separator. */
  lemma {:induction false} SplitJoinInverse(parts: seq<string>, c: char)
    requires |parts| >= 1
    requires forall k :: 0 <= k < |parts| ==> c !in parts[k]
    ensures Split(Join(parts, [c]), c) == parts
    decreases |parts|
  {
    if |parts| == 1 {
      SplitNoSeparator(parts[0], c);
    } else {
      SplitJoinInverse(parts[1..], c);
      SplitAtFirst(parts[0], c, Join(parts[1..], [c]));
      assert [parts[0]] + parts[1..] == parts;
    }
  }

  /** Decimal renderings have no leading zero, and numbers below 1000 take at most three digits. */
  lemma {:induction false} NatToStringShape(n: nat)
    ensures n >= 10 ==> NatToString(n)[0] != '0'
    ensures n < 1000 ==> |NatToString(n)| <= 3
    ensures n < 10 <==> |NatToString(n)| == 1
    decreases n
  {
    if n >= 10 {
      NatToStringShape(n / 10);
    }
  }

  /** The words of `words` that occur in `text`, in the order of `words`. */
  function WordsFound(text: string, words: seq<string>): (r: seq<string>)
    ensures |r| <= |words|
  {
    if |words| == 0 then []
    else
      var last := words[|words| - 1];
      WordsFound(text, words[..|words| - 1]) + (if Contains(text, last) then [last] else [])
  }

  /** A word is reported exactly when it occurs in the text; distinct words stay distinct. */
  lemma {:induction false} WordsFoundSpec(text: string, words: seq<string>)
    requires forall i, j :: 0 <= i < j < |words| ==> words[i] != words[j]
    ensures forall t :: t in WordsFound(text, words) <==> t in words && Contains(text, t)
    ensures forall i, j :: 0 <= i < j < |WordsFound(text, words)| ==> WordsFound(text, words)[i] != WordsFound(text, words)[j]
  {
    if |words| > 0 {
      var init := words[..|words| - 1];
      var last := words[|words| - 1];
      WordsFoundSpec(text, init);
      assert words == init + [last];
      assert last !in init;
    }
  }
}
