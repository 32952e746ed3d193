/**
 * The parts of Python's `ipaddress` module the URL security check relies on:
 * `ip_address(text)` for IPv4 and IPv6 literals (with the strict parsing
 * rules: exactly four decimal octets without leading zeros, at most one "::",
 * hextets of at most four hex digits, an optional dotted IPv4 tail and an
 * optional "%scope" suffix), and `address in network`.
 */
module IpAddress {
  import opened Wrappers
  import opened Strings

  datatype Address = V4(value: nat) | V6(value: nat)

  /** A network: its version, its network address and its prefix length. */
  datatype Network = Network(v6: bool, base: nat, prefixLength: nat)

  function Pow2(n: nat): (r: nat)
    ensures r >= 1
  {
    if n == 0 then 1 else 2 * Pow2(n - 1)
  }

  function Bits(v6: bool): nat
  {
    if v6 then 128 else 32
  }

  /**
   * `address in network`: false across versions; otherwise the address agrees with the
   * network address on the first `prefixLength` bits.
   */
  predicate InNetwork(a: Address, n: Network)
  {
    && a.V6? == n.v6
    && n.prefixLength <= Bits(n.v6)
    && a.value / Pow2(Bits(n.v6) - n.prefixLength) == n.base / Pow2(Bits(n.v6) - n.prefixLength)
  }

  // ---------------------------------------------------------------- IPv4

  predicate AllDigits(s: string)
  {
    forall i :: 0 <= i < |s| ==> IsDigit(s[i])
  }

  /** One decimal octet: 1 to 3 ASCII digits, no leading zero, at most 255. */
  function ParseOctet(s: string): (r: Option<nat>)
    ensures r.Some? ==> r.value < 256
    ensures r.Some? ==> 1 <= |s| <= 3 && AllDigits(s) && (|s| > 1 ==> s[0] != '0')
  {
    if |s| == 0 || |s| > 3 || !AllDigits(s) || (|s| > 1 && s[0] == '0') then None
    else
      var v := DecimalValue(s);
      if v > 255 then None else Some(v)
  }

  /** `IPv4Address(text)`: exactly four dot-separated octets. */
  function ParseIPv4(s: string): (r: Option<nat>)
    ensures r.Some? ==> r.value < 0x1_0000_0000
  {
    var parts := Split(s, '.');
    if |parts| != 4 then None
    else
      match (ParseOctet(parts[0]), ParseOctet(parts[1]), ParseOctet(parts[2]), ParseOctet(parts[3]))
      case (Some(a), Some(b), Some(c), Some(d)) => Some(((a * 256 + b) * 256 + c) * 256 + d)
      case _ => None
  }

  // ---------------------------------------------------------------- IPv6

  /** A hextet still to be parsed, or one produced from a dotted IPv4 tail. */
  datatype Hextet = Raw(text: string) | Known(value: nat)

  predicate IsEmptyHextet(h: Hextet)
  {
    h == Raw("")
  }

  function HexDigitValue(c: char): nat
    requires IsHexDigit(c)
  {
    if IsDigit(c) then c as int - '0' as int
    else if 'a' <= c <= 'f' then c as int - 'a' as int + 10
    else c as int - 'A' as int + 10
  }

  function HexValue(s: string): (v: nat)
    requires forall i :: 0 <= i < |s| ==> IsHexDigit(s[i])
    decreases |s|
  {
    if |s| == 0 then 0 else HexValue(s[..|s| - 1]) * 16 + HexDigitValue(s[|s| - 1])
  }

  /** `_parse_hextet`: 1 to 4 hex digits (an empty text fails in `int(text, 16)`). */
  function ParseHextet(h: Hextet): (r: Option<nat>)
  {
    match h
    case Known(v) => Some(v)
    case Raw(t) =>
      if |t| == 0 || |t| > 4 || !(forall i :: 0 <= i < |t| ==> IsHexDigit(t[i])) then None
      else Some(HexValue(t))
  }

  /** The hextets read left to right into one number, 16 bits each. */
  function HextetsValue(hs: seq<Hextet>): Option<nat>
    decreases |hs|
  {
    if |hs| == 0 then Some(0)
    else
      match (HextetsValue(hs[..|hs| - 1]), ParseHextet(hs[|hs| - 1]))
      case (Some(hi), Some(lo)) => Some(hi * 65536 + lo)
      case _ => None
  }

  function RawHextets(parts: seq<string>): (r: seq<Hextet>)
    ensures |r| == |parts|
    ensures forall i :: 0 <= i < |parts| ==> r[i] == Raw(parts[i])
  {
    seq(|parts|, i requires 0 <= i < |parts| => Raw(parts[i]))
  }

  /** The indices `1 <= i < |parts| - 1` of empty parts: the positions of a "::". */
  function InnerEmpties(parts: seq<Hextet>, from: nat): (r: seq<nat>)
    requires 1 <= from
    ensures forall k :: 0 <= k < |r| ==> from <= r[k] < |parts| - 1 && IsEmptyHextet(parts[r[k]])
    decreases |parts| - from
  {
    if from + 1 >= |parts| then []
    else if IsEmptyHextet(parts[from]) then [from] + InnerEmpties(parts, from + 1)
    else InnerEmpties(parts, from + 1)
  }

  /** The hextets after replacing a dotted IPv4 tail by two known hextets. */
  function ExpandTail(raw: seq<string>): Option<seq<Hextet>>
    requires |raw| > 0
  {
    var last := raw[|raw| - 1];
    if '.' !in last then Some(RawHextets(raw))
    else
      match ParseIPv4(last)
      case None => None
      case Some(v) => Some(RawHextets(raw[..|raw| - 1]) + [Known(v / 65536), Known(v % 65536)])
  }

  /**
   * The value of hextets with a single "::" at `skip`: the hextets before it,
   * then zeros, then the hextets after it. A leading or trailing ':' must be
   * part of that "::".
   */
  function CompressedValue(parts: seq<Hextet>, skip: nat): Option<nat>
    requires 1 <= skip < |parts| - 1
  {
    var hi: nat := if IsEmptyHextet(parts[0]) then skip - 1 else skip;
    var lo0: nat := |parts| - skip - 1;
    var lo: nat := if IsEmptyHextet(parts[|parts| - 1]) then lo0 - 1 else lo0;
    if IsEmptyHextet(parts[0]) && hi != 0 then None
    else if IsEmptyHextet(parts[|parts| - 1]) && lo != 0 then None
    else if hi + lo >= 8 then None
    else
      match (HextetsValue(parts[..hi]), HextetsValue(parts[|parts| - lo..]))
      case (Some(h), Some(l)) => Some(h * Pow2(16 * (8 - hi)) + l)
      case _ => None
  }

  /** `IPv6Address._ip_int_from_string`. */
  function ParseIPv6Body(s: string): Option<nat>
  {
    var raw := Split(s, ':');
    if s == "" || |raw| < 3 then None
    else
      match ExpandTail(raw)
      case None => None
      case Some(parts) =>
        if |parts| > 9 then None
        else
          var empties := InnerEmpties(parts, 1);
          if |empties| > 1 then None
          else if |empties| == 1 then CompressedValue(parts, empties[0])
          else if |parts| != 8 || IsEmptyHextet(parts[0]) || IsEmptyHextet(parts[7]) then None
          else HextetsValue(parts)
  }

  /**
   * `IPv6Address(text)`: no '/' anywhere, not even in the scope; an optional
   * non-empty "%scope" suffix without a second '%', then the address.
   */
  function ParseIPv6(s: string): (r: Option<nat>)
    ensures '/' in s ==> r.None?
    ensures '%' in s && (After(s, '%') == "" || '%' in After(s, '%')) ==> r.None?
  {
    var scope := After(s, '%');
    if '/' in s then None
    else if '%' in s && (scope == "" || '%' in scope) then None
    else ParseIPv6Body(Before(s, '%'))
  }

  /** `ip_address(text)`: IPv4 first, then IPv6; `None` where Python raises `ValueError`. */
  function ParseAddress(s: string): (r: Option<Address>)
    ensures r.Some? && r.value.V4? ==> ParseIPv4(s) == Some(r.value.value)
    ensures r.Some? && r.value.V6? ==> ParseIPv4(s).None? && ParseIPv6(s) == Some(r.value.value)
    ensures r.None? ==> ParseIPv4(s).None? && ParseIPv6(s).None?
  {
    match ParseIPv4(s)
    case Some(v) => Some(V4(v))
    case None =>
      match ParseIPv6(s)
      case Some(v) => Some(V6(v))
      case None => None
  }

  /** Dotted-quad text of four octet values. */
  function DottedQuad(a: nat, b: nat, c: nat, d: nat): string
  {
    Join([NatToString(a), NatToString(b), NatToString(c), NatToString(d)], ".")
  }

  /** The decimal rendering of an octet value parses back to it. */
  lemma OctetRoundTrip(n: nat)
    requires n < 256
    ensures ParseOctet(NatToString(n)) == Some(n)
  {
    NatToStringShape(n);
    NatToStringRoundTrip(n);
  }

  /** A dotted quad of octet values is an IPv4 literal with the expected value. */
  lemma DottedQuadRoundTrip(a: nat, b: nat, c: nat, d: nat)
    requires a < 256 && b < 256 && c < 256 && d < 256
    ensures ParseIPv4(DottedQuad(a, b, c, d)) == Some(((a * 256 + b) * 256 + c) * 256 + d)
  {
    var parts := [NatToString(a), NatToString(b), NatToString(c), NatToString(d)];
    forall k | 0 <= k < |parts|
      ensures '.' !in parts[k]
    {
    }
    SplitJoinInverse(parts, '.');
    OctetRoundTrip(a);
    OctetRoundTrip(b);
    OctetRoundTrip(c);
    OctetRoundTrip(d);
  }
}
