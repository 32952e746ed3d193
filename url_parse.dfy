/**
 * The parts of Python's `urllib.parse.urlparse` the backend relies on:
 * the scheme, the network location and the `hostname` property.
 */
module UrlParse {
  import opened Wrappers
  import opened Strings

  datatype SplitUrl = SplitUrl(scheme: string, netloc: string)

  /** Characters allowed in a URL scheme. */
  predicate IsSchemeChar(c: char)
  {
    IsAsciiLetter(c) || IsDigit(c) || c == '+' || c == '-' || c == '.'
  }

  /** C0 control characters and space, removed from the front of the URL. */
  predicate IsC0OrSpace(c: char)
  {
    c <= ' '
  }

  predicate IsUnsafeByte(c: char)
  {
    c == '\t' || c == '\r' || c == '\n'
  }

  function RemoveUnsafe(s: string): (r: string)
    ensures forall i :: 0 <= i < |r| ==> !IsUnsafeByte(r[i])
    decreases |s|
  {
    if |s| == 0 then ""
    else if IsUnsafeByte(s[0]) then RemoveUnsafe(s[1..])
    else [s[0]] + RemoveUnsafe(s[1..])
  }

  /** End of the network location: the first '/', '?' or '#', or the end of the text. */
  function NetlocEnd(s: string): (i: nat)
    ensures i <= |s|
    ensures forall j :: 0 <= j < i ==> s[j] != '/' && s[j] != '?' && s[j] != '#'
    ensures i < |s| ==> s[i] == '/' || s[i] == '?' || s[i] == '#'
    decreases |s|
  {
    if |s| == 0 then 0
    else if s[0] == '/' || s[0] == '?' || s[0] == '#' then 0
    else 1 + NetlocEnd(s[1..])
  }

  /** Whether the text before the first ':' is a scheme. */
  predicate HasScheme(url: string)
  {
    var i := IndexOf(url, ':');
    0 < i < |url| && IsAsciiLetter(url[0]) && forall j :: 0 <= j < i ==> IsSchemeChar(url[j])
  }

  /** The scheme of a URL, lower-cased, or "" when the text before the first ':' is not one. */
  function SchemeOf(url: string): string
  {
    if HasScheme(url) then Lower(url[..IndexOf(url, ':')]) else ""
  }

  /** What follows the scheme and its ':' (the whole URL when it has no scheme). */
  function AfterScheme(url: string): string
  {
    if HasScheme(url) then url[IndexOf(url, ':') + 1..] else url
  }

  /** The network location after a leading "//": up to the first '/', '?' or '#'. */
  function NetlocOf(rest: string): (netloc: string)
    requires StartsWith(rest, "//")
    ensures forall j :: 0 <= j < |netloc| ==> netloc[j] !in "/?#"
  {
    var tail := rest[2..];
    var netloc := tail[..NetlocEnd(tail)];
    assert forall j :: 0 <= j < |netloc| ==> netloc[j] == tail[j];
    netloc
  }

  /**
   * `urlsplit(url)` reduced to scheme and netloc. Fails (ValueError) when the
   * netloc has an unmatched square bracket.
   */
  function Split(raw: string): (r: Option<SplitUrl>)
    ensures r.Some? ==> ('[' in r.value.netloc <==> ']' in r.value.netloc)
    ensures r.Some? ==> forall j :: 0 <= j < |r.value.netloc| ==> r.value.netloc[j] !in "/?#"
  {
    var url := RemoveUnsafe(DropLeading(raw, IsC0OrSpace));
    var rest := AfterScheme(url);
    if StartsWith(rest, "//") then
      var netloc := NetlocOf(rest);
      if ('[' in netloc) != (']' in netloc) then None
      else Some(SplitUrl(SchemeOf(url), netloc))
    else
      Some(SplitUrl(SchemeOf(url), ""))
  }

  /** The `hostname` property: host part of the netloc, lower-cased, or None when empty. */
  function Hostname(netloc: string): (r: Option<string>)
    ensures r.Some? ==> |r.value| > 0
  {
    var hostinfo := match LastIndexOf(netloc, '@') case Some(k) => netloc[k + 1..] case None => netloc;
    var host :=
      if '[' in hostinfo then Before(After(hostinfo, '['), ']')
      else Before(hostinfo, ':');
    if host == "" then None
    else
      var h := Before(host, '%');
      var zone := if '%' in host then "%" + After(host, '%') else "";
      Some(Lower(h) + zone)
  }

  /** A netloc without userinfo, port, brackets or zone has itself, lower-cased, as hostname. */
  lemma HostnamePlain(netloc: string)
    requires |netloc| > 0
    requires forall j :: 0 <= j < |netloc| ==> netloc[j] !in "@[]:%"
    ensures Hostname(netloc) == Some(Lower(netloc))
  {
    assert '@' !in netloc && '[' !in netloc && ':' !in netloc && '%' !in netloc;
    assert IndexOf(netloc, ':') == |netloc|;
    assert Before(netloc, ':') == netloc;
    assert IndexOf(netloc, '%') == |netloc|;
    var at := LastIndexOf(netloc, '@');
    assert at.None?;
    assert Before(netloc, '%') == netloc;
    assert Lower(netloc) + "" == Lower(netloc);
  }

  lemma {:induction false} RemoveUnsafeNoop(s: string)
    requires forall i :: 0 <= i < |s| ==> !IsUnsafeByte(s[i])
    ensures RemoveUnsafe(s) == s
    decreases |s|
  {
    if |s| > 0 {
      RemoveUnsafeNoop(s[1..]);
    }
  }

  lemma NetlocEndAt(s: string, i: nat)
    requires i <= |s|
    requires forall j :: 0 <= j < i ==> s[j] != '/' && s[j] != '?' && s[j] != '#'
    requires i < |s| ==> s[i] == '/' || s[i] == '?' || s[i] == '#'
    ensures NetlocEnd(s) == i
  {
    var e := NetlocEnd(s);
    assert e < |s| ==> s[e] == '/' || s[e] == '?' || s[e] == '#';
    assert forall j :: 0 <= j < e ==> s[j] != '/' && s[j] != '?' && s[j] != '#';
  }

  /** The front of `urlsplit`: a URL starting with a letter and free of tab, CR and LF is kept as it is. */
  lemma CleanUrl(url: string)
    requires |url| > 0 && IsAsciiLetter(url[0])
    requires forall i :: 0 <= i < |url| ==> !IsUnsafeByte(url[i])
    ensures RemoveUnsafe(DropLeading(url, IsC0OrSpace)) == url
  {
    assert !IsC0OrSpace(url[0]);
    RemoveUnsafeNoop(url);
  }

  /** The scheme of `scheme:rest` for a lower-case scheme, and the rest after the ':'. */
  lemma SchemePart(scheme: string, rest: string)
    requires |scheme| > 0 && forall i :: 0 <= i < |scheme| ==> 'a' <= scheme[i] <= 'z'
    ensures HasScheme(scheme + ":" + rest)
    ensures IndexOf(scheme + ":" + rest, ':') == |scheme|
    ensures (scheme + ":" + rest)[..|scheme|] == scheme && (scheme + ":" + rest)[|scheme| + 1..] == rest
  {
    var url := scheme + ":" + rest;
    assert forall i :: 0 <= i < |scheme| ==> url[i] == scheme[i];
    IndexOfAt(url, ':', |scheme|);
  }

  /** The netloc of `//host` followed by a path, query or fragment (or nothing) is the host. */
  lemma NetlocPart(host: string, path: string)
    requires forall i :: 0 <= i < |host| ==> host[i] != '/' && host[i] != '?' && host[i] != '#'
    requires |path| > 0 ==> path[0] == '/' || path[0] == '?' || path[0] == '#'
    ensures StartsWith("//" + host + path, "//") && NetlocOf("//" + host + path) == host
  {
    var rest := "//" + host + path;
    assert rest[2..] == host + path;
    NetlocEndAt(host + path, |host|);
    assert (host + path)[..|host|] == host;
  }

  predicate NoUnsafe(s: string)
  {
    forall i :: 0 <= i < |s| ==> !IsUnsafeByte(s[i])
  }

  lemma NoUnsafeConcat(a: string, b: string)
    requires NoUnsafe(a) && NoUnsafe(b)
    ensures NoUnsafe(a + b)
  {
    assert forall i :: 0 <= i < |b| ==> (a + b)[|a| + i] == b[i];
  }

  /**
   * A URL written as `scheme://host` followed by a path, query or fragment (or nothing)
   * splits into that lower-case scheme and that host.
   */
  lemma SplitAuthority(scheme: string, host: string, path: string)
    requires |scheme| > 0 && forall i :: 0 <= i < |scheme| ==> 'a' <= scheme[i] <= 'z'
    requires forall i :: 0 <= i < |host| ==> host[i] !in "/?#[]" && !IsUnsafeByte(host[i])
    requires |path| > 0 ==> path[0] == '/' || path[0] == '?' || path[0] == '#'
    requires NoUnsafe(path)
    ensures Split(scheme + "://" + host + path) == Some(SplitUrl(scheme, host))
  {
    var rest := "//" + host + path;
    NoUnsafeConcat("//", host);
    NoUnsafeConcat("//" + host, path);
    NoUnsafeConcat(scheme, ":");
    NoUnsafeConcat(scheme + ":", rest);
    var url := scheme + ":" + rest;
    assert url == scheme + "://" + host + path;
    assert url[0] == scheme[0];
    CleanUrl(url);
    SchemePart(scheme, rest);
    LowerNoop(scheme);
    NetlocPart(host, path);
    assert SchemeOf(url) == scheme;
    assert AfterScheme(url) == rest;
    SplitOfParts(url, scheme, host);
  }

  /** A clean URL whose scheme, "//" and netloc are known, with no bracket in the netloc, splits into them. */
  lemma SplitOfParts(url: string, scheme: string, host: string)
    requires RemoveUnsafe(DropLeading(url, IsC0OrSpace)) == url
    requires SchemeOf(url) == scheme
    requires StartsWith(AfterScheme(url), "//") && NetlocOf(AfterScheme(url)) == host
    requires forall i :: 0 <= i < |host| ==> host[i] != '[' && host[i] != ']'
    ensures Split(url) == Some(SplitUrl(scheme, host))
  {
    assert '[' !in host && ']' !in host;
  }
}
