/** normalize_onec_publication_url: parsing, the path cut and printing.  Which addresses
    the policy accepts is asked of the network as fixed predicates. */
module UrlNormalizer {
  import opened Sequences
  import opened Text

  // ---- string_utils ----

  predicate Upper(c: char) { 'A' <= c <= 'Z' }

  function LowerChar(c: char): char { if Upper(c) then 'a' + (c - 'A') else c }

  function ToLower(s: string): string { Map(s, LowerChar) }

  /** The twenty-six capital letters become small, and nothing else changes. */
  lemma {:induction false} LowerText(s: string, i: nat)
    requires i < |s|
    ensures |ToLower(s)| == |s|
    ensures forall k :: 0 <= k < 26 && s[i] == "ABCDEFGHIJKLMNOPQRSTUVWXYZ"[k] ==> ToLower(s)[i] == "abcdefghijklmnopqrstuvwxyz"[k]
    ensures s[i] !in "ABCDEFGHIJKLMNOPQRSTUVWXYZ" ==> ToLower(s)[i] == s[i]
  {
    Alphabet();
    if Upper(s[i]) { assert "ABCDEFGHIJKLMNOPQRSTUVWXYZ"[(s[i] - 'A') as int] == s[i]; }
    hide Map;
  }

  lemma {:induction false} Alphabet()
    ensures forall k :: 0 <= k < 26 ==> "ABCDEFGHIJKLMNOPQRSTUVWXYZ"[k] == 'A' + k as char
    ensures forall k :: 0 <= k < 26 ==> "abcdefghijklmnopqrstuvwxyz"[k] == 'a' + k as char
  {
  }

  lemma {:induction false} LowerIdempotent(s: string)
    ensures ToLower(ToLower(s)) == ToLower(s)
  {
    hide Map;
  }

  /** Lower-casing neither adds nor removes a character that is no letter. */
  lemma {:induction false} LowerKeeps(s: string, c: char)
    requires !Upper(c) && !('a' <= c <= 'z')
    ensures c in ToLower(s) <==> c in s
    ensures s != "" ==> (ToLower(s)[0] == c <==> s[0] == c)
  {
    hide Map;
    if c in s {
      var i :| 0 <= i < |s| && s[i] == c;
      assert ToLower(s)[i] == c;
    }
  }

  predicate Blank(c: char) { c == ' ' || c == '\t' || c == '\r' || c == '\n' }

  function TrimLeft(s: string): string { if s != "" && Blank(s[0]) then TrimLeft(s[1..]) else s }

  function TrimRight(s: string): string {
    if s != "" && Blank(s[|s| - 1]) then TrimRight(s[..|s| - 1]) else s
  }

  function Trim(s: string): string { TrimRight(TrimLeft(s)) }

  predicate EndsWithCi(s: string, suffix: string): (r: bool)
    ensures r ==> |s| >= |suffix|
  {
    |s| >= |suffix| && ToLower(s[|s| - |suffix|..]) == ToLower(suffix)
  }

  // ---- parse_url ----

  datatype Url = Url(scheme: string, host: string, port: string, path: string,
                     hasUserinfo: bool, hasQuery: bool, hasFragment: bool)

  /** Position of the first "://", or the length if there is none. */
  function FindScheme(s: string): (i: nat)
    ensures i <= |s|
  {
    if s == "" then 0 else if "://" <= s then 0 else 1 + FindScheme(s[1..])
  }

  /** Position of the last occurrence, or -1. */
  function FindLast(s: string, c: char): (i: int)
    ensures -1 <= i < |s|
    ensures i >= 0 ==> s[i] == c
    ensures forall k :: i < k < |s| ==> s[k] != c
  {
    if s == "" then -1 else if s[|s| - 1] == c then |s| - 1 else FindLast(s[..|s| - 1], c)
  }

  /** std::stoi throws above the int range, which is above 65535 as well. */
  predicate PortOk(port: string) {
    port == "" || (Digits(port) && 1 <= Number(port) <= 65535)
  }

  /** Host and port of an authority without user information. */
  function ParseAuthority(a: string): Option<(string, string)> {
    var parts :=
      if a != "" && a[0] == '[' then
        var close := Find(a, ']');
        if close == |a| then None
        else Some((a[1..close], if close + 1 < |a| && a[close + 1] == ':' then a[close + 2..] else ""))
      else
        var colon := FindLast(a, ':');
        if colon >= 0 then Some((a[..colon], a[colon + 1..])) else Some((a, ""));
    if parts.None? || parts.value.0 == "" || !PortOk(parts.value.1) then None
    else Some((ToLower(parts.value.0), parts.value.1))
  }

  function BeforeFirst(s: string, c: char): string { s[..Find(s, c)] }

  function ParseAfterScheme(scheme: string, rest: string): Option<Url> {
    var body := BeforeFirst(BeforeFirst(rest, '#'), '?');
    BeforeIsPrefix(body, '/');
    var authority := BeforeFirst(body, '/');
    var at := Find(authority, '@');
    var hostPort := ParseAuthority(if at < |authority| then authority[at + 1..] else authority);
    if hostPort.None? then None
    else Some(Url(scheme, hostPort.value.0, hostPort.value.1, body[|authority|..],
                  '@' in authority, '?' in BeforeFirst(rest, '#'), '#' in rest))
  }

  predicate Scheme(s: string) { s == "http" || s == "https" }

  function Parse(url: string): Option<Url> {
    var end := FindScheme(url);
    if end + 3 > |url| then None
    else
      var scheme := ToLower(url[..end]);
      if !Scheme(scheme) then None else ParseAfterScheme(scheme, url[end + 3..])
  }

  lemma {:induction false} FirstSchemeAt(s: string)
    ensures FindScheme(s) < |s| <==> FindScheme(s) + 3 <= |s|
  {
    if s != "" && !("://" <= s) {
      FirstSchemeAt(s[1..]);
    }
  }

  /** The loop over the port and the range test. */
  method CheckPort(port: string) returns (ok: bool)
    ensures ok <==> PortOk(port)
  {
    if port == "" {
      return true;
    }
    for i := 0 to |port|
      invariant Digits(port[..i])
    {
      if !('0' <= port[i] <= '9') {
        return false;
      }
    }
    assert port[..|port|] == port;
    var p := Number(port);
    ok := 1 <= p <= 65535;
  }

  method ParseUrl(url: string) returns (r: Option<Url>)
    ensures r == Parse(url)
  {
    FirstSchemeAt(url);
    var end := FindScheme(url);
    if end == |url| {
      return None;
    }
    var scheme := ToLower(url[..end]);
    if scheme != "http" && scheme != "https" {
      return None;
    }
    var rest := url[end + 3..];
    r := ParseRest(scheme, rest);
  }

  method SplitHostPort(authority: string) returns (r: Option<(string, string)>)
    ensures r == ParseAuthority(authority)
  {
    hide Find, FindLast, Map, PortOk;
    var host, port := authority, "";
    if authority != "" && authority[0] == '[' {
      var close := Find(authority, ']');
      if close == |authority| {
        return None;
      }
      host := authority[1..close];
      if close + 1 < |authority| && authority[close + 1] == ':' {
        port := authority[close + 2..];
      }
    } else {
      var colon := FindLast(authority, ':');
      if colon >= 0 {
        host, port := authority[..colon], authority[colon + 1..];
      }
    }
    if host == "" {
      return None;
    }
    host := ToLower(host);
    var portOk := CheckPort(port);
    r := if portOk then Some((host, port)) else None;
  }

  /** rest = rest.substr(0, pos) when the character occurs. */
  method CutAt(s: string, c: char) returns (before: string, found: bool)
    ensures before == BeforeFirst(s, c) && (found <==> c in s)
  {
    FindNone(s, c);
    hide Find;
    var pos := Find(s, c);
    before, found := s, false;
    if pos < |s| {
      before, found := s[..pos], true;
    } else {
      assert s[..|s|] == s;
    }
  }

  /** What parse_url does after the scheme. */
  method ParseRest(scheme: string, url: string) returns (r: Option<Url>)
    ensures r == ParseAfterScheme(scheme, url)
  {
    hide BeforeFirst, ParseAuthority;
    var rest, hasFragment := CutAt(url, '#');
    var hasQuery;
    rest, hasQuery := CutAt(rest, '?');
    BeforeIsPrefix(rest, '/');
    var authority, hasPath := CutAt(rest, '/');
    var path := rest[|authority|..];
    FindNone(authority, '@');
    hide Find;
    var at := Find(authority, '@');
    var hasUserinfo := at < |authority|;
    var hostPort := SplitHostPort(if hasUserinfo then authority[at + 1..] else authority);
    if hostPort.None? {
      return None;
    }
    r := Some(Url(scheme, hostPort.value.0, hostPort.value.1, path, hasUserinfo, hasQuery, hasFragment));
  }

  lemma {:induction false} BeforeIsPrefix(s: string, c: char)
    ensures BeforeFirst(s, c) <= s && c !in BeforeFirst(s, c)
    ensures s[|BeforeFirst(s, c)|..] == "" || s[|BeforeFirst(s, c)|..][0] == c
  {
    hide Find;
  }

  // ---- policy ----

  datatype Options = Options(allowInsecureHttp: bool, allowPrivateNetwork: bool)

  /** What inet_pton, the address ranges and the resolver say about a host. */
  datatype Network = Network(literal: string -> bool, privateRange: string -> bool,
                             loopback: string -> bool, resolvesInside: string -> bool)

  predicate Accepted(o: Options, net: Network, scheme: string, host: string) {
    var localTest := scheme == "http" && o.allowInsecureHttp && net.loopback(host);
    && !(!o.allowPrivateNetwork && net.literal(host) && net.privateRange(host) && !localTest)
    && !(!o.allowPrivateNetwork && !net.literal(host) && !localTest && net.resolvesInside(host))
    && !(scheme == "http" && !net.loopback(host) && !o.allowInsecureHttp)
  }

  // ---- path and printing ----

  const METADATA := "/odata/standard.odata/$metadata"
  const ODATA := "/odata/standard.odata"

  function StripSlashes(path: string): string {
    if path != "" && path[|path| - 1] == '/' then StripSlashes(path[..|path| - 1]) else path
  }

  function CutSuffix(path: string): string {
    if EndsWithCi(path, METADATA) then path[..|path| - |METADATA|]
    else if EndsWithCi(path, ODATA) then path[..|path| - |ODATA|]
    else path
  }

  function CutPath(path: string): string { CutSuffix(StripSlashes(path)) }

  function PortPart(port: string): string { if port == "" then "" else ":" + port }

  function Print(u: Url, path: string): string {
    u.scheme + "://" + (u.host + PortPart(u.port)) + (path + "/")
  }

  const MAX_LENGTH := 1024

  /** None stands for the exception. */
  function Normalize(raw: string, o: Options, net: Network): Option<string> {
    var value := Trim(raw);
    if value == "" || |value| > MAX_LENGTH then None
    else
      var parsed := Parse(value);
      if parsed.None? then None
      else
        var u := parsed.value;
        if u.hasUserinfo || u.hasQuery || u.hasFragment || !Accepted(o, net, u.scheme, u.host) then None
        else Some(Print(u, CutPath(u.path)))
  }

  method PopSlashes(whole: string) returns (path: string)
    ensures path == StripSlashes(whole)
  {
    path := whole;
    while path != "" && path[|path| - 1] == '/'
      invariant StripSlashes(path) == StripSlashes(whole)
      decreases |path|
    {
      path := path[..|path| - 1];
    }
  }

  method CutODataPath(whole: string) returns (path: string)
    ensures path == CutPath(whole)
  {
    path := PopSlashes(whole);
    hide StripSlashes, EndsWithCi, METADATA, ODATA;
    if EndsWithCi(path, METADATA) {
      path := path[..|path| - |METADATA|];
    } else if EndsWithCi(path, ODATA) {
      path := path[..|path| - |ODATA|];
    }
  }

  method NormalizePublicationUrl(raw: string, o: Options, net: Network) returns (r: Option<string>)
    ensures r == Normalize(raw, o, net)
  {
    hide Parse, Trim, Accepted, CutPath, Print;
    var value := Trim(raw);
    if value == "" || |value| > MAX_LENGTH {
      return None;
    }
    var parsed := ParseUrl(value);
    if parsed.None? {
      return None;
    }
    var u := parsed.value;
    if u.hasUserinfo || u.hasQuery || u.hasFragment {
      return None;
    }
    if !Accepted(o, net, u.scheme, u.host) {
      return None;
    }
    var path := CutODataPath(u.path);
    var out := u.scheme + "://" + u.host;
    if u.port != "" {
      out := out + (":" + u.port);
    }
    assert out == u.scheme + "://" + u.host + PortPart(u.port);
    out := out + path + "/";
    PrintedInPieces(u, path);
    r := Some(out);
  }

  lemma {:induction false} PrintedInPieces(u: Url, path: string)
    ensures Print(u, path) == u.scheme + "://" + u.host + PortPart(u.port) + path + "/"
  {
    assert PortPart("") == "";
    hide PortPart;
    assert u.scheme + "://" + u.host + "" == u.scheme + "://" + u.host;
  }
}
