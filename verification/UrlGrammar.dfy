/** What parse_url and the normalisation make of a URL, said of its parts. */
module UrlGrammar {
  import opened Sequences
  import opened Text
  import opened UrlNormalizer
  import opened UrlFacts

  // ---- surrounding blanks ----

  /** Spaces, tabs, carriage returns and line feeds at both ends go, and nothing else. */
  lemma {:induction false} TrimmedText(s: string) returns (before: string, after: string)
    ensures s == before + Trim(s) + after
    ensures forall i :: 0 <= i < |before| ==> before[i] in " \t\r\n"
    ensures forall i :: 0 <= i < |after| ==> after[i] in " \t\r\n"
    ensures Trim(s) != "" ==> Trim(s)[0] !in " \t\r\n" && Trim(s)[|Trim(s)| - 1] !in " \t\r\n"
  {
    before := LeftTrimmed(s);
    after := RightTrimmed(TrimLeft(s));
    forall c ensures Blank(c) <==> c in " \t\r\n" { BlankText(c); }
    hide TrimLeft, TrimRight, Blank;
    assert s == before + (Trim(s) + after);
    if Trim(s) != "" { assert TrimLeft(s)[0] == Trim(s)[0]; }
  }

  lemma {:induction false} BlankText(c: char)
    ensures Blank(c) <==> c in " \t\r\n"
  {
    assert " \t\r\n" == [' ', '\t', '\r', '\n'];
  }

  ghost predicate AllBlank(s: string) { forall i :: 0 <= i < |s| ==> Blank(s[i]) }

  lemma {:induction false} LeftTrimmed(s: string) returns (before: string)
    ensures s == before + TrimLeft(s) && AllBlank(before)
    ensures TrimLeft(s) != "" ==> !Blank(TrimLeft(s)[0])
  {
    hide Blank;
    before := "";
    if s != "" && Blank(s[0]) {
      before := LeftTrimmed(s[1..]);
      before := [s[0]] + before;
    }
  }

  lemma {:induction false} RightTrimmed(s: string) returns (after: string)
    ensures s == TrimRight(s) + after && AllBlank(after)
    ensures TrimRight(s) != "" ==> !Blank(TrimRight(s)[|TrimRight(s)| - 1])
  {
    hide Blank;
    after := "";
    if s != "" && Blank(s[|s| - 1]) {
      after := RightTrimmed(s[..|s| - 1]);
      after := after + [s[|s| - 1]];
    }
  }

  // ---- the parts of a URL ----

  /** scheme "://" [ user "@" ] host [ ":" port ] path [ "?" query ] [ "#" fragment ], where the
      host may stand in brackets. */
  datatype Parts = Parts(scheme: string, user: Option<string>, bracketed: bool, host: string, port: string,
                         path: string, query: Option<string>, fragment: Option<string>)

  function HostText(p: Parts): string {
    (if p.bracketed then "[" + p.host + "]" else p.host) + (if p.port == "" then "" else ":" + p.port)
  }

  function AuthorityText(p: Parts): string {
    if p.user.Some? then p.user.value + "@" + HostText(p) else HostText(p)
  }

  function QueryText(p: Parts): string { if p.query.Some? then "?" + p.query.value else "" }

  function FragmentText(p: Parts): string { if p.fragment.Some? then "#" + p.fragment.value else "" }

  function UrlText(p: Parts): string {
    p.scheme + "://" + (AuthorityText(p) + p.path + QueryText(p) + FragmentText(p))
  }

  predicate Outside(s: string, cs: string) { forall i :: 0 <= i < |s| ==> s[i] !in cs }

  /** No part holds a character that ends it. */
  ghost predicate Separable(p: Parts) {
    && ':' !in p.scheme
    && (p.user.Some? ==> Outside(p.user.value, "@/?#"))
    && Outside(p.host, "@/?#") && Outside(p.port, "@/?#:")
    && (if p.bracketed then ']' !in p.host else ':' !in p.host && (p.host != "" ==> p.host[0] != '['))
    && Outside(p.path, "?#") && (p.path != "" ==> p.path[0] == '/')
    && (p.query.Some? ==> '#' !in p.query.value)
  }

  lemma {:induction false} OutsideOne(s: string, cs: string, c: char)
    requires Outside(s, cs) && c in cs
    ensures Without(s, c)
  {
  }

  lemma {:induction false} HostTextWithout(p: Parts, c: char)
    requires Separable(p) && c in "@/?#"
    ensures Without(HostText(p), c)
  {
    OutsideOne(p.host, "@/?#", c);
    assert c in "@/?#:";
    OutsideOne(p.port, "@/?#:", c);
    assert Without("[", c) && Without("]", c) && Without(":", c) && Without("", c);
    hide Without, Outside;
    ConcatWithout("[", p.host, c);
    ConcatWithout("[" + p.host, "]", c);
    ConcatWithout(":", p.port, c);
    ConcatWithout(if p.bracketed then "[" + p.host + "]" else p.host, if p.port == "" then "" else ":" + p.port, c);
  }

  lemma {:induction false} AuthorityTextWithout(p: Parts, c: char)
    requires Separable(p) && c in "/?#"
    ensures Without(AuthorityText(p), c)
  {
    assert c in "@/?#";
    HostTextWithout(p, c);
    if p.user.Some? {
      OutsideOne(p.user.value, "@/?#", c);
      assert Without("@", c);
      hide Without, Outside, HostText;
      ConcatWithout(p.user.value, "@", c);
      ConcatWithout(p.user.value + "@", HostText(p), c);
    }
  }

  /** A port is absent or a decimal number between 1 and 65535. */
  predicate PortInRange(port: string) {
    port == "" || ((forall i :: 0 <= i < |port| ==> '0' <= port[i] <= '9') && 1 <= Number(port) <= 65535)
  }

  /** Host and port as the parser splits them. */
  lemma {:induction false} HostTextParses(p: Parts)
    requires Separable(p)
    ensures ParseAuthority(HostText(p)) ==
      if p.host == "" || !PortInRange(p.port) then None else Some((ToLower(p.host), p.port))
  {
    assert PortInRange(p.port) <==> PortOk(p.port);
    OutsideColon(p);
    if p.bracketed { BracketedParses(p); } else { PlainParses(p); }
    hide *;
  }

  lemma {:induction false} OutsideColon(p: Parts)
    requires Separable(p)
    ensures Without(p.port, ':')
  {
    assert ':' in "@/?#:";
    OutsideOne(p.port, "@/?#:", ':');
  }

  lemma {:induction false} BracketedParses(p: Parts)
    requires Separable(p) && p.bracketed
    ensures ParseAuthority(HostText(p)) == if p.host == "" || !PortOk(p.port) then None else Some((ToLower(p.host), p.port))
  {
    var a := HostText(p);
    var tail := if p.port == "" then "" else ":" + p.port;
    assert a == "[" + p.host + "]" + tail;
    var close := |p.host| + 1;
    assert a[0] == '[' && a[close] == ']' && a[1..close] == p.host && a[close + 1..] == tail;
    FindAt(a, ']', close);
    assert tail != "" ==> a[close + 1] == ':' && a[close + 2..] == p.port;
    hide Find, FindLast, PortOk, ToLower, Outside, HostText;
  }

  lemma {:induction false} PlainParses(p: Parts)
    requires Separable(p) && !p.bracketed
    ensures ParseAuthority(HostText(p)) == if p.host == "" || !PortOk(p.port) then None else Some((ToLower(p.host), p.port))
  {
    OutsideColon(p);
    assert p.host == "" || p.host[0] != '[';
    hide PortOk, ToLower, Outside, ParseAuthority, Separable, HostText;
    if p.port == "" {
      NoPortText(p);
      WithoutPort(p.host);
    } else {
      PortText(p);
      WithPort(p.host, p.port);
    }
  }

  lemma {:induction false} NoPortText(p: Parts)
    requires Separable(p) && !p.bracketed && p.port == ""
    ensures HostText(p) == p.host && Without(p.host, ':') && PortOk(p.port)
  {
    assert p.host + "" == p.host;
  }

  lemma {:induction false} PortText(p: Parts)
    requires Separable(p) && !p.bracketed && p.port != ""
    ensures HostText(p) == p.host + (":" + p.port)
  {
  }

  lemma {:induction false} WithoutPort(host: string)
    requires Without(host, ':') && (host == "" || host[0] != '[')
    ensures ParseAuthority(host) == if host == "" then None else Some((ToLower(host), ""))
  {
    assert FindLast(host, ':') == -1;
    assert PortOk("");
    hide Find, FindLast, PortOk, ToLower, Without;
  }

  lemma {:induction false} WithPort(host: string, port: string)
    requires Without(port, ':') && (host == "" || host[0] != '[')
    ensures ParseAuthority(host + (":" + port)) == if host == "" || !PortOk(port) then None else Some((ToLower(host), port))
  {
    var a := host + (":" + port);
    assert (":" + port)[1..] == port;
    LastColon(host, ":" + port);
    assert a[0] == if host == "" then ':' else host[0];
    hide Find, FindLast, PortOk, ToLower, Without;
  }

  /** The authority of the text, behind the user if there is one. */
  lemma {:induction false} UserCutOff(p: Parts)
    requires Separable(p)
    ensures var authority := AuthorityText(p); var at := Find(authority, '@');
      && (at < |authority| <==> p.user.Some?) && ('@' in authority <==> p.user.Some?)
      && (if at < |authority| then authority[at + 1..] else authority) == HostText(p)
  {
    var authority := AuthorityText(p);
    HostTextWithout(p, '@');
    FindNone(authority, '@');
    if p.user.Some? {
      var user := p.user.value;
      OutsideOne(user, "@/?#", '@');
      assert authority == user + "@" + HostText(p);
      assert authority[|user|] == '@' && authority[|user| + 1..] == HostText(p);
      FindAt(authority, '@', |user|);
    }
    hide Find, HostText, Outside;
  }

  /** What follows the scheme falls apart at the fragment, the query and the first slash. */
  lemma {:induction false} RestFallsApart(p: Parts)
    requires Separable(p)
    ensures var rest := AuthorityText(p) + p.path + QueryText(p) + FragmentText(p);
      && BeforeFirst(rest, '#') == AuthorityText(p) + p.path + QueryText(p)
      && BeforeFirst(AuthorityText(p) + p.path + QueryText(p), '?') == AuthorityText(p) + p.path
      && BeforeFirst(AuthorityText(p) + p.path, '/') == AuthorityText(p)
      && ('#' in rest <==> p.fragment.Some?)
      && ('?' in AuthorityText(p) + p.path + QueryText(p) <==> p.query.Some?)
  {
    var authority, path, query, fragment := AuthorityText(p), p.path, QueryText(p), FragmentText(p);
    AuthorityTextWithout(p, '#');
    AuthorityTextWithout(p, '?');
    AuthorityTextWithout(p, '/');
    OutsideOne(path, "?#", '#');
    OutsideOne(path, "?#", '?');
    assert Without(query, '#');
    assert (query == "" || query[0] == '?') && (fragment == "" || fragment[0] == '#');
    assert (query != "" <==> p.query.Some?) && (fragment != "" <==> p.fragment.Some?);
    assert path == "" || path[0] == '/';
    hide AuthorityText, QueryText, FragmentText, Separable, Outside, BeforeFirst, Find;
    ConcatWithout(authority, path, '#');
    ConcatWithout(authority + path, query, '#');
    ConcatWithout(authority, path, '?');
    BeforeFound(authority + path + query, fragment, '#');
    BeforeFound(authority + path, query, '?');
    BeforeFound(authority, path, '/');
    if fragment != "" { assert (authority + path + query + fragment)[|authority + path + query|] == '#'; }
    if query != "" { assert (authority + path + query)[|authority + path|] == '?'; }
  }

  lemma {:induction false} AfterScheme(scheme: string, p: Parts)
    requires Separable(p)
    ensures ParseAfterScheme(scheme, AuthorityText(p) + p.path + QueryText(p) + FragmentText(p)) ==
      if p.host == "" || !PortInRange(p.port) then None
      else Some(Url(scheme, ToLower(p.host), p.port, p.path, p.user.Some?, p.query.Some?, p.fragment.Some?))
  {
    hide *;
    RestFallsApart(p);
    UserCutOff(p);
    HostTextParses(p);
    var authority := AuthorityText(p);
    assert (authority + p.path)[|authority|..] == p.path;
    Assembled(scheme, authority + p.path + QueryText(p) + FragmentText(p), authority + p.path + QueryText(p), authority + p.path, authority,
              ParseAuthority(HostText(p)));
  }

  /** parse_url after the scheme, from the pieces it cuts. */
  lemma {:induction false} Assembled(scheme: string, rest: string, noFragment: string, body: string, authority: string,
                            hostPort: Option<(string, string)>)
    requires BeforeFirst(rest, '#') == noFragment && BeforeFirst(noFragment, '?') == body && BeforeFirst(body, '/') == authority
    requires var at := Find(authority, '@'); hostPort == ParseAuthority(if at < |authority| then authority[at + 1..] else authority)
    requires |authority| <= |body|
    ensures ParseAfterScheme(scheme, rest) == if hostPort.None? then None
      else Some(Url(scheme, hostPort.value.0, hostPort.value.1, body[|authority|..], '@' in authority, '?' in noFragment, '#' in rest))
  {
    hide BeforeFirst, Find, ParseAuthority;
  }

  /** parse_url reads every text of this form into its parts, scheme and host in lower case,
      and refuses it exactly when the scheme is neither http nor https, the host is empty, or
      the port is out of range. */
  lemma {:induction false} ReadsParts(p: Parts)
    requires Separable(p)
    ensures Parse(UrlText(p)) ==
      if (ToLower(p.scheme) != "http" && ToLower(p.scheme) != "https") || p.host == "" || !PortInRange(p.port) then None
      else Some(Url(ToLower(p.scheme), ToLower(p.host), p.port, p.path, p.user.Some?, p.query.Some?, p.fragment.Some?))
  {
    var rest := AuthorityText(p) + p.path + QueryText(p) + FragmentText(p);
    SchemeEnds(p.scheme, rest);
    AfterScheme(ToLower(p.scheme), p);
    hide AuthorityText, QueryText, FragmentText, Separable, ParseAfterScheme, FindScheme, PortInRange, ToLower;
  }

  // ---- the whole normalisation ----

  /** When the address policy refuses: an internal address, a name that resolves to one, or
      plain HTTP.  A loopback test target over allowed plain HTTP is exempt from the first two. */
  predicate Refused(o: Options, net: Network, scheme: string, host: string) {
    var exempt := scheme == "http" && o.allowInsecureHttp && net.loopback(host);
    || (net.literal(host) && net.privateRange(host) && !o.allowPrivateNetwork && !exempt)
    || (!net.literal(host) && net.resolvesInside(host) && !o.allowPrivateNetwork && !exempt)
    || (scheme == "http" && !o.allowInsecureHttp && !net.loopback(host))
  }

  /** Which publication URLs are refused, and what the others become. */
  lemma {:induction false} AnswerOfNormalize(raw: string, o: Options, net: Network)
    ensures var url := Trim(raw);
      && (Normalize(raw, o, net).None? <==>
           || url == "" || |url| > 1024 || Parse(url).None?
           || Parse(url).value.hasUserinfo || Parse(url).value.hasQuery || Parse(url).value.hasFragment
           || Refused(o, net, Parse(url).value.scheme, Parse(url).value.host))
      && (Normalize(raw, o, net).Some? ==>
           var u := Parse(url).value; var port := if u.port == "" then "" else ":" + u.port;
           Normalize(raw, o, net).value == u.scheme + "://" + u.host + port + CutPath(u.path) + "/")
  {
    NormalizeIff(raw, o, net);
    hide Trim, Parse, CutPath;
    if Normalize(raw, o, net).Some? {
      PrintedInPieces(Parse(Trim(raw)).value, CutPath(Parse(Trim(raw)).value.path));
    }
    hide Print, Normalize;
  }
}
