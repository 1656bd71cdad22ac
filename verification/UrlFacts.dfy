/** Reading a normalised URL back, and normalising it again. */
module UrlFacts {
  import opened Sequences
  import opened Text
  import opened UrlNormalizer

  // ---- what a parsed URL looks like ----

  predicate Without(s: string, c: char) { c !in s }

  ghost predicate HostShape(host: string) {
    && host != "" && ToLower(host) == host
    && Without(host, '#') && Without(host, '?') && Without(host, '/')
    && (host[0] == '[' ==> Without(host, ']'))
  }

  /** A path that the parser can have left: empty or starting with a slash. */
  ghost predicate PathShape(path: string) {
    Without(path, '#') && Without(path, '?') && (path == "" || path[0] == '/')
  }

  ghost predicate UrlShape(u: Url) {
    Scheme(u.scheme) && HostShape(u.host) && Without(u.host, '@') && PortOk(u.port) && PathShape(u.path)
  }

  lemma {:induction false} HostLowered(host: string, raw: string)
    requires raw != "" && host == ToLower(raw)
    requires Without(raw, '#') && Without(raw, '?') && Without(raw, '/') && Without(raw, '@')
    requires raw[0] == '[' ==> Without(raw, ']')
    ensures HostShape(host) && Without(host, '@')
  {
    LowerIdempotent(raw);
    LowerKeeps(raw, '#');
    LowerKeeps(raw, '?');
    LowerKeeps(raw, '/');
    LowerKeeps(raw, '@');
    LowerKeeps(raw, '[');
    LowerKeeps(raw, ']');
    hide ToLower;
  }

  lemma {:induction false} PartWithout(s: string, from: nat, to: nat, c: char)
    requires from <= to <= |s| && Without(s, c)
    ensures Without(s[from..to], c)
  {
  }

  lemma {:induction false} AuthorityShape(a: string, host: string, port: string)
    requires ParseAuthority(a) == Some((host, port))
    requires Without(a, '#') && Without(a, '?') && Without(a, '/') && Without(a, '@')
    ensures HostShape(host) && Without(host, '@') && PortOk(port)
  {
    hide ToLower, PortOk, HostShape, Without, Find, FindLast;
    var from, to := 0, |a|;
    if a[0] == '[' {
      from, to := 1, Find(a, ']');
      assert Without(a[from..to], ']') by { NoneBefore(a, ']', 1); }
    } else if FindLast(a, ':') >= 0 {
      to := FindLast(a, ':');
    }
    var raw := a[from..to];
    assert raw == if from == 1 then a[1..to] else a[..to];
    PartWithout(a, from, to, '#');
    PartWithout(a, from, to, '?');
    PartWithout(a, from, to, '/');
    PartWithout(a, from, to, '@');
    assert a[..|a|] == a;
    HostLowered(host, raw);
  }

  lemma {:induction false} NoneBefore(s: string, c: char, from: nat)
    requires from <= Find(s, c)
    ensures Without(s[from..Find(s, c)], c)
  {
    hide Find;
  }

  lemma {:induction false} BeforeWithout(s: string, c: char, other: char)
    requires Without(s, other)
    ensures Without(BeforeFirst(s, c), other)
  {
    PartWithout(s, 0, Find(s, c), other);
  }

  lemma {:induction false} ParsedRestShape(scheme: string, rest: string, u: Url)
    requires ParseAfterScheme(scheme, rest) == Some(u) && !u.hasUserinfo && Scheme(scheme)
    ensures UrlShape(u)
  {
    hide ParseAuthority, BeforeFirst, HostShape, PortOk, Scheme;
    var noFragment := BeforeFirst(rest, '#');
    var body := BeforeFirst(noFragment, '?');
    var authority := BeforeFirst(body, '/');
    BeforeIsPrefix(rest, '#');
    BeforeIsPrefix(noFragment, '?');
    BeforeIsPrefix(body, '/');
    BeforeWithout(noFragment, '?', '#');
    BeforeWithout(body, '/', '#');
    BeforeWithout(body, '/', '?');
    FindNone(authority, '@');
    hide Find;
    PartWithout(body, |authority|, |body|, '#');
    PartWithout(body, |authority|, |body|, '?');
    AuthorityShape(authority, u.host, u.port);
  }

  lemma {:induction false} ParsedShape(url: string, u: Url)
    requires Parse(url) == Some(u) && !u.hasUserinfo
    ensures UrlShape(u)
  {
    hide ParseAfterScheme, UrlShape, ToLower;
    var end := FindScheme(url);
    ParsedRestShape(ToLower(url[..end]), url[end + 3..], u);
  }

  // ---- printing and reading ----

  lemma {:induction false} SchemeEnds(scheme: string, rest: string)
    requires Without(scheme, ':')
    ensures FindScheme(scheme + "://" + rest) == |scheme|
    ensures (scheme + "://" + rest)[..|scheme|] == scheme
    ensures (scheme + "://" + rest)[|scheme| + 3..] == rest
  {
    var s := scheme + "://" + rest;
    if scheme == "" {
      assert "://" <= s;
    } else {
      SchemeEnds(scheme[1..], rest);
      assert s[1..] == scheme[1..] + "://" + rest;
      assert s[0] == scheme[0] != ':';
    }
  }

  lemma {:induction false} SchemeLower(scheme: string)
    requires Scheme(scheme)
    ensures ToLower(scheme) == scheme && Without(scheme, ':') && |scheme| >= 4 && scheme[0] == 'h'
  {
    forall i | 0 <= i < |scheme| ensures LowerChar(scheme[i]) == scheme[i] {}
    hide Map;
  }

  lemma {:induction false} BeforeFound(before: string, rest: string, c: char)
    requires Without(before, c) && (rest == "" || rest[0] == c)
    ensures BeforeFirst(before + rest, c) == before && (before + rest)[|before|..] == rest
  {
    if rest == "" {
      FindNone(before + rest, c);
    } else {
      FindAt(before + rest, c, |before|);
    }
  }

  lemma {:induction false} DigitsWithout(port: string, c: char)
    requires PortOk(port) && !('0' <= c <= '9')
    ensures Without(port, c)
  {
  }

  lemma {:induction false} PortPartWithout(port: string, c: char)
    requires PortOk(port) && !('0' <= c <= '9') && c != ':'
    ensures Without(PortPart(port), c)
  {
    DigitsWithout(port, c);
    hide PortOk;
  }

  lemma {:induction false} ConcatWithout(a: string, b: string, c: char)
    requires Without(a, c) && Without(b, c)
    ensures Without(a + b, c)
  {
  }

  function Authority(u: Url): string { u.host + PortPart(u.port) }

  lemma {:induction false} PrintedAuthority(u: Url, c: char)
    requires UrlShape(u) && (c == '#' || c == '?' || c == '/' || c == '@')
    ensures Without(Authority(u), c)
  {
    PortPartWithout(u.port, c);
    hide PortOk, PortPart, ToLower;
    ConcatWithout(u.host, PortPart(u.port), c);
  }

  /** What the parser makes of a printed URL is decided by its authority alone. */
  lemma {:induction false} ParsePrinted(u: Url, path: string)
    requires UrlShape(u) && PathShape(path)
    ensures Parse(Print(u, path)) == match ParseAuthority(Authority(u))
      case None => None
      case Some(hp) => Some(Url(u.scheme, hp.0, hp.1, path + "/", false, false, false))
  {
    var authority, rest := Authority(u), Authority(u) + (path + "/");
    PrintedAuthority(u, '#');
    PrintedAuthority(u, '?');
    PrintedAuthority(u, '/');
    PrintedAuthority(u, '@');
    SchemeLower(u.scheme);
    assert Print(u, path) == u.scheme + "://" + rest;
    assert Without(path, '#') && Without(path, '?') && Without("/", '#') && Without("/", '?');
    assert (path + "/")[0] == '/';
    assert Scheme(u.scheme);
    hide *;
    ConcatWithout(path, "/", '#');
    ConcatWithout(path, "/", '?');
    ConcatWithout(authority, path + "/", '#');
    ConcatWithout(authority, path + "/", '?');
    SchemeEnds(u.scheme, rest);
    ParsedPieces(u.scheme, authority, path + "/");
    ParseSteps(Print(u, path), u.scheme, rest);
  }

  lemma {:induction false} ParseSteps(url: string, scheme: string, rest: string)
    requires FindScheme(url) == |scheme| && |scheme| + 3 <= |url|
    requires url[..|scheme|] == scheme && url[|scheme| + 3..] == rest && ToLower(scheme) == scheme && Scheme(scheme)
    ensures Parse(url) == ParseAfterScheme(scheme, rest)
  {
    hide FindScheme, ToLower, Scheme, ParseAfterScheme;
  }

  lemma {:induction false} ParsedPieces(scheme: string, authority: string, path: string)
    requires Without(authority + path, '#') && Without(authority + path, '?')
    requires Without(authority, '/') && Without(authority, '@') && path != "" && path[0] == '/'
    ensures ParseAfterScheme(scheme, authority + path) == match ParseAuthority(authority)
      case None => None
      case Some(hp) => Some(Url(scheme, hp.0, hp.1, path, false, false, false))
  {
    var rest := authority + path;
    assert rest + "" == rest;
    BeforeFound(rest, "", '#');
    BeforeFound(rest, "", '?');
    BeforeFound(authority, path, '/');
    FindNone(authority, '@');
    hide ParseAuthority, BeforeFirst, Find;
  }

  // ---- the authority ----

  /** Brackets are not printed, and without a port the last colon of the host looks like one. */
  predicate Reprintable(host: string, port: string) {
    host != "" && host[0] != '[' && (port == "" ==> Without(host, ':'))
  }

  lemma {:induction false} LastColon(host: string, tail: string)
    requires tail != "" && tail[0] == ':' && Without(tail[1..], ':')
    ensures FindLast(host + tail, ':') == |host|
    ensures (host + tail)[..|host|] == host && (host + tail)[|host| + 1..] == tail[1..]
  {
    var s := host + tail;
    var i := FindLast(s, ':');
    hide FindLast;
    assert s[|host|] == ':';
    assert forall k :: |host| < k < |s| ==> s[k] == tail[1..][k - |host| - 1];
  }

  lemma {:induction false} LowerLength(s: string)
    ensures |ToLower(s)| == |s|
  {
  }

  lemma {:induction false} BracketFails(a: string)
    requires a != "" && a[0] == '[' && Without(a, ']')
    ensures ParseAuthority(a) == None
  {
    FindNone(a, ']');
    hide Find, ToLower, PortOk, FindLast;
  }

  lemma {:induction false} PortSurvives(host: string, port: string)
    requires HostShape(host) && host[0] != '[' && PortOk(port) && port != ""
    ensures ParseAuthority(host + PortPart(port)) == Some((host, port))
  {
    DigitsWithout(port, ':');
    var a, tail := host + PortPart(port), PortPart(port);
    assert tail[0] == ':' && tail[1..] == port;
    hide PortPart, PortOk, ToLower;
    LastColon(host, tail);
    assert a[0] == host[0];
    hide Find, FindLast;
  }

  lemma {:induction false} NoPort(host: string)
    requires HostShape(host) && host[0] != '['
    ensures ParseAuthority(host) == Some((host, "")) <==> Without(host, ':')
  {
    assert PortOk("");
    var colon := FindLast(host, ':');
    if colon >= 0 {
      LowerLength(host[..colon]);
      assert !Without(host, ':');
    } else {
      assert Without(host, ':');
    }
    hide Find, ToLower, PortOk, FindLast, Without;
  }

  lemma {:induction false} AuthorityRoundTrip(host: string, port: string)
    requires HostShape(host) && PortOk(port)
    ensures ParseAuthority(host + PortPart(port)) == Some((host, port)) <==> Reprintable(host, port)
  {
    if host[0] == '[' {
      PortPartWithout(port, ']');
      ConcatWithout(host, PortPart(port), ']');
      assert (host + PortPart(port))[0] == '[';
      hide ParseAuthority, PortPart;
      BracketFails(host + PortPart(port));
    } else if port != "" {
      PortSurvives(host, port);
    } else {
      assert host + PortPart(port) == host;
      NoPort(host);
      hide ParseAuthority;
    }
  }

  // ---- the main statements ----

  lemma {:induction false} CutIsPrefix(path: string)
    ensures CutPath(path) <= path
  {
    StripIsPrefix(path);
    hide StripSlashes, EndsWithCi;
  }

  lemma {:induction false} StripIsPrefix(path: string)
    ensures StripSlashes(path) <= path
    ensures StripSlashes(path) == path <==> path == "" || path[|path| - 1] != '/'
  {
    if path != "" && path[|path| - 1] == '/' {
      StripIsPrefix(path[..|path| - 1]);
    }
  }

  lemma {:induction false} CutShape(path: string)
    requires PathShape(path)
    ensures PathShape(CutPath(path))
  {
    CutIsPrefix(path);
    hide CutPath;
    PartWithout(path, 0, |CutPath(path)|, '#');
    PartWithout(path, 0, |CutPath(path)|, '?');
  }

  /** Reading the normalised URL gives the scheme, host and port that were accepted if and
      only if the host starts with no bracket and has a port or no colon. */
  lemma {:induction false} ReparseKeepsAddress(url: string, u: Url)
    requires Parse(url) == Some(u) && !u.hasUserinfo
    ensures var again := Parse(Print(u, CutPath(u.path)));
      && (Reprintable(u.host, u.port) <==>
            again.Some? && again.value.scheme == u.scheme && again.value.host == u.host && again.value.port == u.port)
      && (Reprintable(u.host, u.port) ==>
            again.value == Url(u.scheme, u.host, u.port, CutPath(u.path) + "/", false, false, false))
  {
    ParsedShape(url, u);
    CutShape(u.path);
    AuthorityRoundTrip(u.host, u.port);
    ParsePrinted(u, CutPath(u.path));
    hide Parse, Print, CutPath, ParseAuthority, Reprintable, UrlShape;
  }

  /** The path that a second run leaves alone. */
  predicate Settled(path: string) {
    && (path == "" || path[|path| - 1] != '/')
    && !EndsWithCi(path, METADATA) && !EndsWithCi(path, ODATA)
  }

  lemma {:induction false} CutAgain(path: string)
    ensures CutPath(path + "/") == path <==> Settled(path)
  {
    assert (path + "/")[..|path|] == path;
    assert StripSlashes(path + "/") == StripSlashes(path);
    StripIsPrefix(path);
    assert |METADATA| > 0 && |ODATA| > 0;
    hide StripSlashes, EndsWithCi, METADATA, ODATA;
  }

  lemma {:induction false} TrimPrinted(u: Url, path: string)
    requires Scheme(u.scheme)
    ensures Trim(Print(u, path)) == Print(u, path) != ""
  {
    SchemeLower(u.scheme);
    var s := Print(u, path);
    assert s[0] == 'h' && s[|s| - 1] == '/';
    hide Print;
    assert TrimLeft(s) == s;
    assert TrimRight(s) == s;
  }

  lemma {:induction false} PrintInjective(u: Url, v: Url, p: string, q: string)
    requires u.scheme == v.scheme && u.host == v.host && u.port == v.port
    ensures Print(u, p) == Print(v, q) <==> p == q
  {
    var head := u.scheme + "://" + (u.host + PortPart(u.port));
    assert Print(u, p) == head + (p + "/") && Print(v, q) == head + (q + "/");
    hide *;
    assert (head + (p + "/"))[|head|..] == p + "/" && (head + (q + "/"))[|head|..] == q + "/";
    assert (p + "/")[..|p + "/"| - 1] == p && (q + "/")[..|q + "/"| - 1] == q;
  }

  ghost predicate Passes(raw: string, o: Options, net: Network, u: Url) {
    && Trim(raw) != "" && |Trim(raw)| <= MAX_LENGTH && Parse(Trim(raw)) == Some(u)
    && !u.hasUserinfo && !u.hasQuery && !u.hasFragment && Accepted(o, net, u.scheme, u.host)
  }

  lemma {:induction false} NormalizeIff(raw: string, o: Options, net: Network)
    ensures Normalize(raw, o, net).Some? <==> Parse(Trim(raw)).Some? && Passes(raw, o, net, Parse(Trim(raw)).value)
    ensures Normalize(raw, o, net).Some? ==>
        Normalize(raw, o, net).value == Print(Parse(Trim(raw)).value, CutPath(Parse(Trim(raw)).value.path))
  {
    hide Trim, Parse, Accepted, Print, CutPath;
  }

  /** Normalising a normalised URL is a no-op exactly when the cut path ends in neither a
      slash nor an OData suffix and the result still fits. */
  lemma {:induction false} NormalizeAgain(raw: string, o: Options, net: Network)
    requires Normalize(raw, o, net).Some?
    requires Parse(Trim(raw)).Some? && Reprintable(Parse(Trim(raw)).value.host, Parse(Trim(raw)).value.port)
    ensures var out, u := Normalize(raw, o, net).value, Parse(Trim(raw)).value;
      (Normalize(out, o, net) == Some(out)) <==> (|out| <= MAX_LENGTH && Settled(CutPath(u.path)))
  {
    NormalizeIff(raw, o, net);
    hide Parse, Trim, Print, CutPath, Accepted, Settled, Reprintable, UrlShape, Normalize, ToLower, MAX_LENGTH;
    var url := Trim(raw);
    var u := Parse(url).value;
    var path := CutPath(u.path);
    var out := Print(u, path);
    ReparseKeepsAddress(url, u);
    ParsedShape(url, u);
    ShapeHasScheme(u);
    TrimPrinted(u, path);
    CutAgain(path);
    NormalizeIff(out, o, net);
    PrintInjective(Parse(out).value, u, CutPath(path + "/"), path);
  }

  lemma {:induction false} ShapeHasScheme(u: Url)
    requires UrlShape(u)
    ensures Scheme(u.scheme)
  {
  }

  /** The spellings of one publication: with nothing, with the service root, or with its
      metadata document appended, in any case of letters, each with any number of trailing
      slashes. */
  lemma {:induction false} SpellingsAgree(path: string, suffix: string, slashes: string)
    requires Settled(path) && forall i :: 0 <= i < |slashes| ==> slashes[i] == '/'
    requires suffix == "" || ToLower(suffix) == ToLower("/odata/standard.odata")
      || ToLower(suffix) == ToLower("/odata/standard.odata/$metadata")
    ensures CutPath(path + suffix + slashes) == path
  {
    assert OnlySlashes(slashes) && path + "" == path;
    assert ODATA == "/odata/standard.odata" && METADATA == "/odata/standard.odata/$metadata";
    hide *;
    CutIgnoresSlashes(path + suffix, slashes);
    if suffix == "" {
      SettledStays(path);
    } else if ToLower(suffix) == ToLower(ODATA) {
      RootIsCut(path, suffix);
    } else {
      MetadataIsCut(path, suffix);
    }
  }

  /** The path ends in these letters, of either case. */
  ghost predicate EndsIn(path: string, suffix: string) {
    exists i :: 0 <= i <= |path| && ToLower(path[i..]) == ToLower(suffix)
  }

  lemma {:induction false} EndsInIff(path: string, suffix: string)
    ensures EndsIn(path, suffix) <==> EndsWithCi(path, suffix)
  {
    LowerLength(suffix);
    forall i | 0 <= i <= |path| ensures |ToLower(path[i..])| == |path| - i { LowerLength(path[i..]); }
    hide ToLower;
  }

  lemma {:induction false} CutSuffixParts(path: string) returns (suffix: string)
    ensures path == CutSuffix(path) + suffix
    ensures suffix == "" ==> CutSuffix(path) == path && !EndsIn(path, METADATA) && !EndsIn(path, ODATA)
    ensures suffix != "" ==> ToLower(suffix) == ToLower(METADATA) || (ToLower(suffix) == ToLower(ODATA) && !EndsIn(path, METADATA))
  {
    EndsInIff(path, METADATA);
    EndsInIff(path, ODATA);
    SuffixLetters();
    hide METADATA, ODATA, ToLower, EndsIn;
    suffix := path[|CutSuffix(path)|..];
  }

  /** The suffix that the cut found, if any. */
  ghost predicate CutFrom(rest: string, suffix: string, whole: string, root: string) {
    if suffix == "" then !EndsIn(rest, whole) && !EndsIn(rest, root)
    else ToLower(suffix) == ToLower(whole) || (ToLower(suffix) == ToLower(root) && !EndsIn(rest + suffix, whole))
  }

  lemma {:induction false} CutInParts(path: string) returns (suffix: string, slashes: string)
    ensures path == CutPath(path) + suffix + slashes && OnlySlashes(slashes)
    ensures var p := CutPath(path) + suffix; p == "" || p[|p| - 1] != '/'
    ensures CutFrom(CutPath(path), suffix, METADATA, ODATA)
  {
    hide METADATA, ODATA, ToLower, StripSlashes, EndsIn, CutSuffix;
    slashes := StrippedSlashes(path);
    StripStops(path);
    suffix := CutSuffixParts(StripSlashes(path));
  }

  /** What the cut takes away: the trailing slashes, and before them one of the two suffixes in
      any case of letters, the longer one if the path ends in both, none if it ends in neither. */
  lemma {:induction false} CutTakesAway(path: string) returns (suffix: string, slashes: string)
    ensures path == CutPath(path) + suffix + slashes && forall i :: 0 <= i < |slashes| ==> slashes[i] == '/'
    ensures var p := CutPath(path) + suffix; p == "" || p[|p| - 1] != '/'
    ensures CutFrom(CutPath(path), suffix, "/odata/standard.odata/$metadata", "/odata/standard.odata")
  {
    assert ODATA == "/odata/standard.odata" && METADATA == "/odata/standard.odata/$metadata";
    hide CutFrom, CutPath;
    suffix, slashes := CutInParts(path);
  }

  lemma {:induction false} StrippedSlashes(path: string) returns (slashes: string)
    ensures path == StripSlashes(path) + slashes && OnlySlashes(slashes)
  {
    slashes := "";
    if path != "" && path[|path| - 1] == '/' {
      slashes := StrippedSlashes(path[..|path| - 1]);
      slashes := slashes + "/";
    }
  }

  lemma {:induction false} StripStops(path: string)
    ensures StripSlashes(path) == "" || StripSlashes(path)[|StripSlashes(path)| - 1] != '/'
  {
    if path != "" && path[|path| - 1] == '/' { StripStops(path[..|path| - 1]); }
  }

  lemma {:induction false} CutIgnoresSlashes(path: string, slashes: string)
    requires OnlySlashes(slashes)
    ensures CutPath(path + slashes) == CutPath(path)
  {
    hide StripSlashes, CutSuffix, OnlySlashes;
    StripMany(path, slashes);
  }

  lemma {:induction false} SettledStays(path: string)
    requires Settled(path)
    ensures CutPath(path) == path
  {
    hide EndsWithCi, METADATA, ODATA;
    StripIsPrefix(path);
    hide StripSlashes;
  }

  predicate OnlySlashes(s: string) { forall i :: 0 <= i < |s| ==> s[i] == '/' }

  lemma {:induction false} StripMany(path: string, slashes: string)
    requires OnlySlashes(slashes)
    ensures StripSlashes(path + slashes) == StripSlashes(path)
    decreases |slashes|
  {
    if slashes == "" {
      assert path + slashes == path;
    } else {
      var n := |slashes| - 1;
      StripMany(path, slashes[..n]);
      assert path + slashes == (path + slashes[..n]) + "/";
      StripOne(path + slashes[..n]);
    }
  }

  lemma {:induction false} SuffixCutOff(path: string, suffix: string)
    requires suffix != "" && suffix[|suffix| - 1] != '/'
    requires if EndsWithCi(path + suffix, METADATA) then |suffix| == |METADATA|
             else EndsWithCi(path + suffix, ODATA) && |suffix| == |ODATA|
    ensures CutPath(path + suffix) == path
  {
    hide EndsWithCi, METADATA, ODATA;
    StripIsPrefix(path + suffix);
    assert (path + suffix)[..|path|] == path;
    hide StripSlashes;
  }

  lemma {:induction false} RootIsCut(path: string, suffix: string)
    requires ToLower(suffix) == ToLower(ODATA)
    ensures CutPath(path + suffix) == path
  {
    hide *;
    SuffixLetters();
    SameLetters(suffix, ODATA, 20);
    EndsWithSuffix(path, suffix, ODATA);
    RootIsNotMetadata(path, suffix);
    SuffixCutOff(path, suffix);
  }

  lemma {:induction false} MetadataIsCut(path: string, suffix: string)
    requires ToLower(suffix) == ToLower(METADATA)
    ensures CutPath(path + suffix) == path
  {
    hide *;
    SuffixLetters();
    SameLetters(suffix, METADATA, 30);
    EndsWithSuffix(path, suffix, METADATA);
    SuffixCutOff(path, suffix);
  }

  lemma {:induction false} SameLetters(s: string, t: string, i: nat)
    requires ToLower(s) == ToLower(t) && i < |t|
    ensures |s| == |t| && LowerChar(s[i]) == LowerChar(t[i])
    ensures t[i] == 'a' ==> s[i] != '/'
  {
    assert ToLower(s)[i] == ToLower(t)[i];
    hide Map;
  }

  /** A path for which a second run does change the URL: a slash before the service root
      stays behind. */
  lemma {:induction false} SlashBeforeRootStays(path: string)
    ensures CutPath(path + "/" + ODATA) == path + "/" && !Settled(CutPath(path + "/" + ODATA))
  {
    hide *;
    RootIsCut(path + "/", ODATA);
    SlashNotSettled(path);
  }

  lemma {:induction false} SlashNotSettled(path: string)
    ensures !Settled(path + "/")
  {
    hide EndsWithCi, METADATA, ODATA;
    assert (path + "/")[|path|] == '/';
  }

  lemma {:induction false} StripOne(path: string)
    ensures StripSlashes(path + "/") == StripSlashes(path)
  {
    assert (path + "/")[..|path|] == path;
  }

  lemma {:induction false} EndsWithSuffix(path: string, suffix: string, wanted: string)
    requires ToLower(suffix) == ToLower(wanted)
    ensures EndsWithCi(path + suffix, wanted)
  {
    LowerLength(suffix);
    LowerLength(wanted);
    hide ToLower;
    assert (path + suffix)[|path|..] == suffix;
  }

  lemma {:induction false} SuffixLetters()
    ensures |ODATA| == 21 && ODATA[15] == '.' && ODATA[20] == 'a' && |METADATA| == 31 && METADATA[25] == 't' && METADATA[30] == 'a'
  {
  }

  lemma {:induction false} RootIsNotMetadata(path: string, suffix: string)
    requires ToLower(suffix) == ToLower(ODATA)
    ensures !EndsWithCi(path + suffix, METADATA)
  {
    hide METADATA, ODATA, Map;
    SuffixLetters();
    SameLetters(suffix, ODATA, 15);
    LettersDiffer(path + suffix, METADATA, 25);
  }

  lemma {:induction false} LettersDiffer(s: string, wanted: string, i: nat)
    requires i < |wanted| && wanted[i] == 't' && (|s| >= |wanted| ==> LowerChar(s[|s| - |wanted| + i]) == '.')
    ensures !EndsWithCi(s, wanted)
  {
    if |s| >= |wanted| {
      var tail := s[|s| - |wanted|..];
      assert ToLower(tail)[i] == '.' && ToLower(wanted)[i] == 't';
    }
    hide Map;
  }

  // ---- URLs that change ----

  /** parse_url on a text without user information, query or fragment. */
  lemma {:induction false} ParseSimple(scheme: string, authority: string, path: string, host: string)
    requires Scheme(scheme) && ParseAuthority(authority) == Some((host, ""))
    requires Without(authority + path, '#') && Without(authority + path, '?')
    requires Without(authority, '/') && Without(authority, '@') && path != "" && path[0] == '/'
    ensures Parse(scheme + "://" + (authority + path)) == Some(Url(scheme, host, "", path, false, false, false))
  {
    SchemeLower(scheme);
    hide ParseAuthority, Scheme, ToLower, FindScheme, ParseAfterScheme, Parse;
    SchemeEnds(scheme, authority + path);
    ParsedPieces(scheme, authority, path);
    ParseSteps(scheme + "://" + (authority + path), scheme, authority + path);
  }

  lemma {:induction false} LoopbackAuthority()
    ensures ParseAuthority("[::1]") == Some(("::1", ""))
  {
    FindAt("[::1]", ']', 4);
    assert "[::1]"[1..4] == "::1";
    assert ToLower("::1") == "::1" by {
      assert forall i :: 0 <= i < 3 ==> LowerChar("::1"[i]) == "::1"[i];
    }
    hide Find, FindLast, ToLower;
  }

  lemma {:induction false} BracketedText()
    ensures "https" + "://" + ("[::1]" + "/") == "https://[::1]/"
    ensures Without("[::1]" + "/", '#') && Without("[::1]" + "/", '?') && Without("[::1]", '/') && Without("[::1]", '@')
    ensures Scheme("https")
  {
  }

  lemma {:induction false} PrintedText(u: Url)
    requires u.scheme == "https" && u.host == "::1" && u.port == ""
    ensures Print(u, "") == "https://::1/"
  {
    assert u.host + PortPart("") == "::1" && "" + "/" == "/";
  }

  lemma {:induction false} ColonFirst()
    ensures !Reprintable("::1", "")
  {
    assert "::1"[0] == ':';
  }

  lemma {:induction false} BracketedParses()
    ensures Parse("https://[::1]/") == Some(Url("https", "::1", "", "/", false, false, false))
  {
    BracketedText();
    LoopbackAuthority();
    assert "/"[0] == '/';
    hide *;
    ParseSimple("https", "[::1]", "/", "::1");
  }

  /** A bracketed address: the printed URL has no brackets and is read as another host. */
  lemma {:induction false} BracketsAreLost()
    ensures Parse("https://[::1]/") == Some(Url("https", "::1", "", "/", false, false, false))
    ensures Print(Parse("https://[::1]/").value, CutPath("/")) == "https://::1/"
    ensures var again := Parse("https://::1/");
      !(again.Some? && again.value.scheme == "https" && again.value.host == "::1" && again.value.port == "")
  {
    hide *;
    var u := Url("https", "::1", "", "/", false, false, false);
    BracketedParses();
    OnlySlash();
    PrintedText(u);
    ColonFirst();
    ReparseKeepsAddress("https://[::1]/", u);
  }

  lemma {:induction false} OnlySlash()
    ensures CutPath("/") == ""
  {
    assert "/"[..0] == "";
    assert StripSlashes("/") == "";
    SuffixLetters();
    hide METADATA, ODATA, StripSlashes, ToLower;
  }

  lemma {:induction false} DoubledSlashPath()
    ensures CutPath("/" + ODATA) == "/" && !Settled("/")
  {
    SlashBeforeRootStays("");
    hide ODATA, METADATA, CutPath, Settled;
    assert "" + "/" == "/";
  }

  function DoubledSlash(): Url { Url("https", "h", "", "/" + ODATA, false, false, false) }

  lemma {:induction false} DoubledSlashPasses(raw: string, o: Options, net: Network)
    requires raw == "https" + "://" + ("h" + ("/" + ODATA)) && o == Options(false, true)
    ensures Passes(raw, o, net, DoubledSlash())
  {
    PlainHost();
    ShortRoot();
    var path := "/" + ODATA;
    assert DoubledSlash() == Url("https", "h", "", path, false, false, false);
    hide *;
    ParseSimple("https", "h", path, "h");
    RootPasses(raw, o, net, DoubledSlash());
  }

  lemma {:induction false} DoubledSlashPrinted()
    ensures Print(DoubledSlash(), "/") == "https://h//"
    ensures Reprintable(DoubledSlash().host, DoubledSlash().port)
  {
    hide ODATA;
    assert "h" + PortPart("") == "h" && "/" + "/" == "//";
  }

  /** A whole URL with a slash before the service root: normalising the result of the first
      run gives something else. */
  lemma {:induction false} SlashBeforeRootChanges(net: Network)
    ensures var raw, o := "https" + "://" + ("h" + ("/" + ODATA)), Options(false, true);
      Normalize(raw, o, net) == Some("https://h//") && Normalize("https://h//", o, net) != Some("https://h//")
  {
    var raw, o, u := "https" + "://" + ("h" + ("/" + ODATA)), Options(false, true), DoubledSlash();
    assert u.path == "/" + ODATA;
    hide *;
    DoubledSlashPath();
    DoubledSlashPasses(raw, o, net);
    DoubledSlashPrinted();
    PassesParses(raw, o, net, u);
    NormalizeIff(raw, o, net);
    NormalizeAgain(raw, o, net);
  }

  lemma {:induction false} PassesParses(raw: string, o: Options, net: Network, u: Url)
    requires Passes(raw, o, net, u)
    ensures Parse(Trim(raw)) == Some(u)
  {
    hide Parse, Trim, Accepted;
  }

  lemma {:induction false} RootPasses(raw: string, o: Options, net: Network, u: Url)
    requires raw != "" && raw[0] == 'h' && raw[|raw| - 1] == 'a' && |raw| <= 1024
    requires Parse(raw) == Some(u) && !u.hasUserinfo && !u.hasQuery && !u.hasFragment
    requires u.scheme == "https" && o == Options(false, true)
    ensures Passes(raw, o, net, u)
  {
    hide Parse;
    assert TrimLeft(raw) == raw && TrimRight(raw) == raw;
    assert u.scheme != "http" by { assert |u.scheme| == 5; }
  }

  lemma {:induction false} PlainHost()
    ensures ParseAuthority("h") == Some(("h", "")) && Scheme("https")
  {
    assert "h"[..0] == "" && FindLast("", ':') == -1;
    assert FindLast("h", ':') == -1;
    assert ToLower("h") == "h" by { assert LowerChar('h') == 'h'; }
    assert PortOk("");
    hide Find, FindLast, ToLower;
  }

  /** What the proof above needs to know of the text. */
  lemma {:induction false} ShortRoot()
    ensures var path := "/" + ODATA; var raw := "https" + "://" + ("h" + path);
      && |raw| <= 1024 && raw[0] == 'h' && raw[|raw| - 1] == 'a'
      && Without("h" + path, '#') && Without("h" + path, '?') && Without("h", '/') && Without("h", '@')
      && path[0] == '/'
  {
  }
}
