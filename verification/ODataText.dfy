/** The text of a balance request: the printers of onec_ka2_inventory.cpp and what a server
    that follows RFC 3986 and the OData literal rules reads back.  Strings are byte strings. */
module ODataText {
  import opened Sequences
  import opened Text
  import opened ChunkVector
  import opened Guids

  predicate Bytes(s: string) { forall i :: 0 <= i < |s| ==> s[i] < 256 as char }

  // ---- percent encoding ----

  /** Bytes that encode_path_for_cpr copies.  '%' is one of them. */
  predicate Copied(c: char) {
    ' ' < c < 128 as char && c != '\'' && c != '"' && c != '<' && c != '>' && c != '#' && c != '{' && c != '}'
    && c != '|' && c != '\\' && c != '^' && c != '`'
  }

  function UpperHex(n: nat): char
    requires n < 16
  {
    if n < 10 then '0' + n as char else 'A' + (n - 10) as char
  }

  function HexValue(c: char): (n: nat)
    requires HexDigit(c)
    ensures n < 16
  {
    if '0' <= c <= '9' then (c - '0') as nat
    else if 'a' <= c <= 'f' then (c - 'a') as nat + 10
    else (c - 'A') as nat + 10
  }

  lemma {:induction false} HexDigits(n: nat)
    requires n < 16
    ensures HexDigit(UpperHex(n)) && HexValue(UpperHex(n)) == n
    ensures UpperHex(n) != '%' && UpperHex(n) != '?'
  {
  }

  function EncodeByte(c: char): string
    requires c < 256 as char
  {
    if Copied(c) then [c] else ['%', UpperHex(c as nat / 16), UpperHex(c as nat % 16)]
  }

  function Encode(s: string): string
    requires Bytes(s)
  {
    if s == "" then "" else EncodeByte(s[0]) + Encode(s[1..])
  }

  lemma {:induction false} EncodeConcat(a: string, b: string)
    requires Bytes(a) && Bytes(b)
    ensures Bytes(a + b) && Encode(a + b) == Encode(a) + Encode(b)
  {
    hide EncodeByte;
    if a == "" {
      assert a + b == b;
    } else {
      EncodeConcat(a[1..], b);
      TailOfConcat(a, b);
      Associative(EncodeByte(a[0]), Encode(a[1..]), Encode(b));
    }
  }

  method EncodePathForCpr(s: string) returns (out: string)
    requires Bytes(s)
    ensures out == Encode(s)
  {
    out := "";
    for i := 0 to |s|
      invariant out == Encode(s[..i])
    {
      var c := s[i];
      assert s[..i + 1] == s[..i] + [c];
      EncodeConcat(s[..i], [c]);
      if Copied(c) {
        out := out + [c];
      } else {
        out := out + ['%', UpperHex(c as nat / 16), UpperHex(c as nat % 16)];
      }
    }
    assert s[..|s|] == s;
  }

  /** The encoder byte by byte: what is copied, and two upper-case digits for the rest. */
  lemma {:induction false} EncodedByte(c: char)
    requires c < 256 as char
    ensures Encode([c]) ==
      if '!' <= c < 128 as char && c !in "'\"<>#{}|\\^`" then [c]
      else ['%', "0123456789ABCDEF"[c as nat / 16], "0123456789ABCDEF"[c as nat % 16]]
  {
    UpperHexText(c as nat / 16);
    UpperHexText(c as nat % 16);
    MarksOf(c);
    hide Copied, UpperHex;
    assert [c][1..] == "" && Encode("") == "" && Encode([c]) == EncodeByte(c) + Encode("");
  }

  lemma {:induction false} MarksOf(c: char)
    ensures Copied(c) <==> '!' <= c < 128 as char && c !in "'\"<>#{}|\\^`"
  {
    var marks := "'\"<>#{}|\\^`";
    assert marks == ['\'', '\"', '<', '>', '#', '{', '}', '|', '\\', '^', '`'];
  }

  lemma {:induction false} UpperHexText(n: nat)
    requires n < 16
    ensures UpperHex(n) == "0123456789ABCDEF"[n]
  {
  }

  /** A percent sign and two hexadecimal digits. */
  predicate EscapeFirst(s: string) { |s| >= 3 && s[0] == '%' && HexDigit(s[1]) && HexDigit(s[2]) }

  /** Percent decoding, RFC 3986 section 2.1. */
  function Decode(s: string): string {
    if s == "" then ""
    else if EscapeFirst(s) then [(HexValue(s[1]) * 16 + HexValue(s[2])) as char] + Decode(s[3..])
    else [s[0]] + Decode(s[1..])
  }

  predicate HasEscape(s: string) { exists i :: 0 <= i < |s| && EscapeFirst(s[i..]) }

  lemma {:induction false} EncodeFirst(s: string)
    requires Bytes(s) && s != ""
    ensures Encode(s) != "" && Encode(s)[0] == if Copied(s[0]) then s[0] else '%'
    ensures !Copied(s[0]) ==> EscapeFirst(Encode(s)) && Encode(s)[3..] == Encode(s[1..])
    ensures Copied(s[0]) ==> Encode(s)[1..] == Encode(s[1..])
  {
    HexDigits(s[0] as nat / 16);
    HexDigits(s[0] as nat % 16);
  }

  /** The encoder makes no escape of its own around a copied '%'. */
  lemma {:induction false} EscapesSurvive(s: string)
    requires Bytes(s) && s != "" && Copied(s[0])
    ensures EscapeFirst(Encode(s)) <==> EscapeFirst(s)
  {
    EncodeFirst(s);
    assert Encode(s)[0] == s[0];
    if |s| > 1 {
      EncodeFirst(s[1..]);
      assert Encode(s)[1] == Encode(s[1..])[0];
      if |s| > 2 && Copied(s[1]) {
        EncodeFirst(s[2..]);
        assert s[1..][1..] == s[2..];
        assert Encode(s)[2] == Encode(s[2..])[0];
      }
    }
  }

  lemma {:induction false} HasEscapeStep(s: string)
    requires s != ""
    ensures HasEscape(s) <==> EscapeFirst(s) || HasEscape(s[1..])
  {
    assert s[0..] == s;
    if HasEscape(s) && !EscapeFirst(s) {
      var i :| 0 <= i < |s| && EscapeFirst(s[i..]);
      assert s[i..] == s[1..][i - 1..];
    }
    if HasEscape(s[1..]) {
      var i :| 0 <= i < |s| - 1 && EscapeFirst(s[1..][i..]);
      assert s[i + 1..] == s[1..][i..];
    }
  }

  /** Decoding gives the text back exactly when it holds no escape of its own; an escape
      in the input is read as one byte, so that the text gets shorter. */
  lemma {:induction false} PercentRoundTrip(s: string)
    requires Bytes(s)
    ensures !HasEscape(s) ==> Decode(Encode(s)) == s
    ensures HasEscape(s) ==> |Decode(Encode(s))| < |s|
  {
    if s != "" {
      hide Encode, HasEscape;
      EncodeFirst(s);
      HasEscapeStep(s);
      if !Copied(s[0]) {
        PercentRoundTrip(s[1..]);
        EncodedByteDecodes(s);
      } else {
        EscapesSurvive(s);
        if EscapeFirst(s) {
          EscapeCopied(s);
          PercentRoundTrip(s[3..]);
          assert Decode(Encode(s))[1..] == Decode(Encode(s[3..]));
        } else {
          PercentRoundTrip(s[1..]);
          assert Decode(Encode(s)) == [s[0]] + Decode(Encode(s[1..]));
        }
      }
    }
  }

  lemma {:induction false} EncodedByteDecodes(s: string)
    requires Bytes(s) && s != "" && !Copied(s[0])
    ensures Decode(Encode(s)) == [s[0]] + Decode(Encode(s[1..]))
    ensures !EscapeFirst(s)
  {
    EncodeFirst(s);
    HexDigits(s[0] as nat / 16);
    HexDigits(s[0] as nat % 16);
  }

  lemma {:induction false} EscapeCopied(s: string)
    requires Bytes(s) && EscapeFirst(s)
    ensures EscapeFirst(Encode(s)) && Encode(s)[3..] == Encode(s[3..])
  {
    EscapesSurvive(s);
    var t, u := s[1..], s[2..];
    assert t[1..] == u && u[1..] == s[3..];
    EncodeFirst(s);
    EncodeFirst(t);
    EncodeFirst(u);
    assert Encode(s)[3..] == Encode(s)[1..][1..][1..];
  }

  // ---- the request target ----

  /** The server splits off the query at the first '?' and decodes the path. */
  function ReceivedPath(target: string): string { Decode(target[..Find(target, '?')]) }

  lemma {:induction false} EncodeQuestionMark(s: string)
    requires Bytes(s)
    ensures '?' in Encode(s) <==> '?' in s
  {
    if s != "" {
      HexDigits(s[0] as nat / 16);
      HexDigits(s[0] as nat % 16);
      EncodeQuestionMark(s[1..]);
      assert s == [s[0]] + s[1..];
    }
  }

  lemma {:induction false} ReceivedBefore(before: string, after: string)
    requires '?' !in before && after != "" && after[0] == '?'
    ensures ReceivedPath(before + after) == Decode(before)
  {
    hide Decode;
    var target := before + after;
    FindAt(target, '?', |before|);
    assert target[..|before|] == before;
  }

  lemma {:induction false} PathArrivesPlain(path: string, query: string)
    requires Bytes(path) && '?' !in path
    ensures ReceivedPath(Encode(path) + "?" + query) == Decode(Encode(path))
  {
    EncodeQuestionMark(path);
    hide Encode;
    Associative(Encode(path), "?", query);
    ReceivedBefore(Encode(path), "?" + query);
  }

  lemma {:induction false} SplitAtQuestionMark(path: string) returns (a: string, b: string)
    requires '?' in path
    ensures path == a + b && '?' !in a && b != "" && b[0] == '?'
  {
    var i := Find(path, '?');
    FindNone(path, '?');
    hide Find;
    a, b := path[..i], path[i..];
  }

  lemma {:induction false} BytesParts(a: string, b: string)
    requires Bytes(a + b)
    ensures Bytes(a) && Bytes(b)
  {
    forall i | 0 <= i < |a| ensures a[i] == (a + b)[i] {}
    forall i | 0 <= i < |b| ensures b[i] == (a + b)[|a| + i] {}
  }

  lemma {:induction false} DecodedLength(s: string)
    requires Bytes(s)
    ensures |Decode(Encode(s))| <= |s|
  {
    hide *;
    PercentRoundTrip(s);
    if !HasEscape(s) { assert Decode(Encode(s)) == s; }
  }

  lemma {:induction false} PathCutShort(path: string, query: string)
    requires Bytes(path) && '?' in path
    ensures |ReceivedPath(Encode(path) + "?" + query)| < |path|
  {
    assert Copied('?');
    hide *;
    var a, b := SplitAtQuestionMark(path);
    BytesParts(a, b);
    EncodeConcat(a, b);
    EncodeQuestionMark(a);
    EncodeFirst(b);
    Associative(Encode(a), Encode(b), "?");
    Associative(Encode(a), Encode(b) + "?", query);
    ReceivedBefore(Encode(a), Encode(b) + "?" + query);
    DecodedLength(a);
  }

  /** A path reaches the server unchanged if and only if it holds neither an escape nor a
      question mark. */
  lemma {:induction false} PathArrives(path: string, query: string)
    requires Bytes(path)
    ensures ReceivedPath(Encode(path) + "?" + query) == path <==> !HasEscape(path) && '?' !in path
  {
    if '?' !in path {
      PathArrivesPlain(path, query);
      PercentRoundTrip(path);
    } else {
      PathCutShort(path, query);
    }
    hide *;
  }

  // ---- string literals ----

  function EscapeQuote(c: char): string { if c == '\'' then "''" else [c] }

  function EscapeQuotes(s: string): string {
    if s == "" then "" else EscapeQuote(s[0]) + EscapeQuotes(s[1..])
  }

  lemma {:induction false} EscapeQuotesConcat(a: string, b: string)
    ensures EscapeQuotes(a + b) == EscapeQuotes(a) + EscapeQuotes(b)
  {
    hide EscapeQuote;
    if a == "" {
      assert a + b == b;
    } else {
      EscapeQuotesConcat(a[1..], b);
      TailOfConcat(a, b);
      Associative(EscapeQuote(a[0]), EscapeQuotes(a[1..]), EscapeQuotes(b));
    }
  }

  method EscapeODataString(s: string) returns (out: string)
    ensures out == EscapeQuotes(s)
  {
    out := "";
    for i := 0 to |s|
      invariant out == EscapeQuotes(s[..i])
    {
      assert s[..i + 1] == s[..i] + [s[i]];
      EscapeQuotesConcat(s[..i], [s[i]]);
      if s[i] == '\'' {
        out := out + "''";
      } else {
        out := out + [s[i]];
      }
    }
    assert s[..|s|] == s;
  }

  /** Quotes are doubled and nothing else changes. */
  lemma {:induction false} QuotesDoubled(a: string, b: string)
    ensures EscapeQuotes(a + "'" + b) == EscapeQuotes(a) + "''" + EscapeQuotes(b)
    ensures '\'' !in a ==> EscapeQuotes(a) == a
  {
    EscapeQuotesConcat(a + "'", b);
    EscapeQuotesConcat(a, "'");
    assert "'"[1..] == "" && EscapeQuotes("'") == EscapeQuote('\'') + EscapeQuotes("") == "''";
    assert (EscapeQuotes(a) + "''") + EscapeQuotes(b) == EscapeQuotes(a) + "''" + EscapeQuotes(b);
    if '\'' !in a { NothingToDouble(a); }
  }

  lemma {:induction false} NothingToDouble(a: string)
    requires '\'' !in a
    ensures EscapeQuotes(a) == a
  {
    if a != "" {
      assert a == [a[0]] + a[1..];
      NothingToDouble(a[1..]);
    }
  }

  datatype Read<+T> = Read(value: T, rest: string) | Malformed

  /** The literal after its opening quote, up to the first quote that is not doubled. */
  function ReadLiteral(s: string): Read<string> {
    if s == "" then Malformed
    else if s[0] == '\'' && (|s| == 1 || s[1] != '\'') then Read("", s[1..])
    else
      match ReadLiteral(if s[0] == '\'' then s[2..] else s[1..])
      case Read(t, rest) => Read([s[0]] + t, rest)
      case Malformed => Malformed
  }

  lemma {:induction false} LiteralStep(c: char, inner: string, t: string, rest: string)
    requires ReadLiteral(inner) == Read(t, rest)
    ensures ReadLiteral(EscapeQuote(c) + inner) == Read([c] + t, rest)
  {
    var s := EscapeQuote(c) + inner;
    if c == '\'' {
      assert s[0] == s[1] == '\'' && s[2..] == inner;
    } else {
      assert s[0] == c && s[1..] == inner;
    }
  }

  lemma {:induction false} LiteralEnds(rest: string)
    requires rest == "" || rest[0] != '\''
    ensures ReadLiteral("'" + rest) == Read("", rest)
  {
    assert ("'" + rest)[1..] == rest;
  }

  lemma {:induction false} LiteralRoundTrip(t: string, rest: string)
    requires rest == "" || rest[0] != '\''
    ensures ReadLiteral(EscapeQuotes(t) + "'" + rest) == Read(t, rest)
  {
    hide ReadLiteral, EscapeQuote;
    if t == "" {
      LiteralEnds(rest);
      assert EscapeQuotes(t) + "'" + rest == "'" + rest;
    } else {
      var inner := EscapeQuotes(t[1..]) + "'" + rest;
      LiteralRoundTrip(t[1..], rest);
      LiteralStep(t[0], inner, t[1..], rest);
      assert EscapeQuotes(t) + "'" + rest == EscapeQuote(t[0]) + inner;
      assert [t[0]] + t[1..] == t;
    }
  }

  // ---- the filter ----

  function Term(field: string, guid: string): string { field + " eq guid'" + guid + "'" }

  function GuidFilter(field: string, guids: seq<string>): string {
    if guids == [] then ""
    else if |guids| == 1 then Term(field, guids[0])
    else Term(field, guids[0]) + " or " + GuidFilter(field, guids[1..])
  }

  lemma {:induction false} GuidFilterAppend(field: string, guids: seq<string>, g: string)
    requires guids != []
    ensures GuidFilter(field, guids + [g]) == GuidFilter(field, guids) + " or " + Term(field, g)
  {
    if |guids| > 1 {
      GuidFilterAppend(field, guids[1..], g);
      assert (guids + [g])[1..] == guids[1..] + [g];
    } else {
      assert (guids + [g])[1..] == [g];
    }
  }

  method BuildGuidFilter(field: string, guids: seq<string>) returns (out: string)
    ensures out == GuidFilter(field, guids)
  {
    if guids == [] {
      return "";
    }
    out := "";
    for i := 0 to |guids|
      invariant out == GuidFilter(field, guids[..i])
    {
      assert guids[..i + 1] == guids[..i] + [guids[i]];
      if i > 0 {
        GuidFilterAppend(field, guids[..i], guids[i]);
        out := out + " or ";
      }
      hide GuidFilter;
      out := out + Term(field, guids[i]);
    }
    assert guids[..|guids|] == guids;
  }

  /** The text of a filter: the terms joined by " or ". */
  lemma {:induction false} FilterText(field: string, guids: seq<string>, g: string)
    ensures GuidFilter(field, []) == ""
    ensures GuidFilter(field, [g]) == field + " eq guid'" + g + "'"
    ensures guids != [] ==> GuidFilter(field, guids + [g]) == GuidFilter(field, guids) + " or " + (field + " eq guid'" + g + "'")
  {
    if guids != [] { GuidFilterAppend(field, guids, g); }
  }

  /** The text after an expected prefix. */
  function After(s: string, prefix: string): Read<()> {
    if prefix <= s then Read((), s[|prefix|..]) else Malformed
  }

  lemma {:induction false} AfterPrefix(prefix: string, rest: string)
    ensures After(prefix + rest, prefix) == Read((), rest)
  {
  }

  /** The text before a quote. */
  function UpToQuote(s: string): Read<string> {
    var i := Find(s, '\'');
    if i < |s| then Read(s[..i], s[i + 1..]) else Malformed
  }

  lemma {:induction false} QuoteEnds(t: string, rest: string)
    requires '\'' !in t
    ensures UpToQuote(t + "'" + rest) == Read(t, rest)
  {
    var s := t + "'" + rest;
    FindAt(s, '\'', |t|);
    assert s[..|t|] == t && s[|t| + 1..] == rest;
  }

  /** The keys of "field eq guid'..' or field eq guid'..' ...". */
  function ReadTerms(field: string, s: string): Read<seq<string>>
    decreases |s|
  {
    match After(s, field + " eq guid'")
    case Malformed => Malformed
    case Read(_, r0) =>
      match UpToQuote(r0)
      case Malformed => Malformed
      case Read(g, "") => Read([g], "")
      case Read(g, r1) =>
        match After(r1, " or ")
        case Malformed => Malformed
        case Read(_, r2) =>
          match ReadTerms(field, r2)
          case Malformed => Malformed
          case Read(gs, r3) => Read([g] + gs, r3)
  }

  lemma {:induction false} ReadLastTerm(field: string, s: string, g: string, r0: string)
    requires After(s, field + " eq guid'") == Read((), r0) && UpToQuote(r0) == Read(g, "")
    ensures ReadTerms(field, s) == Read([g], "")
  {
    hide After, UpToQuote;
  }

  lemma {:induction false} ReadMoreTerms(field: string, s: string, g: string, r0: string, r1: string, r2: string, gs: seq<string>)
    requires After(s, field + " eq guid'") == Read((), r0) && UpToQuote(r0) == Read(g, r1) && r1 != ""
    requires After(r1, " or ") == Read((), r2) && ReadTerms(field, r2) == Read(gs, "")
    ensures ReadTerms(field, s) == Read([g] + gs, "")
  {
    hide After, UpToQuote;
  }

  lemma {:induction false} FilterRoundTrip(field: string, guids: seq<string>)
    requires guids != [] && forall g :: g in guids ==> '\'' !in g
    ensures ReadTerms(field, GuidFilter(field, guids)) == Read(guids, "")
  {
    var g, prefix, s := guids[0], field + " eq guid'", GuidFilter(field, guids);
    if |guids| == 1 {
      assert s == prefix + (g + "'" + "");
      hide *;
      AfterPrefix(prefix, g + "'" + "");
      QuoteEnds(g, "");
      ReadLastTerm(field, s, g, g + "'" + "");
      assert guids == [g];
    } else {
      var more := GuidFilter(field, guids[1..]);
      var tail := " or " + more;
      assert s == prefix + (g + "'" + tail);
      hide *;
      FilterRoundTrip(field, guids[1..]);
      AfterPrefix(" or ", more);
      AfterPrefix(prefix, g + "'" + tail);
      QuoteEnds(g, tail);
      ReadMoreTerms(field, s, g, g + "'" + tail, tail, more, guids[1..]);
      assert guids == [g] + guids[1..];
    }
  }

  // ---- the whole balance path ----

  datatype Balance = Balance(register: string, period: string, condition: string, dimensions: string)

  const PERIOD := "/Balance(Period=datetime'"
  const CONDITION := ",Condition='"
  const DIMENSIONS := ",Dimensions='"

  function Argument(name: string, t: string): string { name + EscapeQuotes(t) + "'" }

  function BalancePath(b: Balance): string {
    (b.register + PERIOD + b.period + "'") + Argument(CONDITION, b.condition) + Argument(DIMENSIONS, b.dimensions) + ")"
  }

  /** The text of a balance path. */
  lemma {:induction false} BalanceText(b: Balance)
    ensures BalancePath(b) == b.register + "/Balance(Period=datetime'" + b.period + "'"
      + ",Condition='" + EscapeQuotes(b.condition) + "'" + ",Dimensions='" + EscapeQuotes(b.dimensions) + "'" + ")"
  {
    var head, c, d := b.register + "/Balance(Period=datetime'" + b.period + "'", EscapeQuotes(b.condition), EscapeQuotes(b.dimensions);
    assert BalancePath(b) == head + (",Condition='" + c + "'") + (",Dimensions='" + d + "'") + ")";
    hide EscapeQuotes, BalancePath;
    Regrouped(head, ",Condition='", c, "'", ",Dimensions='", d, ")");
  }

  lemma {:induction false} Regrouped(head: string, x: string, c: string, q: string, y: string, d: string, end: string)
    ensures head + (x + c + q) + (y + d + q) + end == head + x + c + q + y + d + q + end
  {
  }

  function ReadArgument(s: string, name: string): Read<string> {
    match After(s, name)
    case Malformed => Malformed
    case Read(_, rest) => ReadLiteral(rest)
  }

  function ReadBalance(s: string): Read<Balance> {
    var i := Find(s, '/');
    match After(s[i..], PERIOD)
    case Malformed => Malformed
    case Read(_, r0) =>
      match UpToQuote(r0)
      case Malformed => Malformed
      case Read(period, r1) =>
        match ReadArgument(r1, CONDITION)
        case Malformed => Malformed
        case Read(condition, r2) =>
          match ReadArgument(r2, DIMENSIONS)
          case Malformed => Malformed
          case Read(dimensions, r3) =>
            if r3 == ")" then Read(Balance(s[..i], period, condition, dimensions), "") else Malformed
  }

  lemma {:induction false} ArgumentRoundTrip(name: string, t: string, rest: string)
    requires rest == "" || rest[0] != '\''
    ensures ReadArgument(Argument(name, t) + rest, name) == Read(t, rest)
  {
    assert Argument(name, t) + rest == name + (EscapeQuotes(t) + "'" + rest);
    AfterPrefix(name, EscapeQuotes(t) + "'" + rest);
    LiteralRoundTrip(t, rest);
  }

  lemma {:induction false} Regroup(register: string, before: string, period: string, quote: string, c: string, d: string, end: string)
    ensures (register + before + period + quote) + c + d + end == register + (before + (period + quote + (c + (d + end))))
  {
  }

  lemma {:induction false} StartsAtSlash(register: string, rest: string)
    requires '/' !in register && rest != "" && rest[0] == '/'
    ensures Find(register + rest, '/') == |register|
    ensures (register + rest)[..|register|] == register && (register + rest)[|register|..] == rest
  {
    FindAt(register + rest, '/', |register|);
  }

  lemma {:induction false} ReadBalanceSteps(s: string, r0: string, r1: string, r2: string, b: Balance)
    requires Find(s, '/') == |b.register| && s[..|b.register|] == b.register
    requires After(s[|b.register|..], PERIOD) == Read((), r0)
    requires UpToQuote(r0) == Read(b.period, r1)
    requires ReadArgument(r1, CONDITION) == Read(b.condition, r2)
    requires ReadArgument(r2, DIMENSIONS) == Read(b.dimensions, ")")
    ensures ReadBalance(s) == Read(b, "")
  {
    hide Find, After, UpToQuote, ReadArgument, PERIOD, CONDITION, DIMENSIONS;
  }

  lemma {:induction false} BalanceRoundTrip(b: Balance)
    requires '/' !in b.register && '\'' !in b.period
    ensures ReadBalance(BalancePath(b)) == Read(b, "")
  {
    var c, d := Argument(CONDITION, b.condition), Argument(DIMENSIONS, b.dimensions);
    var rest := b.period + "'" + (c + (d + ")"));
    assert (d + ")")[0] == ',' && (PERIOD + rest)[0] == '/' && ")"[0] != '\'';
    ArgumentRoundTrip(CONDITION, b.condition, d + ")");
    ArgumentRoundTrip(DIMENSIONS, b.dimensions, ")");
    var s := BalancePath(b);
    assert s == (b.register + PERIOD + b.period + "'") + c + d + ")";
    hide *;
    Regroup(b.register, PERIOD, b.period, "'", c, d, ")");
    StartsAtSlash(b.register, PERIOD + rest);
    AfterPrefix(PERIOD, rest);
    QuoteEnds(b.period, c + (d + ")"));
    ReadBalanceSteps(s, rest, c + (d + ")"), d + ")", b);
  }

  // ---- what the server reads ----

  predicate Plain(s: string) { Bytes(s) && '%' !in s && '?' !in s }

  lemma {:induction false} PlainConcat(a: string, b: string)
    ensures Plain(a + b) <==> Plain(a) && Plain(b)
  {
    if Plain(a + b) {
      forall i | 0 <= i < |a| ensures a[i] == (a + b)[i] {}
      forall i | 0 <= i < |b| ensures b[i] == (a + b)[|a| + i] {}
    }
  }

  lemma {:induction false} PlainEscaped(s: string)
    requires Plain(s)
    ensures Plain(EscapeQuotes(s))
  {
    if s != "" {
      assert s == [s[0]] + s[1..];
      PlainConcat([s[0]], s[1..]);
      PlainEscaped(s[1..]);
      PlainConcat(EscapeQuote(s[0]), EscapeQuotes(s[1..]));
    }
  }

  lemma {:induction false} PlainFilter(field: string, guids: seq<string>)
    requires Plain(field) && forall g :: g in guids ==> Plain(g)
    ensures Plain(GuidFilter(field, guids))
  {
    if guids != [] {
      var g := guids[0];
      assert Plain(" eq guid'") && Plain("'") && Plain(" or ");
      PlainConcat(field, " eq guid'");
      PlainConcat(field + " eq guid'", g);
      PlainConcat(field + " eq guid'" + g, "'");
      PlainConcat(Term(field, g), " or ");
      PlainFilter(field, guids[1..]);
      PlainConcat(Term(field, g) + " or ", GuidFilter(field, guids[1..]));
    }
  }

  lemma {:induction false} PlainConstants()
    ensures Plain(CONDITION) && Plain(DIMENSIONS) && Plain("'") && Plain(")")
  {
  }

  lemma {:induction false} PlainPeriod()
    ensures Plain(PERIOD)
  {
  }

  lemma {:induction false} PlainPath(b: Balance)
    requires Plain(b.register) && Plain(b.period) && Plain(b.condition) && Plain(b.dimensions)
    ensures Plain(BalancePath(b))
  {
    var c, d := Argument(CONDITION, b.condition), Argument(DIMENSIONS, b.dimensions);
    PlainConstants();
    PlainPeriod();
    hide Plain, Argument, PERIOD, CONDITION, DIMENSIONS;
    assert BalancePath(b) == (b.register + PERIOD + b.period + "'") + c + d + ")";
    hide *;
    PlainArgument(CONDITION, b.condition);
    PlainArgument(DIMENSIONS, b.dimensions);
    var head := b.register + PERIOD + b.period + "'";
    PlainConcat(b.register, PERIOD);
    PlainConcat(b.register + PERIOD, b.period);
    PlainConcat(b.register + PERIOD + b.period, "'");
    PlainConcat(head, c);
    PlainConcat(head + c, d);
    PlainConcat(head + c + d, ")");
  }

  lemma {:induction false} PlainArgument(name: string, t: string)
    requires Plain(name) && Plain(t)
    ensures Plain(Argument(name, t))
  {
    PlainEscaped(t);
    assert Plain("'");
    hide EscapeQuotes, Plain;
    PlainConcat(name, EscapeQuotes(t));
    PlainConcat(name + EscapeQuotes(t), "'");
  }

  lemma {:induction false} GuidPlain(s: string)
    requires ValidGuid(s)
    ensures Plain(s) && '\'' !in s
  {
  }

  /** The keys and the other arguments that a server finds in a request for one chunk. */
  ghost predicate ServerReads(target: string, field: string, register: string, period: string, dimensions: string, keys: seq<string>) {
    && ReadBalance(ReceivedPath(target)).Read?
    && var b := ReadBalance(ReceivedPath(target)).value;
       && b.register == register && b.period == period && b.dimensions == dimensions
       && ReadTerms(field, b.condition) == Read(keys, "")
  }

  function Target(field: string, register: string, period: string, dimensions: string, keys: seq<string>, query: string): string
    requires Bytes(BalancePath(Balance(register, period, GuidFilter(field, keys), dimensions)))
  {
    Encode(BalancePath(Balance(register, period, GuidFilter(field, keys), dimensions))) + "?" + query
  }

  /** Printing a request and reading it is lossless: the server finds the keys of the chunk
      in order, and the register, period and dimensions that were meant. */
  lemma {:induction false} RequestIsLossless(field: string, register: string, period: string, dimensions: string, keys: seq<string>, query: string)
    requires Plain(field) && Plain(register) && Plain(period) && Plain(dimensions)
    requires '/' !in register && '\'' !in period
    requires keys != [] && forall k :: k in keys ==> ValidGuid(k)
    ensures Bytes(BalancePath(Balance(register, period, GuidFilter(field, keys), dimensions)))
    ensures ServerReads(Target(field, register, period, dimensions, keys, query), field, register, period, dimensions, keys)
  {
    hide Encode, Decode, EscapeQuotes, GuidFilter, ReadTerms, ReadBalance, BalancePath, Find;
    forall k | k in keys ensures Plain(k) && '\'' !in k { GuidPlain(k); }
    hide ValidGuid;
    PlainFilter(field, keys);
    var b := Balance(register, period, GuidFilter(field, keys), dimensions);
    PlainPath(b);
    NoPercentNoEscape(BalancePath(b));
    PathArrives(BalancePath(b), query);
    BalanceRoundTrip(b);
    FilterRoundTrip(field, keys);
  }

  lemma {:induction false} NoPercentNoEscape(s: string)
    requires '%' !in s
    ensures !HasEscape(s)
  {
    forall i | 0 <= i < |s| ensures !EscapeFirst(s[i..]) { assert s[i..][0] == s[i]; }
  }

  /** Over all chunks of the key list the server is asked for every key, once, in order. */
  lemma {:induction false} AllKeysAreAsked(field: string, register: string, period: string, dimensions: string, values: seq<string>, size: nat, query: string)
    requires Plain(field) && Plain(register) && Plain(period) && Plain(dimensions)
    requires '/' !in register && '\'' !in period && size > 0
    requires forall k :: k in values ==> ValidGuid(k)
    ensures Flatten(Chunks(values, size)) == values
    ensures forall c :: c in Chunks(values, size) ==>
        && Bytes(BalancePath(Balance(register, period, GuidFilter(field, c), dimensions)))
        && ServerReads(Target(field, register, period, dimensions, c, query), field, register, period, dimensions, c)
  {
    ChunksCover(values, size);
    hide ServerReads, Target, Bytes, BalancePath, GuidFilter, Plain, ValidGuid, Chunks;
    forall c | c in Chunks(values, size)
      ensures Bytes(BalancePath(Balance(register, period, GuidFilter(field, c), dimensions)))
      ensures ServerReads(Target(field, register, period, dimensions, c, query), field, register, period, dimensions, c)
    {
      forall k | k in c ensures ValidGuid(k) {
        InFlatten(Chunks(values, size), c, k);
      }
      RequestIsLossless(field, register, period, dimensions, c, query);
    }
  }

  lemma {:induction false} InFlatten<T>(parts: seq<seq<T>>, c: seq<T>, x: T)
    requires c in parts && x in c
    ensures x in Flatten(parts)
  {
    if parts[0] != c {
      InFlatten(parts[1..], c, x);
    }
  }

  // ---- texts that do not arrive ----

  /** An escape in the input is read as the byte it names. */
  lemma {:induction false} EscapeIsLost(query: string)
    ensures ReceivedPath(Encode("%41") + "?" + query) != "%41"
  {
    assert Bytes("%41") && "%41"[0..] == "%41" && EscapeFirst("%41");
    assert HasEscape("%41");
    hide *;
    PathArrives("%41", query);
  }

  /** A question mark in the input starts the query. */
  lemma {:induction false} QuestionMarkIsLost(query: string)
    ensures ReceivedPath(Encode("a?b") + "?" + query) != "a?b"
  {
    assert Bytes("a?b") && "a?b"[1] == '?';
    hide *;
    PathArrives("a?b", query);
  }
}
