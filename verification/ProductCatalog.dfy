/** normalize_onec_product_catalog and the conflict count beside it. */
module ProductCatalog {
  import opened Guids
  import opened Order
  import opened Sequences

  /** code, article, name, ref_key; rows from elsewhere may be shorter. */
  type RawRow = seq<string>

  datatype Product = Product(code: string, article: string, name: string, refKey: string, measuredAt: string)

  predicate Wide(row: RawRow) { |row| >= 4 }

  predicate Usable(row: RawRow) { Wide(row) && row[0] != "" && row[3] != "" && ValidGuid(row[3]) }

  function ProductOf(row: RawRow, at: string): Product
    requires Wide(row)
  {
    Product(row[0], row[1], row[2], row[3], at)
  }

  function ByCode(p: Product): Key { [p.code] }

  lemma {:induction false} CodeLess(p: Product, q: Product)
    ensures KeyLess(ByCode(p), ByCode(q)) <==> StrLess(p.code, q.code)
  {
    assert ByCode(p)[1..] == ByCode(q)[1..] == [];
    if p.code == q.code { StrTrichotomy(p.code, q.code); }
  }

  // ---- what the catalogue should be ----

  ghost predicate LastForRef(rows: seq<RawRow>, i: int) {
    && 0 <= i < |rows| && Usable(rows[i])
    && forall j :: i < j < |rows| && Usable(rows[j]) ==> rows[j][3] != rows[i][3]
  }

  /** Some usable row gives the code to the product. */
  ghost predicate Claims(rows: seq<RawRow>, code: string, ref: string) {
    exists j :: 0 <= j < |rows| && Usable(rows[j]) && rows[j][0] == code && rows[j][3] == ref
  }

  /** p is the last usable row of its product, and no other product claims its code. */
  ghost predicate Emitted(rows: seq<RawRow>, at: string, p: Product) {
    && (exists i :: LastForRef(rows, i) && p == ProductOf(rows[i], at))
    && forall ref :: Claims(rows, p.code, ref) ==> ref == p.refKey
  }

  ghost predicate Normalized(rows: seq<RawRow>, at: string, out: seq<Product>) {
    StrictlySorted(out, ByCode) && forall p :: p in out <==> Emitted(rows, at, p)
  }

  /** The result does not depend on the order in which the hash map is walked. */
  lemma {:induction false} NormalizedOnce(rows: seq<RawRow>, at: string, a: seq<Product>, b: seq<Product>)
    requires Normalized(rows, at, a) && Normalized(rows, at, b)
    ensures a == b
  {
    hide Emitted, ByCode;
    StrictlySortedUnique(a, b, ByCode);
  }

  lemma {:induction false} EmittedClaims(rows: seq<RawRow>, at: string, p: Product)
    requires Emitted(rows, at, p)
    ensures Claims(rows, p.code, p.refKey)
  {
    var k :| LastForRef(rows, k) && p == ProductOf(rows[k], at);
  }

  lemma {:induction false} EmittedRefsDistinct(rows: seq<RawRow>, at: string, p: Product, q: Product)
    requires Emitted(rows, at, p) && Emitted(rows, at, q) && p != q
    ensures p.refKey != q.refKey && p.code != q.code
  {
    EmittedClaims(rows, at, q);
    var k :| LastForRef(rows, k) && p == ProductOf(rows[k], at);
    var l :| LastForRef(rows, l) && q == ProductOf(rows[l], at);
    assert k != l;
  }

  /** Codes ascend strictly, and no product appears twice. */
  lemma {:induction false} CodesAndRefsUnique(rows: seq<RawRow>, at: string, out: seq<Product>, i: nat, j: nat)
    requires Normalized(rows, at, out) && i < j < |out|
    ensures StrLess(out[i].code, out[j].code)
    ensures out[i].code != out[j].code && out[i].refKey != out[j].refKey
  {
    CodeLess(out[i], out[j]);
    StrTrichotomy(out[i].code, out[j].code);
    EmittedRefsDistinct(rows, at, out[i], out[j]);
  }

  // ---- the two maps ----

  ghost predicate ByRefHolds(rows: seq<RawRow>, n: nat, at: string, byRef: map<string, Product>)
    requires n <= |rows|
  {
    && (forall ref :: ref in byRef <==> exists i :: LastForRef(rows[..n], i) && rows[i][3] == ref)
    && (forall ref, i :: ref in byRef && LastForRef(rows[..n], i) && rows[i][3] == ref ==> byRef[ref] == ProductOf(rows[i], at))
  }

  ghost predicate Joins(refsByCode: map<string, set<string>>, code: string, ref: string) {
    code in refsByCode && ref in refsByCode[code]
  }

  ghost predicate RefsHold(rows: seq<RawRow>, n: nat, refsByCode: map<string, set<string>>)
    requires n <= |rows|
  {
    forall code, ref :: Claims(rows[..n], code, ref) <==> Joins(refsByCode, code, ref)
  }

  lemma {:induction false} LastForRefStep(rows: seq<RawRow>, n: nat, i: int)
    requires n < |rows|
    ensures LastForRef(rows[..n + 1], i) <==>
        if i == n then Usable(rows[n])
        else LastForRef(rows[..n], i) && (Usable(rows[n]) ==> rows[n][3] != rows[i][3])
  {
    var p, q := rows[..n], rows[..n + 1];
    assert forall j :: 0 <= j < n ==> p[j] == q[j] == rows[j];
    assert q[n] == rows[n];
    hide Usable;
  }

  lemma {:induction false} ClaimsStep(rows: seq<RawRow>, n: nat, code: string, ref: string)
    requires n < |rows|
    ensures Claims(rows[..n + 1], code, ref) <==>
        Claims(rows[..n], code, ref) || (Usable(rows[n]) && rows[n][0] == code && rows[n][3] == ref)
  {
    var p, q := rows[..n], rows[..n + 1];
    assert forall j :: 0 <= j < n ==> p[j] == q[j] == rows[j];
    assert q[n] == rows[n];
  }

  lemma {:induction false} ByRefStep(rows: seq<RawRow>, n: nat, at: string, byRef: map<string, Product>)
    requires n < |rows| && ByRefHolds(rows, n, at, byRef)
    ensures ByRefHolds(rows, n + 1, at,
      if Usable(rows[n]) then byRef[rows[n][3] := ProductOf(rows[n], at)] else byRef)
  {
    forall i {
      LastForRefStep(rows, n, i);
    }
    assert forall i :: LastForRef(rows[..n], i) ==> i < n;
    var next := if Usable(rows[n]) then byRef[rows[n][3] := ProductOf(rows[n], at)] else byRef;
    hide Usable, LastForRef, ProductOf;
    forall ref | ref in next ensures exists i :: LastForRef(rows[..n + 1], i) && rows[i][3] == ref {
      if Usable(rows[n]) && rows[n][3] == ref {
        assert LastForRef(rows[..n + 1], n);
      } else {
        var i :| LastForRef(rows[..n], i) && rows[i][3] == ref;
        assert LastForRef(rows[..n + 1], i);
      }
    }
  }

  lemma {:induction false} RefsStep(rows: seq<RawRow>, n: nat, refsByCode: map<string, set<string>>)
    requires n < |rows| && RefsHold(rows, n, refsByCode)
    ensures RefsHold(rows, n + 1, if Usable(rows[n]) then Joined(refsByCode, rows[n][0], rows[n][3]) else refsByCode)
  {
    var next := if Usable(rows[n]) then Joined(refsByCode, rows[n][0], rows[n][3]) else refsByCode;
    forall code, ref
      ensures Claims(rows[..n + 1], code, ref) <==> Joins(next, code, ref)
    {
      ClaimsStep(rows, n, code, ref);
      hide Usable, Claims;
      assert Claims(rows[..n], code, ref) <==> Joins(refsByCode, code, ref);
    }
  }

  /** refs_by_code[code].insert(ref) */
  function Joined(refsByCode: map<string, set<string>>, code: string, ref: string): map<string, set<string>> {
    refsByCode[code := (if code in refsByCode then refsByCode[code] else {}) + {ref}]
  }

  // ---- the operation ----

  lemma {:induction false} SingleRef(refs: set<string>, a: string, b: string)
    requires |refs| <= 1 && a in refs && b in refs
    ensures a == b
  {
    assert |refs - {a}| == |refs| - 1;
    assert refs == {a} + (refs - {a});
  }

  lemma {:induction false} SeveralRefs(refs: set<string>, a: string) returns (b: string)
    requires |refs| > 1 && a in refs
    ensures b in refs && b != a
  {
    assert |refs - {a}| == |refs| - 1;
    assert refs - {a} != {};
    b :| b in refs - {a};
  }

  /** A product of by_ref passes the check exactly when it belongs to the catalogue. */
  lemma {:induction false} PassesIffEmitted(rows: seq<RawRow>, at: string, byRef: map<string, Product>, refsByCode: map<string, set<string>>, ref: string)
    requires ByRefHolds(rows, |rows|, at, byRef) && RefsHold(rows, |rows|, refsByCode)
    requires ref in byRef
    ensures byRef[ref].refKey == ref && byRef[ref].code in refsByCode
    ensures |refsByCode[byRef[ref].code]| <= 1 <==> Emitted(rows, at, byRef[ref])
  {
    assert rows[..|rows|] == rows;
    var p := byRef[ref];
    var i :| LastForRef(rows, i) && rows[i][3] == ref;
    assert p == ProductOf(rows[i], at);
    assert Claims(rows, p.code, ref) && Joins(refsByCode, p.code, ref);
    var refs := refsByCode[p.code];
    if |refs| <= 1 {
      forall other | Claims(rows, p.code, other) ensures other == ref {
        assert Joins(refsByCode, p.code, other) && Joins(refsByCode, p.code, ref);
        SingleRef(refs, other, ref);
      }
    } else {
      var other := SeveralRefs(refs, ref);
      assert Joins(refsByCode, p.code, other);
    }
  }

  lemma {:induction false} EmittedIsLast(rows: seq<RawRow>, at: string, byRef: map<string, Product>, p: Product)
    requires ByRefHolds(rows, |rows|, at, byRef) && Emitted(rows, at, p)
    ensures p.refKey in byRef && byRef[p.refKey] == p
  {
    assert rows[..|rows|] == rows;
    var i :| LastForRef(rows, i) && p == ProductOf(rows[i], at);
    assert rows[i][3] == p.refKey;
  }

  lemma {:induction false} EmittedCodesDistinct(rows: seq<RawRow>, at: string, out: seq<Product>)
    requires forall p :: p in out ==> Emitted(rows, at, p)
    requires NoDup(Map(out, RefOf))
    ensures DistinctKeys(out, ByCode)
  {
    forall i, j | 0 <= i < j < |out| ensures ByCode(out[i]) != ByCode(out[j]) {
      assert Map(out, RefOf)[i] != Map(out, RefOf)[j];
      EmittedRefsDistinct(rows, at, out[i], out[j]);
    }
  }

  function RefOf(p: Product): string { p.refKey }

  method NormalizeCatalog(rows: seq<RawRow>, at: string) returns (out: seq<Product>)
    ensures Normalized(rows, at, out)
  {
    var byRef: map<string, Product> := map[];
    var refsByCode: map<string, set<string>> := map[];
    for n := 0 to |rows|
      invariant ByRefHolds(rows, n, at, byRef)
      invariant RefsHold(rows, n, refsByCode)
    {
      ByRefStep(rows, n, at, byRef);
      RefsStep(rows, n, refsByCode);
      hide *;
      var row := rows[n];
      if Usable(row) {
        byRef := byRef[row[3] := ProductOf(row, at)];
        refsByCode := Joined(refsByCode, row[0], row[3]);
      }
    }
    out := FilterUnambiguous(rows, at, byRef, refsByCode);
    ghost var picked := out;
    out := SortBy(out, ByCode);
    SortBySorted(picked, ByCode);
    assert forall p :: p in out <==> p in multiset(out);
    assert forall p :: p in picked <==> p in multiset(picked);
  }

  /** The walk over by_ref has met the keys of done. */
  ghost predicate Walked(rows: seq<RawRow>, at: string, byRef: map<string, Product>, done: set<string>, out: seq<Product>) {
    && (forall p :: p in out <==> p.refKey in done && p.refKey in byRef && byRef[p.refKey] == p && Emitted(rows, at, p))
    && NoDup(Map(out, RefOf))
  }

  lemma {:induction false} WalkStarts(rows: seq<RawRow>, at: string, byRef: map<string, Product>)
    ensures Walked(rows, at, byRef, {}, [])
  {
    hide Emitted;
  }

  lemma {:induction false} WalkStep(rows: seq<RawRow>, at: string, byRef: map<string, Product>, done: set<string>, out: seq<Product>, p: Product)
    requires Walked(rows, at, byRef, done, out)
    requires p.refKey in byRef && byRef[p.refKey] == p && p.refKey !in done
    ensures Walked(rows, at, byRef, done + {p.refKey}, if Emitted(rows, at, p) then out + [p] else out)
  {
    hide Emitted, Map;
    if Emitted(rows, at, p) {
      MapAppend(out, p, RefOf);
      RefNotSeen(out, p, done);
      forall q ensures q in out + [p] <==> q in out || q == p {}
    }
  }

  /** The walk over by_ref, in any order. */
  method FilterUnambiguous(rows: seq<RawRow>, at: string, byRef: map<string, Product>, refsByCode: map<string, set<string>>)
      returns (out: seq<Product>)
    requires ByRefHolds(rows, |rows|, at, byRef) && RefsHold(rows, |rows|, refsByCode)
    ensures forall p :: p in out <==> Emitted(rows, at, p)
    ensures DistinctKeys(out, ByCode)
  {
    out := [];
    var left := byRef.Keys;
    WalkStarts(rows, at, byRef);
    hide *;
    assert byRef.Keys - left == {};
    while left != {}
      invariant left <= byRef.Keys
      invariant Walked(rows, at, byRef, byRef.Keys - left, out)
    {
      var ref :| ref in left;
      PassesIffEmitted(rows, at, byRef, refsByCode, ref);
      var p := byRef[ref];
      WalkStep(rows, at, byRef, byRef.Keys - left, out, p);
      if |refsByCode[p.code]| <= 1 {
        out := out + [p];
      }
      assert byRef.Keys - (left - {ref}) == byRef.Keys - left + {p.refKey};
      left := left - {ref};
    }
    assert byRef.Keys - left == byRef.Keys;
    WalkEnds(rows, at, byRef, out);
  }

  lemma {:induction false} WalkEnds(rows: seq<RawRow>, at: string, byRef: map<string, Product>, out: seq<Product>)
    requires ByRefHolds(rows, |rows|, at, byRef) && Walked(rows, at, byRef, byRef.Keys, out)
    ensures forall p :: p in out <==> Emitted(rows, at, p)
    ensures DistinctKeys(out, ByCode)
  {
    hide Emitted, ByRefHolds;
    forall p | Emitted(rows, at, p) ensures p in out {
      EmittedIsLast(rows, at, byRef, p);
    }
    EmittedCodesDistinct(rows, at, out);
  }

  lemma {:induction false} RefNotSeen(out: seq<Product>, p: Product, seen: set<string>)
    requires NoDup(Map(out, RefOf)) && p.refKey !in seen
    requires forall q :: q in out ==> q.refKey in seen
    ensures NoDup(Map(out, RefOf) + [p.refKey])
  {
    forall i | 0 <= i < |out| ensures Map(out, RefOf)[i] != p.refKey { assert out[i] in out; }
  }

  // ---- the catalogue, said of the rows ----

  /** A row of a product: four columns, a code, and a key in the form of a GUID. */
  ghost predicate IsProduct(row: RawRow) { |row| >= 4 && row[0] != "" && ValidGuid(row[3]) }

  /** Row i is the last one of its product, and no row of another product has its code. */
  ghost predicate Catalogued(rows: seq<RawRow>, i: int) {
    && 0 <= i < |rows| && IsProduct(rows[i])
    && (forall j :: i < j < |rows| && IsProduct(rows[j]) ==> rows[j][3] != rows[i][3])
    && (forall j :: 0 <= j < |rows| && IsProduct(rows[j]) && rows[j][0] == rows[i][0] ==> rows[j][3] == rows[i][3])
  }

  /** The record of such a row, column by column. */
  ghost predicate RecordsRow(rows: seq<RawRow>, i: int, p: Product, at: string) {
    && Catalogued(rows, i)
    && p.code == rows[i][0] && p.article == rows[i][1] && p.name == rows[i][2] && p.refKey == rows[i][3] && p.measuredAt == at
  }

  lemma {:induction false} EmittedIff(rows: seq<RawRow>, at: string, p: Product)
    ensures Emitted(rows, at, p) <==> exists i :: RecordsRow(rows, i, p, at)
  {
    forall row ensures IsProduct(row) <==> Usable(row) {}
    hide ValidGuid, Usable, IsProduct;
    if Emitted(rows, at, p) {
      var i :| LastForRef(rows, i) && p == ProductOf(rows[i], at);
      forall j | 0 <= j < |rows| && IsProduct(rows[j]) && rows[j][0] == rows[i][0] ensures rows[j][3] == rows[i][3] {
        assert Claims(rows, p.code, rows[j][3]);
      }
      assert RecordsRow(rows, i, p, at);
    }
    if i :| RecordsRow(rows, i, p, at) {
      assert LastForRef(rows, i) && p == ProductOf(rows[i], at);
    }
  }

  /** The catalogue holds one record for each such row and nothing else, ascending by code. */
  lemma {:induction false} CatalogueOfRows(rows: seq<RawRow>, at: string, out: seq<Product>)
    requires Normalized(rows, at, out)
    ensures forall p :: p in out <==> exists i :: RecordsRow(rows, i, p, at)
    ensures forall i, j :: 0 <= i < j < |out| ==> StrLess(out[i].code, out[j].code)
  {
    hide Emitted, StrLess, KeyLess, Catalogued, RecordsRow;
    forall p ensures p in out <==> Emitted(rows, at, p) {}
    forall p ensures Emitted(rows, at, p) <==> exists i :: RecordsRow(rows, i, p, at) {
      EmittedIff(rows, at, p);
    }
    forall i, j | 0 <= i < j < |out| ensures StrLess(out[i].code, out[j].code) {
      CodeLess(out[i], out[j]);
    }
  }

  // ---- the conflict count ----

  /** Row i repeats the code of an earlier row; only rows of four columns count. */
  ghost predicate RepeatsCode(rows: seq<RawRow>, i: int) {
    0 <= i < |rows| && |rows[i]| >= 4 && exists j :: 0 <= j < i && |rows[j]| >= 4 && rows[j][0] == rows[i][0]
  }

  ghost function Repeats(rows: seq<RawRow>, n: nat): set<int> {
    set i | 0 <= i < n && RepeatsCode(rows, i)
  }

  lemma {:induction false} RepeatsStep(rows: seq<RawRow>, n: nat)
    requires n < |rows|
    ensures Repeats(rows, n + 1) == if RepeatsCode(rows, n) then Repeats(rows, n) + {n} else Repeats(rows, n)
    ensures |Repeats(rows, n + 1)| == |Repeats(rows, n)| + if RepeatsCode(rows, n) then 1 else 0
    ensures RepeatsCode(rows, n) <==> Wide(rows[n]) && rows[n][0] in WideCodes(rows[..n])
  {
    RepeatsWide(rows, n);
    hide WideCodes, RepeatsCode, Wide;
    assert Repeats(rows, n + 1) == if RepeatsCode(rows, n) then Repeats(rows, n) + {n} else Repeats(rows, n);
  }

  ghost function WideCodes(rows: seq<RawRow>): set<string> {
    if rows == [] then {}
    else
      var n := |rows| - 1;
      WideCodes(rows[..n]) + if Wide(rows[n]) then {rows[n][0]} else {}
  }

  ghost function WideCount(rows: seq<RawRow>): nat {
    if rows == [] then 0
    else
      var n := |rows| - 1;
      WideCount(rows[..n]) + if Wide(rows[n]) then 1 else 0
  }

  lemma {:induction false} WideCodesMember(rows: seq<RawRow>, c: string)
    ensures c in WideCodes(rows) <==> exists i :: 0 <= i < |rows| && Wide(rows[i]) && rows[i][0] == c
  {
    if rows != [] {
      WideCodesMember(rows[..|rows| - 1], c);
    }
  }

  lemma {:induction false} AllWide(rows: seq<RawRow>)
    ensures WideCount(rows) <= |rows|
    ensures WideCount(rows) == |rows| <==> forall i :: 0 <= i < |rows| ==> Wide(rows[i])
  {
    if rows != [] {
      AllWide(rows[..|rows| - 1]);
    }
  }

  lemma {:induction false} RepeatsWide(rows: seq<RawRow>, n: nat)
    requires n < |rows|
    ensures RepeatsCode(rows, n) <==> Wide(rows[n]) && rows[n][0] in WideCodes(rows[..n])
  {
    if Wide(rows[n]) {
      WideCodesMember(rows[..n], rows[n][0]);
      assert forall j :: 0 <= j < n ==> rows[..n][j] == rows[j];
    }
    hide WideCodes;
  }

  method CountConflicts(rows: seq<RawRow>) returns (dropped: nat)
    ensures dropped + |WideCodes(rows)| == WideCount(rows)
    ensures dropped == |set i | 0 <= i < |rows| && RepeatsCode(rows, i)|
  {
    hide *;
    NoRepeats(rows);
    var seen: set<string> := {};
    dropped := 0;
    for n := 0 to |rows|
      invariant seen == WideCodes(rows[..n])
      invariant dropped + |seen| == WideCount(rows[..n])
      invariant dropped == |Repeats(rows, n)|
    {
      RepeatsStep(rows, n);
      WideStep(rows, n);
      if Wide(rows[n]) {
        if rows[n][0] in seen {
          dropped := dropped + 1;
        } else {
          seen := seen + {rows[n][0]};
        }
      }
    }
    assert rows[..|rows|] == rows;
  }

  lemma {:induction false} WideStep(rows: seq<RawRow>, n: nat)
    requires n < |rows|
    ensures Wide(rows[n]) ==> rows[n] != []
    ensures WideCodes(rows[..n + 1]) == WideCodes(rows[..n]) + if Wide(rows[n]) then {rows[n][0]} else {}
    ensures WideCount(rows[..n + 1]) == WideCount(rows[..n]) + if Wide(rows[n]) then 1 else 0
  {
    assert rows[..n + 1][..n] == rows[..n];
  }

  lemma {:induction false} NoRepeats(rows: seq<RawRow>)
    ensures Repeats(rows, 0) == {} && WideCodes(rows[..0]) == {} && WideCount(rows[..0]) == 0
    ensures Repeats(rows, |rows|) == set i | 0 <= i < |rows| && RepeatsCode(rows, i)
  {
  }

  ghost function CodesOf(out: seq<Product>): set<string> { set p | p in out :: p.code }

  lemma {:induction false} CodesWithin(rows: seq<RawRow>, at: string, out: seq<Product>)
    requires Normalized(rows, at, out)
    ensures CodesOf(out) <= WideCodes(rows)
    ensures |CodesOf(out)| == |out|
  {
    forall p | p in out ensures p.code in WideCodes(rows) {
      assert Emitted(rows, at, p);
      var i :| LastForRef(rows, i) && p == ProductOf(rows[i], at);
      WideCodesMember(rows, p.code);
    }
    DistinctCodesCount(out);
  }

  lemma {:induction false} DistinctCodesCount(out: seq<Product>)
    requires StrictlySorted(out, ByCode)
    ensures |CodesOf(out)| == |out|
  {
    if out != [] {
      DistinctCodesCount(out[1..]);
      var tail := CodesOf(out[1..]);
      assert out == [out[0]] + out[1..];
      assert CodesOf(out) == tail + {out[0].code};
      forall p | p in out[1..] ensures p.code != out[0].code {
        KeyTrichotomy(ByCode(out[0]), ByCode(p));
      }
    }
  }

  ghost predicate CodeListed(out: seq<Product>, code: string) {
    exists p :: p in out && p.code == code
  }

  /** Some product keeps the code in its last usable row, and no other product claims it. */
  ghost predicate SoleLast(rows: seq<RawRow>, code: string) {
    exists i :: LastForRef(rows, i) && rows[i][0] == code && forall ref :: Claims(rows, code, ref) ==> ref == rows[i][3]
  }

  lemma {:induction false} ListedIffSoleLast(rows: seq<RawRow>, at: string, out: seq<Product>, code: string)
    requires Normalized(rows, at, out)
    ensures CodeListed(out, code) <==> SoleLast(rows, code)
  {
    hide StrictlySorted, Claims;
    if CodeListed(out, code) {
      var p :| p in out && p.code == code;
      assert Emitted(rows, at, p);
      var i :| LastForRef(rows, i) && p == ProductOf(rows[i], at);
    }
    if SoleLast(rows, code) {
      var i :| LastForRef(rows, i) && rows[i][0] == code && forall ref :: Claims(rows, code, ref) ==> ref == rows[i][3];
      assert Emitted(rows, at, ProductOf(rows[i], at));
    }
  }

  /** Accepted and conflicting rows never exceed what was read; the rest is silently lost,
      and nothing is lost exactly when every row has its four columns and a code that is
      kept by the last usable row of one product and claimed by no other. */
  lemma {:induction false} AcceptedAndConflicts(rows: seq<RawRow>, at: string, out: seq<Product>, conflicts: nat)
    requires Normalized(rows, at, out)
    requires conflicts + |WideCodes(rows)| == WideCount(rows)
    ensures |out| + conflicts <= |rows|
    ensures |out| + conflicts == |rows| <==> forall i :: 0 <= i < |rows| ==> Wide(rows[i]) && SoleLast(rows, rows[i][0])
  {
    CodesWithin(rows, at, out);
    SubsetSize(CodesOf(out), WideCodes(rows));
    AllWide(rows);
    if forall i :: 0 <= i < |rows| ==> Wide(rows[i]) {
      AllCodes(rows, out);
      forall i | 0 <= i < |rows| ensures CodeListed(out, rows[i][0]) <==> SoleLast(rows, rows[i][0]) {
        ListedIffSoleLast(rows, at, out, rows[i][0]);
      }
    }
    hide *;
  }

  lemma {:induction false} AllCodes(rows: seq<RawRow>, out: seq<Product>)
    requires forall i :: 0 <= i < |rows| ==> Wide(rows[i])
    requires CodesOf(out) <= WideCodes(rows)
    ensures CodesOf(out) == WideCodes(rows) <==> forall i :: 0 <= i < |rows| ==> Wide(rows[i]) && CodeListed(out, rows[i][0])
  {
    hide WideCodes;
    if CodesOf(out) == WideCodes(rows) {
      forall i | 0 <= i < |rows| ensures CodeListed(out, rows[i][0]) {
        WideCodesMember(rows, rows[i][0]);
        assert rows[i][0] in CodesOf(out);
      }
    }
    if forall i :: 0 <= i < |rows| ==> CodeListed(out, rows[i][0]) {
      forall c | c in WideCodes(rows) ensures c in CodesOf(out) {
        WideCodesMember(rows, c);
      }
    }
  }

  // ---- an input that loses rows ----

  const ONE := "00000000-0000-0000-0000-000000000001"
  const TWO := "00000000-0000-0000-0000-000000000002"

  lemma {:induction false} ValidOne()
    ensures ValidGuid(ONE)
  {
  }

  lemma {:induction false} ValidTwo()
    ensures ValidGuid(TWO)
  {
  }

  /** Two products with one code: neither is accepted and one conflict is counted, so that
      one of the two rows is in neither number. */
  method TwoProductsOneCode(at: string) returns (out: seq<Product>, conflicts: nat)
    ensures out == [] && conflicts == 1
    ensures var rows := [["A1", "a", "first", ONE], ["A1", "a", "second", TWO]]; Normalized(rows, at, out) && |out| + conflicts < |rows|
  {
    var rows := [["A1", "a", "first", ONE], ["A1", "a", "second", TWO]];
    BothClaim(rows);
    CountsOfTwo(rows);
    hide *;
    out := NormalizeCatalog(rows, at);
    conflicts := CountConflicts(rows);
    NothingListed(rows, at, out);
  }

  lemma {:induction false} BothClaim(rows: seq<RawRow>)
    requires rows == [["A1", "a", "first", ONE], ["A1", "a", "second", TWO]]
    ensures Claims(rows, "A1", ONE) && Claims(rows, "A1", TWO) && ONE != TWO
    ensures forall i :: 0 <= i < |rows| ==> Wide(rows[i]) && rows[i][0] == "A1"
  {
    ValidOne();
    ValidTwo();
    hide ValidGuid;
    assert Usable(rows[0]) && Usable(rows[1]);
    assert ONE[35] != TWO[35];
  }

  lemma {:induction false} CountsOfTwo(rows: seq<RawRow>)
    requires |rows| == 2 && forall i :: 0 <= i < |rows| ==> Wide(rows[i]) && rows[i][0] == "A1"
    ensures WideCodes(rows) == {"A1"} && WideCount(rows) == 2
  {
    hide *;
    NoRepeats(rows);
    WideStep(rows, 0);
    WideStep(rows, 1);
    assert rows[..2] == rows;
  }

  lemma {:induction false} AmbiguousNotEmitted(rows: seq<RawRow>, at: string, p: Product, r: string, q: string)
    requires Claims(rows, p.code, r) && Claims(rows, p.code, q) && r != q
    ensures !Emitted(rows, at, p)
  {
    hide Claims;
  }

  lemma {:induction false} SomeMember(out: seq<Product>)
    ensures out == [] || exists p :: p in out
  {
    if out != [] { assert out[0] in out; }
  }

  lemma {:induction false} NothingListed(rows: seq<RawRow>, at: string, out: seq<Product>)
    requires Normalized(rows, at, out)
    requires Claims(rows, "A1", ONE) && Claims(rows, "A1", TWO) && ONE != TWO
    requires forall i :: 0 <= i < |rows| ==> Wide(rows[i]) && rows[i][0] == "A1"
    ensures out == []
  {
    SomeMember(out);
    hide Claims, ONE, TWO;
    forall p ensures !Emitted(rows, at, p) {
      if p.code == "A1" {
        AmbiguousNotEmitted(rows, at, p, ONE, TWO);
      }
    }
  }
}
