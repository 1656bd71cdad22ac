/** The three paging loops over the product catalogue, against a server whose listing does
    not change between requests. */
module CatalogPaging {
  import opened Sequences

  datatype Result<+T> = Ok(value: T) | Fault

  /** A request at an offset may fail: a status other than 200, or a body that does not parse. */
  type Faults = nat -> bool

  /** An entry of value[]: only objects have fields. */
  datatype Item = NotObject | Item(code: string, article: string, name: string, refKey: string,
                                   deletionMark: bool, isFolder: bool)

  predicate Kept(i: Item) { i.Item? && !i.deletionMark && !i.isFolder }

  function RowOf(i: Item): seq<string> {
    if i.Item? then [i.code, i.article, i.name, i.refKey] else []
  }

  function KeptRows(items: seq<Item>): seq<seq<string>> {
    Map(Filter(items, Kept), RowOf)
  }

  lemma {:induction false} MapConcat<T, U>(a: seq<T>, b: seq<T>, f: T -> U)
    ensures Map(a + b, f) == Map(a, f) + Map(b, f)
  {
  }

  lemma {:induction false} KeptConcat(a: seq<Item>, b: seq<Item>)
    ensures KeptRows(a + b) == KeptRows(a) + KeptRows(b)
  {
    FilterConcat(a, b, Kept);
    MapConcat(Filter(a, Kept), Filter(b, Kept), RowOf);
  }

  lemma {:induction false} KeptAppend(items: seq<Item>, n: nat)
    requires n < |items|
    ensures KeptRows(items[..n + 1]) == KeptRows(items[..n]) + if Kept(items[n]) then [RowOf(items[n])] else []
  {
    assert items[..n + 1] == items[..n] + [items[n]];
    KeptConcat(items[..n], [items[n]]);
  }

  /** The rows kept of a listing: code, article, name and key of every entry that is an object
      and neither deleted nor a folder, in order. */
  lemma {:induction false} KeptRowsOf(items: seq<Item>) returns (at: seq<nat>)
    ensures |at| == |KeptRows(items)| && forall k, l :: 0 <= k < l < |at| ==> at[k] < at[l]
    ensures forall i: nat :: i in at <==> i < |items| && items[i].Item? && !items[i].deletionMark && !items[i].isFolder
    ensures forall k :: 0 <= k < |at| ==> at[k] < |items| && items[at[k]].Item? && KeptRows(items)[k] == var i := items[at[k]];
      [i.code, i.article, i.name, i.refKey]
  {
    at := FilterPicks(items, Kept);
    hide Filter;
  }

  method KeepPage(all: seq<seq<string>>, page: seq<Item>) returns (next: seq<seq<string>>)
    ensures next == all + KeptRows(page)
  {
    next := all;
    assert page[..0] == [];
    for n := 0 to |page|
      invariant next == all + KeptRows(page[..n])
    {
      KeptAppend(page, n);
      hide KeptRows;
      if Kept(page[n]) {
        next := next + [RowOf(page[n])];
      }
    }
    assert page[..|page|] == page;
  }

  /** After a page: what was kept so far is what the listing holds up to there. */
  lemma {:induction false} PageAppended(server: seq<Item>, offset: nat, top: nat)
    requires offset <= |server|
    ensures var page := Page(server, offset, top);
      KeptRows(server[..offset]) + KeptRows(page) == KeptRows(server[..offset + |page|])
  {
    var page := Page(server, offset, top);
    assert server[..offset + |page|] == server[..offset] + page;
    KeptConcat(server[..offset], page);
  }

  // ---- read_all_rows of the catalogue import ----

  /** The state of the loop: offset rows were read, all of them accounted for. */
  ghost predicate ReadUpTo(server: seq<Item>, offset: nat, all: seq<seq<string>>) {
    offset <= |server| && all == KeptRows(server[..offset])
  }

  lemma {:induction false} NothingRead(server: seq<Item>)
    ensures ReadUpTo(server, 0, [])
  {
    assert server[..0] == [];
  }

  /** The page at offset: how far it goes and what it adds. */
  method ReadPage(server: seq<Item>, offset: nat, top: nat, all: seq<seq<string>>) returns (next: seq<seq<string>>, size: nat)
    requires ReadUpTo(server, offset, all)
    ensures size == Min(top, |server| - offset)
    ensures ReadUpTo(server, offset + size, next)
  {
    var page := Page(server, offset, top);
    PageAppended(server, offset, top);
    size := |page|;
    hide KeptRows;
    next := KeepPage(all, page);
  }

  const PAGE_SIZE := 5000
  const MAX_ROWS := 100000

  /** None of the requests that reading the listing page by page takes fails. */
  ghost predicate NoFault(server: seq<Item>, faults: Faults, pageSize: nat) {
    forall k: nat :: k * pageSize <= |server| ==> !faults(k * pageSize)
  }

  lemma {:induction false} FaultAt(server: seq<Item>, faults: Faults, pageSize: nat, k: nat)
    requires k * pageSize <= |server| && faults(k * pageSize)
    ensures !NoFault(server, faults, pageSize)
  {
  }

  lemma {:induction false} MorePages(pages: nat, k: nat, pageSize: nat)
    ensures pages <= k ==> pages * pageSize <= k * pageSize
  {
    if pages <= k {
      assert (k - pages) * pageSize >= 0 && (k - pages) * pageSize == k * pageSize - pages * pageSize;
    }
  }

  lemma {:induction false} NoFaultBefore(server: seq<Item>, faults: Faults, pageSize: nat, pages: nat)
    requires pageSize > 0 && |server| < pages * pageSize
    requires forall k: nat :: k < pages ==> !faults(k * pageSize)
    ensures NoFault(server, faults, pageSize)
  {
    forall k: nat | k * pageSize <= |server| ensures !faults(k * pageSize) {
      MorePages(pages, k, pageSize);
    }
  }

  ghost predicate CatalogueAnswer(server: seq<Item>, faults: Faults, r: Result<seq<seq<string>>>) {
    match r
    case Ok(rows) => |server| < 100000 && rows == KeptRows(server) && NoFault(server, faults, 5000)
    case Fault => |server| >= 100000 || !NoFault(server, faults, 5000)
  }

  method ReadCatalogue(server: seq<Item>, faults: Faults) returns (r: Result<seq<seq<string>>>)
    ensures CatalogueAnswer(server, faults, r)
  {
    hide KeptRows, Page, NoFault;
    var all: seq<seq<string>> := [];
    var offset := 0;
    ghost var pages: nat := 0;
    NothingRead(server);
    while offset < MAX_ROWS
      invariant offset == pages * 5000
      invariant ReadUpTo(server, offset, all)
      invariant forall k: nat :: k < pages ==> !faults(k * 5000)
    {
      if faults(offset) {
        FaultAt(server, faults, 5000, pages);
        return Fault;
      }
      pages := pages + 1;
      var size;
      all, size := ReadPage(server, offset, PAGE_SIZE, all);
      if size == 0 || size < PAGE_SIZE {
        NoFaultBefore(server, faults, 5000, pages);
        break;
      }
      offset := offset + size;
    }
    if offset >= MAX_ROWS {
      return Fault;
    }
    assert server[..|server|] == server;
    r := Ok(all);
  }

  // ---- its copy that reports progress ----

  /** The offset at which a loop in steps of pageSize stops below maxRows. */
  ghost function Reach(offset: nat, pageSize: nat, maxRows: nat): nat
    requires pageSize > 0
    decreases maxRows - offset
  {
    if offset < maxRows then Reach(offset + pageSize, pageSize, maxRows) else offset
  }

  lemma {:induction false} ReachBounds(offset: nat, pageSize: nat, maxRows: nat)
    requires pageSize > 0
    ensures Reach(offset, pageSize, maxRows) >= offset
    ensures Reach(offset, pageSize, maxRows) >= maxRows
    ensures offset < maxRows ==> Reach(offset, pageSize, maxRows) < maxRows + pageSize
    decreases maxRows - offset
  {
    if offset < maxRows {
      ReachBounds(offset + pageSize, pageSize, maxRows);
    }
  }

  lemma {:induction false} ReachExact(offset: nat, pageSize: nat, maxRows: nat, steps: nat)
    requires pageSize > 0 && maxRows == offset + steps * pageSize
    ensures Reach(offset, pageSize, maxRows) == maxRows
    decreases steps
  {
    if steps > 0 {
      assert steps * pageSize == (steps - 1) * pageSize + pageSize;
      ReachExact(offset + pageSize, pageSize, maxRows, steps - 1);
    }
  }

  ghost function Covered(pageSize: nat, maxRows: nat): nat {
    if pageSize == 0 then 0 else Reach(0, pageSize, maxRows)
  }

  /** None of the requests below the row limit fails. */
  ghost predicate NoFaultBelow(server: seq<Item>, faults: Faults, pageSize: nat, maxRows: nat) {
    forall k: nat :: k * pageSize <= |server| && k * pageSize < maxRows ==> !faults(k * pageSize)
  }

  lemma {:induction false} FaultBelowAt(server: seq<Item>, faults: Faults, pageSize: nat, maxRows: nat, k: nat)
    requires k * pageSize <= |server| && k * pageSize < maxRows && faults(k * pageSize)
    ensures !NoFaultBelow(server, faults, pageSize, maxRows)
  {
  }

  lemma {:induction false} NoneBelow(server: seq<Item>, faults: Faults, pageSize: nat, maxRows: nat, pages: nat)
    requires |server| < pages * pageSize || maxRows <= pages * pageSize || (pageSize == 0 && pages > 0)
    requires forall k: nat :: k < pages ==> !faults(k * pageSize)
    ensures NoFaultBelow(server, faults, pageSize, maxRows)
  {
    forall k: nat | k * pageSize <= |server| && k * pageSize < maxRows ensures !faults(k * pageSize) {
      MorePages(pages, k, pageSize);
      if pageSize == 0 { assert k * pageSize == 0 * pageSize; }
    }
  }

  ghost predicate ProgressAnswer(server: seq<Item>, faults: Faults, pageSize: nat, maxRows: nat, r: Result<seq<seq<string>>>) {
    match r
    case Ok(rows) => rows == KeptRows(server[..Min(|server|, Covered(pageSize, maxRows))]) && NoFaultBelow(server, faults, pageSize, maxRows)
    case Fault => !NoFaultBelow(server, faults, pageSize, maxRows)
  }

  method ReadCatalogueWithProgress(server: seq<Item>, faults: Faults, pageSize: nat, maxRows: nat)
      returns (r: Result<seq<seq<string>>>, read: nat)
    ensures ProgressAnswer(server, faults, pageSize, maxRows, r)
    ensures r.Ok? ==> read == |r.value|
  {
    hide KeptRows, Page, Reach, NoFaultBelow;
    var all: seq<seq<string>> := [];
    var offset := 0;
    ghost var pages: nat := 0;
    read := 0;
    NothingRead(server);
    while offset < maxRows
      invariant ReadUpTo(server, offset, all) && (pageSize == 0 ==> offset == 0)
      invariant pageSize > 0 ==> Reach(offset, pageSize, maxRows) == Covered(pageSize, maxRows)
      invariant read == |all|
      invariant offset == pages * pageSize && forall k: nat :: k < pages ==> !faults(k * pageSize)
      decreases |server| - offset
    {
      if faults(offset) {
        FaultBelowAt(server, faults, pageSize, maxRows, pages);
        return Fault, read;
      }
      NextPage(pages, pageSize);
      pages := pages + 1;
      var size;
      all, size := ReadPage(server, offset, pageSize, all);
      read := |all|;
      if pageSize > 0 { NextReach(offset, pageSize, maxRows); }
      if size == 0 {
        NoneBelow(server, faults, pageSize, maxRows, pages);
        break;
      }
      if size < pageSize {
        NoneBelow(server, faults, pageSize, maxRows, pages);
        return Ok(all), read;
      }
      offset := offset + size;
    }
    if offset >= maxRows { NoneBelow(server, faults, pageSize, maxRows, pages); }
    if pageSize > 0 { ReachBounds(offset, pageSize, maxRows); ReachEnds(offset, pageSize, maxRows); }
    r := Ok(all);
  }

  lemma {:induction false} NextPage(pages: nat, pageSize: nat)
    ensures (pages + 1) * pageSize == pages * pageSize + pageSize
  {
  }

  lemma {:induction false} NextReach(offset: nat, pageSize: nat, maxRows: nat)
    requires pageSize > 0 && offset < maxRows
    ensures Reach(offset, pageSize, maxRows) == Reach(offset + pageSize, pageSize, maxRows) >= offset + pageSize
  {
    ReachBounds(offset + pageSize, pageSize, maxRows);
  }

  lemma {:induction false} ReachEnds(offset: nat, pageSize: nat, maxRows: nat)
    requires pageSize > 0
    ensures offset >= maxRows ==> Reach(offset, pageSize, maxRows) == offset
  {
  }

  /** With their defaults and no fault the two agree on every listing of fewer than 100000
      rows; from there on one refuses and the other silently keeps the first 100000. */
  lemma {:induction false} CatalogueReadersAgree(server: seq<Item>, faults: Faults, plain: Result<seq<seq<string>>>, progress: Result<seq<seq<string>>>)
    requires CatalogueAnswer(server, faults, plain)
    requires ProgressAnswer(server, faults, PAGE_SIZE, MAX_ROWS, progress)
    requires forall offset: nat :: !faults(offset)
    ensures plain.Ok? <==> |server| < 100000
    ensures plain.Ok? ==> plain == progress == Ok(KeptRows(server))
    ensures plain.Fault? ==> progress == Ok(KeptRows(server[..100000]))
  {
    ReachExact(0, PAGE_SIZE, MAX_ROWS, 20);
    if |server| < MAX_ROWS {
      assert server[..Min(|server|, MAX_ROWS)] == server;
    }
  }

  // ---- OnecCatalog::read_all_rows ----

  const TOP_LIMIT := 500

  /** build_page_path never asks for more than 500 rows. */
  function CataloguePage<T>(server: seq<T>, skip: nat, top: nat): seq<T> {
    Page(server, skip, Min(top, TOP_LIMIT))
  }

  ghost function RowsDelivered(n: nat, pageSize: nat, maxRows: nat): nat {
    if pageSize == 0 then 0
    else if pageSize <= TOP_LIMIT then Min(n, maxRows)
    else Min(Min(n, maxRows), TOP_LIMIT)
  }

  method ReadAllRows<T(==)>(server: seq<T>, faults: Faults, pageSize: nat, maxRows: nat) returns (r: Result<seq<T>>)
    ensures r.Ok? ==> r.value == server[..RowsDelivered(|server|, pageSize, maxRows)]
    ensures r.Ok? ==> r.value == server[..if pageSize == 0 then 0 else Min(|server|, if pageSize <= 500 then maxRows else Min(maxRows, 500))]
    ensures r.Fault? ==> exists offset: nat :: offset < maxRows && offset <= |server| && faults(offset)
  {
    var all: seq<T> := [];
    var offset := 0;
    while offset < maxRows
      invariant offset <= |server| && offset <= maxRows
      invariant offset > 0 ==> 0 < pageSize && (pageSize <= TOP_LIMIT || offset == maxRows <= TOP_LIMIT)
      invariant all == server[..offset]
      decreases maxRows - offset
    {
      var thisPage := Min(pageSize, maxRows - offset);
      if faults(offset) {
        return Fault;
      }
      var rows := CataloguePage(server, offset, thisPage);
      if rows == [] {
        assert thisPage == 0 || offset == |server|;
        break;
      }
      assert server[..offset] + rows == server[..offset + |rows|];
      all := all + rows;
      if |rows| < thisPage {
        return Ok(all);
      }
      offset := offset + |rows|;
    }
    r := Ok(all);
  }

  /** The first min(N, max_rows) rows arrive for every listing exactly when the page size is
      between 1 and 500, or nothing beyond what one clamped request brings was wanted. */
  lemma {:induction false} AllRowsDelivered(n: nat, pageSize: nat, maxRows: nat)
    ensures RowsDelivered(n, pageSize, maxRows) == Min(n, maxRows)
        <==> 1 <= pageSize <= 500 || Min(n, maxRows) == 0 || (pageSize > 500 && Min(n, maxRows) <= 500)
  {
  }

  // ---- the listing handler on top of it ----

  /** GET with top (clamped to 1..1000, default 100) and skip: the rows the handler looks at. */
  ghost function Window<T>(rows: seq<T>, top: nat, skip: nat): seq<T> {
    Page(rows, skip, top)
  }

  /** The handler shows the window of the listing that was asked for, exactly when top is at
      most 500 or the window ends within the first 500 rows or lies beyond the listing. */
  lemma {:induction false} HandlerWindow<T>(server: seq<T>, top: nat, skip: nat)
    requires 1 <= top <= 1000
    ensures var rows := server[..RowsDelivered(|server|, top, top + skip)];
      (Window(rows, top, skip) == Window(server, top, skip)) <==>
        top <= 500 || Min(|server|, top + skip) <= 500 || skip >= |server|
  {
    var rows := server[..RowsDelivered(|server|, top, top + skip)];
    if top <= TOP_LIMIT || Min(|server|, top + skip) <= TOP_LIMIT {
      assert |rows| == Min(|server|, top + skip);
      if skip <= |server| {
        assert Window(rows, top, skip) == rows[skip..] == server[skip..|rows|];
      }
    } else {
      assert |rows| == TOP_LIMIT;
      assert |Window(server, top, skip)| == if skip <= |server| then Min(top, |server| - skip) else 0;
      assert |Window(rows, top, skip)| == if skip <= TOP_LIMIT then Min(top, TOP_LIMIT - skip) else 0;
    }
  }

  // ---- listings that are not read in full ----

  /** 501 rows, a page size and a row limit of 501: the last row is not delivered, and the
      handler asked for the first 501 rows does not see it. */
  method FiveHundredAndOneRows() returns (server: seq<nat>, r: Result<seq<nat>>)
    ensures |server| == 501
    ensures r == Ok(server[..500]) && r != Ok(server)
    ensures Window(server[..RowsDelivered(501, 501, 501)], 501, 0) != Window(server, 501, 0)
  {
    server := seq(501, i => i);
    r := ReadAllRows(server, (offset: nat) => false, 501, 501);
    HandlerWindow(server, 501, 0);
  }

  /** 100000 products: the plain reader refuses, its copy keeps them as if they were all. */
  method HundredThousandProducts() returns (server: seq<Item>, plain: Result<seq<seq<string>>>, progress: Result<seq<seq<string>>>)
    ensures |server| == 100000 && plain == Fault && progress == Ok(KeptRows(server))
  {
    server := seq(100000, (i: nat) => Item("code", "", "", "ref", false, false));
    var faults := (offset: nat) => false;
    hide KeptRows, CatalogueAnswer, ProgressAnswer;
    plain := ReadCatalogue(server, faults);
    var read;
    progress, read := ReadCatalogueWithProgress(server, faults, PAGE_SIZE, MAX_ROWS);
    CatalogueReadersAgree(server, faults, plain, progress);
    assert server[..MAX_ROWS] == server;
  }
}
