/** SyncService::run_ozon_sync with its checkpoints, against crashes between any two
    persistent writes, network failures, stop requests with their own write to the
    checkpoint row, and shutdowns. */
module OzonSync {
  import opened Sequences

  datatype Product = Product(id: string, sku: string, name: string, price: real, currency: string, inStock: int)

  datatype Quote = Quote(price: real, currency: string, inStock: int)

  datatype OzonPage = OzonPage(items: seq<string>, lastId: string, hasMore: bool)

  /** The marketplace during a stable listing. */
  datatype Ozon = Ozon(listing: seq<string>, pageSize: nat, cursorAt: nat -> string, fetch: string -> OzonPage,
                       info: string -> Product, quote: string -> Option<Quote>)

  /** A row of sync_state, or its copy in memory. */
  datatype Checkpoint = Checkpoint(lastCursor: string, lastPage: nat, totalSynced: nat, lastStatus: string)

  datatype Outcome = Crashed | Stopped | Failed | Done

  const MAX_CONSECUTIVE_FAILURES: nat := 10

  /** The page after the first pos products. */
  function PageAt(svc: Ozon, pos: nat): OzonPage
    requires pos <= |svc.listing|
  {
    var end := Min(pos + svc.pageSize, |svc.listing|);
    OzonPage(svc.listing[pos..end], svc.cursorAt(end), end - pos > 0 && end - pos == svc.pageSize)
  }

  /** Each product once; the cursor of a position always leads to the page there. */
  ghost predicate Stable(svc: Ozon) {
    && svc.pageSize > 0
    && NoDup(svc.listing)
    && svc.cursorAt(0) == ""
    && (forall pos: nat :: pos <= |svc.listing| ==> svc.fetch(svc.cursorAt(pos)) == PageAt(svc, pos))
    && (forall id :: svc.info(id).id == id)
  }

  /** The stored form of a product: its details with price and stock when quoted. */
  function Merged(svc: Ozon, id: string): Product {
    var p := svc.info(id);
    if p.sku != "" && svc.quote(p.sku).Some? then
      var q := svc.quote(p.sku).value;
      p.(price := q.price, currency := q.currency, inStock := q.inStock)
    else p
  }

  /** The stored form field by field: a quoted product has the quoted price, currency and stock,
      any other those of its details. */
  predicate Describes(svc: Ozon, id: string, p: Product) {
    var details := svc.info(id);
    && p.id == details.id && p.sku == details.sku && p.name == details.name
    && if details.sku != "" && svc.quote(details.sku).Some? then
         var q := svc.quote(details.sku).value;
         p.price == q.price && p.currency == q.currency && p.inStock == q.inStock
       else p.price == details.price && p.currency == details.currency && p.inStock == details.inStock
  }

  /** The table holds the first n listed products as described, and the rest of base untouched. */
  ghost predicate Holds(svc: Ozon, base: map<string, Product>, n: nat, products: map<string, Product>)
    requires n <= |svc.listing|
  {
    forall id ::
      if id in svc.listing[..n] then id in products && Describes(svc, id, products[id])
      else if id in base then id in products && products[id] == base[id]
      else id !in products
  }

  function Details(svc: Ozon, ids: seq<string>): seq<Product> {
    Map(ids, id => Merged(svc, id))
  }

  /** The products table after storing the first n products of the listing. */
  ghost function Table(svc: Ozon, base: map<string, Product>, n: nat): map<string, Product>
    requires n <= |svc.listing|
  {
    base + map id | id in svc.listing[..n] :: Merged(svc, id)
  }

  /** Cursor, page count and total describe the same prefix of the listing. */
  ghost predicate AtPrefix(svc: Ozon, cp: Checkpoint) {
    && cp.totalSynced <= |svc.listing|
    && cp.lastCursor == svc.cursorAt(cp.totalSynced)
    && cp.totalSynced == Min(cp.lastPage * svc.pageSize, |svc.listing|)
    && (cp.lastPage > 0 ==> (cp.lastPage - 1) * svc.pageSize < |svc.listing|)
  }

  /** load_checkpoint without a row. */
  const NoCheckpoint := Checkpoint("", 0, 0, "")

  /** has_unfinished_ozon_sync: total_expected is not persisted, so it reads as 0. */
  predicate HasUnfinished(row: Option<Checkpoint>) {
    var cp := if row.Some? then row.value else NoCheckpoint;
    !(cp.lastCursor == "" && cp.totalSynced == 0) && cp.lastStatus != "done" && cp.lastStatus != "stopped"
  }

  /** A row that is neither finished nor marked as stopped by the user. */
  predicate Unclosed(row: Option<Checkpoint>) {
    row.Some? && row.value.lastStatus != "done" && row.value.lastStatus != "stopped"
  }

  /** update_checkpoint_status("ozon", "stopping"), which stop_ozon runs before it raises the
      stop flag. */
  function Marked(row: Option<Checkpoint>): (marked: Option<Checkpoint>)
    ensures marked.Some? <==> row.Some?
  {
    if row.Some? then Some(row.value.(lastStatus := "stopping")) else None
  }

  /** The row as the run saved it last, or marked since by a stop request. */
  predicate Mirrors(row: Option<Checkpoint>, cp: Checkpoint) {
    row == Some(cp) || row == Marked(Some(cp))
  }

  /** A mark changes the status alone. */
  lemma {:induction false} MirroredRow(svc: Ozon, row: Option<Checkpoint>, cp: Checkpoint)
    ensures Mirrors(row, cp) && AtPrefix(svc, cp) ==> row.Some? && AtPrefix(svc, row.value) && row.value.totalSynced == cp.totalSynced
  {
  }

  lemma {:induction false} UnfinishedExactly(svc: Ozon, row: Option<Checkpoint>)
    requires Stable(svc) && Unclosed(row) && AtPrefix(svc, row.value)
    ensures HasUnfinished(row) <==> row.value.totalSynced > 0
  {
  }

  /** What the resume check leaves alone: no row, a row without progress, and the two statuses
      that close a row. */
  lemma {:induction false} ClosedRowsRest(row: Option<Checkpoint>)
    ensures row == None ==> !HasUnfinished(row)
    ensures row.Some? && row.value.lastCursor == "" && row.value.totalSynced == 0 ==> !HasUnfinished(row)
    ensures row.Some? && row.value.lastStatus in ["done", "stopped"] ==> !HasUnfinished(row)
    ensures row.Some? && row.value.lastStatus in ["running", "retry", "failed", "stopping"] ==>
      (HasUnfinished(row) <==> row.value.lastCursor != "" || row.value.totalSynced != 0)
  {
  }

  /** fetch_prices_stocks_batch for the products that have a sku. */
  method FetchQuotes(svc: Ozon, infos: seq<Product>) returns (bySku: map<string, Quote>)
    ensures forall k :: k in bySku ==> k != "" && svc.quote(k) == Some(bySku[k])
    ensures forall i :: 0 <= i < |infos| && infos[i].sku != "" && svc.quote(infos[i].sku).Some? ==> infos[i].sku in bySku
  {
    bySku := map[];
    for i := 0 to |infos|
      invariant forall k :: k in bySku ==> k != "" && svc.quote(k) == Some(bySku[k])
      invariant forall j :: 0 <= j < i && infos[j].sku != "" && svc.quote(infos[j].sku).Some? ==> infos[j].sku in bySku
    {
      var sku := infos[i].sku;
      if sku != "" && svc.quote(sku).Some? {
        bySku := bySku[sku := svc.quote(sku).value];
      }
    }
  }

  /** fetch_info_batch, fetch_prices_stocks_batch and the merge by sku. */
  method FetchDetails(svc: Ozon, ids: seq<string>) returns (details: seq<Product>)
    ensures details == Details(svc, ids)
    ensures |details| == |ids| && forall i :: 0 <= i < |ids| ==> Describes(svc, ids[i], details[i])
  {
    var infos := Map(ids, svc.info);
    var bySku := FetchQuotes(svc, infos);
    details := [];
    for i := 0 to |infos|
      invariant |details| == i && forall j :: 0 <= j < i ==> details[j] == Merged(svc, ids[j])
    {
      var p := infos[i];
      if p.sku in bySku {
        var q := bySku[p.sku];
        p := p.(price := q.price, currency := q.currency, inStock := q.inStock);
      }
      details := details + [p];
    }
  }

  function ProductEntry(p: Product): (string, Product) { (p.id, p) }

  /** upsert_batch_ozon. */
  function Upserted(products: map<string, Product>, details: seq<Product>): map<string, Product> {
    UpsertAll(products, Map(details, ProductEntry))
  }

  lemma {:induction false} UpsertedEntry(svc: Ozon, products: map<string, Product>, ids: seq<string>, details: seq<Product>, id: string)
    requires NoDup(ids) && |details| == |ids|
    requires forall i :: 0 <= i < |ids| ==> details[i] == Merged(svc, ids[i]) && details[i].id == ids[i]
    ensures var t := Upserted(products, details);
      && (id in t <==> id in products || id in ids)
      && (id in ids ==> t[id] == Merged(svc, id))
      && (id in products && id !in ids ==> t[id] == products[id])
  {
    var entries := Map(details, ProductEntry);
    forall i | 0 <= i < |ids| ensures entries[i] == (ids[i], Merged(svc, ids[i])) {}
    hide Merged, Map, UpsertAll;
    if id in ids {
      var i :| 0 <= i < |ids| && ids[i] == id;
      assert entries[i] in entries;
      UpsertWritten(products, entries, entries[i]);
    } else {
      UpsertUntouched(products, entries, id);
    }
  }

  lemma {:induction false} SliceDistinct(xs: seq<string>, a: nat, b: nat)
    requires a <= b <= |xs| && NoDup(xs)
    ensures NoDup(xs[a..b])
  {
    forall i, j | 0 <= i < j < b - a ensures xs[a..b][i] != xs[a..b][j] {
      assert xs[a..b][i] == xs[a + i] && xs[a..b][j] == xs[a + j];
    }
  }

  lemma {:induction false} SliceMember(xs: seq<string>, a: nat, b: nat, x: string)
    requires a <= b <= |xs|
    ensures x in xs[a..b] <==> exists i :: a <= i < b && xs[i] == x
  {
    if i :| a <= i < b && xs[i] == x { assert xs[a..b][i - a] == x; }
  }

  lemma {:induction false} PrefixMember(xs: seq<string>, stored: nat, pos: nat, end: nat, x: string)
    requires pos <= stored <= |xs| && pos <= end <= |xs|
    ensures x in xs[..if end > stored then end else stored] <==> x in xs[..stored] || x in xs[pos..end]
  {
    SliceMember(xs, 0, if end > stored then end else stored, x);
    SliceMember(xs, 0, stored, x);
    SliceMember(xs, pos, end, x);
  }

  lemma {:induction false} TableEntry(svc: Ozon, base: map<string, Product>, n: nat, id: string)
    requires n <= |svc.listing|
    ensures id in Table(svc, base, n) <==> id in base || id in svc.listing[..n]
    ensures id in svc.listing[..n] ==> Table(svc, base, n)[id] == Merged(svc, id)
    ensures id in base && id !in svc.listing[..n] ==> Table(svc, base, n)[id] == base[id]
  {
  }

  lemma {:induction false} TableHolds(svc: Ozon, base: map<string, Product>, n: nat)
    requires n <= |svc.listing|
    ensures Holds(svc, base, n, Table(svc, base, n))
  {
  }

  lemma {:induction false} DetailsLength(svc: Ozon, ids: seq<string>)
    ensures |Details(svc, ids)| == |ids|
  {
  }

  lemma {:induction false} DetailsOfPage(svc: Ozon, ids: seq<string>, details: seq<Product>)
    requires Stable(svc) && details == Details(svc, ids)
    ensures |details| == |ids| && forall i :: 0 <= i < |ids| ==> details[i] == Merged(svc, ids[i]) && details[i].id == ids[i]
  {
  }

  /** One row of the products table after a page is stored. */
  lemma {:induction false} PageEntry(svc: Ozon, base: map<string, Product>, stored: nat, pos: nat, end: nat, details: seq<Product>, id: string)
    requires Stable(svc) && pos <= stored <= |svc.listing| && pos <= end <= |svc.listing|
    requires details == Details(svc, svc.listing[pos..end])
    ensures SameEntry(Upserted(Table(svc, base, stored), details), Table(svc, base, if end > stored then end else stored), id)
  {
    DistinctListing(svc);
    var ids := svc.listing[pos..end];
    DetailsOfPage(svc, ids, details);
    SliceDistinct(svc.listing, pos, end);
    hide Stable, Details, Upserted, Table, Merged, NoDup;
    UpsertedEntry(svc, Table(svc, base, stored), ids, details, id);
    PrefixMember(svc.listing, stored, pos, end, id);
    TableEntry(svc, base, stored, id);
    TableEntry(svc, base, if end > stored then end else stored, id);
  }

  predicate SameEntry(t: map<string, Product>, u: map<string, Product>, id: string) {
    (id in t <==> id in u) && (id in t && id in u ==> t[id] == u[id])
  }

  lemma {:induction false} DistinctListing(svc: Ozon)
    requires Stable(svc)
    ensures NoDup(svc.listing)
  {
  }

  lemma {:induction false} SameEntries(t: map<string, Product>, u: map<string, Product>)
    requires forall id :: SameEntry(t, u, id)
    ensures t == u
  {
    forall id ensures id in t.Keys <==> id in u.Keys {
      assert SameEntry(t, u, id);
    }
    forall id | id in t ensures t[id] == u[id] {
      assert SameEntry(t, u, id);
    }
    assert t.Keys == u.Keys;
  }

  /** Storing a page again, or one that overlaps what is stored, is harmless. */
  lemma {:induction false} StorePage(svc: Ozon, base: map<string, Product>, stored: nat, pos: nat, end: nat, details: seq<Product>)
    requires Stable(svc) && pos <= stored <= |svc.listing| && pos <= end <= |svc.listing|
    requires details == Details(svc, svc.listing[pos..end])
    ensures Upserted(Table(svc, base, stored), details) == Table(svc, base, if end > stored then end else stored)
  {
    hide *;
    var t, u := Upserted(Table(svc, base, stored), details), Table(svc, base, if end > stored then end else stored);
    forall id ensures SameEntry(t, u, id) {
      PageEntry(svc, base, stored, pos, end, details, id);
    }
    SameEntries(t, u);
  }

  lemma {:induction false} NextPrefix(svc: Ozon, cp: Checkpoint, end: nat)
    requires AtPrefix(svc, cp) && svc.pageSize > 0 && cp.totalSynced < |svc.listing|
    requires end == Min(cp.totalSynced + svc.pageSize, |svc.listing|)
    ensures AtPrefix(svc, Checkpoint(svc.cursorAt(end), cp.lastPage + 1, end, cp.lastStatus))
  {
    assert cp.totalSynced == cp.lastPage * svc.pageSize;
    assert (cp.lastPage + 1) * svc.pageSize == cp.lastPage * svc.pageSize + svc.pageSize;
  }

  /** What happens around one run: fails(n) is a network error at request n, the stop flag is
      up from check stopFrom on, the row is marked by a stop request after marks(n) writes of
      the run, and the process dies after crashAfter writes.  A shutdown raises the flag
      without a mark, and a mark may come long before the flag or after the run. */
  datatype Environment = Environment(fails: nat -> bool, stopFrom: Option<nat>, marks: nat -> bool, crashAfter: Option<nat>) {
    ghost predicate Reliable() { forall n :: !fails(n) }

    ghost predicate StopSeen(checks: nat) { stopFrom.Some? && checks >= stopFrom.value }

    /** The ten requests up to this one all failed. */
    ghost predicate TenFailures(last: nat) { last >= 10 && forall n: nat :: last - 10 < n <= last ==> fails(n) }

    /** The last requests up to this one, so many, all failed. */
    ghost predicate InARow(last: nat, failures: nat) { failures <= last && forall n: nat :: last - failures < n <= last ==> fails(n) }

    lemma {:induction false} OneMoreFailure(last: nat, failures: nat)
      requires InARow(last, failures) && fails(last + 1)
      ensures InARow(last + 1, failures + 1)
      ensures failures + 1 >= 10 ==> TenFailures(last + 1)
    {
    }

    lemma {:induction false} NoFailure(last: nat)
      ensures InARow(last, 0)
    {
    }

    lemma {:induction false} Unfold(checks: nat, request: nat)
      ensures StopSeen(checks) <==> stopFrom.Some? && checks >= stopFrom.value
      ensures Reliable() ==> !fails(request)
    {
    }
  }

  const Quiet := Environment(_ => false, None, _ => false, None)

  /** The statuses a run writes before it is done. */
  predicate InProgress(cp: Checkpoint) {
    cp.lastStatus == "running" || cp.lastStatus == "retry" || cp.lastStatus == "failed"
  }

  class OzonSync {
    var products: map<string, Product>   // table products
    var row: Option<Checkpoint>          // table sync_state, source ozon
    var mem: Option<Checkpoint>          // SyncStateStore
    ghost var stored: nat                // length of the stored prefix

    /** What every crash leaves behind: the checkpoints describe prefixes of the listing and
        at least those prefixes are stored. */
    ghost predicate Consistent(svc: Ozon, base: map<string, Product>)
      reads this
    {
      && stored <= |svc.listing| && products == Table(svc, base, stored)
      && (row.Some? ==> AtPrefix(svc, row.value) && row.value.totalSynced <= stored)
      && (mem.Some? ==> AtPrefix(svc, mem.value) && mem.value.totalSynced <= stored)
    }

    /** Everything is stored and the row says so, whatever its status. */
    ghost predicate Finished(svc: Ozon, base: map<string, Product>)
      reads this
    {
      && products == Table(svc, base, |svc.listing|)
      && row.Some? && AtPrefix(svc, row.value) && row.value.totalSynced == |svc.listing|
    }

    /** The end of an undisturbed run. */
    ghost predicate Complete(svc: Ozon, base: map<string, Product>)
      reads this
    {
      Finished(svc, base) && row.value.lastStatus == "done"
    }

    constructor (base: map<string, Product>)
      ensures products == base && row == None && mem == None && stored == 0
    {
      products, row, mem, stored := base, None, None, 0;
    }

    lemma {:induction false} StartsConsistent(svc: Ozon, base: map<string, Product>)
      requires Stable(svc) && products == base && row == None && mem == None && stored == 0
      ensures Consistent(svc, base)
    {
      assert svc.listing[..0] == [];
      assert products == Table(svc, base, 0);
    }

    /** A new process: memory is lost, tables stay. */
    method Restart(svc: Ozon, ghost base: map<string, Product>)
      requires Consistent(svc, base)
      modifies `mem
      ensures mem == None && Consistent(svc, base)
    {
      mem := None;
    }

    /** trigger_ozon_full: reset_checkpoint, then the copy in memory is removed. */
    method ResetCheckpoint(svc: Ozon, ghost base: map<string, Product>)
      requires Stable(svc) && Consistent(svc, base)
      modifies `row, `mem
      ensures Consistent(svc, base) && mem == None
      ensures row == if old(row).Some? then Some(NoCheckpoint) else None
    {
      if row.Some? {
        row := Some(Checkpoint("", 0, 0, ""));
      }
      mem := None;
    }

    /** The upsert of one page and, in memory, the checkpoint after it. */
    method StoreDetails(svc: Ozon, cp: Checkpoint, details: seq<Product>, ghost base: map<string, Product>, ghost end: nat)
      requires Stable(svc) && Consistent(svc, base) && AtPrefix(svc, cp) && cp.totalSynced <= stored
      requires cp.totalSynced <= end <= |svc.listing|
      requires details == Details(svc, svc.listing[cp.totalSynced..end])
      modifies `products, `stored
      ensures Consistent(svc, base) && stored == if end > old(stored) then end else old(stored)
    {
      StorePage(svc, base, stored, cp.totalSynced, end, details);
      hide *;
      products := Upserted(products, details);
      stored := if end > stored then end else stored;
    }

    /** The process dies. */
    method Crash(svc: Ozon, ghost base: map<string, Product>)
      requires Consistent(svc, base)
      modifies `mem
      ensures mem == None && Consistent(svc, base)
    {
      mem := None;
    }

    /** SyncStateStore::set. */
    method Remember(svc: Ozon, cp: Checkpoint, ghost base: map<string, Product>)
      requires Consistent(svc, base) && AtPrefix(svc, cp) && cp.totalSynced <= stored
      modifies `mem
      ensures mem == Some(cp) && Consistent(svc, base)
    {
      mem := Some(cp);
    }

    /** load_checkpoint, consulted after the in-memory store. */
    method Load(svc: Ozon, ghost base: map<string, Product>) returns (cp: Checkpoint)
      requires Stable(svc) && Consistent(svc, base)
      ensures cp == if mem.Some? then mem.value else if row.Some? then row.value else NoCheckpoint
      ensures AtPrefix(svc, cp) && cp.totalSynced <= stored
    {
      cp := if mem.Some? then mem.value else if row.Some? then row.value else NoCheckpoint;
    }

    lemma {:induction false} FinishedAtEnd(svc: Ozon, base: map<string, Product>)
      requires Consistent(svc, base) && row.Some? && row.value.totalSynced >= |svc.listing|
      ensures Finished(svc, base)
    {
      hide Table;
    }

    /** Whatever happened, the table holds a prefix of the listing as described. */
    lemma {:induction false} ConsistentHolds(svc: Ozon, base: map<string, Product>)
      requires Consistent(svc, base)
      ensures stored <= |svc.listing| && Holds(svc, base, stored, products)
    {
      TableHolds(svc, base, stored);
      hide Table, Holds, AtPrefix;
    }

    lemma {:induction false} FinishedHolds(svc: Ozon, base: map<string, Product>)
      requires Finished(svc, base)
      ensures Holds(svc, base, |svc.listing|, products)
    {
      TableHolds(svc, base, |svc.listing|);
      hide Table, Holds, AtPrefix;
    }

    lemma {:induction false} CompleteIff(svc: Ozon, base: map<string, Product>)
      requires Finished(svc, base)
      ensures row.Some? && (Complete(svc, base) <==> row.value.lastStatus == "done")
    {
      hide Table, AtPrefix;
    }

    /** save_checkpoint. */
    method Save(svc: Ozon, cp: Checkpoint, ghost base: map<string, Product>)
      requires Consistent(svc, base) && AtPrefix(svc, cp) && cp.totalSynced <= stored
      modifies `row
      ensures row == Some(cp) && Mirrors(row, cp) && Consistent(svc, base)
    {
      row := Some(cp);
    }

    /** The write of stop_ozon, at any time, also when nothing runs. */
    method MarkStopping(svc: Ozon, ghost base: map<string, Product>)
      requires Consistent(svc, base)
      modifies `row
      ensures row == Marked(old(row)) && Consistent(svc, base)
    {
      if row.Some? {
        row := Some(row.value.(lastStatus := "stopping"));
      }
    }

    /** What can happen before the next write of the run: a stop request marks the row, the
        process dies. */
    method Between(svc: Ozon, env: Environment, writes: nat, ghost base: map<string, Product>) returns (crashed: bool)
      requires Consistent(svc, base)
      modifies `row, `mem
      ensures row == (if env.marks(writes) then Marked(old(row)) else old(row)) && Consistent(svc, base)
      ensures crashed <==> env.crashAfter == Some(writes)
      ensures mem == if crashed then None else old(mem)
      ensures Unclosed(old(row)) ==> Unclosed(row)
      ensures forall cp :: Mirrors(old(row), cp) ==> Mirrors(row, cp)
    {
      if env.marks(writes) {
        MarkStopping(svc, base);
      }
      crashed := env.crashAfter == Some(writes);
      if crashed {
        Crash(svc, base);
      }
    }

    /** The branch for a failed request: one or two checkpoint writes. */
    method OnNetworkError(svc: Ozon, cp0: Checkpoint, failures: nat, writes0: nat, env: Environment, ghost base: map<string, Product>)
      returns (cp: Checkpoint, writes: nat, crashed: bool, failed: bool)
      requires Consistent(svc, base) && AtPrefix(svc, cp0) && cp0.totalSynced <= stored
      requires Mirrors(row, cp0) && InProgress(cp0)
      modifies `row, `mem
      ensures Consistent(svc, base) && AtPrefix(svc, cp) && cp.totalSynced == cp0.totalSynced && Mirrors(row, cp) && InProgress(cp)
      ensures crashed ==> mem == None && env.crashAfter.Some?
      ensures !crashed ==> (failed <==> failures >= 10)
      ensures !crashed ==> cp.lastStatus == if failed then "failed" else "retry"
    {
      assert InProgress(cp0.(lastStatus := "retry")) && InProgress(cp0.(lastStatus := "failed"));
      hide *;
      cp, writes, failed := cp0, writes0, false;
      crashed := Between(svc, env, writes, base);
      if crashed { return; }
      writes := writes + 1;
      RestampedPrefix(svc, cp, "retry");
      cp := cp.(lastStatus := "retry");
      Save(svc, cp, base);
      if failures >= MAX_CONSECUTIVE_FAILURES {
        crashed := Between(svc, env, writes, base);
        if crashed { return; }
        writes := writes + 1;
        RestampedPrefix(svc, cp, "failed");
        cp := cp.(lastStatus := "failed");
        Save(svc, cp, base);
        failed := true;
      }
    }

    /** The branch for a non-empty page: products first, then the checkpoint in memory, then
        the checkpoint row. */
    method OnPage(svc: Ozon, cp0: Checkpoint, result: OzonPage, writes0: nat, env: Environment, ghost base: map<string, Product>, ghost end: nat)
      returns (cp: Checkpoint, writes: nat, crashed: bool)
      requires Stable(svc) && Consistent(svc, base) && AtPrefix(svc, cp0) && cp0.totalSynced <= stored
      requires svc.pageSize > 0 && cp0.totalSynced < end <= |svc.listing| && end == Min(cp0.totalSynced + svc.pageSize, |svc.listing|)
      requires result.items == svc.listing[cp0.totalSynced..end] && result.lastId == svc.cursorAt(end)
      requires Mirrors(row, cp0) && InProgress(cp0)
      modifies `products, `stored, `mem, `row
      ensures Consistent(svc, base) && old(stored) <= stored
      ensures crashed ==> mem == None && env.crashAfter.Some? && Mirrors(row, cp0)
      ensures !crashed ==> AtPrefix(svc, cp) && cp.totalSynced == end <= stored && Mirrors(row, cp) && cp.lastStatus == "running"
    {
      hide *;
      cp, writes := cp0, writes0;
      var details := FetchDetails(svc, result.items);
      DetailsLength(svc, result.items);
      crashed := Between(svc, env, writes, base);
      if crashed { return; }
      writes := writes + 1;
      StoreDetails(svc, cp, details, base, end);
      NextPrefix(svc, cp, end);
      RestampedPrefix(svc, Checkpoint(svc.cursorAt(end), cp.lastPage + 1, end, cp.lastStatus), "running");
      cp := Checkpoint(result.lastId, cp.lastPage + 1, cp.totalSynced + |details|, "running");
      Remember(svc, cp, base);
      crashed := Between(svc, env, writes, base);
      if crashed { return; }
      writes := writes + 1;
      Save(svc, cp, base);
    }

    /** The page loop of run_ozon_sync. */
    method PageLoop(svc: Ozon, cp0: Checkpoint, env: Environment, ghost base: map<string, Product>)
      returns (cp: Checkpoint, writes: nat, checks: nat, crashed: bool, taskFailed: bool, ghost requests: nat)
      requires Stable(svc) && Consistent(svc, base) && AtPrefix(svc, cp0) && cp0.totalSynced <= stored
      requires Mirrors(row, cp0) && cp0.lastStatus == "running"
      modifies `products, `stored, `mem, `row
      ensures Consistent(svc, base) && old(stored) <= stored && Unclosed(row)
      ensures crashed ==> mem == None && env.crashAfter.Some?
      ensures !crashed ==> AtPrefix(svc, cp) && cp.totalSynced <= stored && Mirrors(row, cp) && InProgress(cp) && checks >= 1
      ensures !crashed && !taskFailed ==> env.StopSeen(checks) || cp.totalSynced == |svc.listing|
      ensures env.Reliable() ==> !taskFailed
      ensures !crashed && taskFailed ==> env.TenFailures(requests)
      ensures env.Reliable() && !crashed ==> env.StopSeen(1) || cp.totalSynced > cp0.totalSynced || cp.totalSynced == |svc.listing|
    {
      assert MAX_CONSECUTIVE_FAILURES == 10;
      hide *;
      var failures, request := 0, 0;
      requests := 0;
      env.NoFailure(0);
      cp, writes, checks, crashed, taskFailed := cp0, 1, 0, false, false;
      InProgressUnclosed(row, cp);
      while true
        invariant Consistent(svc, base) && old(stored) <= stored
        invariant AtPrefix(svc, cp) && cp.totalSynced <= stored
        invariant Mirrors(row, cp) && InProgress(cp) && Unclosed(row)
        invariant failures < MAX_CONSECUTIVE_FAILURES && !taskFailed && !crashed
        invariant request == requests && env.InARow(requests, failures)
        invariant env.Reliable() ==> failures == 0
        invariant env.Reliable() ==> checks == 0 || cp.totalSynced > cp0.totalSynced
        decreases |svc.listing| - cp.totalSynced, MAX_CONSECUTIVE_FAILURES - failures
      {
        checks := checks + 1;
        env.Unfold(checks, request + 1);
        if env.stopFrom.Some? && checks >= env.stopFrom.value { break; }
        request, requests := request + 1, requests + 1;
        if env.fails(request) {
          env.OneMoreFailure(requests - 1, failures);
          failures := failures + 1;
          cp, writes, crashed, taskFailed := OnNetworkError(svc, cp, failures, writes, env, base);
          InProgressUnclosed(row, cp);
          if crashed || taskFailed { break; }
          continue;
        }
        failures := 0;
        env.NoFailure(requests);
        var result := svc.fetch(cp.lastCursor);
        ghost var end := FetchedPage(svc, cp);
        if result.items == [] { break; }
        ghost var before := cp;
        cp, writes, crashed := OnPage(svc, cp, result, writes, env, base, end);
        InProgressUnclosed(row, before);
        InProgressUnclosed(row, cp);
        if crashed || !result.hasMore { break; }
      }
    }

    /** The last write of a run, and a mark that comes after it. */
    method WriteDone(svc: Ozon, cp0: Checkpoint, env: Environment, writes: nat, ghost base: map<string, Product>)
      requires Stable(svc) && Consistent(svc, base) && AtPrefix(svc, cp0) && cp0.totalSynced == |svc.listing| <= stored
      modifies `row, `mem
      ensures Consistent(svc, base) && Finished(svc, base) && Holds(svc, base, |svc.listing|, products)
      ensures Complete(svc, base) <==> !env.marks(writes)
      ensures env.marks(writes) ==> Unclosed(row)
      ensures mem == old(mem)
    {
      hide *;
      RestampedPrefix(svc, cp0, "done");
      var cp := cp0.(lastStatus := "done");
      Save(svc, cp, base);
      MarkedStatus(cp);
      var crashed := Between(svc, env.(crashAfter := None), writes, base);
      MirroredRow(svc, row, cp);
      FinishedAtEnd(svc, base);
      FinishedHolds(svc, base);
      CompleteIff(svc, base);
    }

    /** What run_ozon_sync does after the loop. */
    method FinishRun(svc: Ozon, cp: Checkpoint, env: Environment, writes0: nat, checks: nat, taskFailed: bool, ghost base: map<string, Product>)
      returns (outcome: Outcome, writes: nat)
      requires Stable(svc) && Consistent(svc, base) && AtPrefix(svc, cp) && cp.totalSynced <= stored
      requires Mirrors(row, cp) && Unclosed(row)
      requires taskFailed || env.StopSeen(checks) || cp.totalSynced == |svc.listing|
      modifies `row, `mem
      ensures Consistent(svc, base)
      ensures outcome == Done ==> Finished(svc, base) && (Complete(svc, base) <==> !env.marks(writes))
      ensures outcome == Done ==> Holds(svc, base, |svc.listing|, products)
      ensures outcome == Done && env.marks(writes) ==> Unclosed(row)
      ensures outcome == Crashed ==> mem == None && env.crashAfter.Some?
      ensures outcome != Done ==> Unclosed(row) && Mirrors(row, cp)
      ensures !taskFailed && env.stopFrom == None && env.crashAfter == None ==> outcome == Done
      ensures !taskFailed && env.StopSeen(checks + 1) ==> outcome == Stopped
      ensures outcome == Failed <==> taskFailed
    {
      hide *;
      writes := writes0;
      env.Unfold(checks, 0);
      env.Unfold(checks + 1, 0);
      if taskFailed || (env.stopFrom.Some? && checks + 1 >= env.stopFrom.value) {
        outcome := if taskFailed then Failed else Stopped;
        var later := Between(svc, env.(crashAfter := None), writes, base);
        return;
      }
      var crashed := Between(svc, env, writes, base);
      if crashed { return Crashed, writes; }
      writes := writes + 1;
      WriteDone(svc, cp, env, writes, base);
      outcome := Done;
    }

    /** run_ozon_sync. */
    method RunOzonSync(svc: Ozon, env: Environment, ghost base: map<string, Product>)
      returns (outcome: Outcome, writes: nat)
      requires Stable(svc) && Consistent(svc, base)
      modifies this
      ensures Consistent(svc, base) && old(stored) <= stored
      ensures outcome == Done ==> Finished(svc, base) && (Complete(svc, base) <==> !env.marks(writes))
      ensures outcome == Done ==> Holds(svc, base, |svc.listing|, products)
      ensures outcome == Done && env.marks(writes) ==> Unclosed(row)
      ensures outcome == Crashed ==> mem == None && env.crashAfter.Some?
      ensures outcome == Failed ==> exists last :: env.TenFailures(last)
      ensures outcome != Done && env.crashAfter != Some(0) ==> Unclosed(row)
      ensures env.Reliable() && env.stopFrom == None && env.crashAfter == None ==> outcome == Done
      ensures env.Reliable() && env.stopFrom == Some(2) && env.crashAfter == None && svc.listing != [] ==>
          outcome == Stopped && row.Some? && AtPrefix(svc, row.value) && row.value.totalSynced > 0
    {
      hide *;
      var cp := Load(svc, base);
      writes := 0;
      var crashed := Between(svc, env, writes, base);
      if crashed { return Crashed, writes; }
      RestampedPrefix(svc, cp, "running");
      cp := cp.(lastStatus := "running");
      writes := 1;
      Save(svc, cp, base);

      var checks, taskFailed;
      ghost var requests;
      cp, writes, checks, crashed, taskFailed, requests := PageLoop(svc, cp, env, base);
      if crashed { return Crashed, writes; }
      env.Unfold(1, 0);
      env.Unfold(checks + 1, 0);
      outcome, writes := FinishRun(svc, cp, env, writes, checks, taskFailed, base);
      MirroredRow(svc, row, cp);
    }
  }

  lemma {:induction false} MarkedStatus(cp: Checkpoint)
    ensures Marked(Some(cp)).value.lastStatus == "stopping" && "stopping" != "done" && Unclosed(Marked(Some(cp)))
  {
  }

  lemma {:induction false} InProgressUnclosed(row: Option<Checkpoint>, cp: Checkpoint)
    ensures Mirrors(row, cp) && InProgress(cp) ==> Unclosed(row)
    ensures cp.lastStatus == "running" ==> InProgress(cp)
  {
  }

  /** One start of the synchronisation, from the checkpoint or (full) after resetting it; a
      crash or a planned restart ends the process. */
  datatype Attempt = Attempt(env: Environment, full: bool, restart: bool)

  /** Any number of attempts, each ended by a crash, a stop, failures or success at any
      point, then one that is left alone. */
  method SyncThroughCrashes(svc: Ozon, attempts: seq<Attempt>, base: map<string, Product>) returns (o: OzonSync)
    requires Stable(svc)
    ensures fresh(o) && o.Complete(svc, base) && Holds(svc, base, |svc.listing|, o.products)
  {
    o := new OzonSync(base);
    o.StartsConsistent(svc, base);
    hide *;
    for i := 0 to |attempts|
      invariant fresh(o) && o.Consistent(svc, base)
    {
      if attempts[i].full { o.ResetCheckpoint(svc, base); }
      var outcome, writes := o.RunOzonSync(svc, attempts[i].env, base);
      if attempts[i].restart || outcome == Crashed { o.Restart(svc, base); }
    }
    QuietIsReliable();
    var outcome, writes := o.RunOzonSync(svc, Quiet, base);
  }

  lemma {:induction false} QuietIsReliable()
    ensures Quiet.Reliable() && Quiet.stopFrom == None && Quiet.crashAfter == None && forall n :: !Quiet.marks(n)
  {
  }

  lemma {:induction false} PageCountUnique(svc: Ozon, p: nat, q: nat)
    requires svc.pageSize > 0
    requires p * svc.pageSize >= |svc.listing| && (p > 0 ==> (p - 1) * svc.pageSize < |svc.listing|)
    requires q * svc.pageSize >= |svc.listing| && (q > 0 ==> (q - 1) * svc.pageSize < |svc.listing|)
    ensures p == q
  {
    if p < q { MulMonotone(p, q - 1, svc.pageSize); }
    if q < p { MulMonotone(q, p - 1, svc.pageSize); }
  }

  lemma {:induction false} MulMonotone(a: nat, b: nat, k: nat)
    requires a <= b
    ensures a * k <= b * k
  {
    assert (b - a) * k >= 0 && (b - a) * k == b * k - a * k;
  }

  lemma {:induction false} CompleteIsUnique(svc: Ozon, base: map<string, Product>, a: OzonSync, b: OzonSync)
    requires Stable(svc) && a.Complete(svc, base) && b.Complete(svc, base)
    ensures a.products == b.products && a.row == b.row
  {
    PageCountUnique(svc, a.row.value.lastPage, b.row.value.lastPage);
  }

  /** The checkpoint row of a complete state: the cursor behind the whole listing, its length,
      and one page for every pageSize products begun. */
  lemma {:induction false} CompleteCheckpoint(svc: Ozon, base: map<string, Product>, o: OzonSync)
    requires Stable(svc) && o.Complete(svc, base)
    ensures o.row.Some? && o.row.value.lastCursor == svc.cursorAt(|svc.listing|) && o.row.value.totalSynced == |svc.listing|
    ensures o.row.value.lastPage == (|svc.listing| + svc.pageSize - 1) / svc.pageSize && o.row.value.lastStatus == "done"
  {
    hide *;
    CompleteRow(svc, base, o);
    PagesBegun(|svc.listing|, svc.pageSize);
    PageCountUnique(svc, o.row.value.lastPage, (|svc.listing| + svc.pageSize - 1) / svc.pageSize);
  }

  lemma {:induction false} CompleteRow(svc: Ozon, base: map<string, Product>, o: OzonSync)
    requires Stable(svc) && o.Complete(svc, base)
    ensures svc.pageSize > 0 && o.row.Some? && o.row.value.lastStatus == "done"
    ensures o.row.value.lastCursor == svc.cursorAt(|svc.listing|) && o.row.value.totalSynced == |svc.listing|
    ensures var pages := o.row.value.lastPage;
      pages * svc.pageSize >= |svc.listing| && (pages > 0 ==> (pages - 1) * svc.pageSize < |svc.listing|)
  {
    hide Table;
  }

  lemma {:induction false} PagesBegun(n: nat, size: nat)
    requires size > 0
    ensures var q := (n + size - 1) / size; q * size >= n && (q > 0 ==> (q - 1) * size < n)
  {
    var q := (n + size - 1) / size;
    assert q * size <= n + size - 1 < q * size + size;
    assert (q - 1) * size == q * size - size;
  }

  /** Crash and resume refine one uninterrupted run: the final products table and the final
      checkpoint row (cursor, page count, total, status) are the same. */
  method CrashResumeRefinesOneRun(svc: Ozon, attempts: seq<Attempt>, base: map<string, Product>)
    returns (interrupted: OzonSync, straight: OzonSync)
    requires Stable(svc)
    ensures interrupted.products == straight.products && interrupted.row == straight.row
    ensures Holds(svc, base, |svc.listing|, straight.products)
  {
    interrupted := SyncThroughCrashes(svc, attempts, base);
    straight := SyncThroughCrashes(svc, [], base);
    CompleteIsUnique(svc, base, interrupted, straight);
  }

  // ---- stop requests that do not last ----

  /** A user who stops the synchronisation after its first page: the row is not closed, and
      the resume check of the next start takes it up again. */
  method StoppedRunIsResumed(svc: Ozon, base: map<string, Product>) returns (o: OzonSync, outcome: Outcome, resumed: bool)
    requires Stable(svc) && svc.listing != []
    ensures outcome == Stopped && resumed
  {
    o := new OzonSync(base);
    o.StartsConsistent(svc, base);
    var env := Quiet.(stopFrom := Some(2), marks := (n: nat) => n == 3);
    assert env.Reliable() && env.stopFrom == Some(2) && env.crashAfter != Some(0);
    hide *;
    var writes;
    outcome, writes := o.RunOzonSync(svc, env, base);
    UnfinishedExactly(svc, o.row);
    resumed := HasUnfinished(o.row);
  }

  /** A stop request that comes after the run has written done: the finished synchronisation
      is resumed at the next start, and that run, left alone, completes it again. */
  method LateStopRepeatsTheRun(svc: Ozon, base: map<string, Product>) returns (o: OzonSync, resumed: bool)
    requires Stable(svc)
    ensures resumed <==> svc.listing != []
    ensures o.Complete(svc, base)
  {
    o := new OzonSync(base);
    o.StartsConsistent(svc, base);
    var env := Quiet.(marks := (n: nat) => true);
    assert env.Reliable() && env.stopFrom == None && env.crashAfter == None && forall n :: env.marks(n);
    QuietIsReliable();
    hide *;
    var outcome, writes := o.RunOzonSync(svc, env, base);
    FinishedTotals(svc, base, o);
    UnfinishedExactly(svc, o.row);
    resumed := HasUnfinished(o.row);
    outcome, writes := o.RunOzonSync(svc, Quiet, base);
  }

  lemma {:induction false} FinishedTotals(svc: Ozon, base: map<string, Product>, o: OzonSync)
    requires o.Finished(svc, base)
    ensures o.row.Some? && AtPrefix(svc, o.row.value) && o.row.value.totalSynced == |svc.listing|
  {
    hide AtPrefix, Table;
  }

  /** A marketplace with one product on one page. */
  const OneProduct := Ozon(["a"], 1, (n: nat) => if n == 0 then "" else "end",
    c => if c == "" then OzonPage(["a"], "end", true) else OzonPage([], "end", false),
    id => Product(id, "", "", 0.0, "", 0), sku => None)

  lemma {:induction false} OneProductIsStable()
    ensures Stable(OneProduct) && OneProduct.listing != []
  {
    forall pos: nat | pos <= 1 ensures OneProduct.fetch(OneProduct.cursorAt(pos)) == PageAt(OneProduct, pos) {
      assert pos == 0 || pos == 1;
    }
  }

  /** What the loop needs to know about one answer. */
  lemma {:induction false} FetchedPage(svc: Ozon, cp: Checkpoint) returns (end: nat)
    requires Stable(svc) && AtPrefix(svc, cp)
    ensures svc.pageSize > 0 && cp.totalSynced <= end <= |svc.listing|
    ensures end == Min(cp.totalSynced + svc.pageSize, |svc.listing|)
    ensures var page := svc.fetch(cp.lastCursor);
      && page.items == svc.listing[cp.totalSynced..end] && |page.items| == end - cp.totalSynced
      && page.lastId == svc.cursorAt(end)
      && (page.items == [] ==> cp.totalSynced == |svc.listing|)
      && (page.items != [] ==> cp.totalSynced < |svc.listing|)
      && (!page.hasMore ==> end == |svc.listing|)
  {
    end := Min(cp.totalSynced + svc.pageSize, |svc.listing|);
    assert svc.fetch(cp.lastCursor) == PageAt(svc, cp.totalSynced);
  }

  lemma {:induction false} RestampedPrefix(svc: Ozon, cp: Checkpoint, status: string)
    requires AtPrefix(svc, cp)
    ensures AtPrefix(svc, cp.(lastStatus := status))
  {
  }
}
