/** Ka2Inventory::read_chunked_parallel: each chunk of keys is read page by page. */
module FlatRead {
  import opened Sequences
  import opened ChunkVector
  import opened ChunkWorkers
  import opened BalanceRead

  /** What the page loop of one chunk collects from the given skip on, against a stable
      server holding the rows; fault(skip) is a failed request at that skip. */
  function PagedRows<Row>(rows: seq<Row>, pageSize: nat, fault: nat -> bool, skip: nat): seq<Row>
    decreases |rows| - skip
  {
    if fault(skip) || skip >= |rows| || pageSize == 0 then []
    else if |rows| - skip < pageSize then rows[skip..]
    else rows[skip..skip + pageSize] + PagedRows(rows, pageSize, fault, skip + pageSize)
  }

  lemma {:induction false} PagedStep<Row>(rows: seq<Row>, pageSize: nat, fault: nat -> bool, skip: nat)
    requires skip <= |rows|
    ensures var items, paged := Page(rows, skip, pageSize), PagedRows(rows, pageSize, fault, skip);
      && skip + |items| <= |rows|
      && (fault(skip) || items == [] ==> paged == [])
      && (!fault(skip) && 0 < |items| < pageSize ==> paged == items)
      && (!fault(skip) && items != [] && |items| >= pageSize ==>
            paged == items + PagedRows(rows, pageSize, fault, skip + |items|))
  {
  }

  /** The inner page loop of a worker. */
  method ReadChunkPages<Row>(rows: seq<Row>, pageSize: nat, fault: nat -> bool) returns (local: seq<Row>)
    ensures local == PagedRows(rows, pageSize, fault, 0)
  {
    hide *;
    local := [];
    var skip := 0;
    ConcatAssociative([], PagedRows(rows, pageSize, fault, 0), []);
    while true
      invariant skip <= |rows|
      invariant local + PagedRows(rows, pageSize, fault, skip) == PagedRows(rows, pageSize, fault, 0)
      decreases |rows| - skip
    {
      PagedStep(rows, pageSize, fault, skip);
      ConcatAssociative(local, [], []);
      if fault(skip) { break; }
      var items := Page(rows, skip, pageSize);
      if items == [] { break; }
      ConcatAssociative(local, items, PagedRows(rows, pageSize, fault, skip + |items|));
      local := local + items;
      ConcatAssociative(local, [], []);
      if |items| < pageSize { break; }
      skip := skip + |items|;
    }
  }

  /** No page that still has rows fails. */
  predicate NoPageLost<Row>(rows: seq<Row>, pageSize: nat, fault: nat -> bool, skip: nat)
    decreases |rows| - skip
  {
    skip >= |rows| ||
    (!fault(skip) && pageSize > 0 && (|rows| - skip < pageSize || NoPageLost(rows, pageSize, fault, skip + pageSize)))
  }

  lemma {:induction false} PagedRowsExact<Row>(rows: seq<Row>, pageSize: nat, fault: nat -> bool, skip: nat)
    requires skip <= |rows|
    ensures PagedRows(rows, pageSize, fault, skip) <= rows[skip..]
    ensures PagedRows(rows, pageSize, fault, skip) == rows[skip..] <==> NoPageLost(rows, pageSize, fault, skip)
    decreases |rows| - skip
  {
    if !fault(skip) && pageSize > 0 && |rows| - skip >= pageSize {
      PagedRowsExact(rows, pageSize, fault, skip + pageSize);
      assert rows[skip..] == rows[skip..skip + pageSize] + rows[skip + pageSize..];
    }
  }

  /** Which rows a chunk loses: the pages before the first failed one are kept whole, and
      nothing after it is read. */
  lemma {:induction false} KeptUpToFault<Row>(rows: seq<Row>, pageSize: nat, fault: nat -> bool, skip: nat) returns (pages: nat)
    requires skip <= |rows| && pageSize > 0
    ensures PagedRows(rows, pageSize, fault, skip) == rows[skip..Min(skip + pages * pageSize, |rows|)]
    ensures skip + pages * pageSize >= |rows| || fault(skip + pages * pageSize)
    ensures forall k: nat :: k < pages ==> !fault(skip + k * pageSize)
    decreases |rows| - skip
  {
    pages := 0;
    if !fault(skip) && skip < |rows| {
      pages := 1;
      if skip + pageSize <= |rows| {
        var more := KeptUpToFault(rows, pageSize, fault, skip + pageSize);
        pages := more + 1;
        PagesSum(rows, skip, pageSize, more);
        hide PagedRows;
        forall k: nat | k < pages ensures !fault(skip + k * pageSize) {
          if k > 0 { assert (k - 1) * pageSize + pageSize == k * pageSize; }
        }
      }
    }
  }

  lemma {:induction false} PagesSum<Row>(rows: seq<Row>, skip: nat, pageSize: nat, more: nat)
    requires skip + pageSize <= |rows|
    ensures (more + 1) * pageSize == pageSize + more * pageSize
    ensures rows[skip..skip + pageSize] + rows[skip + pageSize..Min(skip + pageSize + more * pageSize, |rows|)]
         == rows[skip..Min(skip + (more + 1) * pageSize, |rows|)]
  {
    assert (more + 1) * pageSize == pageSize + more * pageSize;
  }

  /** For each chunk, the requests that fail. */
  type Faults = seq<nat -> bool>

  /** A 414 is an ordinary failure here: the chunk is not split. */
  function ChunkFault<Row>(src: Source<Row>, chunk: seq<string>, fault: nat -> bool): nat -> bool {
    (skip: nat) => !src.fits(chunk) || fault(skip)
  }

  function FlatResults<Row>(src: Source<Row>, chunks: seq<seq<string>>, pageSize: nat, faults: Faults): (r: seq<seq<Row>>)
    requires |faults| == |chunks|
    ensures |r| == |chunks|
    ensures forall i :: 0 <= i < |chunks| ==>
      r[i] == PagedRows(RowsOf(src, chunks[i]), pageSize, ChunkFault(src, chunks[i], faults[i]), 0)
  {
    seq(|chunks|, i requires 0 <= i < |chunks| =>
      PagedRows(RowsOf(src, chunks[i]), pageSize, ChunkFault(src, chunks[i], faults[i]), 0))
  }

  function FlatJob<Row>(src: Source<Row>, keys: seq<string>, chunkSize: nat, pageSize: nat, faults: Faults): Job<Row>
    requires |faults| == |Chunks(keys, ChunkSize(chunkSize))|
  {
    Job(FlatResults(src, Chunks(keys, ChunkSize(chunkSize)), pageSize, faults), true)
  }

  predicate AllPagesRead<Row>(src: Source<Row>, chunks: seq<seq<string>>, pageSize: nat, faults: Faults)
    requires |faults| == |chunks|
  {
    forall i :: 0 <= i < |chunks| ==>
      NoPageLost(RowsOf(src, chunks[i]), pageSize, ChunkFault(src, chunks[i], faults[i]), 0)
  }

  lemma {:induction false} PrefixSubMultiset<T>(a: seq<T>, b: seq<T>)
    requires a <= b
    ensures multiset(a) <= multiset(b)
    ensures multiset(a) == multiset(b) <==> a == b
  {
    assert b == a + b[|a|..];
    SubMultisetSize(a, b);
  }

  lemma {:induction false} FlatChunksExact<Row>(src: Source<Row>, chunks: seq<seq<string>>, pageSize: nat, faults: Faults)
    requires |faults| == |chunks|
    ensures multiset(Flatten(FlatResults(src, chunks, pageSize, faults))) <= multiset(RowsOf(src, Flatten(chunks)))
    ensures multiset(Flatten(FlatResults(src, chunks, pageSize, faults))) == multiset(RowsOf(src, Flatten(chunks)))
        <==> AllPagesRead(src, chunks, pageSize, faults)
  {
    var parts, fulls := FlatResults(src, chunks, pageSize, faults), Map(chunks, c => RowsOf(src, c));
    forall i | 0 <= i < |chunks|
      ensures multiset(parts[i]) <= multiset(fulls[i])
      ensures multiset(parts[i]) == multiset(fulls[i])
          <==> NoPageLost(RowsOf(src, chunks[i]), pageSize, ChunkFault(src, chunks[i], faults[i]), 0)
    {
      var rows := RowsOf(src, chunks[i]);
      PagedRowsExact(rows, pageSize, ChunkFault(src, chunks[i], faults[i]), 0);
      assert rows[0..] == rows;
      PrefixSubMultiset(parts[i], rows);
    }
    FlattenParts(parts, fulls);
    RowsOfChunks(src, chunks);
  }

  /** The flat read under any schedule: never an invented row, and a complete unstopped
      read has every row exactly once if and only if no page with rows was lost. */
  lemma {:induction false} FlatReadExact<Row(!new)>(src: Source<Row>, keys: seq<string>, chunkSize: nat, pageSize: nat,
                                 faults: Faults, workers: nat, run: seq<State<Row>>)
    requires |faults| == |Chunks(keys, ChunkSize(chunkSize))|
    requires IsRun(FlatJob(src, keys, chunkSize, pageSize, faults), workers, run)
    ensures multiset(run[|run| - 1].out) <= multiset(RowsOf(src, keys))
    ensures Finished(run[|run| - 1]) && !run[|run| - 1].stop ==>
      (multiset(run[|run| - 1].out) == multiset(RowsOf(src, keys))
        <==> AllPagesRead(src, Chunks(keys, ChunkSize(chunkSize)), pageSize, faults))
  {
    var chunks := Chunks(keys, ChunkSize(chunkSize));
    var job := FlatJob(src, keys, chunkSize, pageSize, faults);
    NothingInvented(job, workers, run);
    FlatChunksExact(src, chunks, pageSize, faults);
    ChunksCover(keys, ChunkSize(chunkSize));
    if Finished(run[|run| - 1]) && !run[|run| - 1].stop {
      EveryChunkOnce(job, workers, run);
    }
  }
}
