/** Ka2Inventory::read_balance_chunked: keys in chunks of 200, a chunk halved on
    HTTP 414, at most 1000 rows taken from each answer. */
module BalanceRead {
  import opened Sequences
  import opened ChunkVector
  import opened ChunkWorkers

  const VB_CHUNK: nat := 200
  const ROW_LIMIT: nat := 1000

  /** A 1C register: the rows of each key, and which key lists give a URL short enough. */
  datatype Source<Row> = Source(rowsOf: string -> seq<Row>, fits: seq<string> -> bool)

  function RowsOf<Row>(src: Source<Row>, keys: seq<string>): seq<Row> {
    if keys == [] then [] else src.rowsOf(keys[0]) + RowsOf(src, keys[1..])
  }

  lemma {:induction false} RowsOfConcat<Row>(src: Source<Row>, a: seq<string>, b: seq<string>)
    ensures RowsOf(src, a + b) == RowsOf(src, a) + RowsOf(src, b)
  {
    if a == [] {
      assert a + b == b;
    } else {
      assert (a + b)[1..] == a[1..] + b;
      RowsOfConcat(src, a[1..], b);
    }
  }

  lemma {:induction false} RowsOfRemove<Row>(src: Source<Row>, b: seq<string>, i: nat)
    requires i < |b|
    ensures multiset(RowsOf(src, b)) == multiset(src.rowsOf(b[i])) + multiset(RowsOf(src, RemoveAt(b, i)))
  {
    var l, r := b[..i], b[i + 1..];
    assert b == l + ([b[i]] + r) && RemoveAt(b, i) == l + r;
    RowsOfConcat(src, l, [b[i]] + r);
    RowsOfConcat(src, l, r);
    assert ([b[i]] + r)[1..] == r;
  }

  lemma {:induction false} RowsOfPermutation<Row>(src: Source<Row>, a: seq<string>, b: seq<string>)
    requires multiset(a) == multiset(b)
    ensures multiset(RowsOf(src, a)) == multiset(RowsOf(src, b))
  {
    PermutationSize(a, b);
    if a != [] {
      var i := HeadIn(a, b);
      RowsOfPermutation(src, a[1..], RemoveAt(b, i));
      RowsOfRemove(src, b, i);
    }
  }

  /** What the server sends for $top=1000. */
  function Answer<Row>(src: Source<Row>, chunk: seq<string>): seq<Row> {
    var rows := RowsOf(src, chunk);
    rows[..Min(|rows|, ROW_LIMIT)]
  }

  /** process_chunk.  The path names one request inside the splitting of a chunk; trouble
      says that this request meets the stop flag or a fault other than 414. */
  function ProcessChunk<Row>(src: Source<Row>, chunk: seq<string>, trouble: seq<bool> -> bool, path: seq<bool>): seq<Row>
    decreases |chunk|
  {
    if trouble(path) then []
    else if src.fits(chunk) then Answer(src, chunk)
    else if |chunk| > 1 then
      ProcessChunk(src, chunk[..|chunk| / 2], trouble, path + [false])
      + ProcessChunk(src, chunk[|chunk| / 2..], trouble, path + [true])
    else []
  }

  /** What one call of process_chunk yields: nothing when the request is in trouble, the first
      1000 rows when it is answered, the halves one after the other on HTTP 414, and nothing
      for a single key that the server cannot take. */
  lemma {:induction false} CasesOfChunk<Row>(src: Source<Row>, chunk: seq<string>, trouble: seq<bool> -> bool, path: seq<bool>)
    ensures trouble(path) ==> ProcessChunk(src, chunk, trouble, path) == []
    ensures !trouble(path) && src.fits(chunk) ==>
      var rows := RowsOf(src, chunk); ProcessChunk(src, chunk, trouble, path) == if |rows| <= 1000 then rows else rows[..1000]
    ensures !trouble(path) && !src.fits(chunk) && |chunk| <= 1 ==> ProcessChunk(src, chunk, trouble, path) == []
    ensures !trouble(path) && !src.fits(chunk) && |chunk| > 1 ==> exists l, r: seq<string> ::
      && chunk == l + r && |l| <= |r| <= |l| + 1
      && ProcessChunk(src, chunk, trouble, path) == ProcessChunk(src, l, trouble, path + [false]) + ProcessChunk(src, r, trouble, path + [true])
  {
    var rows := RowsOf(src, chunk);
    assert rows[..|rows|] == rows;
    if !trouble(path) && !src.fits(chunk) && |chunk| > 1 {
      assert chunk == chunk[..|chunk| / 2] + chunk[|chunk| / 2..];
    }
  }

  /** No request of the chunk loses rows: none in trouble, none cut at 1000 rows, no
      single key with an over-long URL, unless there was nothing to lose. */
  predicate Lossless<Row>(src: Source<Row>, chunk: seq<string>, trouble: seq<bool> -> bool, path: seq<bool>)
    decreases |chunk|
  {
    if trouble(path) then |RowsOf(src, chunk)| == 0
    else if src.fits(chunk) then |RowsOf(src, chunk)| <= ROW_LIMIT
    else if |chunk| > 1 then
      && Lossless(src, chunk[..|chunk| / 2], trouble, path + [false])
      && Lossless(src, chunk[|chunk| / 2..], trouble, path + [true])
    else |RowsOf(src, chunk)| == 0
  }

  /** A chunk never yields a row twice or a foreign row, and yields all of them exactly
      when every one of its requests is lossless. */
  lemma {:induction false} ProcessChunkExact<Row>(src: Source<Row>, chunk: seq<string>, trouble: seq<bool> -> bool, path: seq<bool>)
    ensures multiset(ProcessChunk(src, chunk, trouble, path)) <= multiset(RowsOf(src, chunk))
    ensures multiset(ProcessChunk(src, chunk, trouble, path)) == multiset(RowsOf(src, chunk))
        <==> Lossless(src, chunk, trouble, path)
    decreases |chunk|
  {
    if !trouble(path) && !src.fits(chunk) && |chunk| > 1 {
      var m := |chunk| / 2;
      var l, r := chunk[..m], chunk[m..];
      ProcessChunkExact(src, l, trouble, path + [false]);
      ProcessChunkExact(src, r, trouble, path + [true]);
      assert chunk == l + r;
      RowsOfConcat(src, l, r);
      hide RowsOf;
      SumOfParts(ProcessChunk(src, l, trouble, path + [false]), RowsOf(src, l),
                 ProcessChunk(src, r, trouble, path + [true]), RowsOf(src, r));
    } else {
      UnsplitChunkExact(src, chunk, trouble, path);
    }
  }

  lemma {:induction false} UnsplitChunkExact<Row>(src: Source<Row>, chunk: seq<string>, trouble: seq<bool> -> bool, path: seq<bool>)
    requires trouble(path) || src.fits(chunk) || |chunk| <= 1
    ensures multiset(ProcessChunk(src, chunk, trouble, path)) <= multiset(RowsOf(src, chunk))
    ensures multiset(ProcessChunk(src, chunk, trouble, path)) == multiset(RowsOf(src, chunk))
        <==> Lossless(src, chunk, trouble, path)
  {
    var rows, got := RowsOf(src, chunk), ProcessChunk(src, chunk, trouble, path);
    var n := if trouble(path) || !src.fits(chunk) then 0 else Min(|rows|, ROW_LIMIT);
    assert got == rows[..n] && rows == rows[..n] + rows[n..];
    SubMultisetSize(got, rows);
  }

  /** A lossless chunk yields its rows in the order of its keys. */
  lemma {:induction false} LosslessInOrder<Row>(src: Source<Row>, chunk: seq<string>, trouble: seq<bool> -> bool, path: seq<bool>)
    requires Lossless(src, chunk, trouble, path)
    ensures ProcessChunk(src, chunk, trouble, path) == RowsOf(src, chunk)
    decreases |chunk|
  {
    if !trouble(path) && !src.fits(chunk) && |chunk| > 1 {
      var m := |chunk| / 2;
      LosslessInOrder(src, chunk[..m], trouble, path + [false]);
      LosslessInOrder(src, chunk[m..], trouble, path + [true]);
      assert chunk == chunk[..m] + chunk[m..];
      RowsOfConcat(src, chunk[..m], chunk[m..]);
      hide RowsOf;
    } else {
      UnsplitInOrder(src, chunk, trouble, path);
      hide *;
    }
  }

  lemma {:induction false} UnsplitInOrder<Row>(src: Source<Row>, chunk: seq<string>, trouble: seq<bool> -> bool, path: seq<bool>)
    requires Lossless(src, chunk, trouble, path) && (trouble(path) || src.fits(chunk) || |chunk| <= 1)
    ensures ProcessChunk(src, chunk, trouble, path) == RowsOf(src, chunk)
  {
    hide RowsOf;
    var rows := RowsOf(src, chunk);
    assert rows[..|rows|] == rows;
  }

  /** For each chunk, the trouble its requests meet. */
  type Trouble = seq<seq<bool> -> bool>

  function ChunkResults<Row>(src: Source<Row>, chunks: seq<seq<string>>, trouble: Trouble): (r: seq<seq<Row>>)
    requires |trouble| == |chunks|
    ensures |r| == |chunks|
    ensures forall i :: 0 <= i < |chunks| ==> r[i] == ProcessChunk(src, chunks[i], trouble[i], [])
  {
    seq(|chunks|, i requires 0 <= i < |chunks| => ProcessChunk(src, chunks[i], trouble[i], []))
  }

  predicate AllLossless<Row>(src: Source<Row>, chunks: seq<seq<string>>, trouble: Trouble)
    requires |trouble| == |chunks|
  {
    forall i :: 0 <= i < |chunks| ==> Lossless(src, chunks[i], trouble[i], [])
  }

  function BalanceJob<Row>(src: Source<Row>, keys: seq<string>, trouble: Trouble): Job<Row>
    requires |trouble| == |Chunks(keys, VB_CHUNK)|
  {
    Job(ChunkResults(src, Chunks(keys, VB_CHUNK), trouble), false)
  }

  /** The read is cut into requests for 200 keys each, the last one for the rest. */
  lemma {:induction false} TwoHundredKeysEach<Row>(src: Source<Row>, keys: seq<string>, trouble: Trouble, i: nat)
    requires |trouble| == |Chunks(keys, VB_CHUNK)|
    ensures |keys| <= |BalanceJob(src, keys, trouble).results| * 200
    ensures i < |BalanceJob(src, keys, trouble).results| ==>
      i * 200 < |keys| && BalanceJob(src, keys, trouble).results[i]
                            == ProcessChunk(src, keys[i * 200..Min(i * 200 + 200, |keys|)], trouble[i], [])
  {
    ChunksAt(keys, 200);
    hide ProcessChunk, Chunks;
    if i < |Chunks(keys, 200)| {
      assert PartAt(keys, 200, i, Chunks(keys, 200)[i]);
    }
  }

  lemma {:induction false} RowsOfChunks<Row>(src: Source<Row>, chunks: seq<seq<string>>)
    ensures Flatten(Map(chunks, c => RowsOf(src, c))) == RowsOf(src, Flatten(chunks))
  {
    if chunks != [] {
      RowsOfChunks(src, chunks[1..]);
      RowsOfConcat(src, chunks[0], Flatten(chunks[1..]));
    }
  }

  lemma {:induction false} ChunksExact<Row>(src: Source<Row>, chunks: seq<seq<string>>, trouble: Trouble)
    requires |trouble| == |chunks|
    ensures multiset(Flatten(ChunkResults(src, chunks, trouble))) <= multiset(RowsOf(src, Flatten(chunks)))
    ensures multiset(Flatten(ChunkResults(src, chunks, trouble))) == multiset(RowsOf(src, Flatten(chunks)))
        <==> AllLossless(src, chunks, trouble)
  {
    var parts, fulls := ChunkResults(src, chunks, trouble), Map(chunks, c => RowsOf(src, c));
    forall i | 0 <= i < |chunks|
      ensures multiset(parts[i]) <= multiset(fulls[i])
      ensures multiset(parts[i]) == multiset(fulls[i]) <==> Lossless(src, chunks[i], trouble[i], [])
    {
      ProcessChunkExact(src, chunks[i], trouble[i], []);
    }
    FlattenParts(parts, fulls);
    RowsOfChunks(src, chunks);
  }

  /** For every interleaving, number of threads, fault and stop pattern: the balance
      read returns a sub-multiset of the rows of all keys. */
  lemma {:induction false} BalanceReadSafe<Row(!new)>(src: Source<Row>, keys: seq<string>, trouble: Trouble, workers: nat, run: seq<State<Row>>)
    requires |trouble| == |Chunks(keys, VB_CHUNK)|
    requires IsRun(BalanceJob(src, keys, trouble), workers, run)
    ensures multiset(run[|run| - 1].out) <= multiset(RowsOf(src, keys))
  {
    var chunks := Chunks(keys, VB_CHUNK);
    NothingInvented(BalanceJob(src, keys, trouble), workers, run);
    ChunksExact(src, chunks, trouble);
    ChunksCover(keys, VB_CHUNK);
  }

  /** A complete, unstopped read returns each row of each key exactly once if and only if
      no request loses rows. */
  lemma {:induction false} BalanceReadExact<Row(!new)>(src: Source<Row>, keys: seq<string>, trouble: Trouble, workers: nat, run: seq<State<Row>>)
    requires |trouble| == |Chunks(keys, VB_CHUNK)|
    requires IsRun(BalanceJob(src, keys, trouble), workers, run)
    requires Finished(run[|run| - 1]) && !run[|run| - 1].stop
    ensures multiset(run[|run| - 1].out) == multiset(RowsOf(src, keys))
        <==> AllLossless(src, Chunks(keys, VB_CHUNK), trouble)
  {
    var chunks := Chunks(keys, VB_CHUNK);
    EveryChunkOnce(BalanceJob(src, keys, trouble), workers, run);
    ChunksExact(src, chunks, trouble);
    ChunksCover(keys, VB_CHUNK);
  }

  lemma {:induction false} LosslessWhenSmall<Row>(src: Source<Row>, chunk: seq<string>, trouble: seq<bool> -> bool, path: seq<bool>)
    requires forall p :: !trouble(p)
    requires forall k :: src.fits([k])
    requires forall c: seq<string> :: |c| <= VB_CHUNK && src.fits(c) ==> |RowsOf(src, c)| <= ROW_LIMIT
    requires 0 < |chunk| <= VB_CHUNK
    ensures Lossless(src, chunk, trouble, path)
    decreases |chunk|
  {
    if |chunk| == 1 {
      assert chunk == [chunk[0]];
    } else {
      LosslessWhenSmall(src, chunk[..|chunk| / 2], trouble, path + [false]);
      LosslessWhenSmall(src, chunk[|chunk| / 2..], trouble, path + [true]);
    }
  }

  /** The usual clean case: no trouble, one key always fits in a URL, and a key list
      that fits has at most 1000 rows.  Then every complete read is exact. */
  lemma {:induction false} CleanReadIsExact<Row(!new)>(src: Source<Row>, keys: seq<string>, trouble: Trouble, workers: nat, run: seq<State<Row>>)
    requires |trouble| == |Chunks(keys, VB_CHUNK)|
    requires IsRun(BalanceJob(src, keys, trouble), workers, run)
    requires Finished(run[|run| - 1]) && !run[|run| - 1].stop
    requires forall i, p :: 0 <= i < |trouble| ==> !trouble[i](p)
    requires forall k :: src.fits([k])
    requires forall c: seq<string> :: |c| <= VB_CHUNK && src.fits(c) ==> |RowsOf(src, c)| <= ROW_LIMIT
    ensures multiset(run[|run| - 1].out) == multiset(RowsOf(src, keys))
  {
    var chunks := Chunks(keys, VB_CHUNK);
    ChunksCover(keys, VB_CHUNK);
    forall i | 0 <= i < |chunks| ensures Lossless(src, chunks[i], trouble[i], []) {
      assert chunks[i] in chunks;
      LosslessWhenSmall(src, chunks[i], trouble[i], []);
    }
    BalanceReadExact(src, keys, trouble, workers, run);
  }

  // ---- a key that loses a row ----

  /** A register in which every key has 1001 rows. */
  const LongKeys: Source<int> := Source(key => seq(1001, i => i), keys => true)

  const NoTrouble: Trouble := [path => false]

  lemma {:induction false} OneChunk(key: string)
    ensures Chunks([key], VB_CHUNK) == [[key]]
  {
  }

  /** One key with 1001 rows and nothing going wrong: every complete read has 1000 rows. */
  lemma {:induction false} RowBeyondTheLimitIsLost(key: string, workers: nat, run: seq<State<int>>)
    requires |Chunks([key], VB_CHUNK)| == 1
    requires IsRun(BalanceJob(LongKeys, [key], NoTrouble), workers, run)
    requires Finished(run[|run| - 1]) && !run[|run| - 1].stop
    ensures |run[|run| - 1].out| == 1000 && |RowsOf(LongKeys, [key])| == 1001
    ensures multiset(run[|run| - 1].out) != multiset(RowsOf(LongKeys, [key]))
  {
    OneChunk(key);
    LongAnswer(key);
    var out := run[|run| - 1].out;
    EveryChunkOnce(BalanceJob(LongKeys, [key], NoTrouble), workers, run);
    hide RowsOf, IsRun, Finished, ProcessChunk;
    PermutationSize(out, Flatten(ChunkResults(LongKeys, [[key]], NoTrouble)));
    if multiset(out) == multiset(RowsOf(LongKeys, [key])) {
      PermutationSize(out, RowsOf(LongKeys, [key]));
    }
  }

  lemma {:induction false} LongAnswer(key: string)
    ensures |RowsOf(LongKeys, [key])| == 1001
    ensures |Flatten(ChunkResults(LongKeys, [[key]], NoTrouble))| == 1000
  {
    assert RowsOf(LongKeys, [key]) == LongKeys.rowsOf(key) + RowsOf(LongKeys, []) == LongKeys.rowsOf(key);
    var results := ChunkResults(LongKeys, [[key]], NoTrouble);
    assert results[0] == ProcessChunk(LongKeys, [key], NoTrouble[0], []) == Answer(LongKeys, [key]);
    assert results[1..] == [] && Flatten(results) == results[0] + Flatten(results[1..]);
  }
}
