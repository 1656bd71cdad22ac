/** Ka2Inventory::chunk_vector. */
module ChunkVector {
  import opened Sequences

  const DEFAULT_CHUNK: nat := 40

  function ChunkSize(size: nat): nat { if size == 0 then DEFAULT_CHUNK else size }

  /** Full chunks followed by one shorter rest. */
  function Chunks<T>(values: seq<T>, size: nat): (r: seq<seq<T>>)
    requires size > 0
  {
    if values == [] then []
    else if |values| <= size then [values]
    else [values[..size]] + Chunks(values[size..], size)
  }

  lemma {:induction false} ChunksFrom<T>(values: seq<T>, size: nat, i: nat)
    requires size > 0 && i < |values|
    ensures var end := Min(i + size, |values|);
      Chunks(values[i..], size) == [values[i..end]] + Chunks(values[end..], size)
  {
    var end := Min(i + size, |values|);
    assert values[i..][..end - i] == values[i..end];
    if |values[i..]| <= size {
      assert values[i..] == values[i..end] && values[end..] == [];
    } else {
      assert values[i..][size..] == values[i + size..];
    }
  }

  method ChunkVector<T>(values: seq<T>, chunkSize: nat) returns (out: seq<seq<T>>)
    ensures out == Chunks(values, ChunkSize(chunkSize))
    ensures var size := if chunkSize == 0 then 40 else chunkSize;
      |values| <= |out| * size && forall i :: 0 <= i < |out| ==> PartAt(values, size, i, out[i])
  {
    var size := if chunkSize == 0 then DEFAULT_CHUNK else chunkSize;
    assert size == ChunkSize(chunkSize);
    out := [];
    NoMoreChunks(values, size);
    ChunksAt(values, size);
    hide Chunks, ChunkSize, PartAt;
    ConcatAssociative([], Chunks(values, size), []);
    var i := 0;
    while i < |values|
      invariant out + Chunks(values[Min(i, |values|)..], size) == Chunks(values, size)
    {
      ChunksFrom(values, size, i);
      var end := Min(i + size, |values|);
      ConcatAssociative(out, [values[i..end]], Chunks(values[end..], size));
      out := out + [values[i..end]];
      i := i + size;
    }
    ConcatAssociative(out, [], []);
  }

  lemma {:induction false} NoMoreChunks<T>(values: seq<T>, size: nat)
    requires size > 0
    ensures values[0..] == values && Chunks(values[|values|..], size) == []
  {
    assert values[|values|..] == [];
  }

  /** c is the part of the list from a position on, of the given size if there is that much. */
  predicate PartFrom<T(==)>(values: seq<T>, size: nat, from: nat, c: seq<T>) {
    from < |values| && c == values[from..Min(from + size, |values|)]
  }

  predicate PartAt<T(==)>(values: seq<T>, size: nat, i: nat, c: seq<T>) { PartFrom(values, size, i * size, c) }

  lemma {:induction false} FromShifts<T>(values: seq<T>, size: nat, from: nat, c: seq<T>)
    requires size < |values| && PartFrom(values[size..], size, from, c)
    ensures PartFrom(values, size, from + size, c)
  {
  }

  lemma {:induction false} PartShifts<T>(values: seq<T>, size: nat, i: nat, c: seq<T>)
    requires 0 < size < |values| && i > 0 && PartAt(values[size..], size, i - 1, c)
    ensures PartAt(values, size, i, c)
  {
    hide PartFrom;
    OneMore(i - 1, size);
    FromShifts(values, size, (i - 1) * size, c);
  }

  lemma {:induction false} FirstPart<T>(values: seq<T>, size: nat)
    requires size > 0 && values != []
    ensures PartAt(values, size, 0, values[..Min(size, |values|)])
  {
    assert 0 * size == 0;
  }

  lemma {:induction false} OneMore(n: nat, size: nat)
    ensures (n + 1) * size == n * size + size
  {
  }

  /** Chunk i holds the keys from i * size on, and together they reach the end. */
  lemma {:induction false} ChunksAt<T>(values: seq<T>, size: nat)
    requires size > 0
    ensures var r := Chunks(values, size);
      |values| <= |r| * size && forall i :: 0 <= i < |r| ==> PartAt(values, size, i, r[i])
  {
    hide PartAt;
    var r := Chunks(values, size);
    if |values| > size {
      var rest := values[size..];
      ChunksAt(rest, size);
      FirstPart(values, size);
      OneMore(|r| - 1, size);
      forall i | 0 < i < |r| ensures PartAt(values, size, i, r[i]) {
        PartShifts(values, size, i, r[i]);
      }
    } else if values != [] {
      FirstPart(values, size);
      assert values[..|values|] == values;
    }
  }

  /** Concatenating the chunks gives the key list back; no chunk is empty or too big. */
  lemma {:induction false} ChunksCover<T>(values: seq<T>, size: nat)
    requires size > 0
    ensures Flatten(Chunks(values, size)) == values
    ensures forall c :: c in Chunks(values, size) ==> 0 < |c| <= size
  {
    if |values| > size {
      ChunksCover(values[size..], size);
      assert values == values[..size] + values[size..];
    } else if values != [] {
      assert Flatten([values]) == values + Flatten([]) == values;
    }
  }
}
