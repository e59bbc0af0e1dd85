/** Splitting a batch into chunks under the file-count and byte limits (chunk_projection_files). */
module ProjectionChunks {
  import opened Wrappers
  import opened Sequences
  import opened CentralProjection

  type Chunk = seq<ProjectionFile>

  datatype Limits = Limits(maxFiles: int, maxTotal: int)

  const DEFAULT_LIMITS := Limits(500, 5 * 1024 * 1024)

  function Bytes(files: Chunk): nat {
    if files == [] then 0 else Bytes(files[..|files| - 1]) + files[|files| - 1].blob.size
  }

  function Concat(chunks: seq<Chunk>): Chunk {
    if chunks == [] then [] else chunks[0] + Concat(chunks[1..])
  }

  predicate Within(chunk: Chunk, limits: Limits) {
    |chunk| <= limits.maxFiles && Bytes(chunk) <= limits.maxTotal
  }

  // A contiguous partition of the files within the limits. Empty chunks are not ruled out.
  ghost predicate Partition(chunks: seq<Chunk>, files: Chunk, limits: Limits) {
    && Concat(chunks) == files
    && forall c :: c in chunks ==> Within(c, limits)
  }

  // Chunk i could not have taken the first file of the next chunk.
  predicate Full(chunks: seq<Chunk>, i: nat, limits: Limits)
    requires i + 1 < |chunks|
  {
    chunks[i + 1] != [] && !Within(chunks[i] + [chunks[i + 1][0]], limits)
  }

  ghost predicate Greedy(chunks: seq<Chunk>, limits: Limits) {
    && (forall i :: 0 <= i < |chunks| ==> chunks[i] != [] && Within(chunks[i], limits))
    && (forall i: nat :: i + 1 < |chunks| ==> Full(chunks, i, limits))
  }

  lemma {:induction false} ConcatAppend(chunks: seq<Chunk>, c: Chunk)
    ensures Concat(chunks + [c]) == Concat(chunks) + c
  {
    if chunks == [] {
      assert Concat([c]) == c + Concat([]);
    } else {
      ConcatAppend(chunks[1..], c);
      assert (chunks + [c])[1..] == chunks[1..] + [c];
    }
  }

  lemma {:induction false} BytesConcat(a: Chunk, b: Chunk)
    ensures Bytes(a + b) == Bytes(a) + Bytes(b)
  {
    if b == [] {
      assert a + b == a;
    } else {
      BytesConcat(a, b[..|b| - 1]);
      assert (a + b)[..|a + b| - 1] == a + b[..|b| - 1];
    }
  }

  lemma WithinSlice(a: Chunk, b: Chunk, c: Chunk, limits: Limits)
    requires Within(a + b + c, limits)
    ensures Within(b, limits)
  {
    BytesConcat(a + b, c);
    BytesConcat(a, b);
  }

  lemma GreedyTail(chunks: seq<Chunk>, limits: Limits)
    requires Greedy(chunks, limits) && chunks != []
    ensures Greedy(chunks[1..], limits)
  {
    var tail := chunks[1..];
    forall i: nat | i + 1 < |tail| ensures Full(tail, i, limits) {
      assert Full(chunks, i + 1, limits);
    }
  }

  // A chunk within the limits that starts no later than the first greedy chunk also ends no later.
  lemma GreedyReaches(chunks: seq<Chunk>, o: Chunk, extra: Chunk, rest: Chunk, limits: Limits)
    requires Greedy(chunks, limits) && chunks != []
    requires Within(o, limits)
    requires extra + Concat(chunks) == o + rest
    ensures |o| <= |extra| + |chunks[0]|
  {
    if |chunks| == 1 {
      assert Concat(chunks[1..]) == [];
    } else if |extra| + |chunks[0]| < |o| {
      assert Full(chunks, 0, limits);
      var first := chunks[0] + [chunks[1][0]];
      var tail := FirstAndNext(chunks, extra);
      SplitTwice(extra + first, tail, o, rest);
      WithinSlice(extra, first, o[|extra + first|..], limits);
    }
  }

  lemma FirstAndNext(chunks: seq<Chunk>, extra: Chunk) returns (tail: Chunk)
    requires |chunks| > 1 && chunks[1] != []
    ensures extra + Concat(chunks) == (extra + (chunks[0] + [chunks[1][0]])) + tail
  {
    var next, after := chunks[1], Concat(chunks[1..][1..]);
    tail := next[1..] + after;
    assert Concat(chunks[1..]) == next + after;
    assert next == [next[0]] + next[1..];
  }

  // No partition within the limits has fewer chunks than the greedy one, not even a partition that
  // also has to cover some extra files before those the greedy chunks start with.
  lemma {:induction false} GreedyStaysAhead(chunks: seq<Chunk>, other: seq<Chunk>, extra: Chunk, limits: Limits)
    requires Greedy(chunks, limits)
    requires Partition(other, extra + Concat(chunks), limits)
    ensures |chunks| <= |other|
    decreases |other|
  {
    if chunks != [] {
      assert (extra + Concat(chunks))[|extra|] == chunks[0][0];
      var o, rest := other[0], Concat(other[1..]);
      assert extra + Concat(chunks) == o + rest;
      if |o| <= |extra| {
        SplitTwice(o, rest, extra, Concat(chunks));
        GreedyStaysAhead(chunks, other[1..], extra[|o|..], limits);
      } else {
        GreedyReaches(chunks, o, extra, rest, limits);
        assert extra + Concat(chunks) == (extra + chunks[0]) + Concat(chunks[1..]);
        SplitTwice(o, rest, extra + chunks[0], Concat(chunks[1..]));
        GreedyTail(chunks, limits);
        GreedyStaysAhead(chunks[1..], other[1..], (extra + chunks[0])[|o|..], limits);
      }
    }
  }

  lemma GreedyMinimal(chunks: seq<Chunk>, limits: Limits)
    requires Greedy(chunks, limits)
    ensures forall other :: Partition(other, Concat(chunks), limits) ==> |chunks| <= |other|
  {
    forall other | Partition(other, Concat(chunks), limits) ensures |chunks| <= |other| {
      assert [] + Concat(chunks) == Concat(chunks);
      GreedyStaysAhead(chunks, other, [], limits);
    }
  }

  lemma GreedyClose(chunks: seq<Chunk>, current: Chunk, item: ProjectionFile, limits: Limits)
    requires Greedy(chunks + [current], limits)
    requires !Within(current + [item], limits) && Within([item], limits)
    ensures Greedy(chunks + [current] + [[item]], limits)
  {
    var more := chunks + [current] + [[item]];
    forall i: nat | i + 1 < |more| ensures Full(more, i, limits) {
      if i + 2 < |more| { assert Full(chunks + [current], i, limits); }
    }
  }

  lemma GreedyExtend(chunks: seq<Chunk>, current: Chunk, item: ProjectionFile, limits: Limits)
    requires Greedy(chunks + [current], limits)
    requires Within(current + [item], limits)
    ensures Greedy(chunks + [current + [item]], limits)
  {
    var more := chunks + [current + [item]];
    forall i | 0 <= i < |more| ensures more[i] != [] && Within(more[i], limits) {
      assert i < |chunks| ==> more[i] == (chunks + [current])[i];
    }
    forall i: nat | i + 1 < |more| ensures Full(more, i, limits) {
      assert Full(chunks + [current], i, limits);
    }
  }

  lemma GreedyOne(chunk: Chunk, limits: Limits)
    requires chunk != [] && Within(chunk, limits)
    ensures Greedy([] + [chunk], limits)
  {
  }

  lemma GreedyChunks(chunks: seq<Chunk>, limits: Limits)
    requires Greedy(chunks, limits)
    ensures forall c :: c in chunks ==> c != [] && Within(c, limits)
  {
  }

  // One round: the file closes the current chunk if it no longer fits, and joins the one that is open then.
  method TakeFile(closed: seq<Chunk>, open: Chunk, openBytes: int, item: ProjectionFile, limits: Limits)
    returns (chunks: seq<Chunk>, current: Chunk, currentBytes: int)
    requires openBytes == Bytes(open) && Within([item], limits)
    requires if open == [] then closed == [] else Greedy(closed + [open], limits)
    ensures Concat(chunks) + current == Concat(closed) + open + [item]
    ensures currentBytes == Bytes(current) && current != [] && Greedy(chunks + [current], limits)
  {
    chunks, current, currentBytes := closed, open, openBytes;
    var size := item.blob.size;
    BytesConcat(open, [item]);
    BytesConcat([], [item]);
    assert [] + [item] == [item];
    hide Greedy;
    if current != [] && (|current| >= limits.maxFiles || currentBytes + size > limits.maxTotal) {
      ConcatAppend(closed, open);
      GreedyClose(closed, open, item, limits);
      chunks := chunks + [current];
      current := [];
      currentBytes := 0;
    } else if current != [] {
      GreedyExtend(closed, open, item, limits);
    } else {
      GreedyOne([item], limits);
    }
    current := current + [item];
    currentBytes := currentBytes + size;
  }

  method ChunkProjectionFiles(files: Chunk, limits: Limits) returns (r: Result<seq<Chunk>, ProjectionError>)
    ensures r.Ok? <==> limits.maxFiles > 0 && limits.maxTotal > 0 && forall f :: f in files ==> f.blob.size <= limits.maxTotal
    ensures r.Ok? ==> Partition(r.value, files, limits) && forall c :: c in r.value ==> c != []
    ensures r.Ok? ==> forall other :: Partition(other, files, limits) ==> |r.value| <= |other|
  {
    hide Greedy;
    if limits.maxFiles <= 0 || limits.maxTotal <= 0 { return Err(InvalidLimit); }
    if files == [] { return Ok([]); }
    var chunks: seq<Chunk> := [];
    var current: Chunk := [];
    var currentBytes := 0;
    for i := 0 to |files|
      invariant Concat(chunks) + current == files[..i]
      invariant currentBytes == Bytes(current)
      invariant if current == [] then chunks == [] && i == 0 else Greedy(chunks + [current], limits)
      invariant forall k :: 0 <= k < i ==> files[k].blob.size <= limits.maxTotal
    {
      var item := files[i];
      if item.blob.size > limits.maxTotal { return Err(FileExceedsBatchLimit(item.path)); }
      SingleFile(item);
      chunks, current, currentBytes := TakeFile(chunks, current, currentBytes, item, limits);
    }
    ConcatAppend(chunks, current);
    chunks := chunks + [current];
    assert files[..|files|] == files;
    GreedyChunks(chunks, limits);
    GreedyMinimal(chunks, limits);
    return Ok(chunks);
  }

  lemma SingleFile(item: ProjectionFile)
    ensures Bytes([item]) == item.blob.size
  {
    BytesConcat([], [item]);
    assert [] + [item] == [item];
  }
}
