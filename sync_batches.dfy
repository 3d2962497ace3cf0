/** The batching loop the company and rating services share:
    `for i in range(0, len(items), batch_size)` over `items[i:i + batch_size]`,
    one Airtable batch create per slice, created records paired with the
    slice by position, and a failing slice counted whole as failed. The
    Airtable call is an oracle: `create(batch)` is the list of created
    record ids, or `None` when the call raises. */
module SyncBatches {
  import opened Common

  /** The Postgres writes a sync issues, in order. */
  datatype DbWrite =
    | MarkRatingsSyncFailed(ids: seq<int>, message: string)
    | UpdateRatingsAirtableIds(pairs: seq<(int, string)>)
    | UpdateCompanyAirtableIds(mapping: map<string, string>)

  /** What a sync returns, the synced and failed counts, with the writes
      it issued. */
  datatype SyncOutcome = SyncOutcome(synced: nat, failed: nat, writes: seq<DbWrite>)

  type CreateCall<!T> = seq<T> -> Option<seq<string>>

  /** The slices `items[i:i + size]` for `i` in `range(0, len(items), size)`. */
  function Chunks<T>(items: seq<T>, size: nat): seq<seq<T>>
    requires size >= 1
    decreases |items|
  {
    if items == [] then []
    else if |items| <= size then [items]
    else [items[..size]] + Chunks(items[size..], size)
  }

  function Concat<T>(chunks: seq<seq<T>>): seq<T> {
    if chunks == [] then [] else chunks[0] + Concat(chunks[1..])
  }

  /** The slices cover the items once, in order. */
  lemma {:induction false} ChunksConcat<T>(items: seq<T>, size: nat)
    requires size >= 1
    ensures Concat(Chunks(items, size)) == items
    decreases |items|
  {
    if items != [] && |items| > size {
      ChunksConcat(items[size..], size);
      assert items[..size] + items[size..] == items;
    }
  }

  /** Each slice holds between one and `size` items. */
  lemma {:induction false} ChunksSized<T>(items: seq<T>, size: nat)
    requires size >= 1
    ensures forall c | c in Chunks(items, size) :: 1 <= |c| <= size
    decreases |items|
  {
    if items != [] && |items| > size {
      ChunksSized(items[size..], size);
    }
  }

  /** There are ceil(len / size) slices: enough to hold every item,
      and one fewer would not be. */
  lemma {:induction false} ChunksCount<T>(items: seq<T>, size: nat)
    requires size >= 1
    ensures items == [] <==> Chunks(items, size) == []
    ensures |Chunks(items, size)| * size >= |items|
    ensures items != [] ==> (|Chunks(items, size)| - 1) * size < |items|
    decreases |items|
  {
    if items != [] && |items| > size {
      var rest := items[size..];
      ChunksCount(rest, size);
      var k := |Chunks(rest, size)|;
      assert |Chunks(items, size)| == k + 1;
      assert (k + 1) * size == k * size + size;
    }
  }

  /** `items[i:]`, empty once `i` has run past the end. */
  function From<T>(items: seq<T>, i: nat): seq<T> {
    if i >= |items| then [] else items[i..]
  }

  /** The slices from `i` on are the slice at `i` and those after it. */
  lemma ChunksStep<T>(items: seq<T>, i: nat, size: nat)
    requires size >= 1 && i < |items|
    ensures Chunks(From(items, i), size) == [items[i..Min(i + size, |items|)]] + Chunks(From(items, i + size), size)
  {
    var batch := items[i..Min(i + size, |items|)];
    if |items| - i > size {
      assert items[i..][..size] == batch;
      assert items[i..][size..] == items[i + size..];
    } else {
      assert items[i..] == batch;
    }
  }

  // ---------------------------------------------------------------------
  // The tally

  /** `synced_count`, `failed_count`, the (item, record id) pairs and the
      items of failed slices, as the loop accumulates them. */
  datatype Tally<T> = Tally(synced: nat, failed: nat, pairs: seq<(T, string)>, failedItems: seq<T>)

  function NoTally<T>(): Tally<T> { Tally(0, 0, [], []) }

  /** `for j, record in enumerate(created): if j < len(batch)`: the j-th
      created record belongs to the j-th item of the slice. */
  function Paired<T>(batch: seq<T>, created: seq<string>): (r: seq<(T, string)>)
    ensures |r| == Min(|batch|, |created|)
    ensures forall j | 0 <= j < |r| :: r[j] == (batch[j], created[j])
  {
    if batch == [] || created == [] then []
    else [(batch[0], created[0])] + Paired(batch[1..], created[1..])
  }

  /** One slice: its created records are paired and counted, or, when the
      create call raises, the whole slice is counted as failed. */
  function Record<T>(acc: Tally<T>, batch: seq<T>, outcome: Option<seq<string>>): Tally<T> {
    if outcome.None? then acc.(failed := acc.failed + |batch|, failedItems := acc.failedItems + batch)
    else acc.(synced := acc.synced + Min(|batch|, |outcome.value|), pairs := acc.pairs + Paired(batch, outcome.value))
  }

  /** The loop over the slices from `acc` on. */
  function TallyFrom<T>(acc: Tally<T>, chunks: seq<seq<T>>, create: CreateCall<T>): Tally<T>
    decreases |chunks|
  {
    if chunks == [] then acc else TallyFrom(Record(acc, chunks[0], create(chunks[0])), chunks[1..], create)
  }

  function TallyOf<T>(items: seq<T>, size: nat, create: CreateCall<T>): Tally<T>
    requires size >= 1
  {
    TallyFrom(NoTally(), Chunks(items, size), create)
  }

  /** The batching loop. */
  method CreateInBatches<T>(items: seq<T>, size: nat, create: CreateCall<T>) returns (t: Tally<T>)
    requires size >= 1
    ensures t == TallyOf(items, size, create)
  {
    t := NoTally();
    var i := 0;
    while i < |items|
      invariant TallyFrom(t, Chunks(From(items, i), size), create) == TallyOf(items, size, create)
      decreases |items| - i
    {
      var batch := items[i..Min(i + size, |items|)];
      ChunksStep(items, i, size);
      t := Record(t, batch, create(batch));
      i := i + size;
    }
  }

  // ---------------------------------------------------------------------
  // What the tally promises

  /** `synced` counts the pairs and `failed` the failed items; together
      they never exceed the items handled. */
  lemma {:induction false} TallyCounts<T>(acc: Tally<T>, chunks: seq<seq<T>>, create: CreateCall<T>)
    requires acc.synced == |acc.pairs| && acc.failed == |acc.failedItems|
    ensures TallyFrom(acc, chunks, create).synced == |TallyFrom(acc, chunks, create).pairs|
    ensures TallyFrom(acc, chunks, create).failed == |TallyFrom(acc, chunks, create).failedItems|
    ensures TallyFrom(acc, chunks, create).synced + TallyFrom(acc, chunks, create).failed
      <= acc.synced + acc.failed + |Concat(chunks)|
    decreases |chunks|
  {
    if chunks != [] {
      TallyCounts(Record(acc, chunks[0], create(chunks[0])), chunks[1..], create);
    }
  }

  /** Every pair and every failed item comes from the slices, in the
      slices' order within each slice. */
  lemma {:induction false} TallyFromItems<T>(acc: Tally<T>, chunks: seq<seq<T>>, create: CreateCall<T>)
    ensures forall p | p in TallyFrom(acc, chunks, create).pairs :: p in acc.pairs || p.0 in Concat(chunks)
    ensures forall x | x in TallyFrom(acc, chunks, create).failedItems :: x in acc.failedItems || x in Concat(chunks)
    decreases |chunks|
  {
    if chunks != [] {
      var next := Record(acc, chunks[0], create(chunks[0]));
      TallyFromItems(next, chunks[1..], create);
      assert Concat(chunks) == chunks[0] + Concat(chunks[1..]);
      var o := create(chunks[0]);
      if o.Some? {
        forall p | p in next.pairs && p !in acc.pairs ensures p.0 in chunks[0] {
          var pr := Paired(chunks[0], o.value);
          assert p in pr;
          var j :| 0 <= j < |pr| && pr[j] == p;
        }
      }
    }
  }

  /** When every call raises, nothing is paired and every item is failed,
      in order. */
  lemma {:induction false} TallyAllFail<T>(acc: Tally<T>, chunks: seq<seq<T>>, create: CreateCall<T>)
    requires forall c | c in chunks :: create(c).None?
    ensures TallyFrom(acc, chunks, create).synced == acc.synced
    ensures TallyFrom(acc, chunks, create).pairs == acc.pairs
    ensures TallyFrom(acc, chunks, create).failedItems == acc.failedItems + Concat(chunks)
    ensures TallyFrom(acc, chunks, create).failed == acc.failed + |Concat(chunks)|
    decreases |chunks|
  {
    if chunks != [] {
      TallyAllFail(Record(acc, chunks[0], create(chunks[0])), chunks[1..], create);
      AppendAssoc(acc.failedItems, chunks[0], Concat(chunks[1..]));
    }
  }

  /** When every call creates a record per item, every item is paired,
      in order, and nothing fails. */
  lemma {:induction false} TallyAllCreated<T>(acc: Tally<T>, chunks: seq<seq<T>>, create: CreateCall<T>)
    requires forall c | c in chunks :: create(c).Some? && |create(c).value| >= |c|
    ensures TallyFrom(acc, chunks, create).synced == acc.synced + |Concat(chunks)|
    ensures TallyFrom(acc, chunks, create).failed == acc.failed
    ensures |TallyFrom(acc, chunks, create).pairs| == |acc.pairs| + |Concat(chunks)|
    ensures forall k | 0 <= k < |Concat(chunks)| :: TallyFrom(acc, chunks, create).pairs[|acc.pairs| + k].0 == Concat(chunks)[k]
    decreases |chunks|
  {
    if chunks != [] {
      var c := chunks[0];
      var next := Record(acc, c, create(c));
      TallyAllCreated(next, chunks[1..], create);
      var r := TallyFrom(next, chunks[1..], create);
      assert |next.pairs| == |acc.pairs| + |c|;
      TallyPairsGrow(next, chunks[1..], create);
      forall k | 0 <= k < |Concat(chunks)|
        ensures r.pairs[|acc.pairs| + k].0 == Concat(chunks)[k]
      {
        assert Concat(chunks) == c + Concat(chunks[1..]);
        if k < |c| {
          assert r.pairs[..|next.pairs|] == next.pairs;
          assert next.pairs[|acc.pairs| + k] == Paired(c, create(c).value)[k];
        } else {
          assert r.pairs[|acc.pairs| + k] == r.pairs[|next.pairs| + (k - |c|)];
        }
      }
    }
  }

  /** Later slices only append pairs. */
  lemma {:induction false} TallyPairsGrow<T>(acc: Tally<T>, chunks: seq<seq<T>>, create: CreateCall<T>)
    ensures |acc.pairs| <= |TallyFrom(acc, chunks, create).pairs|
    ensures TallyFrom(acc, chunks, create).pairs[..|acc.pairs|] == acc.pairs
    decreases |chunks|
  {
    if chunks != [] {
      var next := Record(acc, chunks[0], create(chunks[0]));
      TallyPairsGrow(next, chunks[1..], create);
      assert next.pairs[..|acc.pairs|] == acc.pairs;
    }
  }

  /** The tally of the whole list: empty input gives zeros, `synced` and
      `failed` count pairs and failed items and add up to at most the
      number of items. */
  lemma TallyOfCounts<T>(items: seq<T>, size: nat, create: CreateCall<T>)
    requires size >= 1
    ensures items == [] ==> TallyOf(items, size, create) == NoTally()
    ensures TallyOf(items, size, create).synced == |TallyOf(items, size, create).pairs|
    ensures TallyOf(items, size, create).failed == |TallyOf(items, size, create).failedItems|
    ensures TallyOf(items, size, create).synced + TallyOf(items, size, create).failed <= |items|
    ensures forall p | p in TallyOf(items, size, create).pairs :: p.0 in items
    ensures forall x | x in TallyOf(items, size, create).failedItems :: x in items
  {
    ChunksConcat(items, size);
    TallyCounts(NoTally(), Chunks(items, size), create);
    TallyFromItems(NoTally(), Chunks(items, size), create);
  }
}
