/** Splitting an inclusive date range into consecutive sub-ranges: the
    scraping orchestrator's `split_date_range` and the example script's
    15-day intervals. Dates are day numbers (see Dates). */
module DateChunks {
  import opened Common
  import opened Dates

  /** `MAX_DATE_CHUNK_DAYS` of the settings. */
  const MaxDateChunkDays := 30
  const IntervalDays := 15

  /** An inclusive range of day numbers. */
  datatype Chunk = Chunk(first: int, last: int)

  /** `min(current_start + timedelta(days=chunk_days - 1), end)`. */
  function ChunkEnd(cur: int, end: int, chunkDays: int): int {
    Min(cur + chunkDays - 1, end)
  }

  /** `current_end + timedelta(days=1)`: where the loop's next chunk starts. */
  function NextStart(cur: int, end: int, chunkDays: int): int {
    ChunkEnd(cur, end, chunkDays) + 1
  }

  /** The chunks the loop appends, from `start` on. */
  function Chunks(start: int, end: int, chunkDays: int): seq<Chunk>
    requires chunkDays >= 1
    decreases end - start
  {
    if start > end then []
    else [Chunk(start, ChunkEnd(start, end, chunkDays))] + Chunks(NextStart(start, end, chunkDays), end, chunkDays)
  }

  /** `cs` covers `start..end` exactly, in order, without gaps or overlaps,
      each chunk non-empty and at most `width` days long. */
  predicate Tiles(cs: seq<Chunk>, start: int, end: int, width: int) {
    |cs| >= 1 && cs[0].first == start && cs[|cs| - 1].last == end
    && (forall i | 0 <= i < |cs| :: cs[i].first <= cs[i].last && cs[i].last - cs[i].first + 1 <= width)
    && (forall i | 0 <= i < |cs| - 1 :: cs[i + 1].first == cs[i].last + 1)
  }

  lemma {:induction false} ChunksTile(start: int, end: int, chunkDays: int)
    requires chunkDays >= 1 && start <= end
    ensures Tiles(Chunks(start, end, chunkDays), start, end, chunkDays)
    decreases end - start
  {
    var next := NextStart(start, end, chunkDays);
    if next <= end {
      ChunksTile(next, end, chunkDays);
    }
  }

  /** There are ceil((end - start + 1) / chunk_days) chunks: the smallest n
      with n * chunk_days >= end - start + 1. */
  lemma {:induction false} ChunksCount(start: int, end: int, chunkDays: int)
    requires chunkDays >= 1 && start <= end
    ensures var n := |Chunks(start, end, chunkDays)|;
      (n - 1) * chunkDays < end - start + 1 <= n * chunkDays
    decreases end - start
  {
    var next := NextStart(start, end, chunkDays);
    if next <= end {
      ChunksCount(next, end, chunkDays);
      var n := |Chunks(start, end, chunkDays)|;
      assert n == |Chunks(next, end, chunkDays)| + 1;
      assert (n - 1) * chunkDays == (n - 2) * chunkDays + chunkDays;
      assert n * chunkDays == (n - 1) * chunkDays + chunkDays;
    }
  }

  /** With `chunk_days` of zero or less, one turn of the loop moves
      `current_start` by `chunk_days`: with zero it stays put, so the loop
      never ends; with a negative size it walks backwards, which Python
      ends only when the date falls below year 1 and `datetime` raises
      `OverflowError` (day numbers here have no such floor). */
  lemma NonPositiveChunkStalls(cur: int, end: int, chunkDays: int)
    requires cur <= end && chunkDays <= 0
    ensures NextStart(cur, end, chunkDays) == cur + chunkDays
    ensures chunkDays == 0 ==> NextStart(cur, end, chunkDays) == cur
    ensures chunkDays < 0 ==> NextStart(cur, end, chunkDays) < cur
  {
  }

  datatype SplitError = BadDate(cause: DateError) | NonPositiveChunk

  /** `split_date_range`, with a non-positive chunk size rejected instead of
      looping forever. */
  method SplitDateRange(startDate: string, endDate: string, chunkDays: int) returns (r: Result<seq<Chunk>, SplitError>)
    ensures ParseIsoDate(startDate).Err? ==> r == Err(BadDate(ParseIsoDate(startDate).error))
    ensures ParseIsoDate(startDate).Ok? && ParseIsoDate(endDate).Err? ==> r == Err(BadDate(ParseIsoDate(endDate).error))
    ensures ParseIsoDate(startDate).Ok? && ParseIsoDate(endDate).Ok? ==>
      r == if chunkDays < 1 then Err(NonPositiveChunk)
           else Ok(Chunks(ParseIsoDate(startDate).value, ParseIsoDate(endDate).value, chunkDays))
  {
    var ps := ParseIsoDate(startDate);
    if ps.Err? { return Err(BadDate(ps.error)); }
    var pe := ParseIsoDate(endDate);
    if pe.Err? { return Err(BadDate(pe.error)); }
    if chunkDays < 1 { return Err(NonPositiveChunk); }
    var chunks := ChunkLoop(ps.value, pe.value, chunkDays);
    return Ok(chunks);
  }

  /** The `while current_start <= end` loop both splitters share. */
  method ChunkLoop(start: int, end: int, chunkDays: int) returns (chunks: seq<Chunk>)
    requires chunkDays >= 1
    ensures chunks == Chunks(start, end, chunkDays)
  {
    chunks := [];
    var cur := start;
    while cur <= end
      invariant chunks + Chunks(cur, end, chunkDays) == Chunks(start, end, chunkDays)
      decreases end - cur
    {
      var currentEnd := ChunkEnd(cur, end, chunkDays);
      assert Chunks(cur, end, chunkDays) == [Chunk(cur, currentEnd)] + Chunks(currentEnd + 1, end, chunkDays);
      chunks := chunks + [Chunk(cur, currentEnd)];
      cur := currentEnd + 1;
    }
    assert Chunks(cur, end, chunkDays) == [];
    assert chunks + [] == chunks;
  }

  /** The orchestrator's plan: one scrape over the whole range unless it
      spans more than `MAX_DATE_CHUNK_DAYS` days, then the chunks. */
  function ScrapePlan(start: int, end: int): seq<Chunk> {
    if end - start > MaxDateChunkDays then Chunks(start, end, MaxDateChunkDays) else [Chunk(start, end)]
  }

  /** Either way the plan covers the range exactly; no scrape is longer than
      `MAX_DATE_CHUNK_DAYS + 1` days, and a split plan has several chunks. */
  lemma ScrapePlanTiles(start: int, end: int)
    requires start <= end
    ensures Tiles(ScrapePlan(start, end), start, end, MaxDateChunkDays + 1)
    ensures end - start > MaxDateChunkDays <==> |ScrapePlan(start, end)| >= 2
  {
    if end - start > MaxDateChunkDays {
      ChunksTile(start, end, MaxDateChunkDays);
      ChunksCount(start, end, MaxDateChunkDays);
    }
  }

  datatype IntervalError =
    | InvalidFormat(cause: DateError)   // "Invalid date format. Expected YYYY-MM-DD format. Error: ..."
    | DateValueError(cause: DateError)  // the parser's ValueError, re-raised unchanged
    | StartAfterEnd

  /** The example script wraps only the parser's "time data ..." error. */
  function WrapDateError(e: DateError): IntervalError {
    if e == FormatMismatch then InvalidFormat(e) else DateValueError(e)
  }

  /** `generate_15_day_intervals`. */
  method FifteenDayIntervals(startDate: string, endDate: string) returns (r: Result<seq<Chunk>, IntervalError>)
    ensures ParseIsoDate(startDate).Err? ==> r == Err(WrapDateError(ParseIsoDate(startDate).error))
    ensures ParseIsoDate(startDate).Ok? && ParseIsoDate(endDate).Err? ==> r == Err(WrapDateError(ParseIsoDate(endDate).error))
    ensures ParseIsoDate(startDate).Ok? && ParseIsoDate(endDate).Ok? ==>
      var start, end := ParseIsoDate(startDate).value, ParseIsoDate(endDate).value;
      r == if start > end then Err(StartAfterEnd) else Ok(Chunks(start, end, IntervalDays))
  {
    var ps := ParseIsoDate(startDate);
    if ps.Err? { return Err(WrapDateError(ps.error)); }
    var pe := ParseIsoDate(endDate);
    if pe.Err? { return Err(WrapDateError(pe.error)); }
    var start, end := ps.value, pe.value;
    if start > end { return Err(StartAfterEnd); }
    var intervals := ChunkLoop(start, end, IntervalDays);
    return Ok(intervals);
  }

  /** A range of at most 15 days is one interval equal to the range. */
  lemma {:induction false} ShortRangeOneInterval(start: int, end: int)
    requires start <= end && end - start < IntervalDays
    ensures Chunks(start, end, IntervalDays) == [Chunk(start, end)]
  {
    assert Chunks(end + 1, end, IntervalDays) == [];
  }
}
