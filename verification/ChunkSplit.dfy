/** The prefill chunk splitter: where a prefill chunk is allowed to end.

    Positions are token counts.  A chunk starts at `start` and is offered `offer`
    tokens; the splitter shortens the offer so that recurrent state is materialized
    exactly at the positions the prefix cache publishes.  Divisors are positive, so
    Dafny's division and Python's floor division agree, for negative operands too.
 */
module ChunkSplit {

  /** The scheduler's static split configuration. */
  datatype Rules = Rules(
    blockSize: int,            // cache_config.block_size
    hashBlockSize: int,        // hash_block_size
    retention: int,            // prefix_cache_retention_interval; 0 or less: not set
    maxScheduledTokens: int,   // max_num_scheduled_tokens
    threshold: int,            // long_prefill_token_threshold; 0 or less: not set
    dropLastBlock: bool,       // drop_last_prefix_cache_block
    checkpointBlocks: bool,    // mamba_has_prefill_checkpoint_blocks
    useEagle: bool,            // use_eagle
    partialHits: bool,         // mamba_partial_cache_hit
    lookahead: int)            // num_prefill_lookahead
  {
    predicate Valid() {
      blockSize > 0 && hashBlockSize > 0
    }

    /** The largest chunk a prefill may be given. */
    function PrefillLimit(): int {
      if threshold > 0 then Min(maxScheduledTokens, threshold) else maxScheduledTokens
    }
  }

  /** The part of a request the splitter reads; it is fixed during one prefill. */
  datatype Prefill = Prefill(promptTokens: int, tokens: int, sharedBoundary: int)
  {
    /** A resumed request replays its output tokens too, all but the newest. */
    function End(): int {
      Max(promptTokens, tokens - 1)
    }
  }

  function Min(a: int, b: int): int {
    if a <= b then a else b
  }

  function Max(a: int, b: int): int {
    if a <= b then b else a
  }

  function Floor(x: int, unit: int): int
    requires unit > 0
  {
    x / unit * unit
  }

  function UsesCheckpoint(c: Rules, start: int): bool
    requires c.Valid()
  {
    c.checkpointBlocks && start % c.blockSize == 0
  }

  /** The last block boundary whose state can be cached, 0 when checkpoints make it moot. */
  function LastCachePosition(c: Rules, p: Prefill, start: int): int
    requires c.Valid()
  {
    if UsesCheckpoint(c, start) then 0
    else
      var last := p.tokens - p.tokens % c.blockSize;
      if c.dropLastBlock then Max(last - c.blockSize, 0) else last
  }

  /** Whether the chunk's end must be rounded down to a block boundary. */
  predicate MustAlign(c: Rules, p: Prefill, start: int, offer: int)
    requires c.Valid()
  {
    && start + offer < p.End()
    && !(UsesCheckpoint(c, start) && start + offer >= p.promptTokens)
    && (!UsesCheckpoint(c, start) || c.useEagle)
  }

  /** The chunk's end after alignment, before the mandatory stops. */
  function AlignedEnd(c: Rules, p: Prefill, start: int, offer: int): int
    requires c.Valid()
  {
    var end := start + offer;
    var floored := Floor(end, c.blockSize);
    if MustAlign(c, p, start, offer) && (floored > start || c.blockSize <= c.PrefillLimit())
    then floored
    else end
  }

  function NextBoundary(start: int, unit: int): int
    requires unit > 0
  {
    (start / unit + 1) * unit
  }

  function TailBoundary(c: Rules, p: Prefill): int
    requires c.Valid()
  {
    if c.partialHits then Floor(p.promptTokens, c.hashBlockSize) else 0
  }

  /** The candidate stops, in the order the scheduler lists them; 0 means "none". */
  function Stops(c: Rules, p: Prefill, start: int, end: int): seq<int>
    requires c.Valid()
  {
    var last := LastCachePosition(c, p, start);
    var tail := TailBoundary(c, p);
    [ if start % c.blockSize != 0 then NextBoundary(start, c.blockSize) else 0,
      if c.retention > 0 then NextBoundary(start, c.retention) else 0,
      last,
      if last < tail < p.promptTokens then tail else 0,
      if start < p.sharedBoundary < end
      then start + Floor(p.sharedBoundary - start, c.blockSize) else 0 ]
  }

  /** The least element of `stops` strictly between `start` and `end`, or `end`. */
  function EarliestStop(stops: seq<int>, start: int, end: int): (r: int)
    ensures r <= end
    ensures r == end || (r in stops && start < r)
    ensures forall s :: s in stops && start < s < end ==> r <= s
  {
    if stops == [] then end
    else
      assert forall s :: s in stops ==> s == stops[0] || s in stops[1..];
      var rest := EarliestStop(stops[1..], start, end);
      if start < stops[0] < rest then stops[0] else rest
  }

  function Split(c: Rules, p: Prefill, start: int, offer: int): int
    requires c.Valid()
  {
    if start >= p.End() then offer
    else
      var end := AlignedEnd(c, p, start, offer);
      Max(EarliestStop(Stops(c, p, start, end), start, end) - start, 0)
  }

  /** Shortens a chunk that would end within `lookahead` of the request's last token. */
  function Reserve(c: Rules, tokens: int, computed: int, chunk: int): int {
    var remaining := tokens - computed - chunk;
    Max(if 0 < remaining < c.lookahead then chunk - (c.lookahead - remaining) else chunk, 0)
  }

  /** The splitter as the scheduler runs it: `end` is reassigned step by step. */
  method MambaBlockAlignedSplit(c: Rules, p: Prefill, start: int, numNewTokens: int) returns (r: int)
    requires c.Valid()
    ensures r == Split(c, p, start, numNewTokens)
  {
    if start >= Max(p.promptTokens, p.tokens - 1) {
      return numNewTokens;
    }
    var end := AlignChunkEnd(c, p, start, numNewTokens);
    var stops := MandatoryStops(c, p, start, end);
    end := PickEarliestStop(stops, start, end);
    r := Max(end - start, 0);
  }

  method AlignChunkEnd(c: Rules, p: Prefill, start: int, numNewTokens: int) returns (end: int)
    requires c.Valid()
    ensures end == AlignedEnd(c, p, start, numNewTokens)
  {
    end := start + numNewTokens;
    var useInternalCheckpoint := c.checkpointBlocks && start % c.blockSize == 0;
    var coversPromptTail := useInternalCheckpoint && end >= p.promptTokens;
    if end < p.End() && !coversPromptTail && (!useInternalCheckpoint || c.useEagle) {
      var maxPrefillTokens := c.maxScheduledTokens;
      if c.threshold > 0 {
        maxPrefillTokens := Min(maxPrefillTokens, c.threshold);
      }
      var alignedEnd := Floor(end, c.blockSize);
      if alignedEnd > start || c.blockSize <= maxPrefillTokens {
        end := alignedEnd;
      }
    }
  }

  method MandatoryStops(c: Rules, p: Prefill, start: int, end: int) returns (stops: seq<int>)
    requires c.Valid()
    ensures stops == Stops(c, p, start, end)
  {
    var lastCachePosition := p.tokens - p.tokens % c.blockSize;
    if c.dropLastBlock {
      lastCachePosition := Max(lastCachePosition - c.blockSize, 0);
    }
    if UsesCheckpoint(c, start) {
      lastCachePosition := 0;
    }
    var nextBlock := if start % c.blockSize != 0 then NextBoundary(start, c.blockSize) else 0;
    var nextRetention := if c.retention > 0 then NextBoundary(start, c.retention) else 0;
    var tail := TailBoundary(c, p);
    var shared := if start < p.sharedBoundary < end
    then start + Floor(p.sharedBoundary - start, c.blockSize) else 0;
    stops := [nextBlock, nextRetention, lastCachePosition,
              if lastCachePosition < tail < p.promptTokens then tail else 0, shared];
  }

  method PickEarliestStop(stops: seq<int>, start: int, end: int) returns (r: int)
    ensures r == EarliestStop(stops, start, end)
  {
    r := end;
    var i := |stops|;
    while i > 0
      invariant 0 <= i <= |stops|
      invariant r == EarliestStop(stops[i..], start, end)
    {
      i := i - 1;
      assert stops[i..][1..] == stops[i + 1..];
      if start < stops[i] < r {
        r := stops[i];
      }
    }
    assert stops[0..] == stops;
  }

  method ReservePrefillLookahead(c: Rules, tokens: int, computed: int, numNewTokens: int) returns (r: int)
    ensures r == Reserve(c, tokens, computed, numNewTokens)
  {
    r := numNewTokens;
    var remaining := tokens - computed - r;
    if 0 < remaining < c.lookahead {
      r := r - (c.lookahead - remaining);
    }
    r := Max(r, 0);
  }

  // ---------------------------------------------------------------- arithmetic

  lemma FloorBounds(x: int, unit: int)
    requires unit > 0
    ensures Floor(x, unit) <= x < Floor(x, unit) + unit
    ensures Floor(x, unit) % unit == 0
  {
    assert x == x / unit * unit + x % unit;
    MultipleMod(x / unit, unit);
  }

  /** A nonzero multiple of `unit` is at least `unit` away from zero. */
  lemma MultipleFar(d: int, unit: int)
    requires unit > 0
    ensures d >= 1 ==> d * unit >= unit
    ensures d <= -1 ==> d * unit <= -unit
  {
  }

  lemma MultipleMod(k: int, unit: int)
    requires unit > 0
    ensures k * unit % unit == 0
  {
    var q, m := k * unit / unit, k * unit % unit;
    assert (k - q) * unit == m;
    MultipleFar(k - q, unit);
  }

  lemma MultipleIs(b: int, unit: int)
    requires unit > 0 && b % unit == 0
    ensures b == b / unit * unit
  {
  }

  /** Distinct multiples are at least `unit` apart. */
  lemma MultipleGap(x: int, y: int, unit: int)
    requires unit > 0 && x % unit == 0 && y % unit == 0 && x < y + unit
    ensures x <= y
  {
    MultipleIs(x, unit);
    MultipleIs(y, unit);
    var d := x / unit - y / unit;
    assert d * unit == x - y;
    MultipleFar(d, unit);
  }

  /** No multiple of `unit` lies strictly between `start` and its next boundary. */
  lemma NextBoundaryIsNext(start: int, unit: int, b: int)
    requires unit > 0
    ensures start < NextBoundary(start, unit) <= start + unit
    ensures NextBoundary(start, unit) % unit == 0
    ensures start < b && b % unit == 0 ==> NextBoundary(start, unit) <= b
  {
    FloorBounds(start, unit);
    var q := start / unit;
    MultipleMod(q + 1, unit);
    assert NextBoundary(start, unit) == Floor(start, unit) + unit;
    if start < b && b % unit == 0 {
      MultipleIs(b, unit);
      var d := b / unit - (q + 1);
      assert d * unit == b - NextBoundary(start, unit);
      MultipleFar(d, unit);
    }
  }

  lemma SumOfMultiples(a: int, b: int, unit: int)
    requires unit > 0 && a % unit == 0 && b % unit == 0
    ensures (a + b) % unit == 0
    ensures (a - b) % unit == 0
  {
    var j, k := a / unit, b / unit;
    assert a == j * unit && b == k * unit;
    assert a + b == (j + k) * unit && a - b == (j - k) * unit;
    MultipleMod(j + k, unit);
    MultipleMod(j - k, unit);
  }
}
