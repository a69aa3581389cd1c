/** What the chunk splitter guarantees: each chunk, whole prefills, and progress. */
module ChunkLaws {
  import opened ChunkSplit

  // ------------------------------------------------------------- one chunk

  /** A position at which a chunk starting at `start` and allowed to reach `end` has to
      stop, said without reference to how the splitter finds it. */
  ghost predicate Mandatory(c: Rules, p: Prefill, start: int, end: int, x: int)
    requires c.Valid()
  {
    || (c.retention > 0 && x % c.retention == 0)
    || (start % c.blockSize != 0 && x % c.blockSize == 0)
    || x == LastCachePosition(c, p, start)
    || (c.partialHits && x == TailBoundary(c, p) && LastCachePosition(c, p, start) < x < p.promptTokens)
    || (start % c.blockSize == 0 && start < p.sharedBoundary < end
        && x == Floor(p.sharedBoundary, c.blockSize))
  }

  /** Floors taken relative to a block boundary are floors. */
  lemma RelativeFloor(start: int, x: int, unit: int)
    requires unit > 0 && start % unit == 0
    ensures start + Floor(x - start, unit) == Floor(x, unit)
  {
    FloorBounds(x, unit);
    FloorBounds(x - start, unit);
    SumOfMultiples(start, Floor(x - start, unit), unit);
    var d := Floor(x, unit) - (start + Floor(x - start, unit));
    SumOfMultiples(Floor(x, unit), start + Floor(x - start, unit), unit);
    MultipleIs(d, unit);
    MultipleFar(d / unit, unit);
  }

  /** The shared-prefix stop of a misaligned start lies behind the next block boundary, which
      is a stop as well: it never decides where a chunk ends. */
  lemma SharedStopOvertaken(c: Rules, start: int, boundary: int)
    requires c.Valid() && start % c.blockSize != 0
    ensures var stop := start + Floor(boundary - start, c.blockSize);
            stop > start ==> NextBoundary(start, c.blockSize) < stop
  {
    var d := Floor(boundary - start, c.blockSize);
    FloorBounds(boundary - start, c.blockSize);
    if d > 0 {
      MultipleIs(d, c.blockSize);
      MultipleFar(d / c.blockSize, c.blockSize);
      NextBoundaryIsNext(start, c.blockSize, start);
      if NextBoundary(start, c.blockSize) == start + c.blockSize {
        SumOfMultiples(NextBoundary(start, c.blockSize), c.blockSize, c.blockSize);
      }
    }
  }

  /** A listed stop inside the chunk is mandatory, unless it is the shared-prefix stop of a
      misaligned start. */
  lemma ListedStopIsMandatory(c: Rules, p: Prefill, start: int, end: int, k: int)
    requires c.Valid() && 0 <= k < 5
    requires start < Stops(c, p, start, end)[k] < end
    requires k == 0 ==> start % c.blockSize != 0
    requires k == 1 ==> c.retention > 0
    requires k == 3 ==> Stops(c, p, start, end)[3] != 0
    requires k == 4 ==> start % c.blockSize == 0 && Stops(c, p, start, end)[4] != 0
    ensures Mandatory(c, p, start, end, Stops(c, p, start, end)[k])
  {
    match k
    case 0 => NextBoundaryIsNext(start, c.blockSize, start);
    case 1 => NextBoundaryIsNext(start, c.retention, start);
    case 4 => RelativeFloor(start, p.sharedBoundary, c.blockSize);
    case _ =>
  }

  /** Every stop in the scheduler's list that can decide the end is mandatory. */
  lemma ListedStopsAreMandatory(c: Rules, p: Prefill, start: int, end: int)
    requires c.Valid() && start >= 0
    ensures var e := EarliestStop(Stops(c, p, start, end), start, end);
            start < e < end ==> Mandatory(c, p, start, end, e)
  {
    var stops := Stops(c, p, start, end);
    var e := EarliestStop(stops, start, end);
    if start < e < end {
      var k :| 0 <= k < 5 && stops[k] == e;
      if k == 4 && start % c.blockSize != 0 {
        SharedStopOvertaken(c, start, p.sharedBoundary);
        assert stops[0] in stops;
        NextBoundaryIsNext(start, c.blockSize, start);
        assert false;
      } else {
        ListedStopIsMandatory(c, p, start, end, k);
      }
    }
  }

  /** No mandatory position is passed on the way to the earliest listed stop. */
  lemma NoMandatoryPassed(c: Rules, p: Prefill, start: int, end: int, x: int)
    requires c.Valid()
    requires start < x < EarliestStop(Stops(c, p, start, end), start, end)
    ensures !Mandatory(c, p, start, end, x)
  {
    var stops := Stops(c, p, start, end);
    assert stops[0] in stops && stops[1] in stops && stops[2] in stops && stops[3] in stops && stops[4] in stops;
    NextBoundaryIsNext(start, c.blockSize, x);
    if c.retention > 0 {
      NextBoundaryIsNext(start, c.retention, x);
    }
    if start % c.blockSize == 0 {
      RelativeFloor(start, p.sharedBoundary, c.blockSize);
    }
  }

  /** The splitter's meaning: inside a prefill a chunk ends at the first mandatory position
      after its start, or at its aligned end when none comes before that. */
  lemma SplitMeaning(c: Rules, p: Prefill, start: int, offer: int)
    requires c.Valid() && 0 <= start < p.End()
    ensures var end := AlignedEnd(c, p, start, offer);
            var e := start + Split(c, p, start, offer);
            if end <= start then e == start
            else && start < e <= end
                 && (e < end ==> Mandatory(c, p, start, end, e))
                 && forall x :: start < x < e ==> !Mandatory(c, p, start, end, x)
  {
    var end := AlignedEnd(c, p, start, offer);
    ListedStopsAreMandatory(c, p, start, end);
    forall x | start < x < EarliestStop(Stops(c, p, start, end), start, end)
      ensures !Mandatory(c, p, start, end, x)
    {
      NoMandatoryPassed(c, p, start, end, x);
    }
  }

  lemma AlignedEndBounds(c: Rules, p: Prefill, start: int, offer: int)
    requires c.Valid()
    ensures AlignedEnd(c, p, start, offer) <= start + offer
  {
    FloorBounds(start + offer, c.blockSize);
  }

  /** Where an aligned chunk can end: on a block boundary, on a retention boundary, on the
      prompt's last hash boundary, or, only when one block is wider than the largest
      chunk, inside the block it started in. */
  lemma ChunkEndClassified(c: Rules, p: Prefill, start: int, offer: int)
    requires c.Valid() && 0 <= start < p.End() && MustAlign(c, p, start, offer)
    requires Split(c, p, start, offer) > 0
    ensures var e := start + Split(c, p, start, offer);
            || e % c.blockSize == 0
            || (c.retention > 0 && e % c.retention == 0)
            || (c.partialHits && e == TailBoundary(c, p))
            || (c.blockSize > c.PrefillLimit() && e < NextBoundary(start, c.blockSize))
  {
    SplitMeaning(c, p, start, offer);
    FloorBounds(start + offer, c.blockSize);
    FloorBounds(p.sharedBoundary, c.blockSize);
    FloorPassesStart(start, start + offer, c.blockSize);
    LastCachePositionAligned(c, p, start);
  }

  /** Rounding down passes the start exactly when the offer reaches the next boundary. */
  lemma FloorPassesStart(start: int, end: int, unit: int)
    requires unit > 0
    ensures Floor(end, unit) > start <==> end >= NextBoundary(start, unit)
  {
    var f, next := Floor(end, unit), NextBoundary(start, unit);
    FloorBounds(end, unit);
    NextBoundaryIsNext(start, unit, f);
    if end >= next {
      MultipleGap(next, f, unit);
    }
  }

  lemma LastCachePositionAligned(c: Rules, p: Prefill, start: int)
    requires c.Valid()
    ensures LastCachePosition(c, p, start) % c.blockSize == 0
  {
    FloorBounds(p.tokens, c.blockSize);
    assert p.tokens - p.tokens % c.blockSize == Floor(p.tokens, c.blockSize);
    SumOfMultiples(Floor(p.tokens, c.blockSize), c.blockSize, c.blockSize) by {
      MultipleMod(1, c.blockSize);
    }
  }

  /** The last cacheable position is the greatest block boundary within the tokens, or, when the cache drops the
      last block, the greatest with a whole block after it; no such boundary counts as zero. */
  lemma LastCachePositionIsGreatest(c: Rules, p: Prefill, start: int, x: int)
    requires c.Valid() && p.tokens >= 0 && !(c.checkpointBlocks && start % c.blockSize == 0)
    ensures var last := LastCachePosition(c, p, start); var spare := if c.dropLastBlock then c.blockSize else 0;
            && last % c.blockSize == 0 && last >= 0
            && (last > 0 ==> last + spare <= p.tokens)
            && (x % c.blockSize == 0 && 0 <= x && x + spare <= p.tokens ==> x <= last)
  {
    FloorBounds(p.tokens, c.blockSize);
    LastCachePositionAligned(c, p, start);
    assert p.tokens - p.tokens % c.blockSize == Floor(p.tokens, c.blockSize);
    MultipleIs(0, c.blockSize);
    MultipleGap(0, Floor(p.tokens, c.blockSize), c.blockSize);
    var last := LastCachePosition(c, p, start);
    var spare := if c.dropLastBlock then c.blockSize else 0;
    if x % c.blockSize == 0 && 0 <= x && x + spare <= p.tokens {
      SumOfMultiples(x, spare, c.blockSize);
      MultipleGap(x + spare, Floor(p.tokens, c.blockSize), c.blockSize);
    }
  }

  /** The tail boundary is the greatest hash boundary within the prompt, if partial blocks can be cached. */
  lemma TailBoundaryIsGreatest(c: Rules, p: Prefill, x: int)
    requires c.Valid() && c.partialHits
    ensures TailBoundary(c, p) % c.hashBlockSize == 0 && TailBoundary(c, p) <= p.promptTokens
    ensures x % c.hashBlockSize == 0 && x <= p.promptTokens ==> x <= TailBoundary(c, p)
  {
    FloorBounds(p.promptTokens, c.hashBlockSize);
    if x % c.hashBlockSize == 0 && x <= p.promptTokens {
      MultipleGap(x, TailBoundary(c, p), c.hashBlockSize);
    }
  }

  /** The prompt is prefilled, and so are the output tokens that a resumed request replays, all but the newest; there
      every chunk has to stop.  Nothing else is split. */
  lemma ReplayIsPrefill(c: Rules, p: Prefill, start: int, offer: int, x: int)
    requires c.Valid() && start >= 0
    ensures start >= p.promptTokens && start >= p.tokens - 1 ==> Split(c, p, start, offer) == offer
    ensures start < p.promptTokens || start < p.tokens - 1 ==>
              c.retention > 0 && x % c.retention == 0 && start < x ==> start + Split(c, p, start, offer) <= x
  {
    if start < p.End() && c.retention > 0 && x % c.retention == 0 && start < x {
      SplitMeaning(c, p, start, offer);
      assert Mandatory(c, p, start, AlignedEnd(c, p, start, offer), x);
    }
  }

  /** When a chunk short of the prefill's end is rounded: always, but for one that starts on a block boundary with
      internal checkpoints; and such a one too, short of the prompt's end, with EAGLE. */
  ghost predicate IsRounded(c: Rules, p: Prefill, start: int, end: int)
    requires c.Valid()
  {
    && (end < p.promptTokens || end < p.tokens - 1)
    && (c.checkpointBlocks && start % c.blockSize == 0 ==> c.useEagle && end < p.promptTokens)
  }

  /** A chunk that is rounded ends in one of four places; one that is not is cut by nothing but the mandatory
      positions. */
  lemma RoundedOrFree(c: Rules, p: Prefill, start: int, offer: int)
    requires c.Valid() && 0 <= start < p.End() && Split(c, p, start, offer) > 0
    ensures var e := start + Split(c, p, start, offer);
            if IsRounded(c, p, start, start + offer)
            then || e % c.blockSize == 0
                 || (c.retention > 0 && e % c.retention == 0)
                 || (c.partialHits && e == TailBoundary(c, p))
                 || (c.blockSize > c.PrefillLimit() && e < NextBoundary(start, c.blockSize))
            else e == start + offer || (e < start + offer && Mandatory(c, p, start, start + offer, e))
  {
    if MustAlign(c, p, start, offer) {
      ChunkEndClassified(c, p, start, offer);
    }
    SplitMeaning(c, p, start, offer);
    hide Split, Mandatory, TailBoundary, NextBoundary;
  }

  /** With internal checkpoints, a chunk that starts on a block boundary has no such position to stop at. */
  lemma CheckpointsNeedNoCachePosition(c: Rules, p: Prefill, start: int)
    requires c.Valid() && c.checkpointBlocks && start % c.blockSize == 0
    ensures LastCachePosition(c, p, start) <= 0
  {
  }

  // ------------------------------------------------------------- whole prefills

  /** The positions a prefill goes through: each chunk is at most what the splitter
      allows for some offer.  Offers are arbitrary, and any chunk may be shortened after the
      split (by the lookahead reservation, or by another budget). */
  ghost predicate IsPrefillRun(c: Rules, p: Prefill, run: seq<int>, offers: seq<int>)
    requires c.Valid()
  {
    && |run| == |offers| + 1
    && forall k :: 0 <= k < |offers| ==>
      run[k] <= run[k + 1] <= run[k] + Max(Split(c, p, run[k], offers[k]), 0)
  }

  /** A position every chunk of the prefill has to stop at, wherever it starts. */
  ghost predicate MandatoryThroughout(c: Rules, p: Prefill, x: int)
    requires c.Valid()
  {
    || (c.retention > 0 && x % c.retention == 0)
    || (!c.checkpointBlocks && x == LastCachePosition(c, p, 0))
    || (!c.checkpointBlocks && c.partialHits && x == TailBoundary(c, p)
        && LastCachePosition(c, p, 0) < x < p.promptTokens)
  }

  lemma {:induction false} RunIsAscending(c: Rules, p: Prefill, run: seq<int>, offers: seq<int>, k: nat)
    requires c.Valid() && IsPrefillRun(c, p, run, offers) && k < |run|
    ensures run[0] <= run[k]
  {
    if k > 0 {
      RunIsAscending(c, p, run, offers, k - 1);
    }
  }

  /** A chunk does not pass a position that is mandatory throughout. */
  lemma ChunkStopsAt(c: Rules, p: Prefill, start: int, offer: int, x: int)
    requires c.Valid() && 0 <= start < x <= p.End() && MandatoryThroughout(c, p, x)
    ensures start + Max(Split(c, p, start, offer), 0) <= x
  {
    SplitMeaning(c, p, start, offer);
    assert Mandatory(c, p, start, AlignedEnd(c, p, start, offer), x);
  }

  /** However the budgets fragment a prefill, each boundary that is mandatory throughout
      (every retention boundary; without internal checkpoints also the last cacheable block
      boundary and the prompt's last hash boundary) that the run reaches is exactly some chunk's end. */
  lemma {:induction false} BoundariesMaterialized(c: Rules, p: Prefill, run: seq<int>, offers: seq<int>, x: int)
    requires c.Valid() && IsPrefillRun(c, p, run, offers)
    requires MandatoryThroughout(c, p, x) && x <= p.End()
    requires 0 <= run[0] < x <= run[|run| - 1]
    ensures exists k :: 0 < k < |run| && run[k] == x
  {
    var n := |offers|;
    RunIsAscending(c, p, run, offers, n);
    if run[n] == x {
    } else if x <= run[n - 1] {
      assert IsPrefillRun(c, p, run[..n], offers[..n - 1]);
      BoundariesMaterialized(c, p, run[..n], offers[..n - 1], x);
      var k :| 0 < k < n && run[..n][k] == x;
      assert run[k] == x;
    } else {
      RunIsAscending(c, p, run, offers, n - 1);
      ChunkStopsAt(c, p, run[n - 1], offers[n - 1], x);
    }
  }

  // ------------------------------------------------------------- progress

  /** Exactly when a positive offer is rounded away to nothing. */
  lemma SplitIsZeroIff(c: Rules, p: Prefill, start: int, offer: int)
    requires c.Valid() && 0 <= start < p.End() && offer > 0
    ensures Split(c, p, start, offer) == 0 <==>
            && MustAlign(c, p, start, offer)
            && start + offer < NextBoundary(start, c.blockSize)
            && c.blockSize <= c.PrefillLimit()
  {
    SplitMeaning(c, p, start, offer);
    FloorPassesStart(start, start + offer, c.blockSize);
  }

  /** The three promises: an offer of at least a block, one that reaches the prefill's end,
      and any positive one when a block is wider than a chunk, all advance. */
  lemma SplitAdvances(c: Rules, p: Prefill, start: int, offer: int)
    requires c.Valid() && 0 <= start < p.End() && offer > 0
    requires offer >= c.blockSize || start + offer >= p.End() || c.blockSize > c.PrefillLimit()
    ensures 0 < Split(c, p, start, offer) <= offer
  {
    SplitIsZeroIff(c, p, start, offer);
    SplitMeaning(c, p, start, offer);
    AlignedEndBounds(c, p, start, offer);
    NextBoundaryIsNext(start, c.blockSize, start);
  }

  /** The chunk a prefill really gets: split, then kept out of the lookahead window. */
  function Chunk(c: Rules, p: Prefill, start: int, offer: int): int
    requires c.Valid()
  {
    Reserve(c, p.tokens, start, Split(c, p, start, offer))
  }

  /** Exactly when the reservation leaves nothing of a positive split: the split stops short
      of the last token although no more than `lookahead` tokens remain.  With a lookahead of
      at most one that cannot happen. */
  lemma ReserveIsZeroIff(c: Rules, tokens: int, start: int, chunk: int)
    requires chunk > 0
    ensures Reserve(c, tokens, start, chunk) == 0 <==> chunk < tokens - start <= c.lookahead
    ensures c.lookahead <= 1 ==> Reserve(c, tokens, start, chunk) == chunk
    ensures 0 < tokens - start - Reserve(c, tokens, start, chunk) < c.lookahead ==>
              Reserve(c, tokens, start, chunk) == 0
  {
  }

  /** A prefill within `lookahead` of its end that has a mandatory position ahead of it never
      advances again, whatever it is offered. */
  lemma StuckInLookahead(c: Rules, p: Prefill, start: int, x: int, offer: int)
    requires c.Valid() && 0 <= start < p.End()
    requires MandatoryThroughout(c, p, x) && start < x < p.tokens
    requires p.tokens - start <= c.lookahead
    ensures Chunk(c, p, start, offer) == 0
  {
    SplitMeaning(c, p, start, offer);
    AlignedEndBounds(c, p, start, offer);
    var end := AlignedEnd(c, p, start, offer);
    assert Mandatory(c, p, start, end, x);
  }

  /** No offer of tokens that the request has left advances it. */
  ghost predicate Stuck(c: Rules, p: Prefill, start: int)
    requires c.Valid()
  {
    forall offer :: 0 < offer <= p.tokens - start ==> Chunk(c, p, start, offer) == 0
  }

  /** Some mandatory position lies ahead of the start, before the last token. */
  ghost predicate StopAhead(c: Rules, p: Prefill, start: int)
    requires c.Valid()
  {
    exists x :: start < x < p.tokens && Mandatory(c, p, start, p.tokens, x)
  }

  /** Exactly when a prefill can never move again: no more than `lookahead` tokens remain, and a mandatory
      position lies among them. */
  lemma StuckIff(c: Rules, p: Prefill, start: int)
    requires c.Valid() && 0 <= start < p.End() <= p.tokens
    ensures Stuck(c, p, start) <==> p.tokens - start <= c.lookahead && StopAhead(c, p, start)
  {
    var rest := p.tokens - start;
    FullOfferReaches(c, p, start);
    if Stuck(c, p, start) {
      assert Chunk(c, p, start, rest) == 0;
      SplitMeaning(c, p, start, rest);
      ReserveIsZeroIff(c, p.tokens, start, Split(c, p, start, rest));
      assert Mandatory(c, p, start, p.tokens, start + Split(c, p, start, rest));
    }
    if rest <= c.lookahead && StopAhead(c, p, start) {
      forall offer | 0 < offer <= rest
        ensures Chunk(c, p, start, offer) == 0
      {
        SplitStopsShort(c, p, start, offer);
        ReserveLeavesNothing(c, p.tokens, start, Split(c, p, start, offer));
      }
    }
  }

  /** An offer of everything that is left is not rounded. */
  lemma FullOfferReaches(c: Rules, p: Prefill, start: int)
    requires c.Valid() && start < p.End() <= p.tokens
    ensures AlignedEnd(c, p, start, p.tokens - start) == p.tokens
  {
  }

  /** With a mandatory position ahead, no chunk reaches the last token. */
  lemma SplitStopsShort(c: Rules, p: Prefill, start: int, offer: int)
    requires c.Valid() && 0 <= start < p.End() <= p.tokens && 0 < offer <= p.tokens - start
    requires StopAhead(c, p, start)
    ensures 0 <= Split(c, p, start, offer) < p.tokens - start
  {
    SplitMeaning(c, p, start, offer);
    AlignedEndBounds(c, p, start, offer);
    FullOfferReaches(c, p, start);
    var x :| start < x < p.tokens && Mandatory(c, p, start, p.tokens, x);
    if offer == p.tokens - start {
      assert Mandatory(c, p, start, AlignedEnd(c, p, start, offer), x);
    }
  }

  lemma ReserveLeavesNothing(c: Rules, tokens: int, start: int, chunk: int)
    requires 0 <= chunk < tokens - start <= c.lookahead
    ensures Reserve(c, tokens, start, chunk) == 0
  {
  }

  /** A lookahead of two is enough: nine tokens in four-token blocks.  The first chunk ends at 4;
      the second stops at 8 and is pulled back to 7; from there nothing advances. */
  lemma LookaheadOfTwoCanStall(offer: int)
    ensures var c := Rules(4, 4, 0, 16, 0, false, false, true, false, 2);
            var p := Prefill(9, 9, 0);
            && Chunk(c, p, 0, 4) == 4
            && Chunk(c, p, 4, 5) == 3
            && Chunk(c, p, 7, offer) == 0
  {
    hide EarliestStop, Stops;
    var c := Rules(4, 4, 0, 16, 0, false, false, true, false, 2);
    var p := Prefill(9, 9, 0);
    SplitMeaning(c, p, 0, 4);
    SplitMeaning(c, p, 4, 5);
    assert Mandatory(c, p, 4, 9, 8);
    StuckInLookahead(c, p, 7, 8, offer);
  }

  /** An offer that is enough for the prefill to move. */
  predicate Adequate(c: Rules, p: Prefill, start: int, offer: int)
    requires c.Valid()
  {
    offer > 0 && (offer >= c.blockSize || start + offer >= p.End() || c.blockSize > c.PrefillLimit())
  }

  /** Repeats split and reservation over a list of offers. */
  function PrefillFrom(c: Rules, p: Prefill, start: int, offers: seq<int>): int
    requires c.Valid()
    decreases |offers|
  {
    if offers == [] || start >= p.End() then start
    else PrefillFrom(c, p, start + Chunk(c, p, start, offers[0]), offers[1..])
  }

  /** Each offer is adequate where it is made; the last may be shorter than a block if it reaches the end. */
  predicate AdequateAlong(c: Rules, p: Prefill, start: int, offers: seq<int>)
    requires c.Valid()
    decreases |offers|
  {
    offers == [] || start >= p.End()
    || (Adequate(c, p, start, offers[0]) && AdequateAlong(c, p, start + Chunk(c, p, start, offers[0]), offers[1..]))
  }

  /** With a position that is mandatory throughout inside the lookahead window, no list of offers ever takes a
      prefill into the window, let alone to its end. */
  lemma {:induction false} NeverEntersLookahead(c: Rules, p: Prefill, start: int, offers: seq<int>, x: int)
    requires c.Valid() && 0 <= start <= p.tokens - c.lookahead
    requires MandatoryThroughout(c, p, x) && p.tokens - c.lookahead < x < p.tokens && x <= p.End()
    ensures PrefillFrom(c, p, start, offers) <= p.tokens - c.lookahead
    decreases |offers|
  {
    hide Split, MandatoryThroughout;
    if offers != [] {
      ChunkStopsAt(c, p, start, offers[0], x);
      NeverEntersLookahead(c, p, start + Chunk(c, p, start, offers[0]), offers[1..], x);
    }
  }

  /** Termination: with a lookahead of at most one, a prefill given as many offers as it has tokens left,
      each adequate where it is made, is finished. */
  lemma {:induction false} PrefillTerminates(c: Rules, p: Prefill, start: int, offers: seq<int>)
    requires c.Valid() && c.lookahead <= 1 && start >= 0
    requires AdequateAlong(c, p, start, offers)
    requires |offers| >= p.End() - start
    ensures PrefillFrom(c, p, start, offers) >= p.End()
    decreases |offers|
  {
    hide Chunk;
    if start < p.End() {
      AdequateAdvances(c, p, start, offers[0]);
      PrefillTerminates(c, p, start + Chunk(c, p, start, offers[0]), offers[1..]);
    }
  }

  lemma AdequateAdvances(c: Rules, p: Prefill, start: int, offer: int)
    requires c.Valid() && c.lookahead <= 1 && 0 <= start < p.End() && Adequate(c, p, start, offer)
    ensures 0 < Chunk(c, p, start, offer) <= offer
  {
    hide Split;
    SplitAdvances(c, p, start, offer);
    ReserveIsZeroIff(c, p.tokens, start, Split(c, p, start, offer));
  }

  /** A chunk size below the block size (a starvation-guard chunk, say) is rounded to
      nothing for ever: from a block boundary short of the last block, a prefill whose offers stay
      below a block that fits the chunk limit does not advance. */
  lemma SmallChunkStalls(c: Rules, p: Prefill, start: int, offer: int)
    requires c.Valid() && start >= 0 && start % c.blockSize == 0 && 0 < offer < c.blockSize
    requires c.blockSize <= c.PrefillLimit() && !c.checkpointBlocks
    requires start + c.blockSize <= p.End()
    ensures Split(c, p, start, offer) == 0
  {
    NextOfMultiple(start, c.blockSize);
    SplitIsZeroIff(c, p, start, offer);
  }

  lemma NextOfMultiple(start: int, unit: int)
    requires unit > 0 && start % unit == 0
    ensures NextBoundary(start, unit) == start + unit
  {
    MultipleIs(start, unit);
  }
}
