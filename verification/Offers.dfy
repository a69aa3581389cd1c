/** How many tokens the RUNNING loop offers a request, and the pass it makes when every
    allocation succeeds. */
module Offers {
  import opened Ledger
  import opened Machine
  import opened ChunkSplit

  /** What the loop reads besides the state: static limits and this step's conditions. */
  datatype Limits = Limits(
    rules: Rules,                 // the splitter's configuration; its threshold is shared
    alignedSplit: bool,           // need_mamba_block_aligned_split
    guardChunk: int,              // _starvation_guard_chunk
    maxModelLen: int,             // max_model_len
    deferPrefills: bool,          // defer_prefills
    ineligible: set<ReqId>,       // current_step < next_decode_eligible_step
    junctions: map<ReqId, int>)   // shared_prefix_boundary
  {
    predicate Valid() {
      rules.Valid()
    }
  }

  /** num_tokens_with_spec + num_output_placeholders - num_computed_tokens */
  function Demand(r: Req): int {
    r.tokens + r.specs + r.placeholders - r.computed
  }

  function PrefillOf(lim: Limits, id: ReqId, r: Req): Prefill {
    Prefill(r.promptTokens, r.tokens, if id in lim.junctions then lim.junctions[id] else 0)
  }

  /** Whether the loop passes a request over before computing an offer. */
  predicate PassesOver(lim: Limits, id: ReqId, r: Req) {
    || (r.placeholders > 0 && r.computed + 2 - r.placeholders >= r.promptTokens + r.maxTokens)
    || id in lim.ineligible
    || (lim.deferPrefills && r.prefillChunk)
  }

  predicate IsRunnableDecode(reqs: map<ReqId, Req>, x: ReqId) {
    x in reqs && !reqs[x].prefillChunk && Demand(reqs[x]) > 0
  }

  /** Some other running decode wants tokens. */
  predicate DecodeRunnable(reqs: map<ReqId, Req>, running: seq<ReqId>, id: ReqId) {
    exists x :: x in running && x != id && IsRunnableDecode(reqs, x)
  }

  function Threshold(lim: Limits, n: int): int {
    if 0 < lim.rules.threshold < n then lim.rules.threshold else n
  }

  /** The starvation guard. */
  function Guarded(lim: Limits, reqs: map<ReqId, Req>, running: seq<ReqId>, id: ReqId, n: int): int
    requires id in reqs
  {
    if lim.guardChunk != 0 && reqs[id].prefillChunk && n > lim.guardChunk && DecodeRunnable(reqs, running, id)
    then lim.guardChunk else n
  }

  /** Model length, alignment and lookahead: the part of an offer that only looks at the request. */
  function Shaped(cfg: Config, lim: Limits, id: ReqId, r: Req, n: int): int
    requires lim.Valid()
  {
    var m := Min(n, lim.maxModelLen - r.computed - cfg.sampledPerStep);
    var k := if lim.alignedSplit then Split(lim.rules, PrefillOf(lim, id, r), r.computed, m) else m;
    Reserve(lim.rules, r.tokens, r.computed, k)
  }

  function Offer(cfg: Config, lim: Limits, reqs: map<ReqId, Req>, running: seq<ReqId>, id: ReqId, p: Pass): int
    requires lim.Valid() && id in reqs
  {
    var n := Min(Min(Threshold(lim, Demand(reqs[id])), p.tokenBudget), p.inputBudget - cfg.draftSlots);
    Shaped(cfg, lim, id, reqs[id], Guarded(lim, reqs, running, id, n))
  }

  lemma SplitAtMost(c: Rules, p: Prefill, start: int, offer: int)
    requires c.Valid()
    ensures Split(c, p, start, offer) <= Max(offer, 0)
  {
    hide Stops;
    FloorBounds(start + offer, c.blockSize);
  }

  /** An offer is never negative and never exceeds either budget. */
  lemma OfferFits(cfg: Config, lim: Limits, reqs: map<ReqId, Req>, running: seq<ReqId>, id: ReqId, p: Pass)
    requires lim.Valid() && id in reqs
    ensures var n := Offer(cfg, lim, reqs, running, id, p);
            n >= 0 && (n > 0 ==> n <= p.tokenBudget && n + cfg.draftSlots <= p.inputBudget)
  {
    hide Split;
    var n := Min(Min(Threshold(lim, Demand(reqs[id])), p.tokenBudget), p.inputBudget - cfg.draftSlots);
    var g := Guarded(lim, reqs, running, id, n);
    var m := Min(g, lim.maxModelLen - reqs[id].computed - cfg.sampledPerStep);
    SplitAtMost(lim.rules, PrefillOf(lim, id, reqs[id]), reqs[id].computed, m);
  }

  // ------------------------------------------------------------- what an offer is

  /** n is the smallest of the listed limits. */
  predicate IsLeast(n: int, limits: seq<int>) {
    n in limits && forall m :: m in limits ==> n <= m
  }

  /** What bounds an offer for the request's own sake: what it has left to compute, its drafts and placeholders
      included, the model length, and the threshold, if set. */
  function OwnLimits(cfg: Config, lim: Limits, r: Req): seq<int> {
    [r.tokens + r.specs + r.placeholders - r.computed, lim.maxModelLen - r.computed - cfg.sampledPerStep]
    + if lim.rules.threshold > 0 then [lim.rules.threshold] else []
  }

  /** Everything that bounds it, in no order: also both budgets, and the guard when it applies. */
  function LimitsOf(cfg: Config, lim: Limits, reqs: map<ReqId, Req>, running: seq<ReqId>, id: ReqId, p: Pass)
    : seq<int>
    requires id in reqs
  {
    OwnLimits(cfg, lim, reqs[id]) + [p.tokenBudget, p.inputBudget - cfg.draftSlots]
    + if lim.guardChunk != 0 && reqs[id].prefillChunk && OtherDecodeWaits(reqs, running, id)
      then [lim.guardChunk] else []
  }

  /** Some other running request past its prefill has tokens or drafts left to compute. */
  predicate OtherDecodeWaits(reqs: map<ReqId, Req>, running: seq<ReqId>, id: ReqId) {
    exists x :: x in running && x != id && x in reqs && !reqs[x].prefillChunk
                && reqs[x].tokens + reqs[x].specs + reqs[x].placeholders > reqs[x].computed
  }

  lemma LeastOfOne(n: int)
    ensures IsLeast(n, [n])
  {
  }

  lemma LeastOfSum(m: int, first: seq<int>, n: int, second: seq<int>)
    requires IsLeast(m, first) && IsLeast(n, second)
    ensures IsLeast(Min(m, n), first + second)
  {
  }

  /** The least of a request's own limits. */
  lemma OwnLeast(cfg: Config, lim: Limits, r: Req)
    ensures IsLeast(Min(Threshold(lim, r.tokens + r.specs + r.placeholders - r.computed),
                        lim.maxModelLen - r.computed - cfg.sampledPerStep), OwnLimits(cfg, lim, r))
  {
  }

  /** An offer is exactly the least of its limits, split at the mandatory positions if chunks are aligned, and
      kept out of the lookahead window. */
  lemma OfferIsLeast(cfg: Config, lim: Limits, reqs: map<ReqId, Req>, running: seq<ReqId>, id: ReqId, p: Pass)
    returns (n: int)
    requires lim.Valid() && id in reqs
    ensures IsLeast(n, LimitsOf(cfg, lim, reqs, running, id, p))
    ensures var r := reqs[id];
            var prefill := Prefill(r.promptTokens, r.tokens, if id in lim.junctions then lim.junctions[id] else 0);
            Offer(cfg, lim, reqs, running, id, p) ==
            Reserve(lim.rules, r.tokens, r.computed,
                    if lim.alignedSplit then Split(lim.rules, prefill, r.computed, n) else n)
  {
    hide Split, Reserve, IsLeast;
    var r := reqs[id];
    OwnLeast(cfg, lim, r);
    LeastOfOne(p.tokenBudget);
    LeastOfOne(p.inputBudget - cfg.draftSlots);
    LeastOfOne(lim.guardChunk);
    var own := Min(Threshold(lim, r.tokens + r.specs + r.placeholders - r.computed),
                   lim.maxModelLen - r.computed - cfg.sampledPerStep);
    LeastOfSum(p.tokenBudget, [p.tokenBudget], p.inputBudget - cfg.draftSlots, [p.inputBudget - cfg.draftSlots]);
    assert [p.tokenBudget] + [p.inputBudget - cfg.draftSlots] == [p.tokenBudget, p.inputBudget - cfg.draftSlots];
    n := Min(own, Min(p.tokenBudget, p.inputBudget - cfg.draftSlots));
    LeastOfSum(own, OwnLimits(cfg, lim, r), Min(p.tokenBudget, p.inputBudget - cfg.draftSlots),
               [p.tokenBudget, p.inputBudget - cfg.draftSlots]);
    var both := OwnLimits(cfg, lim, r) + [p.tokenBudget, p.inputBudget - cfg.draftSlots];
    assert DecodeRunnable(reqs, running, id) <==> OtherDecodeWaits(reqs, running, id);
    if lim.guardChunk != 0 && r.prefillChunk && OtherDecodeWaits(reqs, running, id) {
      LeastOfSum(n, both, lim.guardChunk, [lim.guardChunk]);
      n := Min(n, lim.guardChunk);
    } else {
      assert both + [] == both;
    }
  }

  /** A request whose prefill is behind it is neither split nor kept from the window: its offer is the least of
      its limits, or nothing. */
  lemma DecodeOfferIsLeast(cfg: Config, lim: Limits, reqs: map<ReqId, Req>, running: seq<ReqId>, id: ReqId, p: Pass)
    requires lim.Valid() && id in reqs && reqs[id].computed >= Max(reqs[id].promptTokens, reqs[id].tokens - 1)
    ensures var n := Offer(cfg, lim, reqs, running, id, p);
            && (n > 0 ==> IsLeast(n, LimitsOf(cfg, lim, reqs, running, id, p)))
            && (n <= 0 ==> n == 0 && exists m :: m in LimitsOf(cfg, lim, reqs, running, id, p) && m <= 0)
  {
    var n := OfferIsLeast(cfg, lim, reqs, running, id, p);
    hide LimitsOf;
  }

  /** Without alignment, and with a lookahead of at most one, the same holds of a prefill. */
  lemma UnalignedOfferIsLeast(cfg: Config, lim: Limits, reqs: map<ReqId, Req>, running: seq<ReqId>, id: ReqId, p: Pass)
    requires lim.Valid() && id in reqs && !lim.alignedSplit && lim.rules.lookahead <= 1
    ensures var n := Offer(cfg, lim, reqs, running, id, p);
            && (n > 0 ==> IsLeast(n, LimitsOf(cfg, lim, reqs, running, id, p)))
            && (n <= 0 ==> n == 0 && exists m :: m in LimitsOf(cfg, lim, reqs, running, id, p) && m <= 0)
  {
    var n := OfferIsLeast(cfg, lim, reqs, running, id, p);
    hide LimitsOf;
  }

  /** The drafts of an offered share are exactly its tokens beyond the known ones: all of them, when nothing cuts
      the demand. */
  lemma DraftsFillTheShare(cfg: Config, lim: Limits, reqs: map<ReqId, Req>, running: seq<ReqId>, id: ReqId, p: Pass)
    requires lim.Valid() && id in reqs && Offer(cfg, lim, reqs, running, id, p) > 0
    ensures var r, n := reqs[id], Offer(cfg, lim, reqs, running, id, p);
            && n <= r.tokens + r.specs + r.placeholders - r.computed
            && r.DraftsIn(n) == Max(n - (r.tokens + r.placeholders - r.computed), 0)
            && (n == r.tokens + r.specs + r.placeholders - r.computed ==> r.DraftsIn(n) == r.specs)
  {
    var n := OfferIsLeast(cfg, lim, reqs, running, id, p);
    var r := reqs[id];
    assert r.tokens + r.specs + r.placeholders - r.computed in LimitsOf(cfg, lim, reqs, running, id, p);
    SplitAtMost(lim.rules, Prefill(r.promptTokens, r.tokens, if id in lim.junctions then lim.junctions[id] else 0),
                r.computed, n);
    hide LimitsOf, Split;
  }

  /** Asynchronous scheduling passes a decode over exactly when the step in flight is sure to be its last: even if
      all of the step's drafts are rejected, its output brings the request to its token limit.  Otherwise it is
      passed over only where the pass says so. */
  lemma PassesOverIff(lim: Limits, id: ReqId, r: Req, drafts: nat)
    requires 0 <= r.computed == r.tokens - 1 && r.placeholders == 0
    ensures var q := r.Advance(1 + drafts).(placeholders := 1 + drafts);
            PassesOver(lim, id, q) <==>
              || id in lim.ineligible || (lim.deferPrefills && q.prefillChunk)
              || forall kept :: 1 <= kept <= 1 + drafts ==>
                   q.Deliver(false, drafts, kept, kept, 1).tokens >= r.promptTokens + r.maxTokens
  {
    var q := r.Advance(1 + drafts).(placeholders := 1 + drafts);
    assert q.Deliver(false, drafts, 1, 1, 1).tokens == r.tokens + 1;
    assert forall kept: nat :: q.Deliver(false, drafts, kept, kept, 1).tokens == r.tokens + kept;
  }

  /** A request with no output outstanding is passed over only where the pass says so. */
  lemma NotPassedOver(lim: Limits, id: ReqId, r: Req)
    requires r.placeholders <= 0
    ensures PassesOver(lim, id, r) <==> id in lim.ineligible || (lim.deferPrefills && r.prefillChunk)
  {
  }

  // ------------------------------------------------------------- the pass without preemption

  /** The effect of scheduling n tokens of a request on what the rest of the pass reads. */
  function TakenReqs(reqs: map<ReqId, Req>, id: ReqId): map<ReqId, Req>
    requires id in reqs
  {
    reqs[id := reqs[id].(specs := 0)]
  }

  function TakenPass(cfg: Config, p: Pass, id: ReqId, share: Share): Pass {
    p.(tokenBudget := p.tokenBudget - share.n, inputBudget := p.inputBudget - (share.n + cfg.draftSlots),
       shares := p.shares[id := share], continued := p.continued + [id])
  }

  /** The RUNNING loop from position i on, as long as every allocation succeeds. */
  function ServeFrom(cfg: Config, lim: Limits, reqs: map<ReqId, Req>, running: seq<ReqId>, i: nat, p: Pass): Pass
    requires lim.Valid() && (forall x :: x in running ==> x in reqs)
    decreases |running| - i
  {
    if i >= |running| || p.tokenBudget <= 0 || p.inputBudget <= cfg.draftSlots then p
    else
      var id := running[i];
      if PassesOver(lim, id, reqs[id]) then ServeFrom(cfg, lim, reqs, running, i + 1, p)
      else
        var n := Offer(cfg, lim, reqs, running, id, p);
        if n <= 0 then ServeFrom(cfg, lim, reqs, running, i + 1, p)
        else ServeFrom(cfg, lim, TakenReqs(reqs, id), running, i + 1,
                       TakenPass(cfg, p, id, Share(n, reqs[id].DraftsIn(n))))
  }
}
