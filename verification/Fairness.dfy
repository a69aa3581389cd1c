/** The starvation guard's service bound. */
module Fairness {
  import opened Ledger
  import opened Machine
  import opened ChunkSplit
  import opened ChunkLaws
  import opened Offers
  import opened Collections

  /** A decode is past its prefill, so neither the splitter nor the lookahead reservation applies. */
  predicate DecodeReady(r: Req) {
    !r.prefillChunk && r.computed >= Max(r.promptTokens, r.tokens - 1)
  }

  /** What a decode can be given at most, whatever the budgets. */
  function FullDemand(cfg: Config, lim: Limits, r: Req): int {
    Min(Threshold(lim, Demand(r)), lim.maxModelLen - r.computed - cfg.sampledPerStep)
  }

  /** What the guard lets a request take from the token budget. */
  function Need(cfg: Config, lim: Limits, r: Req): nat {
    if r.prefillChunk then (if lim.guardChunk > 0 then lim.guardChunk else 0)
    else Max(FullDemand(cfg, lim, r), 0)
  }

  /** The same for a list, with `extra` for each; a request that is passed over takes nothing. */
  function TotalNeed(cfg: Config, lim: Limits, reqs: map<ReqId, Req>, q: seq<ReqId>, extra: nat): nat
    requires forall x :: x in q ==> x in reqs
  {
    if q == [] then 0
    else (if PassesOver(lim, q[0], reqs[q[0]]) then 0 else Need(cfg, lim, reqs[q[0]]) + extra)
         + TotalNeed(cfg, lim, reqs, q[1..], extra)
  }

  /** A decode that the loop considers and that wants a token. */
  predicate WantsDecode(cfg: Config, lim: Limits, reqs: map<ReqId, Req>, d: ReqId) {
    && d in reqs && DecodeReady(reqs[d]) && !PassesOver(lim, d, reqs[d]) && FullDemand(cfg, lim, reqs[d]) > 0
  }

  lemma DecodeOfferIsFull(cfg: Config, lim: Limits, reqs: map<ReqId, Req>, running: seq<ReqId>, id: ReqId, p: Pass)
    requires lim.Valid() && id in reqs && DecodeReady(reqs[id])
    requires p.tokenBudget >= Need(cfg, lim, reqs[id]) && p.inputBudget >= Need(cfg, lim, reqs[id]) + cfg.draftSlots
    ensures FullDemand(cfg, lim, reqs[id]) > 0 ==>
              Offer(cfg, lim, reqs, running, id, p) == FullDemand(cfg, lim, reqs[id])
    ensures FullDemand(cfg, lim, reqs[id]) <= 0 ==> Offer(cfg, lim, reqs, running, id, p) == 0
  {
  }

  lemma PrefillOfferIsCapped(cfg: Config, lim: Limits, reqs: map<ReqId, Req>, running: seq<ReqId>, id: ReqId, p: Pass)
    requires lim.Valid() && id in reqs && reqs[id].prefillChunk && lim.guardChunk > 0
    requires DecodeRunnable(reqs, running, id)
    ensures Offer(cfg, lim, reqs, running, id, p) <= lim.guardChunk
  {
    hide Split;
    var n := Min(Min(Threshold(lim, Demand(reqs[id])), p.tokenBudget), p.inputBudget - cfg.draftSlots);
    var g := Guarded(lim, reqs, running, id, n);
    SplitAtMost(lim.rules, PrefillOf(lim, id, reqs[id]), reqs[id].computed,
                Min(g, lim.maxModelLen - reqs[id].computed - cfg.sampledPerStep));
  }

  /** An offer to a request that is not mid-prefill never exceeds its capped demand, ready or not. */
  lemma DecodeOfferIsCapped(cfg: Config, lim: Limits, reqs: map<ReqId, Req>, running: seq<ReqId>, id: ReqId, p: Pass)
    requires lim.Valid() && id in reqs && !reqs[id].prefillChunk
    ensures Offer(cfg, lim, reqs, running, id, p) <= Max(FullDemand(cfg, lim, reqs[id]), 0)
  {
    hide Split;
    var n := Min(Min(Threshold(lim, Demand(reqs[id])), p.tokenBudget), p.inputBudget - cfg.draftSlots);
    SplitAtMost(lim.rules, PrefillOf(lim, id, reqs[id]), reqs[id].computed,
                Min(n, lim.maxModelLen - reqs[id].computed - cfg.sampledPerStep));
  }

  /** While a running decode wants a token, no share uses more than its request's need. */
  lemma OfferWithinNeed(cfg: Config, lim: Limits, reqs: map<ReqId, Req>, running: seq<ReqId>, id: ReqId, p: Pass,
                        d: ReqId)
    requires lim.Valid() && lim.guardChunk > 0 && id in reqs && d in running && WantsDecode(cfg, lim, reqs, d)
    ensures Offer(cfg, lim, reqs, running, id, p) <= Need(cfg, lim, reqs[id])
  {
    hide Offer;
    if reqs[id].prefillChunk {
      assert IsRunnableDecode(reqs, d) && d != id;
      PrefillOfferIsCapped(cfg, lim, reqs, running, id, p);
    } else {
      DecodeOfferIsCapped(cfg, lim, reqs, running, id, p);
    }
  }

  lemma {:induction false} TakenKeepsNeed(cfg: Config, lim: Limits, reqs: map<ReqId, Req>, q: seq<ReqId>, extra: nat,
                                          id: ReqId)
    requires (forall x :: x in q ==> x in reqs) && id in reqs && id !in q
    ensures TotalNeed(cfg, lim, TakenReqs(reqs, id), q, extra) == TotalNeed(cfg, lim, reqs, q, extra)
  {
    if q != [] {
      TakenKeepsNeed(cfg, lim, reqs, q[1..], extra, id);
    }
  }

  /** Later positions do not change a share already given. */
  lemma {:induction false} ServedStays(cfg: Config, lim: Limits, reqs: map<ReqId, Req>, running: seq<ReqId>, i: nat,
                                       p: Pass, x: ReqId)
    requires lim.Valid() && (forall y :: y in running ==> y in reqs)
    requires i <= |running| && x !in running[i..]
    ensures var q := ServeFrom(cfg, lim, reqs, running, i, p);
            (x in q.shares <==> x in p.shares) && (x in p.shares ==> q.shares[x] == p.shares[x])
    decreases |running| - i
  {
    hide Offer;
    if i < |running| && p.tokenBudget > 0 && p.inputBudget > cfg.draftSlots {
      var id := running[i];
      assert running[i..] == [id] + running[i + 1..];
      var n := Offer(cfg, lim, reqs, running, id, p);
      if PassesOver(lim, id, reqs[id]) || n <= 0 {
        ServedStays(cfg, lim, reqs, running, i + 1, p, x);
      } else {
        ServedStays(cfg, lim, TakenReqs(reqs, id), running, i + 1,
                    TakenPass(cfg, p, id, Share(n, reqs[id].DraftsIn(n))), x);
      }
    }
  }

  /** A share that only the request's own limits bound; what it holds beyond the known tokens are drafts. */
  ghost predicate IsFullShare(cfg: Config, lim: Limits, r: Req, share: Share) {
    && IsLeast(share.n, OwnLimits(cfg, lim, r))
    && share.drafts == Max(share.n - (r.tokens + r.placeholders - r.computed), 0)
  }

  lemma FullDemandIsLeast(cfg: Config, lim: Limits, r: Req)
    requires FullDemand(cfg, lim, r) > 0
    ensures IsFullShare(cfg, lim, r, Share(FullDemand(cfg, lim, r), r.DraftsIn(FullDemand(cfg, lim, r))))
  {
    OwnLeast(cfg, lim, r);
  }

  /** The service bound: when the budgets cover, up to and including a ready decode, a guard chunk for each
      prefill and the capped demand of each decode (and the draft slots of all), that decode gets its full
      capped demand in this very step.  What stands behind it, and what is passed over, does not matter. */
  lemma {:induction false} EveryDecodeServed(cfg: Config, lim: Limits, reqs: map<ReqId, Req>, running: seq<ReqId>,
                                             i: nat, p: Pass, k: nat)
    requires lim.Valid() && lim.guardChunk > 0 && (forall x :: x in running ==> x in reqs) && Distinct(running)
    requires i <= k < |running| && WantsDecode(cfg, lim, reqs, running[k])
    requires p.tokenBudget >= TotalNeed(cfg, lim, reqs, running[i..k + 1], 0)
    requires p.inputBudget >= TotalNeed(cfg, lim, reqs, running[i..k + 1], cfg.draftSlots)
    ensures var q := ServeFrom(cfg, lim, reqs, running, i, p); var d := running[k];
            && d in q.shares && q.shares[d].n == FullDemand(cfg, lim, reqs[d])
            && IsFullShare(cfg, lim, reqs[d], q.shares[d])
    decreases |running| - i
  {
    hide Offer, Need, FullDemand, PassesOver, DecodeReady, IsFullShare, Req.DraftsIn;
    var id, d, rest := running[i], running[k], running[i + 1..k + 1];
    assert running[i..k + 1] == [id] + rest;
    assert running[i..k + 1][k - i] == d;
    NeedOfMember(cfg, lim, reqs, running[i..k + 1], 0, d);
    NeedOfMember(cfg, lim, reqs, running[i..k + 1], cfg.draftSlots, d);
    DemandIsNeed(cfg, lim, reqs[d]);
    FullDemandIsLeast(cfg, lim, reqs[d]);
    OfferWithinNeed(cfg, lim, reqs, running, id, p, d);
    var n := Offer(cfg, lim, reqs, running, id, p);
    if k == i {
      DecodeOfferIsFull(cfg, lim, reqs, running, id, p);
      assert running[i..] == [id] + running[i + 1..];
      ServedStays(cfg, lim, TakenReqs(reqs, id), running, i + 1,
                  TakenPass(cfg, p, id, Share(n, reqs[id].DraftsIn(n))), id);
    } else if PassesOver(lim, id, reqs[id]) || n <= 0 {
      EveryDecodeServed(cfg, lim, reqs, running, i + 1, p, k);
    } else {
      TakenKeepsNeed(cfg, lim, reqs, rest, 0, id);
      TakenKeepsNeed(cfg, lim, reqs, rest, cfg.draftSlots, id);
      EveryDecodeServed(cfg, lim, TakenReqs(reqs, id), running, i + 1,
                        TakenPass(cfg, p, id, Share(n, reqs[id].DraftsIn(n))), k);
    }
  }

  lemma DemandIsNeed(cfg: Config, lim: Limits, r: Req)
    requires DecodeReady(r) && FullDemand(cfg, lim, r) > 0
    ensures Need(cfg, lim, r) == FullDemand(cfg, lim, r)
  {
  }

  lemma {:induction false} NeedOfMember(cfg: Config, lim: Limits, reqs: map<ReqId, Req>, q: seq<ReqId>, extra: nat,
                                        x: ReqId)
    requires (forall y :: y in q ==> y in reqs) && x in q && !PassesOver(lim, x, reqs[x])
    ensures TotalNeed(cfg, lim, reqs, q, extra) >= Need(cfg, lim, reqs[x]) + extra
  {
    if x != q[0] {
      NeedOfMember(cfg, lim, reqs, q[1..], extra, x);
    }
  }

  /** Without the guard the bound fails: a prefill in front that wants the whole budget gets it,
      and no running request behind it gets anything. */
  lemma UnguardedPrefillTakesAll(cfg: Config, lim: Limits, reqs: map<ReqId, Req>, running: seq<ReqId>, p: Pass)
    requires lim.Valid() && lim.guardChunk == 0 && !lim.alignedSplit && lim.rules.lookahead <= 1
    requires (forall x :: x in running ==> x in reqs) && running != []
    requires var r := reqs[running[0]];
             && r.prefillChunk && !PassesOver(lim, running[0], r)
             && Threshold(lim, Demand(r)) >= p.tokenBudget
             && lim.maxModelLen - r.computed - cfg.sampledPerStep >= p.tokenBudget
    requires 0 < p.tokenBudget <= p.inputBudget - cfg.draftSlots && p.shares == map[]
    ensures var q := ServeFrom(cfg, lim, reqs, running, 0, p);
            q.tokenBudget == 0 && q.shares.Keys == {running[0]}
  {
    var id := running[0];
    assert Offer(cfg, lim, reqs, running, id, p) == p.tokenBudget;
    var share := Share(p.tokenBudget, reqs[id].DraftsIn(p.tokenBudget));
    var q := TakenPass(cfg, p, id, share);
    assert ServeFrom(cfg, lim, TakenReqs(reqs, id), running, 1, q) == q;
  }

  /** An offer enough for the prefill to move: any, unless its chunks are aligned to blocks. */
  predicate Enough(lim: Limits, q: Prefill, start: int, offer: int)
    requires lim.Valid()
  {
    offer > 0 && (lim.alignedSplit ==> Adequate(lim.rules, q, start, offer))
  }

  /** The guard leaves enough: it is off, or chunks are not aligned, or its own is at least a block, or blocks
      are wider than any chunk. */
  predicate GuardFits(lim: Limits) {
    lim.guardChunk >= 0
    && (lim.alignedSplit && lim.guardChunk > 0 ==>
          lim.guardChunk >= lim.rules.blockSize || lim.rules.blockSize > lim.rules.PrefillLimit())
  }

  /** Enough within the model length advances a prefill through split and reservation. */
  lemma ShapedAdvances(cfg: Config, lim: Limits, id: ReqId, r: Req, n: int)
    requires lim.Valid() && lim.rules.lookahead <= 1 && 0 <= r.computed < PrefillOf(lim, id, r).End()
    requires Enough(lim, PrefillOf(lim, id, r), r.computed, n)
    requires Enough(lim, PrefillOf(lim, id, r), r.computed, lim.maxModelLen - r.computed - cfg.sampledPerStep)
    ensures 0 < Shaped(cfg, lim, id, r, n) <= n
  {
    hide Split;
    var m := Min(n, lim.maxModelLen - r.computed - cfg.sampledPerStep);
    if lim.alignedSplit {
      AdequateAdvances(lim.rules, PrefillOf(lim, id, r), r.computed, m);
    } else {
      ReserveIsZeroIff(lim.rules, r.tokens, r.computed, m);
    }
  }

  /** The guard does not cost a prefill its progress, provided its chunk fits: an offer that is enough still
      advances it after the guard, the split and the lookahead reservation. */
  lemma GuardKeepsProgress(cfg: Config, lim: Limits, reqs: map<ReqId, Req>, running: seq<ReqId>, id: ReqId, n: int)
    requires lim.Valid() && id in reqs && lim.rules.lookahead <= 1 && GuardFits(lim)
    requires 0 <= reqs[id].computed < PrefillOf(lim, id, reqs[id]).End()
    requires Enough(lim, PrefillOf(lim, id, reqs[id]), reqs[id].computed, n)
    requires Enough(lim, PrefillOf(lim, id, reqs[id]), reqs[id].computed,
                    lim.maxModelLen - reqs[id].computed - cfg.sampledPerStep)
    ensures 0 < Shaped(cfg, lim, id, reqs[id], Guarded(lim, reqs, running, id, n)) <= n
  {
    hide Shaped;
    ShapedAdvances(cfg, lim, id, reqs[id], Guarded(lim, reqs, running, id, n));
  }

  // ------------------------------------------------------------- a whole prefill through the guard

  /** What a prefill meets when the RUNNING loop comes to it: the other requests, and the budgets left. */
  datatype Turn = Turn(reqs: map<ReqId, Req>, running: seq<ReqId>, pass: Pass)

  /** The tokens the loop offers request r at that turn. */
  function TurnOffer(cfg: Config, lim: Limits, id: ReqId, r: Req, t: Turn): int
    requires lim.Valid()
  {
    Offer(cfg, lim, t.reqs[id := r], t.running, id, t.pass)
  }

  /** The request after being offered, and having computed, its tokens at each turn until its prefill ends. */
  function PrefillThrough(cfg: Config, lim: Limits, id: ReqId, r: Req, turns: seq<Turn>): Req
    requires lim.Valid()
    decreases |turns|
  {
    if turns == [] || r.computed >= PrefillOf(lim, id, r).End() then r
    else
      var n := TurnOffer(cfg, lim, id, r, turns[0]);
      PrefillThrough(cfg, lim, id, if n > 0 then r.(specs := 0).Advance(n) else r, turns[1..])
  }

  /** At each turn, where it finds the prefill, both budgets are enough for it to move. */
  predicate BudgetsAlong(cfg: Config, lim: Limits, id: ReqId, r: Req, turns: seq<Turn>)
    requires lim.Valid()
    decreases |turns|
  {
    turns == [] || r.computed >= PrefillOf(lim, id, r).End()
    || (var q := PrefillOf(lim, id, r);
        && Enough(lim, q, r.computed, turns[0].pass.tokenBudget)
        && Enough(lim, q, r.computed, turns[0].pass.inputBudget - cfg.draftSlots)
        && var n := TurnOffer(cfg, lim, id, r, turns[0]);
           BudgetsAlong(cfg, lim, id, if n > 0 then r.(specs := 0).Advance(n) else r, turns[1..]))
  }

  /** A request that the model length can hold, without asynchronous placeholders. */
  predicate FitsModel(cfg: Config, lim: Limits, r: Req) {
    && 0 <= r.computed && r.placeholders == 0 && r.promptTokens <= r.tokens
    && Max(r.promptTokens, r.tokens - 1) + cfg.sampledPerStep <= lim.maxModelLen
  }

  /** The demand, the threshold, the guard and the model length never take away too much; so budgets that are
      enough give an offer that is, which survives the split and the reservation. */
  lemma OfferAdvances(cfg: Config, lim: Limits, id: ReqId, r: Req, t: Turn)
    requires lim.Valid() && lim.rules.lookahead <= 1 && FitsModel(cfg, lim, r)
    requires GuardFits(lim)
    requires var q := PrefillOf(lim, id, r);
             && r.computed < q.End()
             && Enough(lim, q, r.computed, t.pass.tokenBudget)
             && Enough(lim, q, r.computed, t.pass.inputBudget - cfg.draftSlots)
    ensures TurnOffer(cfg, lim, id, r, t) > 0
  {
    hide Shaped, Guarded;
    var n := Min(Min(Threshold(lim, Demand(r)), t.pass.tokenBudget), t.pass.inputBudget - cfg.draftSlots);
    GuardKeepsProgress(cfg, lim, t.reqs[id := r], t.running, id, n);
  }

  /** A prefill finishes through the guard, the splitter and the reservation: with a lookahead of at most one
      and a guard chunk that fits, as many turns as it has tokens left suffice, whatever else runs and
      however the budgets vary, as long as each turn leaves it enough to move. */
  lemma {:induction false} PrefillFinishes(cfg: Config, lim: Limits, id: ReqId, r: Req, turns: seq<Turn>)
    requires lim.Valid() && lim.rules.lookahead <= 1 && FitsModel(cfg, lim, r)
    requires GuardFits(lim)
    requires BudgetsAlong(cfg, lim, id, r, turns)
    requires |turns| >= PrefillOf(lim, id, r).End() - r.computed
    ensures PrefillThrough(cfg, lim, id, r, turns).computed >= PrefillOf(lim, id, r).End()
    decreases |turns|
  {
    hide TurnOffer;
    if r.computed < PrefillOf(lim, id, r).End() {
      OfferAdvances(cfg, lim, id, r, turns[0]);
      var n := TurnOffer(cfg, lim, id, r, turns[0]);
      PrefillFinishes(cfg, lim, id, r.(specs := 0).Advance(n), turns[1..]);
    }
  }

  /** Budgets of a block at every turn are always enough; of one token, if chunks are not aligned. */
  lemma {:induction false} BlockBudgetsSuffice(cfg: Config, lim: Limits, id: ReqId, r: Req, turns: seq<Turn>)
    requires lim.Valid()
    requires var least := if lim.alignedSplit then lim.rules.blockSize else 1;
             forall k :: 0 <= k < |turns| ==>
               && turns[k].pass.tokenBudget >= least
               && turns[k].pass.inputBudget - cfg.draftSlots >= least
    ensures BudgetsAlong(cfg, lim, id, r, turns)
    decreases |turns|
  {
    hide TurnOffer;
    if turns != [] && r.computed < PrefillOf(lim, id, r).End() {
      var n := TurnOffer(cfg, lim, id, r, turns[0]);
      BlockBudgetsSuffice(cfg, lim, id, if n > 0 then r.(specs := 0).Advance(n) else r, turns[1..]);
    }
  }

  /** Why the bound asks for ready decodes: truncating a failed load does not touch is_prefill_chunk, so a
      running request can be taken for a decode while it has a prefix to compute again. */
  lemma TruncationLeavesPrefillFlag(cfg: Config, s: State, truncated: map<ReqId, int>, id: ReqId)
    requires Enabled(cfg, s, LoadsInvalid(truncated)) && id in truncated && DecodeReady(s.reqs[id])
    requires truncated[id] < s.reqs[id].tokens - 1
    ensures var r := Apply(cfg, s, LoadsInvalid(truncated)).reqs[id];
            !r.prefillChunk && !DecodeReady(r)
  {
  }
}
