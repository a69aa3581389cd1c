/** Speculative decoding: scheduling drafts, then rolling the rejected ones back, decodes exactly what
    decoding token by token would. */
module SpecDecode {
  import opened Machine
  import opened ChunkSplit
  import opened Offers
  import opened Options
  import opened Admissions
  import opened Fairness

  type Token = int

  /** The target model: the next token after the positions whose KV it attends to. */
  type Model = seq<Token> -> Token

  /** Decoding token by token. */
  function Plain(model: Model, tokens: seq<Token>, count: nat): seq<Token>
    decreases count
  {
    if count == 0 then tokens else Plain(model, tokens + [model(tokens)], count - 1)
  }

  lemma {:induction false} PlainGrows(model: Model, tokens: seq<Token>, count: nat)
    ensures |Plain(model, tokens, count)| == |tokens| + count
    ensures Plain(model, tokens, count + 1) == Plain(model, tokens, count) + [model(Plain(model, tokens, count))]
    decreases count
  {
    if count > 0 {
      PlainGrows(model, tokens + [model(tokens)], count - 1);
    }
  }

  /** What a step returns for a request whose share reaches its newest token: the drafts that the model
      agrees with, then one token of its own.  The model sees the KV cache only. */
  ghost predicate Sampled(model: Model, kv: seq<Token>, known: nat, drafts: seq<Token>, generated: seq<Token>) {
    && 1 <= |generated| <= |drafts| + 1 && |kv| >= known + |drafts|
    && (forall k :: 0 <= k < |generated| - 1 ==> generated[k] == drafts[k])
    && (forall k :: 0 <= k < |generated| ==> generated[k] == model(kv[..known + k]))
  }

  /** Runs the model over the scheduled positions and verifies the drafts in order. */
  method RunModel(model: Model, kv: seq<Token>, known: nat, drafts: seq<Token>) returns (generated: seq<Token>)
    requires |kv| >= known + |drafts|
    ensures Sampled(model, kv, known, drafts, generated)
  {
    generated := [model(kv[..known])];
    while |generated| <= |drafts| && generated[|generated| - 1] == drafts[|generated| - 1]
      invariant Sampled(model, kv, known, drafts, generated)
      decreases |drafts| - |generated|
    {
      generated := generated + [model(kv[..known + |generated|])];
    }
  }

  /** One request under speculative decoding, without asynchronous placeholders. */
  class SpecRequest {
    var tokens: seq<Token>        // prompt and output
    var specTokenIds: seq<Token>  // the next drafts
    var computed: int             // num_computed_tokens
    var kv: seq<Token>            // the token each cache position was last written for

    constructor (prompt: seq<Token>)
      requires prompt != []
      ensures tokens == prompt && specTokenIds == [] && computed == 0 && kv == []
    {
      tokens, specTokenIds, computed, kv := prompt, [], 0, [];
    }

    /** The positions counted as computed hold the right tokens, and the newest token is not among them. */
    ghost predicate Valid()
      reads this
    {
      0 <= computed < |tokens| && computed <= |kv| && kv[..computed] == tokens[..computed]
    }

    /** A step with n tokens of this request is in flight. */
    ghost predicate InFlight(start: nat, n: nat, drafts: seq<Token>)
      reads this
    {
      && computed == start + n && start < |tokens| && n > 0
      && computed <= |tokens| + |drafts| && (drafts != [] ==> computed == |tokens| + |drafts|)
      && |kv| >= computed && kv[..computed] == (tokens + drafts)[..computed]
    }

    /** The RUNNING loop's part: truncates the drafts to the share and clears them; the step then writes
        the share's positions. */
    method Schedule(n: nat) returns (drafts: seq<Token>)
      requires Valid() && 0 < n <= |tokens| + |specTokenIds| - computed
      modifies this
      ensures tokens == old(tokens) && specTokenIds == []
      ensures drafts <= old(specTokenIds)
      ensures |drafts| == if n + old(computed) > |tokens| then n + old(computed) - |tokens| else 0
      ensures InFlight(old(computed), n, drafts)
    {
      drafts := [];
      if specTokenIds != [] {
        var numScheduledSpecTokens := n + computed - |tokens|;
        if numScheduledSpecTokens > 0 {
          drafts := specTokenIds;
          if |drafts| > numScheduledSpecTokens {
            drafts := drafts[..numScheduledSpecTokens];
          }
        }
        specTokenIds := [];
      }
      kv := kv[..computed] + (tokens + drafts)[computed..computed + n];
      computed := computed + n;
    }

    /** update_from_output's part: rolls the rejected drafts back and appends what was sampled. */
    method Update(ghost model: Model, ghost start: nat, ghost n: nat, drafts: seq<Token>, generated: seq<Token>)
      requires InFlight(start, n, drafts)
      requires if computed >= |tokens| then Sampled(model, kv, |tokens|, drafts, generated) else generated == []
      modifies this
      ensures Valid()
      ensures tokens == Plain(model, old(tokens), |generated|)
      ensures generated != [] ==> computed == |tokens| - 1
      ensures start < computed <= old(computed)
      ensures generated == [] ==> computed == start + n
      ensures specTokenIds == old(specTokenIds)
    {
      if drafts != [] && generated != [] {
        var numAccepted := |generated| - 1;
        var numRejected := |drafts| - numAccepted;
        if computed > 0 {
          computed := computed - numRejected;
        }
      }
      SampledIsPlain(model, kv, tokens, drafts, generated, |generated|);
      assert generated[..|generated|] == generated;
      tokens := tokens + generated;
    }
  }

  /** The model reads the accepted drafts back from the cache. */
  lemma CacheHolds(model: Model, kv: seq<Token>, tokens: seq<Token>, drafts: seq<Token>, generated: seq<Token>, k: nat)
    requires Sampled(model, kv, |tokens|, drafts, generated) && tokens + drafts <= kv && k < |generated|
    ensures kv[..|tokens| + k] == tokens + generated[..k]
  {
    assert (tokens + drafts)[..|tokens| + k] == tokens + drafts[..k];
    assert drafts[..k] == generated[..k];
  }

  /** Accepted drafts are what token-by-token decoding produces. */
  lemma {:induction false} SampledIsPlain(model: Model, kv: seq<Token>, tokens: seq<Token>, drafts: seq<Token>,
                                          generated: seq<Token>, k: nat)
    requires k <= |generated|
    requires generated != [] ==> Sampled(model, kv, |tokens|, drafts, generated) && tokens + drafts <= kv
    ensures tokens + generated[..k] == Plain(model, tokens, k)
  {
    if k > 0 {
      SampledIsPlain(model, kv, tokens, drafts, generated, k - 1);
      CacheHolds(model, kv, tokens, drafts, generated, k - 1);
      PlainGrows(model, tokens, k - 1);
      assert tokens + generated[..k] == (tokens + generated[..k - 1]) + [generated[k - 1]];
    }
  }

  /** One step of a request: the most tokens it may be given, and the drafts offered for the step after. */
  datatype Round = Round(limit: nat, proposal: seq<Token>)

  /** Any number of steps, with any drafts and any limits: the output is that of decoding token by token,
      the cache holds exactly all but the newest token once something is sampled, and no step is lost. */
  method Generate(model: Model, prompt: seq<Token>, rounds: seq<Round>) returns (r: SpecRequest)
    requires prompt != [] && forall k :: 0 <= k < |rounds| ==> rounds[k].limit > 0
    ensures fresh(r) && r.Valid() && |r.tokens| >= |prompt|
    ensures r.tokens == Plain(model, prompt, |r.tokens| - |prompt|)
    ensures |r.tokens| > |prompt| ==> r.computed == |r.tokens| - 1
    ensures r.computed >= |rounds|
  {
    r := new SpecRequest(prompt);
    for i := 0 to |rounds|
      invariant fresh(r) && r.Valid() && |r.tokens| >= |prompt| && r.computed >= i
      invariant r.tokens == Plain(model, prompt, |r.tokens| - |prompt|)
      invariant |r.tokens| > |prompt| ==> r.computed == |r.tokens| - 1
    {
      var n := Min(|r.tokens| + |r.specTokenIds| - r.computed, rounds[i].limit);
      ghost var start := r.computed;
      ghost var before := r.tokens;
      var drafts := r.Schedule(n);
      var reaches := r.computed >= |r.tokens|;
      var generated := [];
      if reaches {
        generated := RunModel(model, r.kv, |r.tokens|, drafts);
      }
      r.Update(model, start, n, drafts, generated);
      PlainGrows(model, before, |generated|);
      PlainAgain(model, prompt, |before| - |prompt|, |generated|);
      r.specTokenIds := if reaches then rounds[i].proposal else [];
    }
  }

  lemma {:induction false} PlainAgain(model: Model, tokens: seq<Token>, a: nat, b: nat)
    ensures Plain(model, Plain(model, tokens, a), b) == Plain(model, tokens, a + b)
    decreases b
  {
    if b > 0 {
      PlainAgain(model, tokens, a, b - 1);
      PlainGrows(model, Plain(model, tokens, a), b - 1);
      PlainGrows(model, tokens, a + b - 1);
    }
  }

  // ------------------------------------------------------------- the scheduler's counters

  /** The counters of the state machine's request move the same way: for any share, any truncation of the
      drafts and any number of accepted ones, a sampling step leaves all but the newest token computed,
      the rollback takes away no more than the share added, and the request is a decode from then on. */
  lemma RollbackIsExact(r: Req, n: nat, generated: nat)
    requires 0 <= r.computed < r.tokens && r.placeholders == 0 && r.inFlight >= 0 && r.stale == 0
    requires n > 0 && r.tokens <= r.computed + n <= r.tokens + r.specs && r.promptTokens <= r.tokens
    requires 1 <= generated <= r.DraftsIn(n) + 1
    ensures var scheduled := r.(specs := 0).Advance(n);
            var q := scheduled.DrainShare(n).Deliver(false, r.DraftsIn(n), generated, generated, 1);
            && q.computed == q.tokens - 1
            && r.computed < q.computed <= scheduled.computed
            && q.inFlight == r.inFlight
            && DecodeReady(q)
  {
  }

  /** A share that stops short of the newest token leaves the request mid-prefill, with all of the share kept. */
  lemma PartialPrefillStays(r: Req, n: nat)
    requires 0 <= r.computed && r.computed + n < r.tokens && r.placeholders == 0 && r.stale == 0 && n > 0
    ensures r.DraftsIn(n) == 0
    ensures var q := r.(specs := 0).Advance(n).DrainShare(n).Deliver(false, r.DraftsIn(n), 0, 0, 1);
            q.prefillChunk && q.computed == r.computed + n && q.tokens == r.tokens && !DecodeReady(q)
  {
  }

  /** A booked share leaves the request mid-prefill exactly when it still has something to compute, drafts aside:
      known tokens, or placeholders of tokens under way. */
  lemma MidPrefillMeansMoreToCompute(r: Req, n: nat)
    ensures var q := r.(specs := 0).Advance(n); q.prefillChunk <==> Demand(q) > 0
    ensures r.Advance(n).prefillChunk <==> BaseDemand(r) > n
  {
  }

  /** What is left to compute, drafts aside. */
  function BaseDemand(r: Req): int {
    r.tokens + r.placeholders - r.computed
  }

  /** An asynchronously scheduled decode keeps pace: all is computed but the newest of the tokens it has or is
      about to get. */
  predicate KeepsPace(r: Req) {
    r.computed == r.tokens + r.placeholders - 1
  }

  /** With any number of steps in flight, scheduling one token and some drafts keeps pace, once the asynchronous
      scheduler has put a placeholder for each; the share is then neither mid-prefill nor short of a draft. */
  lemma AsyncShareKeepsPace(r: Req, n: nat)
    requires KeepsPace(r) && r.placeholders >= 0 && 0 < n <= 1 + r.specs
    ensures r.DraftsIn(n) == n - 1
    ensures var q := r.(specs := 0).Advance(n);
            !q.prefillChunk && KeepsPace(q.(placeholders := q.placeholders + n))
  {
  }

  /** And so does any output of one of these steps, however many of its drafts were rejected, once its tokens have
      taken the places held for them. */
  lemma AsyncOutputKeepsPace(r: Req, drafts: nat, generated: nat)
    requires KeepsPace(r) && r.placeholders >= 1 + drafts && r.computed > 0 && 1 <= generated <= 1 + drafts
    ensures var q := r.Deliver(false, drafts, generated, generated, 1);
            && KeepsPace(q.(placeholders := q.placeholders - generated))
            && q.placeholders - generated == r.placeholders - (1 + drafts)
            && q.tokens == r.tokens + generated
  {
  }

  // ------------------------------------------------------------- padded admissions

  /** What keeps a padded admission whole: a threshold that admits it, and no mandatory chunk end inside. */
  predicate PadFits(lim: Limits, q: Prefill, start: int, drafts: nat)
    requires lim.Valid()
  {
    && (lim.rules.threshold <= 0 || 1 + drafts <= lim.rules.threshold)
    && (lim.alignedSplit && start < q.End() ==>
          NothingInside(Stops(lim.rules, q, start, start + 1 + drafts), start, start + 1 + drafts))
  }

  predicate NothingInside(stops: seq<int>, start: int, end: int) {
    forall k :: 0 <= k < |stops| ==> !(start < stops[k] < end)
  }

  /** A padded admission gets its uniform width exactly when the threshold and the splitter let it; it is
      not re-padded after either has shortened it. */
  lemma PaddedAdmissionIsWholeIff(cfg: Config, lim: Limits, adm: AdmissionRules, q: Prefill, computed: int, p: Pass,
                                  decodesOnly: bool)
    requires lim.Valid() && computed < q.tokens && p.tokenBudget > 0 && p.inputBudget > cfg.draftSlots
    requires Pads(cfg, adm, q.tokens, computed, decodesOnly) && q.promptTokens <= q.tokens
    requires AdmissionShare(cfg, lim, adm, q, computed, p, decodesOnly).Some?
    ensures var share := AdmissionShare(cfg, lim, adm, q, computed, p, decodesOnly).value;
            && share.drafts == adm.numSpecTokens && 1 <= share.n <= 1 + share.drafts
            && (share.n == 1 + share.drafts <==> PadFits(lim, q, computed, adm.numSpecTokens))
  {
    hide Split, Stops, NothingInside;
    var k := adm.numSpecTokens;
    var capped := Min(Threshold(lim, 1 + k), Min(p.tokenBudget, p.inputBudget - cfg.draftSlots));
    if computed < q.End() {
      StopsInside(lim.rules, q, computed, capped);
    } else {
      PastTheEnd(lim.rules, q, computed, capped);
    }
  }

  lemma PastTheEnd(c: Rules, q: Prefill, start: int, offer: int)
    requires c.Valid() && start >= q.End()
    ensures Split(c, q, start, offer) == offer
  {
  }

  /** Near the prompt's end the splitter does not round, so it shortens exactly at a stop inside. */
  lemma StopsInside(c: Rules, q: Prefill, start: int, offer: int)
    requires c.Valid() && start == q.tokens - 1 && start < q.End() && q.promptTokens <= q.tokens
    requires 1 <= offer
    ensures 1 <= Split(c, q, start, offer) <= offer
    ensures Split(c, q, start, offer) == offer <==>
        NothingInside(Stops(c, q, start, start + offer), start, start + offer)
  {
    hide Stops;
    var end := start + offer;
    assert AlignedEnd(c, q, start, offer) == end;
    EarliestIsEndIff(Stops(c, q, start, end), start, end);
  }

  lemma {:induction false} EarliestIsEndIff(stops: seq<int>, start: int, end: int)
    requires start < end
    ensures start < EarliestStop(stops, start, end) <= end
    ensures EarliestStop(stops, start, end) == end <==> NothingInside(stops, start, end)
  {
    if stops != [] {
      EarliestIsEndIff(stops[1..], start, end);
      assert forall j :: 0 < j < |stops| ==> stops[j] == stops[1..][j - 1];
    }
  }

  /** The consequence: the drafts are still booked in full, so after the step the computed count is right
      exactly when the admission was whole; a shortened one ends up short by what was cut off. */
  lemma ShortenedPaddingDesynchronizes(r: Req, n: nat, drafts: nat, generated: nat)
    requires 0 < r.computed == r.tokens - 1 && r.placeholders == 0 && r.stale == 0
    requires 1 <= n <= 1 + drafts && drafts > 0 && 1 <= generated <= drafts + 1
    ensures var q := r.Advance(n).DrainShare(n).Deliver(false, drafts, generated, generated, 1);
            && q.tokens - 1 - q.computed == 1 + drafts - n
            && (q.computed == q.tokens - 1 <==> n == 1 + drafts)
  {
  }

  /** At the prompt's end, a chunk that starts inside a block does not run past the block. */
  lemma MidBlockIsCut(c: Rules, q: Prefill, start: int, offer: int)
    requires c.Valid() && start == q.tokens - 1 && start < q.End() && q.promptTokens <= q.tokens
    requires 1 <= offer && start % c.blockSize != 0 && start < NextBoundary(start, c.blockSize) < start + offer
    ensures start + Split(c, q, start, offer) <= NextBoundary(start, c.blockSize)
  {
    hide NextBoundary;
    var stops := Stops(c, q, start, start + offer);
    assert AlignedEnd(c, q, start, offer) == start + offer;
    assert stops[0] == NextBoundary(start, c.blockSize) && stops[0] in stops;
    hide Stops;
  }

  lemma CutExample(rules: Rules, q: Prefill)
    requires rules == Rules(16, 16, 0, 64, 0, false, false, false, false, 1) && q == Prefill(16, 16, 0)
    ensures Split(rules, q, 15, 3) == 1
  {
    hide Split;
    assert NextBoundary(15, 16) == 16;
    MidBlockIsCut(rules, q, 15, 3);
    StopsInside(rules, q, 15, 3);
  }

  /** An instance: blocks of 16, a prompt of 16 tokens of which 15 were found in the cache, and two
      draft tokens.  The admission is cut at the block boundary, and the two drafts stay booked. */
  lemma PaddingCanBeCut(cfg: Config, decodesOnly: bool)
    requires cfg.sampledPerStep == 1 && cfg.draftSlots == 0 && decodesOnly
    ensures var rules := Rules(16, 16, 0, 64, 0, false, false, false, false, 1);
            var lim := Limits(rules, true, 0, 4096, false, {}, map[]);
            var pass := Pass(64, 64, 64, map[], [], [], [], []);
            AdmissionShare(cfg, lim, AdmissionRules(false, true, 2, true), Prefill(16, 16, 0), 15, pass, decodesOnly)
            == Some(Share(1, 2))
  {
    var rules := Rules(16, 16, 0, 64, 0, false, false, false, false, 1);
    var q := Prefill(16, 16, 0);
    hide Split;
    CutExample(rules, q);
  }
}
