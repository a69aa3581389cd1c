/** What the WAITING loop decides about one request: how much of it is already computed, and how
    many tokens of it to schedule. */
module Admissions {
  import opened Ledger
  import opened Machine
  import opened ChunkSplit
  import opened Offers
  import opened Options

  /** The local prefix-cache hit and its blocks; `agreed` is the hit on which all cache groups agree. */
  datatype LocalHit = LocalHit(tokens: nat, blocks: seq<Block>, diverged: bool, agreed: nat, agreedBlocks: seq<Block>)

  /** The connector's answer: undetermined, or how many tokens beyond the block-aligned local hit. */
  datatype RemoteHit = Undetermined | Matched(ext: nat, loadAsync: bool)

  datatype Prefix = Prefix(local: nat, external: nat, loadAsync: bool)
  {
    function Total(): nat {
      local + external
    }
  }

  /** The part of the configuration that only admissions use. */
  datatype AdmissionRules = AdmissionRules(
    connector: bool,            // a KV connector is attached
    padding: bool,              // neither a dynamic draft length nor an acceptance controller
    numSpecTokens: nat,         // num_spec_tokens
    chunkedPrefill: bool)       // enable_chunked_prefill

  /** The longer of the two hits wins: a remote one that reaches beyond the local one replaces the local sub-block
      tail, and its blocks; a local one that no remote hit backs is cut back to what all groups agree on. */
  ghost predicate IsReconciled(blockSize: int, hit: LocalHit, remote: RemoteHit, p: Prefix, blocks: seq<Block>)
    requires blockSize > 0 && remote.Matched?
  {
    var aligned := Floor(hit.tokens, blockSize);
    if aligned + remote.ext > hit.tokens
    then p == Prefix(aligned, remote.ext, remote.loadAsync)
         && blocks == if aligned < hit.tokens then Truncated(hit.blocks, aligned / blockSize) else hit.blocks
    else if hit.diverged then p == Prefix(hit.agreed, 0, false) && blocks == hit.agreedBlocks
    else p == Prefix(hit.tokens, 0, false) && blocks == hit.blocks
  }

  /** truncate_computed_blocks */
  function Truncated(blocks: seq<Block>, count: nat): seq<Block> {
    if |blocks| <= count then blocks else blocks[..count]
  }

  /** Combines the two hits. */
  method Reconcile(blockSize: int, hit: LocalHit, remote: RemoteHit) returns (p: Prefix, blocks: seq<Block>)
    requires blockSize > 0 && remote.Matched? && (remote.loadAsync ==> remote.ext > 0)
    ensures IsReconciled(blockSize, hit, remote, p, blocks)
    ensures p.external > 0 || !hit.diverged ==>
              p.Total() == Max(hit.tokens, Floor(hit.tokens, blockSize) + remote.ext)
  {
    var partialTail := hit.tokens % blockSize;
    var local, external, loadAsync := hit.tokens, 0, remote.loadAsync;
    blocks := hit.blocks;
    FloorBounds(hit.tokens, blockSize);
    FloorCount(hit.tokens, blockSize);
    if partialTail > 0 && remote.ext > partialTail {
      local := hit.tokens - partialTail;
      blocks := Truncated(blocks, local / blockSize);
      external := remote.ext;
    } else if partialTail > 0 {
      external := 0;
      loadAsync := false;
    } else {
      external := remote.ext;
    }
    if hit.diverged && external == 0 {
      local, blocks := hit.agreed, hit.agreedBlocks;
    }
    p := Prefix(local, external, loadAsync);
  }

  lemma FloorCount(x: nat, unit: int)
    requires unit > 0
    ensures Floor(x, unit) == x - x % unit && Floor(x, unit) / unit >= 0
  {
  }

  /** New decodes are padded to the uniform speculative width while the step is decode-only. */
  predicate Pads(cfg: Config, adm: AdmissionRules, tokens: int, computed: int, decodesOnly: bool) {
    adm.numSpecTokens > 0 && adm.padding && cfg.sampledPerStep > 0 && tokens - computed == 1 && decodesOnly
  }

  /** The share of an admitted request with `computed` tokens already computed; None stops the loop. */
  function AdmissionShare(cfg: Config, lim: Limits, adm: AdmissionRules, q: Prefill, computed: int, p: Pass,
                          decodesOnly: bool): Option<Share>
    requires lim.Valid() && computed < q.tokens && p.tokenBudget > 0 && p.inputBudget > cfg.draftSlots
  {
    var budget := Min(p.tokenBudget, p.inputBudget - cfg.draftSlots);
    var pad := Pads(cfg, adm, q.tokens, computed, decodesOnly);
    var wanted := if pad then 1 + adm.numSpecTokens else q.tokens - computed;
    if lim.deferPrefills && computed < q.tokens - 1 then None
    else if pad && (wanted > budget || computed + wanted > lim.maxModelLen) then None
    else if !adm.chunkedPrefill && Threshold(lim, wanted) > budget then None
    else
      var capped := Min(Threshold(lim, wanted), budget);
      var k := if lim.alignedSplit then Split(lim.rules, q, computed, capped) else capped;
      var n := Reserve(lim.rules, q.tokens, computed, k);
      if k <= 0 || n <= 0 then None else Some(Share(n, if pad then adm.numSpecTokens else 0))
  }

  /** An admitted share is positive, within both budgets, and never more than what the request lacks
      unless it was padded. */
  lemma AdmissionFits(cfg: Config, lim: Limits, adm: AdmissionRules, q: Prefill, computed: int, p: Pass,
                      decodesOnly: bool)
    requires lim.Valid() && computed < q.tokens && p.tokenBudget > 0 && p.inputBudget > cfg.draftSlots
    requires AdmissionShare(cfg, lim, adm, q, computed, p, decodesOnly).Some?
    ensures var share := AdmissionShare(cfg, lim, adm, q, computed, p, decodesOnly).value;
            && 0 < share.n <= p.tokenBudget && share.n + cfg.draftSlots <= p.inputBudget
            && share.n <= q.tokens - computed + share.drafts
            && (share.drafts > 0 ==> share.drafts == adm.numSpecTokens && computed == q.tokens - 1)
  {
    hide Split;
    var pad := Pads(cfg, adm, q.tokens, computed, decodesOnly);
    var wanted := if pad then 1 + adm.numSpecTokens else q.tokens - computed;
    var capped := Min(Threshold(lim, wanted), Min(p.tokenBudget, p.inputBudget - cfg.draftSlots));
    SplitAtMost(lim.rules, q, computed, capped);
  }

  /** What bounds an admitted share, in no order. */
  function AdmissionLimits(cfg: Config, lim: Limits, wanted: int, p: Pass): seq<int> {
    [wanted, p.tokenBudget, p.inputBudget - cfg.draftSlots]
    + if lim.rules.threshold > 0 then [lim.rules.threshold] else []
  }

  /** New decodes of a decode-only step, when they are padded. */
  predicate IsPadded(cfg: Config, adm: AdmissionRules, q: Prefill, computed: int, decodesOnly: bool) {
    decodesOnly && q.tokens == computed + 1 && adm.padding && adm.numSpecTokens > 0 && cfg.sampledPerStep > 0
  }

  /** An admission is exactly the least of its limits, of the demand or the padded width, split at the mandatory
      positions if chunks are aligned, and kept out of the lookahead window; and there is none exactly when that
      is nothing, or prefills are deferred, or the padded width does not fit, or the whole does not and chunks
      are not allowed. */
  lemma AdmissionIsLeast(cfg: Config, lim: Limits, adm: AdmissionRules, q: Prefill, computed: int, p: Pass,
                         decodesOnly: bool)
    returns (n: int)
    requires lim.Valid() && computed < q.tokens && p.tokenBudget > 0 && p.inputBudget > cfg.draftSlots
    ensures var padded := IsPadded(cfg, adm, q, computed, decodesOnly);
            var wanted := if padded then 1 + adm.numSpecTokens else q.tokens - computed;
            var m := Reserve(lim.rules, q.tokens, computed,
                             if lim.alignedSplit then Split(lim.rules, q, computed, n) else n);
            && IsLeast(n, AdmissionLimits(cfg, lim, wanted, p))
            && (AdmissionShare(cfg, lim, adm, q, computed, p, decodesOnly).None? <==>
                  || (lim.deferPrefills && computed < q.tokens - 1)
                  || (padded && (wanted > p.tokenBudget || wanted > p.inputBudget - cfg.draftSlots
                                 || computed + wanted > lim.maxModelLen))
                  || (!adm.chunkedPrefill && n != wanted && n != lim.rules.threshold)
                  || m == 0)
            && (AdmissionShare(cfg, lim, adm, q, computed, p, decodesOnly).Some? ==>
                  AdmissionShare(cfg, lim, adm, q, computed, p, decodesOnly).value
                  == Share(m, if padded then adm.numSpecTokens else 0))
  {
    hide Split;
    var wanted := if IsPadded(cfg, adm, q, computed, decodesOnly) then 1 + adm.numSpecTokens else q.tokens - computed;
    n := Min(Min(wanted, p.tokenBudget), p.inputBudget - cfg.draftSlots);
    if lim.rules.threshold > 0 {
      n := Min(n, lim.rules.threshold);
    }
    assert IsLeast(n, AdmissionLimits(cfg, lim, wanted, p));
  }

  /** A chunked admission that is neither aligned, padded nor deferred always exists, and is the least of what
      is left to compute, the budgets and the threshold. */
  lemma ChunkedAdmissionIsLeast(cfg: Config, lim: Limits, adm: AdmissionRules, q: Prefill, computed: int, p: Pass,
                                decodesOnly: bool)
    requires lim.Valid() && computed < q.tokens && p.tokenBudget > 0 && p.inputBudget > cfg.draftSlots
    requires adm.chunkedPrefill && !lim.alignedSplit && lim.rules.lookahead <= 1 && !lim.deferPrefills
    requires !IsPadded(cfg, adm, q, computed, decodesOnly)
    ensures AdmissionShare(cfg, lim, adm, q, computed, p, decodesOnly).Some?
    ensures var share := AdmissionShare(cfg, lim, adm, q, computed, p, decodesOnly).value;
            && share.drafts == 0
            && share.n <= q.tokens - computed && share.n <= p.tokenBudget && share.n <= p.inputBudget - cfg.draftSlots
            && (lim.rules.threshold > 0 ==> share.n <= lim.rules.threshold)
            && (|| share.n == q.tokens - computed || share.n == p.tokenBudget
                || share.n == p.inputBudget - cfg.draftSlots || share.n == lim.rules.threshold)
  {
    var n := AdmissionIsLeast(cfg, lim, adm, q, computed, p, decodesOnly);
  }

  /** Without chunked prefill an admission is all or nothing, up to the threshold. */
  lemma UnchunkedAdmissionIsWhole(cfg: Config, lim: Limits, adm: AdmissionRules, q: Prefill, computed: int, p: Pass,
                                  decodesOnly: bool)
    requires lim.Valid() && computed < q.tokens && p.tokenBudget > 0 && p.inputBudget > cfg.draftSlots
    requires !adm.chunkedPrefill && !lim.alignedSplit && lim.rules.lookahead <= 1
    requires AdmissionShare(cfg, lim, adm, q, computed, p, decodesOnly).Some?
    ensures var share := AdmissionShare(cfg, lim, adm, q, computed, p, decodesOnly).value;
            share.n == Threshold(lim, q.tokens - computed + share.drafts)
  {
  }

  /** num_new_tokens of the WAITING loop, reassigned limit by limit. */
  method AdmissionOffer(cfg: Config, lim: Limits, adm: AdmissionRules, q: Prefill, computed: int, p: Pass,
                        decodesOnly: bool)
    returns (share: Option<Share>)
    requires lim.Valid() && computed < q.tokens && p.tokenBudget > 0 && p.inputBudget > cfg.draftSlots
    ensures share == AdmissionShare(cfg, lim, adm, q, computed, p, decodesOnly)
  {
    hide Split;
    if lim.deferPrefills && computed < q.tokens - 1 {
      return None;
    }
    var budget := Min(p.tokenBudget, p.inputBudget - cfg.draftSlots);
    var n := q.tokens - computed;
    var padSpecDecode := false;
    if adm.numSpecTokens > 0 && adm.padding && cfg.sampledPerStep > 0 && n == 1 && decodesOnly {
      n := 1 + adm.numSpecTokens;
      if n > budget || computed + n > lim.maxModelLen {
        return None;
      }
      padSpecDecode := true;
    }
    if 0 < lim.rules.threshold < n {
      n := lim.rules.threshold;
    }
    if !adm.chunkedPrefill && n > budget {
      return None;
    }
    n := Min(n, budget);
    if lim.alignedSplit {
      n := MambaBlockAlignedSplit(lim.rules, q, computed, n);
      if n == 0 {
        return None;
      }
    }
    n := ReservePrefillLookahead(lim.rules, q.tokens, computed, n);
    if n == 0 {
      return None;
    }
    share := Some(Share(n, if padSpecDecode then adm.numSpecTokens else 0));
  }

  /** The local prefix cache, an environment: it never reports the last token as computed. */
  class LocalCache {
    ghost var hit: LocalHit       // the latest answer

    constructor ()
    {
      hit := LocalHit(0, [], false, 0, []);
    }

    method GetComputedBlocks(tokens: nat) returns (found: LocalHit)
      requires tokens > 0
      modifies this
      ensures found == hit && found.tokens < tokens && found.agreed < tokens
    {
      var local: nat :| local < tokens;
      var agreed: nat :| agreed < tokens;
      var blocks: seq<Block>, diverged: bool, agreedBlocks: seq<Block> := *, *, *;
      found := LocalHit(local, blocks, diverged, agreed, agreedBlocks);
      hit := found;
    }
  }

  predicate MayMatch(aligned: nat, tokens: nat, ext: nat, loadAsync: bool) {
    aligned + ext <= tokens && (!loadAsync ==> aligned + ext < tokens) && (loadAsync ==> ext > 0)
  }

  /** The connector, an environment: what it matches beyond the block-aligned local hit lies within the
      request, and includes its last token only to load it asynchronously.  A count of the answers it left
      undetermined lets its callers say when they acted on one. */
  class Connector {
    ghost var undetermined: nat
    ghost var answer: RemoteHit   // the latest answer

    constructor ()
    {
      undetermined, answer := 0, Undetermined;
    }

    method GetNumNewMatchedTokens(aligned: nat, tokens: nat) returns (remote: RemoteHit)
      requires aligned < tokens
      modifies this
      ensures undetermined == old(undetermined) + (if remote.Undetermined? then 1 else 0) && answer == remote
      ensures remote.Matched? ==> MayMatch(aligned, tokens, remote.ext, remote.loadAsync)
    {
      var pending: bool := *;
      if pending {
        undetermined, answer := undetermined + 1, Undetermined;
        return Undetermined;
      }
      assert MayMatch(aligned, tokens, 0, false);
      var ext: nat, loadAsync: bool :| MayMatch(aligned, tokens, ext, loadAsync);
      remote := Matched(ext, loadAsync);
      answer := remote;
    }
  }

  /** What the two answers make of a request with nothing computed; None leaves it for a later pass. */
  ghost predicate IsFound(adm: AdmissionRules, blockSize: int, hit: LocalHit, answer: RemoteHit,
                          prefix: Option<Prefix>, blocks: seq<Block>)
    requires blockSize > 0
  {
    if !adm.connector then prefix == Some(Prefix(hit.tokens, 0, false)) && blocks == hit.blocks
    else if answer.Undetermined? then prefix == None
    else prefix.Some? && IsReconciled(blockSize, hit, answer, prefix.value, blocks)
  }

  /** The cache lookups for a request with nothing computed.  The total stays within the request, as the loop
      asserts, and leaves a token to compute unless it is loaded asynchronously. */
  method LookUp(adm: AdmissionRules, cache: LocalCache, connector: Connector, blockSize: int, tokens: nat)
    returns (blocks: seq<Block>, prefix: Option<Prefix>)
    requires blockSize > 0 && tokens > 0
    modifies cache, connector
    ensures IsFound(adm, blockSize, cache.hit, connector.answer, prefix, blocks)
    ensures connector.undetermined == old(connector.undetermined) + if prefix.None? then 1 else 0
    ensures prefix.None? ==> adm.connector
    ensures prefix.Some? ==>
              && prefix.value.Total() <= tokens
              && (prefix.value.loadAsync ==> adm.connector && prefix.value.external > 0)
              && (!prefix.value.loadAsync ==> prefix.value.Total() < tokens)
  {
    var hit := cache.GetComputedBlocks(tokens);
    if !adm.connector {
      return hit.blocks, Some(Prefix(hit.tokens, 0, false));
    }
    FloorBounds(hit.tokens, blockSize);
    FloorCount(hit.tokens, blockSize);
    var remote := connector.GetNumNewMatchedTokens(hit.tokens - hit.tokens % blockSize, tokens);
    if remote.Undetermined? {
      return hit.blocks, None;
    }
    var p, found := Reconcile(blockSize, hit, remote);
    assert p.Total() <= tokens;
    return found, Some(p);
  }
}
