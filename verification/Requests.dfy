/** The objects the scheduler updates in place: requests, and the block pool behind the
    KV cache manager. */
module Requests {
  import opened Ledger
  import opened Machine
  import opened Options
  import opened Collections

  class Request {
    const id: ReqId
    const promptTokens: nat
    const maxTokens: nat
    const priority: int
    const arrival: int
    var status: Status
    var tokens: nat
    var computed: int
    var placeholders: int
    var specs: nat
    var inFlight: int
    var stale: int
    var dropStale: bool
    var prefillChunk: bool
    var preemptions: nat
    var lastSchedSeq: nat
    ghost var dropEpoch: nat

    /** The request as the state machine sees it. */
    ghost function View(): Req
      reads this
    {
      Req(status, promptTokens, maxTokens, tokens, computed, placeholders, specs, inFlight, stale, dropStale,
          prefillChunk, preemptions, dropEpoch, priority, arrival)
    }

    constructor (id: ReqId, promptTokens: nat, maxTokens: nat, priority: int, arrival: int)
      ensures this.id == id && lastSchedSeq == 0
      ensures View() == NewRequest(promptTokens, maxTokens, priority, arrival)
    {
      this.id, this.promptTokens, this.maxTokens := id, promptTokens, maxTokens;
      this.priority, this.arrival := priority, arrival;
      status, tokens, computed, placeholders, specs := Waiting, promptTokens, 0, 0, 0;
      inFlight, stale, dropStale, prefillChunk, preemptions, lastSchedSeq, dropEpoch := 0, 0, false, false, 0, 0, 0;
    }

    /** The request's own fields in _preempt_request. */
    method MarkPreempted(drop: bool)
      modifies this
      ensures View() == old(View()).Preempt(drop) && lastSchedSeq == old(lastSchedSeq)
    {
      status := Preempted;
      computed := 0;
      if specs > 0 {
        specs := 0;
      }
      dropStale := drop || (dropStale && stale > 0);
      stale := inFlight;
      placeholders := 0;
      preemptions := preemptions + 1;
      if drop {
        dropEpoch := preemptions;
      }
    }

    /** One iteration of _update_after_schedule. */
    method AdvanceComputed(n: nat, deferBlockFree: bool, seqNo: nat)
      modifies this
      ensures View() == old(View()).Advance(n)
      ensures lastSchedSeq == if deferBlockFree then seqNo else old(lastSchedSeq)
    {
      computed := computed + n;
      inFlight := inFlight + n;
      if deferBlockFree {
        lastSchedSeq := seqNo;
      }
      prefillChunk := computed < tokens + placeholders;
    }

    /** The counters at the head of update_from_output's loop. */
    method DrainOutput(n: nat) returns (outputIsStale: bool)
      modifies this
      ensures View() == old(View()).DrainShare(n) && lastSchedSeq == old(lastSchedSeq)
      ensures outputIsStale <==> old(stale) > 0
    {
      outputIsStale := false;
      inFlight := inFlight - n;
      if stale > 0 {
        outputIsStale := true;
        stale := stale - n;
      }
    }

    /** Draft rejection and the append of the kept tokens. */
    method AcceptOutput(outputIsStale: bool, drafts: nat, generated: nat, kept: nat, sampledPerStep: nat)
      modifies this
      ensures View() == old(View()).Deliver(outputIsStale, drafts, generated, kept, sampledPerStep)
      ensures lastSchedSeq == old(lastSchedSeq)
    {
      if drafts > 0 && (generated > 0 || sampledPerStep == 0) {
        var accepted := if generated > sampledPerStep then generated - sampledPerStep else 0;
        var rejected := drafts - accepted;
        if !outputIsStale {
          if computed > 0 {
            computed := computed - rejected;
          }
          if placeholders > 0 {
            placeholders := placeholders - rejected;
          }
        }
      }
      tokens := tokens + kept;
    }

    /** The draft tokens of a share: truncated to what fits, then cleared. */
    method TakeDrafts(n: nat) returns (scheduledDrafts: nat)
      modifies this
      ensures View() == old(View()).(specs := 0) && lastSchedSeq == old(lastSchedSeq)
      ensures scheduledDrafts == old(View()).DraftsIn(n)
    {
      scheduledDrafts := 0;
      if specs > 0 {
        var room := n + computed - tokens - placeholders;
        if room > 0 {
          scheduledDrafts := if specs > room then room else specs;
        }
        specs := 0;
      }
    }
  }

  /** The KV cache manager, whose internals are not modelled: an allocation fails, or yields any
      blocks nothing references.  A count of the failures lets its callers say when they acted on one. */
  class KvCacheManager {
    var refs: multiset<Block>
    var held: map<ReqId, seq<Block>>
    ghost var refusals: nat       // how many allocations have failed

    constructor ()
      ensures refs == multiset{} && held == map[]
    {
      refs, held := multiset{}, map[];
    }

    /** These fields are the pool's reference counts and block tables. */
    ghost predicate Is(p: Pool)
      reads this
    {
      refs == p.refs && held == p.held
    }

    method AllocateSlots(id: ReqId, hits: seq<Block>, ghost p: Pool) returns (r: Option<seq<Block>>)
      requires Is(p)
      modifies this
      ensures refusals == old(refusals) + if r.None? then 1 else 0
      ensures r.None? ==> Is(p)
      ensures r.Some? ==> p.CanAcquire(r.value) && Is(p.Acquire(id, hits, r.value))
    {
      var taken: seq<Block> := *;
      var distinct := Distinct(taken);
      var unreferenced := forall k :: 0 <= k < |taken| ==> taken[k] !in refs;
      if !distinct || !unreferenced {
        refusals := refusals + 1;
        return None;
      }
      refs := refs + multiset(hits + taken);
      held := held[id := (if id in held then held[id] else []) + (hits + taken)];
      r := Some(taken);
    }

    /** Gives up the request's block table without touching the counts. */
    method PopBlocksForFree(id: ReqId) returns (blocks: seq<Block>)
      modifies this
      ensures refs == old(refs) && held == old(held) - {id} && refusals == old(refusals)
      ensures blocks == if id in old(held) then old(held)[id] else []
    {
      blocks := if id in held then held[id] else [];
      held := held - {id};
    }

    method FreeBlocks(blocks: seq<Block>)
      modifies this
      ensures refs == old(refs) - multiset(blocks) && held == old(held) && refusals == old(refusals)
    {
      refs := refs - multiset(blocks);
    }

    method Free(id: ReqId, ghost p: Pool)
      requires Is(p)
      modifies this
      ensures Is(p.FreeNow(id)) && refusals == old(refusals)
    {
      var blocks := PopBlocksForFree(id);
      FreeBlocks(blocks);
    }
  }
}
