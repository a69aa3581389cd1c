/** Block ownership and the deferred-free fence.

    A block is in the free pool exactly when nothing references it.  References are
    held by requests, or by entries of the `deferred_frees` queue that wait until the step
    named by their fence has been processed.
 */
module Ledger {
  import opened Collections

  type ReqId = nat
  type Block = nat

  datatype DeferredFree = DeferredFree(fence: nat, blocks: seq<Block>)

  datatype Pool = Pool(
    deferOn: bool,                    // defer_block_free
    refs: multiset<Block>,            // the block pool's reference counts
    held: map<ReqId, seq<Block>>,     // each request's block table
    lastSched: map<ReqId, nat>,       // Request.last_sched_seq
    active: set<ReqId>,               // history: scheduled since it acquired its blocks
    sched: nat,                       // sched_step_seq
    processed: nat,                   // processed_step_seq
    deferred: seq<DeferredFree>)      // deferred_frees
  {
    predicate Free(b: Block) {
      b !in refs
    }

    function Held(id: ReqId): seq<Block> {
      if id in held then held[id] else []
    }

    predicate CanAcquire(taken: seq<Block>) {
      && (forall k :: 0 <= k < |taken| ==> Free(taken[k]))
      && Distinct(taken)
    }

    /** allocate_slots: adopt cached blocks and take fresh ones from the free pool. */
    function Acquire(id: ReqId, hits: seq<Block>, taken: seq<Block>): Pool {
      this.(refs := refs + multiset(hits + taken), held := held[id := Held(id) + (hits + taken)])
    }

    /** KVCacheManager.free */
    function FreeNow(id: ReqId): Pool {
      this.(refs := refs - multiset(Held(id)), held := held - {id}, active := active - {id})
    }

    /** _free_request_blocks */
    function Release(id: ReqId): Pool
      requires id in lastSched
    {
      if !deferOn || lastSched[id] <= processed then FreeNow(id)
      else this.(held := held - {id}, active := active - {id},
                 deferred := if Held(id) == [] then deferred
                             else deferred + [DeferredFree(sched, Held(id))])
    }

    /** _free_cow_retained_blocks with fence `sched_step_seq + 1`, the retention included. */
    function RetainForCopy(blocks: seq<Block>): Pool {
      if !deferOn || sched + 1 <= processed then this
      else this.(refs := refs + multiset(blocks),
                 deferred := deferred + [DeferredFree(sched + 1, blocks)])
    }

    /** The fence part of schedule() and _update_after_schedule for the scheduled requests. */
    function CommitStep(ids: set<ReqId>): Pool {
      if ids == {} then this
      else if !deferOn then this.(active := active + ids)
      else this.(sched := sched + 1, active := active + ids,
                 lastSched := lastSched + map id | id in ids :: sched + 1)
    }

    /** _drain_deferred_frees */
    function Drain(): Pool
      decreases |deferred|
    {
      if deferred == [] || deferred[0].fence > processed then this
      else this.(refs := refs - multiset(deferred[0].blocks), deferred := deferred[1..]).Drain()
    }

    /** The fence part of update_from_output for a non-empty step. */
    function ProcessStep(): Pool {
      if deferOn then this.(processed := processed + 1).Drain() else this
    }

    function Admit(id: ReqId): Pool {
      this.(lastSched := lastSched[id := 0])
    }
  }

  // ------------------------------------------------------------- reference counts

  ghost function SumHeld(held: map<ReqId, seq<Block>>): multiset<Block> {
    if held == map[] then multiset{}
    else
      var id :| id in held;
      multiset(held[id]) + SumHeld(held - {id})
  }

  ghost function SumDeferred(d: seq<DeferredFree>): multiset<Block> {
    if d == [] then multiset{} else multiset(d[0].blocks) + SumDeferred(d[1..])
  }

  lemma {:induction false} SumHeldSplit(held: map<ReqId, seq<Block>>, id: ReqId)
    requires id in held
    ensures SumHeld(held) == multiset(held[id]) + SumHeld(held - {id})
    decreases held
  {
    var k :| k in held && SumHeld(held) == multiset(held[k]) + SumHeld(held - {k});
    if k != id {
      SumHeldSplit(held - {k}, id);
      SumHeldSplit(held - {id}, k);
      assert held - {k} - {id} == held - {id} - {k};
    }
  }

  lemma SumHeldUpdate(held: map<ReqId, seq<Block>>, id: ReqId, blocks: seq<Block>)
    ensures SumHeld(held[id := blocks]) == multiset(blocks) + SumHeld(held - {id})
  {
    SumHeldSplit(held[id := blocks], id);
    assert held[id := blocks] - {id} == held - {id};
  }

  lemma {:induction false} SumDeferredAppend(d: seq<DeferredFree>, e: DeferredFree)
    ensures SumDeferred(d + [e]) == SumDeferred(d) + multiset(e.blocks)
  {
    if d == [] {
      assert d + [e] == [e];
    } else {
      assert (d + [e])[1..] == d[1..] + [e];
      SumDeferredAppend(d[1..], e);
    }
  }

  lemma {:induction false} InSumDeferred(d: seq<DeferredFree>, k: nat, b: Block)
    requires k < |d| && b in d[k].blocks
    ensures b in SumDeferred(d)
  {
    if k > 0 {
      InSumDeferred(d[1..], k - 1, b);
    }
  }

  /** The conservation law: every reference is one request's hold or one deferred entry's. */
  ghost predicate Conserved(p: Pool) {
    p.refs == SumHeld(p.held) + SumDeferred(p.deferred)
  }

  lemma AcquireConserves(p: Pool, id: ReqId, hits: seq<Block>, taken: seq<Block>)
    requires Conserved(p)
    ensures Conserved(p.Acquire(id, hits, taken))
  {
    SumHeldUpdate(p.held, id, p.Held(id) + (hits + taken));
    if id in p.held {
      SumHeldSplit(p.held, id);
    } else {
      assert p.held - {id} == p.held;
    }
  }

  /** Freeing never underflows a reference count: the request's references are all there. */
  lemma FreeNowConserves(p: Pool, id: ReqId)
    requires Conserved(p)
    ensures multiset(p.Held(id)) <= p.refs
    ensures Conserved(p.FreeNow(id))
  {
    if id in p.held {
      SumHeldSplit(p.held, id);
    } else {
      assert p.held - {id} == p.held;
    }
  }

  lemma ReleaseConserves(p: Pool, id: ReqId)
    requires Conserved(p) && id in p.lastSched
    ensures Conserved(p.Release(id))
  {
    hide SumHeld, SumDeferred;
    if !p.deferOn || p.lastSched[id] <= p.processed {
      FreeNowConserves(p, id);
    } else {
      if id in p.held {
        HoldMoves(p.held, id, p.deferred, p.sched);
      } else {
        assert p.held - {id} == p.held;
      }
    }
  }

  /** Moving a request's blocks to the deferred queue moves their references. */
  lemma HoldMoves(held: map<ReqId, seq<Block>>, id: ReqId, d: seq<DeferredFree>, fence: nat)
    requires id in held
    ensures SumHeld(held - {id}) + SumDeferred(d + [DeferredFree(fence, held[id])]) == SumHeld(held) + SumDeferred(d)
    ensures held[id] == [] ==> SumHeld(held - {id}) == SumHeld(held)
  {
    SumHeldSplit(held, id);
    SumDeferredAppend(d, DeferredFree(fence, held[id]));
  }

  lemma {:induction false} DrainConserves(p: Pool)
    requires Conserved(p)
    ensures Conserved(p.Drain())
    decreases |p.deferred|
  {
    if p.deferred != [] && p.deferred[0].fence <= p.processed {
      DrainConserves(p.(refs := p.refs - multiset(p.deferred[0].blocks), deferred := p.deferred[1..]));
    }
  }

  // ------------------------------------------------------------- fences

  /** Fences are near-monotonic and never run more than one step ahead. */
  ghost predicate FencesOrdered(p: Pool) {
    && p.processed <= p.sched
    && (forall id :: id in p.lastSched ==> p.lastSched[id] <= p.sched)
    && (forall k :: 0 <= k < |p.deferred| ==> p.deferred[k].fence <= p.sched + 1)
    && (forall j, k :: 0 <= j < k < |p.deferred| ==> p.deferred[j].fence <= p.deferred[k].fence + 1)
    && (p.deferred != [] ==> p.deferred[0].fence > p.processed)
  }

  /** Draining removes the longest prefix of entries whose fence has been reached. */
  lemma {:induction false} DrainMeaning(p: Pool) returns (n: nat)
    ensures n <= |p.deferred| && p.Drain().deferred == p.deferred[n..]
    ensures forall k :: 0 <= k < n ==> p.deferred[k].fence <= p.processed
    ensures n < |p.deferred| ==> p.deferred[n].fence > p.processed
    ensures p.Drain() == p.(refs := p.Drain().refs, deferred := p.Drain().deferred)
    decreases |p.deferred|
  {
    n := 0;
    if p.deferred != [] && p.deferred[0].fence <= p.processed {
      var q := p.(refs := p.refs - multiset(p.deferred[0].blocks), deferred := p.deferred[1..]);
      var m := DrainMeaning(q);
      n := m + 1;
      assert p.deferred[n..] == q.deferred[m..];
      forall k | 0 < k < n
        ensures p.deferred[k].fence <= p.processed
      {
        assert p.deferred[k] == q.deferred[k - 1];
      }
    }
  }

  lemma ProcessKeepsFences(p: Pool)
    requires FencesOrdered(p) && p.deferOn && p.processed < p.sched
    ensures FencesOrdered(p.ProcessStep())
  {
    var n := DrainMeaning(p.(processed := p.processed + 1));
  }

  /** A fence is delayed by at most one non-empty step: an entry with fence f is gone once
      processed_step_seq has reached f + 1.  An entry whose own fence has been reached is
      still there only behind a first entry whose fence is exactly the next step. */
  lemma FenceReleasedInTime(p: Pool, k: nat)
    requires FencesOrdered(p) && k < |p.deferred|
    ensures p.deferred[k].fence >= p.processed
    ensures p.deferred[k].fence == p.processed ==>
              k > 0 && p.deferred[0].fence == p.processed + 1
  {
  }

  // ------------------------------------------------------------- writes in flight

  /** Something other than the free pool keeps `b` for a step with number `seqNo`: its
      owner, scheduled since it acquired the block, or a deferred entry fenced by the step. */
  ghost predicate Protected(p: Pool, id: ReqId, b: Block, seqNo: nat) {
    || (id in p.active && b in p.Held(id) && id in p.lastSched && p.lastSched[id] >= seqNo)
    || exists k :: 0 <= k < |p.deferred| && p.deferred[k].fence >= seqNo && b in p.deferred[k].blocks
  }

  lemma ProtectedIsNotFree(p: Pool, id: ReqId, b: Block, seqNo: nat)
    requires Conserved(p) && Protected(p, id, b, seqNo)
    ensures !p.Free(b)
  {
    if id in p.active && b in p.Held(id) {
      SumHeldSplit(p.held, id);
    } else {
      var k :| 0 <= k < |p.deferred| && p.deferred[k].fence >= seqNo && b in p.deferred[k].blocks;
      InSumDeferred(p.deferred, k, b);
    }
  }

  lemma ReleaseProtects(p: Pool, released: ReqId, id: ReqId, b: Block, seqNo: nat)
    requires p.deferOn && released in p.lastSched
    requires Protected(p, id, b, seqNo) && p.processed < seqNo <= p.sched
    ensures Protected(p.Release(released), id, b, seqNo)
  {
    var q := p.Release(released);
    if id in p.active && b in p.Held(id) && id in p.lastSched && p.lastSched[id] >= seqNo {
      if id == released {
        assert q.deferred[|p.deferred|].blocks == p.Held(id);
      }
    } else {
      var k :| 0 <= k < |p.deferred| && p.deferred[k].fence >= seqNo && b in p.deferred[k].blocks;
      assert q.deferred[k] == p.deferred[k];
    }
  }

  /** Freeing at once, past the fence, is safe for a request not scheduled since it acquired its blocks. */
  lemma FreeNowProtects(p: Pool, freed: ReqId, id: ReqId, b: Block, seqNo: nat)
    requires Protected(p, id, b, seqNo) && freed !in p.active
    ensures Protected(p.FreeNow(freed), id, b, seqNo)
  {
  }

  lemma ProcessProtects(p: Pool, id: ReqId, b: Block, seqNo: nat)
    requires p.deferOn && Protected(p, id, b, seqNo) && p.processed + 1 < seqNo
    ensures Protected(p.ProcessStep(), id, b, seqNo)
  {
    var r := p.(processed := p.processed + 1);
    var q := p.ProcessStep();
    var n := DrainMeaning(r);
    if !(id in p.active && b in p.Held(id) && id in p.lastSched && p.lastSched[id] >= seqNo) {
      var k :| 0 <= k < |p.deferred| && p.deferred[k].fence >= seqNo && b in p.deferred[k].blocks;
      assert q.deferred[k - n] == p.deferred[k];
    }
  }

  lemma AcquireProtects(p: Pool, owner: ReqId, hits: seq<Block>, taken: seq<Block>, id: ReqId, b: Block, seqNo: nat)
    requires Protected(p, id, b, seqNo)
    ensures Protected(p.Acquire(owner, hits, taken), id, b, seqNo)
  {
  }

  lemma RetainProtects(p: Pool, blocks: seq<Block>, id: ReqId, b: Block, seqNo: nat)
    requires Protected(p, id, b, seqNo)
    ensures Protected(p.RetainForCopy(blocks), id, b, seqNo)
  {
    var q := p.RetainForCopy(blocks);
    if !(id in p.active && b in p.Held(id) && id in p.lastSched && p.lastSched[id] >= seqNo) {
      var k :| 0 <= k < |p.deferred| && p.deferred[k].fence >= seqNo && b in p.deferred[k].blocks;
      assert q.deferred[k] == p.deferred[k];
    }
  }

  lemma CommitProtects(p: Pool, ids: set<ReqId>, id: ReqId, b: Block, seqNo: nat)
    requires Protected(p, id, b, seqNo) && seqNo <= p.sched
    ensures Protected(p.CommitStep(ids), id, b, seqNo)
  {
  }
}
