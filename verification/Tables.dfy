/** The scheduler's two stores: the dictionary of requests, and the deferred-free queue with
    its step counters.  `Is` ties each to its value in the state machine. */
module Tables {
  import opened Ledger
  import opened Machine
  import opened Requests
  import opened Options
  import opened Collections
  import opened LoadFailures
  import K = KvRecovery

  /** The request table once the shares of `done` have been booked. */
  function Booked(reqs: map<ReqId, Req>, shares: map<ReqId, Share>, done: set<ReqId>): map<ReqId, Req> {
    map id | id in reqs :: if id in done && id in shares then reqs[id].Advance(shares[id].n) else reqs[id]
  }

  function Fenced(lastSched: map<ReqId, nat>, deferOn: bool, seqNo: nat, done: set<ReqId>): map<ReqId, nat> {
    if deferOn then lastSched + map id | id in done :: seqNo else lastSched
  }

  lemma BookedNone(reqs: map<ReqId, Req>, shares: map<ReqId, Share>, lastSched: map<ReqId, nat>, deferOn: bool,
                   seqNo: nat)
    ensures Booked(reqs, shares, {}) == reqs && Fenced(lastSched, deferOn, seqNo, {}) == lastSched
  {
  }

  lemma BookOne(reqs: map<ReqId, Req>, shares: map<ReqId, Share>, done: set<ReqId>, id: ReqId)
    requires id in reqs && id in shares && id !in done
    ensures id in Booked(reqs, shares, done) && Booked(reqs, shares, done)[id] == reqs[id]
    ensures Booked(reqs, shares, done + {id}) == Booked(reqs, shares, done)[id := reqs[id].Advance(shares[id].n)]
  {
  }

  lemma FenceOne(lastSched: map<ReqId, nat>, deferOn: bool, seqNo: nat, done: set<ReqId>, id: ReqId)
    ensures var ls := Fenced(lastSched, deferOn, seqNo, done);
            Fenced(lastSched, deferOn, seqNo, done + {id}) == if deferOn then ls[id := seqNo] else ls
  {
  }

  /** self.requests: request id to Request. */
  class RequestTable {
    var requests: map<ReqId, Request>

    constructor ()
      ensures Is(map[], map[]) && requests == map[]
    {
      requests := map[];
    }

    ghost predicate Is(reqs: map<ReqId, Req>, lastSched: map<ReqId, nat>)
      reads this, requests.Values
    {
      && requests.Keys == reqs.Keys
      && (forall id :: id in requests ==>
            && requests[id].id == id && requests[id].View() == reqs[id]
            && id in lastSched && requests[id].lastSchedSeq == lastSched[id])
    }

    method Contains(id: ReqId, ghost reqs: map<ReqId, Req>, ghost ls: map<ReqId, nat>) returns (b: bool)
      requires Is(reqs, ls)
      ensures b <==> id in reqs
    {
      b := id in requests;
    }

    method Get(id: ReqId, ghost reqs: map<ReqId, Req>, ghost ls: map<ReqId, nat>) returns (r: Request)
      requires Is(reqs, ls) && id in reqs
      ensures id in ls && r.View() == reqs[id] && r.lastSchedSeq == ls[id]
    {
      r := requests[id];
    }

    method Add(id: ReqId, r: Request, ghost reqs: map<ReqId, Req>, ghost ls: map<ReqId, nat>)
      requires Is(reqs, ls) && id !in reqs && r.id == id && r.lastSchedSeq == 0
      modifies this
      ensures requests == old(requests)[id := r]
      ensures Is(reqs[id := r.View()], ls[id := 0])
    {
      requests := requests[id := r];
    }

    method Remove(id: ReqId, ghost reqs: map<ReqId, Req>, ghost ls: map<ReqId, nat>)
      requires Is(reqs, ls)
      modifies this
      ensures requests == old(requests) - {id} && Is(reqs - {id}, ls)
      ensures requests.Values <= old(requests.Values)
    {
      requests := requests - {id};
    }

    method Preempt(id: ReqId, drop: bool, ghost reqs: map<ReqId, Req>, ghost ls: map<ReqId, nat>)
      requires Is(reqs, ls) && id in reqs
      modifies requests.Values
      ensures requests == old(requests)
      ensures Is(reqs[id := reqs[id].Preempt(drop)], ls)
    {
      requests[id].MarkPreempted(drop);
    }

    method Advance(id: ReqId, n: nat, deferBlockFree: bool, seqNo: nat, ghost reqs: map<ReqId, Req>,
                   ghost ls: map<ReqId, nat>)
      requires Is(reqs, ls) && id in reqs
      modifies requests.Values
      ensures requests == old(requests)
      ensures Is(reqs[id := reqs[id].Advance(n)], if deferBlockFree then ls[id := seqNo] else ls)
    {
      requests[id].AdvanceComputed(n, deferBlockFree, seqNo);
    }

    /** The loop of _update_after_schedule. */
    method AdvanceAll(shares: map<ReqId, Share>, deferBlockFree: bool, seqNo: nat, ghost reqs: map<ReqId, Req>,
                      ghost ls: map<ReqId, nat>)
      requires Is(reqs, ls) && forall id :: id in shares ==> id in reqs
      modifies requests.Values
      ensures requests == old(requests)
      ensures Is(Booked(reqs, shares, shares.Keys), Fenced(ls, deferBlockFree, seqNo, shares.Keys))
    {
      hide Is, Booked, Fenced;
      var todo := shares.Keys;
      BookedNone(reqs, shares, ls, deferBlockFree, seqNo);
      assert shares.Keys - todo == {};
      while todo != {}
        invariant todo <= shares.Keys && requests == old(requests)
        invariant Is(Booked(reqs, shares, shares.Keys - todo), Fenced(ls, deferBlockFree, seqNo, shares.Keys - todo))
        decreases |todo|
      {
        var id :| id in todo;
        ghost var done := shares.Keys - todo;
        BookOne(reqs, shares, done, id);
        FenceOne(ls, deferBlockFree, seqNo, done, id);
        assert shares.Keys - (todo - {id}) == done + {id};
        Advance(id, shares[id].n, deferBlockFree, seqNo, Booked(reqs, shares, done),
                Fenced(ls, deferBlockFree, seqNo, done));
        todo := todo - {id};
      }
      assert shares.Keys - todo == shares.Keys;
    }

    method Drain(id: ReqId, n: nat, ghost reqs: map<ReqId, Req>, ghost ls: map<ReqId, nat>)
      returns (outputIsStale: bool)
      requires Is(reqs, ls) && id in reqs
      modifies requests.Values
      ensures requests == old(requests)
      ensures Is(reqs[id := reqs[id].DrainShare(n)], ls)
      ensures outputIsStale <==> reqs[id].stale > 0
    {
      outputIsStale := requests[id].DrainOutput(n);
    }

    method Accept(id: ReqId, outputIsStale: bool, drafts: nat, generated: nat, kept: nat, sampledPerStep: nat,
                  ghost reqs: map<ReqId, Req>, ghost ls: map<ReqId, nat>)
      requires Is(reqs, ls) && id in reqs
      modifies requests.Values
      ensures requests == old(requests)
      ensures Is(reqs[id := reqs[id].Deliver(outputIsStale, drafts, generated, kept, sampledPerStep)], ls)
    {
      requests[id].AcceptOutput(outputIsStale, drafts, generated, kept, sampledPerStep);
    }

    method TakeDrafts(id: ReqId, n: nat, ghost reqs: map<ReqId, Req>, ghost ls: map<ReqId, nat>)
      returns (scheduledDrafts: nat)
      requires Is(reqs, ls) && id in reqs
      modifies requests.Values
      ensures requests == old(requests)
      ensures Is(reqs[id := reqs[id].(specs := 0)], ls)
      ensures scheduledDrafts == reqs[id].DraftsIn(n)
    {
      scheduledDrafts := requests[id].TakeDrafts(n);
    }

    /** request.status = ..., request.num_computed_tokens = ... */
    method SetStatus(id: ReqId, status: Status, computed: int, ghost reqs: map<ReqId, Req>, ghost ls: map<ReqId, nat>)
      requires Is(reqs, ls) && id in reqs
      modifies requests.Values
      ensures requests == old(requests)
      ensures Is(reqs[id := reqs[id].(status := status, computed := computed)], ls)
    {
      requests[id].status := status;
      requests[id].computed := computed;
    }

    method ObjectsOf(ids: seq<ReqId>, ghost reqs: map<ReqId, Req>, ghost ls: map<ReqId, nat>)
      returns (objects: seq<Request>)
      requires Is(reqs, ls) && forall id :: id in ids ==> id in reqs
      ensures |objects| == |ids|
      ensures forall k :: 0 <= k < |ids| ==> ids[k] in requests && objects[k] == requests[ids[k]]
    {
      objects := [];
      for i := 0 to |ids|
        invariant |objects| == i
        invariant forall k :: 0 <= k < i ==> ids[k] in requests && objects[k] == requests[ids[k]]
      {
        objects := objects + [requests[ids[i]]];
      }
    }

    /** The table is `reqs` but for the computed tokens. */
    ghost predicate IsButComputed(reqs: map<ReqId, Req>, lastSched: map<ReqId, nat>)
      reads this, requests.Values
    {
      && requests.Keys == reqs.Keys
      && (forall id :: id in requests ==>
            && requests[id].id == id && requests[id].View() == reqs[id].(computed := requests[id].computed)
            && id in lastSched && requests[id].lastSchedSeq == lastSched[id])
    }

    /** The listed requests have kept what the scan leaves them. */
    ghost predicate HaveKept(rows: seq<K.Row>, blockSize: nat, invalid: set<Block>)
      requires blockSize > 0
      reads this, requests.Values
    {
      forall k :: 0 <= k < |rows| ==>
        && rows[k].id in requests
        && requests[rows[k].id].computed
           == K.Kept(rows[k], blockSize, invalid, K.MarkedBefore(rows, blockSize, invalid, k))
    }

    lemma RowsAreObjects(objects: seq<Request>, ids: seq<ReqId>, held: map<ReqId, seq<Block>>,
                         blockIds: map<ReqId, seq<Block>>, scheduled: map<ReqId, nat>, reqs: map<ReqId, Req>,
                         ls: map<ReqId, nat>)
      requires Is(reqs, ls) && AllKnown(reqs, ids) && Distinct(ids) && |objects| == |ids|
      requires forall k :: 0 <= k < |ids| ==> ids[k] in requests && objects[k] == requests[ids[k]]
      requires forall id :: id in ids ==> id in blockIds && blockIds[id] == BlocksOf(held, id)
      ensures K.AreRows(RowsFor(reqs, held, scheduled, ids), objects, blockIds, scheduled)
      ensures Distinct(objects)
      ensures forall k :: 0 <= k < |objects| ==> objects[k].id == ids[k]
    {
      forall k | 0 <= k < |ids|
        ensures objects[k].id == ids[k] && objects[k].computed == reqs[ids[k]].computed && ids[k] in blockIds
      {
        assert ids[k] in ids && requests[ids[k]].View() == reqs[ids[k]];
      }
    }

    /** Finds the objects and scans them. */
    method ScanLoads(loading: seq<ReqId>, running: seq<ReqId>, held: map<ReqId, seq<Block>>,
                     scheduled: map<ReqId, nat>, blockSize: nat, invalid: set<Block>, recompute: bool,
                     failed: set<ReqId>, ghost reqs: map<ReqId, Req>, ghost ls: map<ReqId, nat>)
      returns (skip: set<ReqId>, nowFailed: set<ReqId>, evicted: set<Block>)
      requires Is(reqs, ls) && blockSize > 0 && Distinct(loading) && Distinct(running)
      requires AllKnown(reqs, loading) && AllKnown(reqs, running)
      requires forall id :: id in loading ==> id !in running
      modifies requests.Values
      ensures requests == old(requests) && IsButComputed(reqs, ls)
      ensures var loads, runs := RowsFor(reqs, held, scheduled, loading), RowsFor(reqs, held, scheduled, running);
              && HaveKept(loads, blockSize, invalid) && HaveKept(runs, blockSize, invalid)
              && K.Recovered(loads, runs, blockSize, invalid, recompute, failed, skip, nowFailed, evicted)
      ensures forall id :: id in requests && id !in loading && id !in running ==>
          requests[id].computed == reqs[id].computed
    {
      hide K.Kept, K.MarkedBefore, K.AffectedIds, K.AllEvicted, K.Recovered, RowsFor;
      var loads := ObjectsOf(loading, reqs, ls);
      var runs := ObjectsOf(running, reqs, ls);
      var blockIds := map id | id in loading + running :: BlocksOf(held, id);
      RowsAreObjects(loads, loading, held, blockIds, scheduled, reqs, ls);
      RowsAreObjects(runs, running, held, blockIds, scheduled, reqs, ls);
      RowsHaveIds(reqs, held, scheduled, loading);
      RowsHaveIds(reqs, held, scheduled, running);
      DisjointObjects(loads, runs, loading, running);
      skip, nowFailed, evicted :=
        ScanObjects(loads, runs, blockIds, scheduled, blockSize, invalid, recompute, failed,
                    RowsFor(reqs, held, scheduled, loading), RowsFor(reqs, held, scheduled, running), reqs, ls);
      ObjectsHaveKept(loads, loading, RowsFor(reqs, held, scheduled, loading), blockSize, invalid);
      ObjectsHaveKept(runs, running, RowsFor(reqs, held, scheduled, running), blockSize, invalid);
    }

    lemma DisjointObjects(loads: seq<Request>, runs: seq<Request>, loading: seq<ReqId>, running: seq<ReqId>)
      requires |loads| == |loading| && |runs| == |running| && forall id :: id in loading ==> id !in running
      requires forall k :: 0 <= k < |loads| ==> loads[k].id == loading[k]
      requires forall k :: 0 <= k < |runs| ==> runs[k].id == running[k]
      ensures forall j, k :: 0 <= j < |loads| && 0 <= k < |runs| ==> loads[j] != runs[k]
    {
      forall j, k | 0 <= j < |loads| && 0 <= k < |runs|
        ensures loads[j] != runs[k]
      {
        assert loading[j] in loading && running[k] in running;
      }
    }

    lemma ObjectsHaveKept(objects: seq<Request>, ids: seq<ReqId>, rows: seq<K.Row>, blockSize: nat, invalid: set<Block>)
      requires blockSize > 0 && |objects| == |ids| == |rows|
      requires forall k :: 0 <= k < |ids| ==>
          ids[k] in requests && objects[k] == requests[ids[k]] && rows[k].id == ids[k]
      requires forall k :: 0 <= k < |objects| ==>
                 objects[k].computed == K.Kept(rows[k], blockSize, invalid, K.MarkedBefore(rows, blockSize, invalid, k))
      ensures HaveKept(rows, blockSize, invalid)
    {
      hide K.Kept, K.MarkedBefore;
    }

    /** Scans objects of the table. */
    method ScanObjects(loads: seq<Request>, runs: seq<Request>, blockIds: map<ReqId, seq<Block>>,
                       scheduled: map<ReqId, nat>, blockSize: nat, invalid: set<Block>, recompute: bool,
                       failed: set<ReqId>, ghost loadRows: seq<K.Row>, ghost runRows: seq<K.Row>,
                       ghost reqs: map<ReqId, Req>, ghost ls: map<ReqId, nat>)
      returns (skip: set<ReqId>, nowFailed: set<ReqId>, evicted: set<Block>)
      requires Is(reqs, ls) && blockSize > 0 && Distinct(loads) && Distinct(runs)
      requires K.AreRows(loadRows, loads, blockIds, scheduled) && K.AreRows(runRows, runs, blockIds, scheduled)
      requires forall j, k :: 0 <= j < |loads| && 0 <= k < |runs| ==> loads[j] != runs[k]
      requires (forall r :: r in loads ==> r in requests.Values) && (forall r :: r in runs ==> r in requests.Values)
      modifies requests.Values
      ensures requests == old(requests) && IsButComputed(reqs, ls)
      ensures forall k :: 0 <= k < |loads| ==>
                loads[k].computed
                == K.Kept(loadRows[k], blockSize, invalid, K.MarkedBefore(loadRows, blockSize, invalid, k))
      ensures forall k :: 0 <= k < |runs| ==>
                runs[k].computed
                == K.Kept(runRows[k], blockSize, invalid, K.MarkedBefore(runRows, blockSize, invalid, k))
      ensures K.Recovered(loadRows, runRows, blockSize, invalid, recompute, failed, skip, nowFailed, evicted)
      ensures forall id :: id in requests && requests[id] !in loads && requests[id] !in runs ==>
                requests[id].computed == reqs[id].computed
    {
      hide K.Kept, K.MarkedBefore, K.Recovered;
      skip, nowFailed, evicted :=
        K.HandleInvalidBlocks(loads, runs, blockIds, scheduled, blockSize, invalid, recompute, failed, loadRows,
                              runRows);
    }

    /** _handle_invalid_blocks() over the requests of the table: the loads and the running requests. */
    method RecoverLoads(loading: seq<ReqId>, running: seq<ReqId>, held: map<ReqId, seq<Block>>,
                        scheduled: map<ReqId, nat>, blockSize: nat, invalid: set<Block>, recompute: bool,
                        failed: set<ReqId>, ghost reqs: map<ReqId, Req>, ghost ls: map<ReqId, nat>)
      returns (skip: set<ReqId>, nowFailed: set<ReqId>, evicted: set<Block>, ghost truncated: map<ReqId, int>)
      requires Is(reqs, ls) && blockSize > 0 && Distinct(loading) && Distinct(running)
      requires AllKnown(reqs, loading) && AllKnown(reqs, running)
      requires forall id :: id in loading ==> id !in running
      modifies requests.Values
      ensures requests == old(requests)
      ensures var loads, runs := RowsFor(reqs, held, scheduled, loading), RowsFor(reqs, held, scheduled, running);
              && Recovers(truncated, loads, runs, blockSize, invalid)
              && K.Recovered(loads, runs, blockSize, invalid, recompute, failed, skip, nowFailed, evicted)
      ensures Is(Truncate(reqs, truncated), ls)
    {
      hide Is, IsButComputed, HaveKept, K.Recovered, RowsFor;
      skip, nowFailed, evicted :=
        ScanLoads(loading, running, held, scheduled, blockSize, invalid, recompute, failed, reqs, ls);
      truncated := TruncationOf(loading, running, held, scheduled, blockSize, invalid, reqs, ls);
    }

    /** What the scan has done to the table, as a truncation. */
    lemma TruncationOf(loading: seq<ReqId>, running: seq<ReqId>, held: map<ReqId, seq<Block>>,
                       scheduled: map<ReqId, nat>, blockSize: nat, invalid: set<Block>, reqs: map<ReqId, Req>,
                       ls: map<ReqId, nat>)
      returns (truncated: map<ReqId, int>)
      requires IsButComputed(reqs, ls) && blockSize > 0 && AllKnown(reqs, loading) && AllKnown(reqs, running)
      requires HaveKept(RowsFor(reqs, held, scheduled, loading), blockSize, invalid)
      requires HaveKept(RowsFor(reqs, held, scheduled, running), blockSize, invalid)
      requires forall id :: id in requests && id !in loading && id !in running ==>
          requests[id].computed == reqs[id].computed
      ensures Recovers(truncated, RowsFor(reqs, held, scheduled, loading), RowsFor(reqs, held, scheduled, running),
                       blockSize, invalid)
      ensures Is(Truncate(reqs, truncated), ls)
    {
      hide K.Kept, K.MarkedBefore, K.AffectedIds;
      var loads, runs := RowsFor(reqs, held, scheduled, loading), RowsFor(reqs, held, scheduled, running);
      AffectedHave(reqs, held, scheduled, loading, blockSize, invalid);
      AffectedHave(reqs, held, scheduled, running, blockSize, invalid);
      var affected := K.AffectedIds(loads, blockSize, invalid) + K.AffectedIds(runs, blockSize, invalid);
      truncated := map id | id in affected && id in requests :: requests[id].computed;
      forall id | id in requests && id !in truncated
        ensures requests[id].computed == reqs[id].computed
      {
        if id in loading {
          var k :| 0 <= k < |loading| && loading[k] == id;
          assert loads[k].id == id;
          NotAffectedKeeps(loads, blockSize, invalid, k);
        } else if id in running {
          var k :| 0 <= k < |running| && running[k] == id;
          assert runs[k].id == id;
          NotAffectedKeeps(runs, blockSize, invalid, k);
        }
      }
    }

    method SetSpecs(id: ReqId, specs: nat, ghost reqs: map<ReqId, Req>, ghost ls: map<ReqId, nat>)
      requires Is(reqs, ls) && id in reqs
      modifies requests.Values
      ensures requests == old(requests)
      ensures Is(reqs[id := reqs[id].(specs := specs)], ls)
    {
      requests[id].specs := specs;
    }
  }

  /** sched_step_seq, processed_step_seq and deferred_frees, over the KV cache manager. */
  class BlockFence {
    const deferBlockFree: bool
    const kv: KvCacheManager
    var schedStepSeq: nat
    var processedStepSeq: nat
    var deferredFrees: seq<DeferredFree>

    constructor (deferBlockFree: bool)
      ensures fresh(kv) && Is(Pool(deferBlockFree, multiset{}, map[], map[], {}, 0, 0, []))
    {
      this.deferBlockFree := deferBlockFree;
      kv := new KvCacheManager();
      schedStepSeq, processedStepSeq, deferredFrees := 0, 0, [];
    }

    ghost predicate Is(p: Pool)
      reads this, kv
    {
      && kv.Is(p) && p.deferOn == deferBlockFree
      && schedStepSeq == p.sched && processedStepSeq == p.processed && deferredFrees == p.deferred
    }

    method Allocate(id: ReqId, hits: seq<Block>, ghost p: Pool) returns (r: Option<seq<Block>>)
      requires Is(p)
      modifies kv
      ensures kv.refusals == old(kv.refusals) + if r.None? then 1 else 0
      ensures r.None? ==> Is(p)
      ensures r.Some? ==> p.CanAcquire(r.value) && Is(p.Acquire(id, hits, r.value))
    {
      r := kv.AllocateSlots(id, hits, p);
    }

    /** get_block_ids, for all requests. */
    method BlockIds(ghost p: Pool) returns (held: map<ReqId, seq<Block>>)
      requires Is(p)
      ensures held == p.held
    {
      held := kv.held;
    }

    method FreeNow(id: ReqId, ghost p: Pool)
      requires Is(p)
      modifies kv
      ensures Is(p.FreeNow(id)) && kv.refusals == old(kv.refusals)
    {
      kv.Free(id, p);
    }

    /** _free_request_blocks */
    method FreeRequestBlocks(id: ReqId, lastSchedSeq: nat, ghost p: Pool)
      requires Is(p) && id in p.lastSched && lastSchedSeq == p.lastSched[id]
      modifies this, kv
      ensures Is(p.Release(id)) && kv.refusals == old(kv.refusals)
    {
      if !deferBlockFree || lastSchedSeq <= processedStepSeq {
        kv.Free(id, p);
        return;
      }
      var blocks := kv.PopBlocksForFree(id);
      if blocks != [] {
        deferredFrees := deferredFrees + [DeferredFree(schedStepSeq, blocks)];
      }
    }

    /** _free_cow_retained_blocks: the manager has retained the copies' blocks. */
    method FreeCowRetainedBlocks(blocks: seq<Block>, fenceSeq: nat, ghost p: Pool)
      requires Is(p.(refs := p.refs + multiset(blocks))) && fenceSeq == p.sched + 1
      modifies this, kv
      ensures Is(p.RetainForCopy(blocks)) && kv.refusals == old(kv.refusals)
    {
      if !deferBlockFree || fenceSeq <= processedStepSeq {
        kv.FreeBlocks(blocks);
        return;
      }
      deferredFrees := deferredFrees + [DeferredFree(fenceSeq, blocks)];
    }

    /** The copies of a pass: the manager retains their blocks, then the scheduler defers the release. */
    method RetainCopies(blocks: seq<Block>, ghost p: Pool)
      requires Is(p)
      modifies this, kv
      ensures Is(p.RetainForCopy(blocks)) && kv.refusals == old(kv.refusals)
    {
      kv.refs := kv.refs + multiset(blocks);
      FreeCowRetainedBlocks(blocks, schedStepSeq + 1, p);
    }

    /** _drain_deferred_frees */
    method DrainDeferredFrees(ghost p: Pool)
      requires Is(p)
      modifies this, kv
      ensures Is(p.Drain())
    {
      ghost var q := p;
      while deferredFrees != []
        invariant Is(q) && q.Drain() == p.Drain()
        decreases |deferredFrees|
      {
        if deferredFrees[0].fence > processedStepSeq {
          break;
        }
        q := q.(refs := q.refs - multiset(q.deferred[0].blocks), deferred := q.deferred[1..]);
        kv.FreeBlocks(deferredFrees[0].blocks);
        deferredFrees := deferredFrees[1..];
      }
    }

    /** The counter that a non-empty step advances when it is scheduled. */
    method AdvanceSchedSeq(ids: set<ReqId>, ghost p: Pool) returns (seqNo: nat)
      requires Is(p)
      modifies this
      ensures Is(p.CommitStep(ids)) && seqNo == p.CommitStep(ids).sched
    {
      if deferBlockFree && ids != {} {
        schedStepSeq := schedStepSeq + 1;
      }
      seqNo := schedStepSeq;
    }

    /** The head of update_from_output for a non-empty step. */
    method StepProcessed(ghost p: Pool)
      requires Is(p)
      modifies this, kv
      ensures Is(p.ProcessStep())
    {
      if deferBlockFree {
        processedStepSeq := processedStepSeq + 1;
        DrainDeferredFrees(p.(processed := p.processed + 1));
      }
    }
  }
}
