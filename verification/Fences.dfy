/** The deferred-free fence over every run: no block an unprocessed step may write is free. */
module Fences {
  import opened Ledger
  import opened Machine

  /** The non-empty steps of the FIFO carry consecutive numbers from `from + 1` to `to`. */
  ghost predicate Chained(steps: seq<Step>, from: nat, to: nat)
    decreases |steps|
  {
    if steps == [] then from == to
    else if steps[0].entries == map[] then Chained(steps[1..], from, to)
    else steps[0].seqNo == from + 1 && Chained(steps[1..], from + 1, to)
  }

  lemma {:induction false} ChainedAppend(steps: seq<Step>, from: nat, to: nat, st: Step)
    requires Chained(steps, from, to)
    ensures st.entries == map[] ==> Chained(steps + [st], from, to)
    ensures st.entries != map[] && st.seqNo == to + 1 ==> Chained(steps + [st], from, to + 1)
    decreases |steps|
  {
    if steps == [] {
      assert steps + [st] == [st];
    } else {
      assert (steps + [st])[1..] == steps[1..] + [st];
      ChainedAppend(steps[1..], if steps[0].entries == map[] then from else from + 1, to, st);
    }
  }

  lemma {:induction false} ChainedRange(steps: seq<Step>, from: nat, to: nat)
    requires Chained(steps, from, to)
    ensures from <= to
    ensures forall k :: 0 <= k < |steps| && steps[k].entries != map[] ==> from < steps[k].seqNo <= to
    decreases |steps|
  {
    if steps != [] {
      var rest := steps[1..];
      ChainedRange(rest, if steps[0].entries == map[] then from else from + 1, to);
      forall k | 0 <= k < |steps| && steps[k].entries != map[]
        ensures from < steps[k].seqNo <= to
      {
        if k > 0 {
          assert steps[k] == rest[k - 1];
        }
      }
    }
  }

  /** Steps whose writes may still be under way: the head counts as done once its output is processed. */
  function Unwritten(s: State): seq<Step> {
    if s.phase == Processing && s.steps != [] then s.steps[1..] else s.steps
  }

  ghost predicate StepProtected(p: Pool, st: Step) {
    forall id, b :: id in st.entries && b in st.entries[id].blocks ==> Protected(p, id, b, st.seqNo)
  }

  ghost predicate AllProtected(p: Pool, steps: seq<Step>) {
    forall k :: 0 <= k < |steps| ==> StepProtected(p, steps[k])
  }

  /** The pool's links to the request table. */
  ghost predicate Linked(s: State) {
    && s.reqs.Keys <= s.pool.lastSched.Keys
    && (forall id :: id in s.pool.active ==> id in s.reqs && s.reqs[id].status in {Running, Finished})
  }

  ghost predicate FenceInv(cfg: Config, s: State) {
    && s.pool.deferOn == cfg.deferBlockFree
    && Conserved(s.pool)
    && Linked(s)
    && (s.phase == Processing ==> s.steps != [])
    && (cfg.deferBlockFree ==>
          && FencesOrdered(s.pool)
          && Chained(Unwritten(s), s.pool.processed, s.pool.sched)
          && AllProtected(s.pool, Unwritten(s)))
  }

  // ------------------------------------------------------------- protection carries over

  /** Pools related so that whatever was protected for a pending step still is. */
  ghost predicate Carries(p: Pool, q: Pool) {
    forall id, b, n: nat :: Protected(p, id, b, n) && p.processed < n <= p.sched ==> Protected(q, id, b, n)
  }

  lemma CarriesAll(p: Pool, q: Pool, steps: seq<Step>)
    requires Carries(p, q) && AllProtected(p, steps) && Chained(steps, p.processed, p.sched)
    ensures AllProtected(q, steps)
  {
    ChainedRange(steps, p.processed, p.sched);
    forall k | 0 <= k < |steps|
      ensures StepProtected(q, steps[k])
    {
      assert StepProtected(p, steps[k]);
      forall id, b | id in steps[k].entries && b in steps[k].entries[id].blocks
        ensures Protected(q, id, b, steps[k].seqNo)
      {
        assert steps[k].entries != map[];
      }
    }
  }

  lemma ReleaseCarries(p: Pool, id: ReqId)
    requires p.deferOn && id in p.lastSched
    ensures Carries(p, p.Release(id))
  {
    forall x, b, n: nat | Protected(p, x, b, n) && p.processed < n <= p.sched
      ensures Protected(p.Release(id), x, b, n)
    {
      ReleaseProtects(p, id, x, b, n);
    }
  }

  lemma FreeNowCarries(p: Pool, id: ReqId)
    requires id !in p.active
    ensures Carries(p, p.FreeNow(id))
  {
    forall x, b, n: nat | Protected(p, x, b, n)
      ensures Protected(p.FreeNow(id), x, b, n)
    {
      FreeNowProtects(p, id, x, b, n);
    }
  }

  lemma AcquireCarries(p: Pool, id: ReqId, hits: seq<Block>, taken: seq<Block>)
    ensures Carries(p, p.Acquire(id, hits, taken))
  {
    forall x, b, n: nat | Protected(p, x, b, n)
      ensures Protected(p.Acquire(id, hits, taken), x, b, n)
    {
      AcquireProtects(p, id, hits, taken, x, b, n);
    }
  }

  lemma RetainCarries(p: Pool, blocks: seq<Block>)
    ensures Carries(p, p.RetainForCopy(blocks))
  {
    forall x, b, n: nat | Protected(p, x, b, n)
      ensures Protected(p.RetainForCopy(blocks), x, b, n)
    {
      RetainProtects(p, blocks, x, b, n);
    }
  }

  lemma CommitCarries(p: Pool, ids: set<ReqId>)
    ensures Carries(p, p.CommitStep(ids))
  {
    forall x, b, n: nat | Protected(p, x, b, n) && p.processed < n <= p.sched
      ensures Protected(p.CommitStep(ids), x, b, n)
    {
      CommitProtects(p, ids, x, b, n);
    }
  }

  // ------------------------------------------------------------- fences stay ordered

  lemma ReleaseKeepsFences(p: Pool, id: ReqId)
    requires FencesOrdered(p) && id in p.lastSched
    ensures FencesOrdered(p.Release(id))
  {
  }

  lemma RetainConserves(p: Pool, blocks: seq<Block>)
    requires Conserved(p)
    ensures Conserved(p.RetainForCopy(blocks))
  {
    SumDeferredAppend(p.deferred, DeferredFree(p.sched + 1, blocks));
  }

  /** With deferral on, the immediate branch of the copy release is never taken. */
  lemma CopyReleaseIsAlwaysDeferred(p: Pool, blocks: seq<Block>)
    requires FencesOrdered(p) && p.deferOn
    ensures p.RetainForCopy(blocks).deferred == p.deferred + [DeferredFree(p.sched + 1, blocks)]
  {
  }

  // ------------------------------------------------------------- preservation

  /** A change of the pool that keeps its numbers, ordering and protection. */
  ghost predicate PoolStep(p: Pool, q: Pool) {
    && q.deferOn == p.deferOn && Conserved(q)
    && (p.deferOn ==> q.sched == p.sched && q.processed == p.processed && FencesOrdered(q) && Carries(p, q))
  }

  lemma PoolStepKeeps(cfg: Config, s: State, t: State)
    requires FenceInv(cfg, s) && PoolStep(s.pool, t.pool) && Linked(t)
    requires Unwritten(t) == Unwritten(s) && (t.phase == Processing ==> t.steps != [])
    ensures FenceInv(cfg, t)
  {
    if cfg.deferBlockFree {
      CarriesAll(s.pool, t.pool, Unwritten(s));
    }
  }

  lemma ReleaseNumbers(p: Pool, id: ReqId)
    requires id in p.lastSched
    ensures var q := p.Release(id);
            && q.deferOn == p.deferOn && q.sched == p.sched && q.processed == p.processed
            && q.lastSched == p.lastSched && q.active == p.active - {id}
  {
  }

  lemma ReleaseIsStep(p: Pool, id: ReqId)
    requires Conserved(p) && id in p.lastSched && (p.deferOn ==> FencesOrdered(p))
    ensures PoolStep(p, p.Release(id))
  {
    ReleaseConserves(p, id);
    ReleaseNumbers(p, id);
    if p.deferOn {
      ReleaseKeepsFences(p, id);
      ReleaseCarries(p, id);
    }
  }

  lemma AcquireIsStep(p: Pool, id: ReqId, hits: seq<Block>, taken: seq<Block>)
    requires Conserved(p) && (p.deferOn ==> FencesOrdered(p))
    ensures PoolStep(p, p.Acquire(id, hits, taken))
  {
    AcquireConserves(p, id, hits, taken);
    AcquireCarries(p, id, hits, taken);
  }

  lemma FreeNowIsStep(p: Pool, id: ReqId)
    requires Conserved(p) && (p.deferOn ==> FencesOrdered(p)) && id !in p.active
    ensures PoolStep(p, p.FreeNow(id))
  {
    FreeNowConserves(p, id);
    FreeNowCarries(p, id);
  }

  lemma RetainIsStep(p: Pool, blocks: seq<Block>)
    requires Conserved(p) && (p.deferOn ==> FencesOrdered(p))
    ensures PoolStep(p, p.RetainForCopy(blocks))
  {
    RetainConserves(p, blocks);
    RetainCarries(p, blocks);
  }

  lemma AddKeepsFences(cfg: Config, s: State, e: Event)
    requires FenceInv(cfg, s) && Enabled(cfg, s, e) && e.Add?
    ensures FenceInv(cfg, Apply(cfg, s, e))
  {
    var t := Apply(cfg, s, e);
    forall k | 0 <= k < |s.steps| && cfg.deferBlockFree
      ensures StepProtected(t.pool, s.steps[k])
    {
      assert StepProtected(s.pool, s.steps[k]);
      forall id, b | id in s.steps[k].entries && b in s.steps[k].entries[id].blocks
        ensures Protected(t.pool, id, b, s.steps[k].seqNo)
      {
        assert id != e.id && Protected(s.pool, id, b, s.steps[k].seqNo);
      }
    }
  }

  /** A step is protected from the moment it is scheduled: its owners become active. */
  lemma NewStepProtected(p: Pool, st: Step)
    requires p.deferOn && st.entries != map[] && st.seqNo == p.sched + 1
    requires forall id :: id in st.entries ==> st.entries[id].blocks == p.Held(id)
    ensures StepProtected(p.CommitStep(st.entries.Keys), st)
  {
  }

  lemma CommitKeepsFences(cfg: Config, s: State)
    requires FenceInv(cfg, s) && s.phase == Scheduling
    requires forall id :: id in s.pass.shares ==> id in s.reqs && s.reqs[id].status == Running
    ensures FenceInv(cfg, ApplyCommit(s))
  {
    var t := ApplyCommit(s);
    var st := t.steps[|s.steps|];
    assert st.entries.Keys == s.pass.shares.Keys;
    assert t.pool == s.pool.CommitStep(st.entries.Keys);
    assert Linked(t);
    if cfg.deferBlockFree {
      CommitAppends(s.pool, s.steps, st);
    }
  }

  lemma CommitAppends(p: Pool, steps: seq<Step>, st: Step)
    requires p.deferOn && FencesOrdered(p) && Chained(steps, p.processed, p.sched) && AllProtected(p, steps)
    requires st.seqNo == p.CommitStep(st.entries.Keys).sched
    requires forall id :: id in st.entries ==> st.entries[id].blocks == p.Held(id)
    ensures var q := p.CommitStep(st.entries.Keys);
            FencesOrdered(q) && Chained(steps + [st], q.processed, q.sched) && AllProtected(q, steps + [st])
  {
    var q := p.CommitStep(st.entries.Keys);
    ChainedAppend(steps, p.processed, p.sched, st);
    CommitCarries(p, st.entries.Keys);
    CarriesAll(p, q, steps);
    if st.entries != map[] {
      assert st.entries.Keys != {};
      NewStepProtected(p, st);
    }
    assert forall k :: 0 <= k < |steps| ==> (steps + [st])[k] == steps[k];
  }

  lemma BeginOutputKeepsFences(cfg: Config, s: State)
    requires FenceInv(cfg, s) && s.phase == Idle && s.steps != []
    ensures FenceInv(cfg, Apply(cfg, s, BeginOutput))
  {
    var t := Apply(cfg, s, BeginOutput);
    if cfg.deferBlockFree && s.steps[0].entries != map[] {
      var p := s.pool;
      ChainedRange(s.steps[1..], p.processed + 1, p.sched);
      ProcessKeepsFences(p);
      var n := DrainMeaning(p.(processed := p.processed + 1));
      DrainConserves(p.(processed := p.processed + 1));
      forall k | 0 <= k < |s.steps[1..]|
        ensures StepProtected(t.pool, s.steps[1..][k])
      {
        var st := s.steps[1..][k];
        assert StepProtected(p, s.steps[k + 1]);
        forall id, b | id in st.entries && b in st.entries[id].blocks
          ensures Protected(t.pool, id, b, st.seqNo)
        {
          assert st.entries != map[];
          ProcessProtects(p, id, b, st.seqNo);
        }
      }
    } else {
      assert forall k :: 0 <= k < |s.steps[1..]| ==> s.steps[1..][k] == s.steps[k + 1];
    }
  }

  lemma EndOutputKeepsFences(cfg: Config, s: State)
    requires FenceInv(cfg, s) && s.phase == Processing && s.steps != []
    ensures FenceInv(cfg, s.(steps := s.steps[1..], phase := Idle))
  {
  }

  lemma PassEventsKeepFences(cfg: Config, s: State, e: Event)
    requires FenceInv(cfg, s) && Enabled(cfg, s, e) && (e.Take? || e.AdmitAsync? || e.Admit?)
    ensures FenceInv(cfg, Apply(cfg, s, e))
  {
    var id := if e.Take? then e.id else Head(s, e.fromSkipped);
    var hits := if e.Take? then [] else e.hits;
    AcquireIsStep(s.pool, id, hits, e.taken);
    PoolStepKeeps(cfg, s, Apply(cfg, s, e));
  }

  /** Releasing one request's blocks, with whatever happens outside the pool. */
  lemma ReleaseKeeps(cfg: Config, s: State, t: State, id: ReqId)
    requires FenceInv(cfg, s) && id in s.pool.lastSched
    requires t.pool == s.pool.Release(id) && t.steps == s.steps && t.phase == s.phase
    requires forall x :: x in t.reqs ==> x in s.reqs
    requires forall x :: x in s.reqs && x != id ==> x in t.reqs && t.reqs[x].status == s.reqs[x].status
    ensures FenceInv(cfg, t)
  {
    ReleaseNumbers(s.pool, id);
    assert Linked(t);
    ReleaseIsStep(s.pool, id);
    PoolStepKeeps(cfg, s, t);
  }

  /** A change outside the pool that keeps the requests scheduled since they acquired blocks. */
  lemma SamePoolKeeps(cfg: Config, s: State, t: State)
    requires FenceInv(cfg, s) && t.pool == s.pool && Linked(t)
    requires Unwritten(t) == Unwritten(s) && (t.phase == Processing ==> t.steps != [])
    ensures FenceInv(cfg, t)
  {
  }

  lemma PreemptKeepsFences(cfg: Config, s: State, e: Event)
    requires FenceInv(cfg, s) && Enabled(cfg, s, e) && e.Preempt?
    ensures FenceInv(cfg, Apply(cfg, s, e))
  {
    ReleaseKeeps(cfg, s, Apply(cfg, s, e), e.id);
  }

  lemma PromoteKeepsFences(cfg: Config, s: State, e: Event)
    requires FenceInv(cfg, s) && Enabled(cfg, s, e) && e.Promote?
    ensures FenceInv(cfg, Apply(cfg, s, e))
  {
    var id := Head(s, e.fromSkipped);
    var t := Apply(cfg, s, e);
    assert Linked(t);
    if t.pool == s.pool {
      SamePoolKeeps(cfg, s, t);
    } else {
      FreeNowIsStep(s.pool, id);
      PoolStepKeeps(cfg, s, t);
    }
  }

  lemma RetireKeepsFences(cfg: Config, s: State, id: ReqId, send: bool)
    requires FenceInv(cfg, s) && id in s.reqs && id in s.pool.lastSched
    ensures FenceInv(cfg, Retire(s, id, send))
  {
    var t := Retire(s, id, send);
    if MidLoad(s, id) || send {
      SamePoolKeeps(cfg, s, t);
    } else {
      ReleaseKeeps(cfg, s, t, id);
    }
  }

  lemma ReportsKeepFences(cfg: Config, s: State, e: Event)
    requires FenceInv(cfg, s) && Enabled(cfg, s, e) && (e.Received? || e.Sent?)
    ensures FenceInv(cfg, Apply(cfg, s, e))
  {
    var t := Apply(cfg, s, e);
    if e.Received? && s.reqs[e.id].status == WaitingForRemoteKvs {
      SamePoolKeeps(cfg, s, t);
    } else {
      ReleaseKeeps(cfg, s, t, e.id);
    }
  }

  lemma OutputKeepsFences(cfg: Config, s: State, e: Event)
    requires FenceInv(cfg, s) && Enabled(cfg, s, e) && e.Output?
    ensures FenceInv(cfg, Apply(cfg, s, e))
  {
    OutputShape(cfg, s, e);
    var t := Apply(cfg, s, e);
    if StopsRequest(s, e) {
      var d: Req :| && d.status == s.reqs[e.id].status && d.tokens >= s.reqs[e.id].tokens
                    && t == Retire(s.(steps := t.steps, reqs := s.reqs[e.id := d]), e.id, e.send);
      var u := s.(steps := t.steps, reqs := s.reqs[e.id := d]);
      SamePoolKeeps(cfg, s, u);
      RetireKeepsFences(cfg, u, e.id, e.send);
    } else {
      SamePoolKeeps(cfg, s, t);
    }
  }

  lemma QuietEventsKeepFences(cfg: Config, s: State, e: Event)
    requires FenceInv(cfg, s) && Enabled(cfg, s, e)
    requires || e.SetDrafts? || e.SetPlaceholders? || e.BeginPass? || e.Skip? || e.Requeue? || e.LoadsInvalid?
    ensures FenceInv(cfg, Apply(cfg, s, e))
  {
    SamePoolKeeps(cfg, s, Apply(cfg, s, e));
  }

  lemma RetainCopyKeepsFences(cfg: Config, s: State, e: Event)
    requires FenceInv(cfg, s) && Enabled(cfg, s, e) && e.RetainCopy?
    ensures FenceInv(cfg, Apply(cfg, s, e))
  {
    RetainIsStep(s.pool, e.blocks);
    PoolStepKeeps(cfg, s, Apply(cfg, s, e));
  }

  lemma FencesKept(cfg: Config, s: State, e: Event)
    requires FenceInv(cfg, s) && Enabled(cfg, s, e)
    requires forall id :: id in s.pass.shares ==> id in s.reqs && s.reqs[id].status == Running
    ensures FenceInv(cfg, Apply(cfg, s, e))
  {
    match e
    case Add(_, _, _, _, _, _) => AddKeepsFences(cfg, s, e);
    case Take(_, _, _) => PassEventsKeepFences(cfg, s, e);
    case AdmitAsync(_, _, _, _) => PassEventsKeepFences(cfg, s, e);
    case Admit(_, _, _, _, _, _) => PassEventsKeepFences(cfg, s, e);
    case Preempt(_, _, _) => PreemptKeepsFences(cfg, s, e);
    case Promote(_) => PromoteKeepsFences(cfg, s, e);
    case RetainCopy(_) => RetainCopyKeepsFences(cfg, s, e);
    case Commit => CommitKeepsFences(cfg, s);
    case BeginOutput => BeginOutputKeepsFences(cfg, s);
    case Output(_, _, _, _, _, _) => OutputKeepsFences(cfg, s, e);
    case EndOutput => EndOutputKeepsFences(cfg, s);
    case Finish(id, send) => RetireKeepsFences(cfg, s, id, send);
    case Received(_) => ReportsKeepFences(cfg, s, e);
    case Sent(_) => ReportsKeepFences(cfg, s, e);
    case _ => QuietEventsKeepFences(cfg, s, e);
  }
}
