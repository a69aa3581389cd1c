/** In-flight and stale token counters over every run of the scheduler. */
module Counters {
  import opened Ledger
  import opened Machine

  /** What a request's counters mean, given the unprocessed steps. */
  ghost predicate CountsOk(r: Req, steps: seq<Step>, id: ReqId) {
    && r.inFlight == Due(steps, id)
    && r.stale == DueBefore(steps, id, r.preemptions)
    && r.dropEpoch <= r.preemptions
    && (DueBefore(steps, id, r.dropEpoch) > 0 ==> r.dropStale)
    && (r.status in {Waiting, WaitingForRemoteKvs, Preempted} ==> r.stale == r.inFlight)
    && (r.status in {Running, WaitingForRemoteKvs} && r.stale > 0 ==> r.dropStale)
    && (AwaitsStale(r) ==> LatestOnly(steps, id, r.preemptions))
  }

  /** Of the shares scheduled before the latest preemption, all were scheduled since the one before it. */
  ghost predicate LatestOnly(steps: seq<Step>, id: ReqId, preemptions: nat) {
    forall k :: 0 <= k < |steps| && id in steps[k].entries && steps[k].entries[id].epoch < preemptions ==>
      steps[k].entries[id].epoch == preemptions - 1
  }

  /** A request is preempted ever more often, so later shares carry later epochs. */
  ghost predicate EpochsOrdered(steps: seq<Step>) {
    forall j, k, id :: 0 <= j < k < |steps| && id in steps[j].entries && id in steps[k].entries ==>
      steps[j].entries[id].epoch <= steps[k].entries[id].epoch
  }

  ghost predicate StepBounded(reqs: map<ReqId, Req>, st: Step) {
    forall id :: id in st.entries ==> EntryBounded(reqs, id, st.entries[id])
  }

  ghost predicate EntryBounded(reqs: map<ReqId, Req>, id: ReqId, e: Entry) {
    e.n > 0 && (id in reqs ==> e.epoch <= reqs[id].preemptions)
  }

  ghost predicate EpochsBounded(reqs: map<ReqId, Req>, steps: seq<Step>) {
    forall k :: 0 <= k < |steps| ==> StepBounded(reqs, steps[k])
  }

  /** Entries stay bounded while preemption counts do not shrink. */
  lemma BoundedGrows(before: map<ReqId, Req>, after: map<ReqId, Req>, steps: seq<Step>)
    requires EpochsBounded(before, steps)
    requires forall id :: id in after ==>
      (id in before && before[id].preemptions <= after[id].preemptions)
      || forall k :: 0 <= k < |steps| ==> id !in steps[k].entries
    ensures EpochsBounded(after, steps)
  {
    forall k | 0 <= k < |steps|
      ensures StepBounded(after, steps[k])
    {
      assert StepBounded(before, steps[k]);
      forall id | id in steps[k].entries
        ensures EntryBounded(after, id, steps[k].entries[id])
      {
        assert EntryBounded(before, id, steps[k].entries[id]);
      }
    }
  }

  ghost predicate CountsInv(reqs: map<ReqId, Req>, steps: seq<Step>) {
    && (forall id :: id in reqs ==> CountsOk(reqs[id], steps, id))
    && EpochsOrdered(steps)
    && EpochsBounded(reqs, steps)
  }

  // ------------------------------------------------------------- sums over the FIFO

  lemma {:induction false} DueNone(steps: seq<Step>, id: ReqId, epoch: nat)
    requires forall k :: 0 <= k < |steps| ==> id !in steps[k].entries
    ensures Due(steps, id) == 0 && DueBefore(steps, id, epoch) == 0
  {
    if steps != [] {
      DueNone(steps[1..], id, epoch);
    }
  }

  lemma {:induction false} DueAppend(steps: seq<Step>, st: Step, id: ReqId, epoch: nat)
    ensures Due(steps + [st], id) == Due(steps, id) + ShareOf(st, id)
    ensures DueBefore(steps + [st], id, epoch) == DueBefore(steps, id, epoch) + ShareBefore(st, id, epoch)
  {
    if steps == [] {
      assert steps + [st] == [st];
    } else {
      assert (steps + [st])[1..] == steps[1..] + [st];
      DueAppend(steps[1..], st, id, epoch);
    }
  }

  lemma {:induction false} DueBeforeMono(steps: seq<Step>, id: ReqId, early: nat, late: nat)
    requires early <= late
    ensures DueBefore(steps, id, early) <= DueBefore(steps, id, late) <= Due(steps, id)
  {
    if steps != [] {
      DueBeforeMono(steps[1..], id, early, late);
    }
  }

  lemma {:induction false} DueBeforeAll(steps: seq<Step>, id: ReqId, epoch: nat)
    requires forall k :: 0 <= k < |steps| && id in steps[k].entries ==> steps[k].entries[id].epoch < epoch
    ensures DueBefore(steps, id, epoch) == Due(steps, id)
  {
    if steps != [] {
      DueBeforeAll(steps[1..], id, epoch);
    }
  }

  lemma {:induction false} DueBeforeZero(steps: seq<Step>, id: ReqId, epoch: nat)
    requires forall k :: 0 <= k < |steps| && id in steps[k].entries ==> steps[k].entries[id].epoch >= epoch
    ensures DueBefore(steps, id, epoch) == 0
  {
    if steps != [] {
      DueBeforeZero(steps[1..], id, epoch);
    }
  }

  lemma {:induction false} DueAtLeast(steps: seq<Step>, id: ReqId, k: nat, epoch: nat)
    requires k < |steps| && id in steps[k].entries
    ensures Due(steps, id) >= steps[k].entries[id].n
    ensures steps[k].entries[id].epoch < epoch ==> DueBefore(steps, id, epoch) >= steps[k].entries[id].n
  {
    if k > 0 {
      DueAtLeast(steps[1..], id, k - 1, epoch);
    }
  }

  // ------------------------------------------------------------- the head of the FIFO

  /** The head step's output of a request is stale exactly when it was scheduled before the
      request's latest preemption. */
  lemma HeadStaleIff(reqs: map<ReqId, Req>, steps: seq<Step>, id: ReqId)
    requires CountsInv(reqs, steps) && steps != [] && id in steps[0].entries && id in reqs
    ensures reqs[id].stale > 0 <==> steps[0].entries[id].epoch < reqs[id].preemptions
    ensures reqs[id].stale > 0 ==> reqs[id].stale >= steps[0].entries[id].n
  {
    var r, e := reqs[id], steps[0].entries[id];
    assert StepBounded(reqs, steps[0]) && EntryBounded(reqs, id, e);
    DueAtLeast(steps, id, 0, r.preemptions);
    if e.epoch >= r.preemptions {
      DueBeforeZero(steps, id, r.preemptions);
    }
  }

  /** Taking one entry out of the head step. */
  function WithoutHeadEntry(steps: seq<Step>, id: ReqId): seq<Step>
    requires steps != []
  {
    [steps[0].(entries := steps[0].entries - {id})] + steps[1..]
  }

  lemma HeadEntryRemoved(steps: seq<Step>, id: ReqId, x: ReqId, epoch: nat)
    requires steps != [] && id in steps[0].entries
    ensures var rest := WithoutHeadEntry(steps, id);
            && Due(rest, x) == Due(steps, x) - (if x == id then steps[0].entries[id].n else 0)
            && DueBefore(rest, x, epoch) == DueBefore(steps, x, epoch)
                - (if x == id && steps[0].entries[id].epoch < epoch then steps[0].entries[id].n else 0)
  {
    assert WithoutHeadEntry(steps, id)[1..] == steps[1..];
  }

  lemma HeadEntryRemovedEpochs(reqs: map<ReqId, Req>, steps: seq<Step>, id: ReqId)
    requires steps != [] && EpochsOrdered(steps) && EpochsBounded(reqs, steps)
    ensures EpochsOrdered(WithoutHeadEntry(steps, id)) && EpochsBounded(reqs, WithoutHeadEntry(steps, id))
  {
    var rest := WithoutHeadEntry(steps, id);
    forall k | 0 <= k < |rest|
      ensures StepBounded(reqs, rest[k])
      ensures forall x :: x in rest[k].entries ==> x in steps[k].entries && rest[k].entries[x] == steps[k].entries[x]
    {
      assert StepBounded(reqs, steps[k]);
      forall x | x in rest[k].entries
        ensures EntryBounded(reqs, x, rest[k].entries[x])
      {
        assert EntryBounded(reqs, x, steps[k].entries[x]);
      }
    }
  }

  /** Draining the head share keeps the counters' meaning, whatever is delivered with it. */
  lemma DrainKeepsCounts(reqs: map<ReqId, Req>, steps: seq<Step>, id: ReqId)
    requires CountsInv(reqs, steps) && steps != [] && id in steps[0].entries && id in reqs
    ensures CountsOk(reqs[id].DrainShare(steps[0].entries[id].n), WithoutHeadEntry(steps, id), id)
  {
    var r := reqs[id];
    HeadStaleIff(reqs, steps, id);
    HeadEntryRemoved(steps, id, id, r.preemptions);
    HeadEntryRemoved(steps, id, id, r.dropEpoch);
  }

  lemma OtherDrainKeepsCount(r: Req, steps: seq<Step>, id: ReqId, x: ReqId)
    requires CountsOk(r, steps, x) && steps != [] && id in steps[0].entries && x != id
    ensures CountsOk(r, WithoutHeadEntry(steps, id), x)
  {
    HeadEntryRemoved(steps, id, x, r.preemptions);
    HeadEntryRemoved(steps, id, x, r.dropEpoch);
  }

  /** Preemption in either mode keeps it too. */
  lemma PreemptKeepsCounts(r: Req, steps: seq<Step>, id: ReqId, drop: bool)
    requires CountsOk(r, steps, id) && r.status == Running
    requires forall k :: 0 <= k < |steps| && id in steps[k].entries ==>
               steps[k].entries[id].epoch <= r.preemptions && steps[k].entries[id].n > 0
    ensures CountsOk(r.Preempt(drop), steps, id)
  {
    DueBeforeAll(steps, id, r.preemptions + 1);
    DueBeforeMono(steps, id, r.dropEpoch, r.preemptions);
    forall k | 0 <= k < |steps| && id in steps[k].entries && steps[k].entries[id].epoch < r.preemptions
      ensures r.stale > 0 && r.dropStale
    {
      DueAtLeast(steps, id, k, r.preemptions);
    }
  }

  // ------------------------------------------------------------- preservation

  /** Request tables that differ only outside the counters. */
  ghost predicate SameCounters(r: Req, q: Req) {
    && q == r.(status := q.status, tokens := q.tokens, computed := q.computed, placeholders := q.placeholders,
               specs := q.specs, prefillChunk := q.prefillChunk)
    && (q.status == r.status || q.status == Finished
        || (q.status in {Waiting, Preempted} && r.status == WaitingForRemoteKvs)
        || (q.status in {Running, WaitingForRemoteKvs} && r.status in {Waiting, Preempted} && !AwaitsStale(r)))
  }

  lemma SameCountersKeep(before: map<ReqId, Req>, after: map<ReqId, Req>, steps: seq<Step>)
    requires CountsInv(before, steps)
    requires forall id :: id in after ==> id in before && SameCounters(before[id], after[id])
    ensures CountsInv(after, steps)
  {
    forall id | id in after
      ensures CountsOk(after[id], steps, id)
    {
      assert CountsOk(before[id], steps, id) && SameCounters(before[id], after[id]);
    }
    BoundedGrows(before, after, steps);
  }

  lemma CommitKeepsCount(s: State, id: ReqId)
    requires id in s.reqs && CountsOk(s.reqs[id], s.steps, id)
    requires id in s.pass.shares ==> s.reqs[id].status == Running
    ensures CountsOk(ApplyCommit(s).reqs[id], ApplyCommit(s).steps, id)
  {
    var t := ApplyCommit(s);
    DueAppend(s.steps, t.steps[|s.steps|], id, s.reqs[id].preemptions);
    DueAppend(s.steps, t.steps[|s.steps|], id, s.reqs[id].dropEpoch);
  }

  lemma CommitKeepsCounts(cfg: Config, s: State)
    requires CountsInv(s.reqs, s.steps)
    requires forall id :: id in s.pass.shares ==>
        id in s.reqs && s.reqs[id].status == Running && s.pass.shares[id].n > 0
    ensures CountsInv(ApplyCommit(s).reqs, ApplyCommit(s).steps)
  {
    var t := ApplyCommit(s);
    var st := t.steps[|s.steps|];
    forall id | id in t.reqs
      ensures CountsOk(t.reqs[id], t.steps, id)
    {
      CommitKeepsCount(s, id);
    }
    hide CountsOk;
    assert forall k :: 0 <= k < |s.steps| ==> t.steps[k] == s.steps[k];
    BoundedGrows(s.reqs, t.reqs, s.steps);
    forall id | id in st.entries
      ensures EntryBounded(t.reqs, id, st.entries[id])
      ensures forall j :: 0 <= j < |s.steps| && id in s.steps[j].entries ==>
          s.steps[j].entries[id].epoch <= st.entries[id].epoch
    {
      forall j | 0 <= j < |s.steps| && id in s.steps[j].entries
        ensures s.steps[j].entries[id].epoch <= st.entries[id].epoch
      {
        assert StepBounded(s.reqs, s.steps[j]) && EntryBounded(s.reqs, id, s.steps[j].entries[id]);
      }
    }
  }

  lemma OutputKeepsCounts(cfg: Config, s: State, id: ReqId, loadFailed: bool, generated: nat, kept: nat, stop: bool,
                          send: bool)
    requires CountsInv(s.reqs, s.steps) && s.steps != [] && id in s.steps[0].entries
    requires id in s.reqs ==> id in s.pool.lastSched
    ensures var t := ApplyOutput(cfg, s, id, loadFailed, generated, kept, stop, send);
            CountsInv(t.reqs, t.steps)
  {
    var rest := WithoutHeadEntry(s.steps, id);
    HeadEntryRemovedEpochs(s.reqs, s.steps, id);
    var drained := if id in s.reqs then s.reqs[id := s.reqs[id].DrainShare(s.steps[0].entries[id].n)] else s.reqs;
    forall x | x in drained
      ensures CountsOk(drained[x], rest, x)
    {
      if x == id {
        DrainKeepsCounts(s.reqs, s.steps, id);
      } else {
        OtherDrainKeepsCount(s.reqs[x], s.steps, id, x);
      }
    }
    hide CountsOk;
    BoundedGrows(s.reqs, drained, rest);
    assert CountsInv(drained, rest);
    var t := ApplyOutput(cfg, s, id, loadFailed, generated, kept, stop, send);
    assert t.steps == rest;
    SameCountersKeep(drained, t.reqs, rest);
  }

  lemma EndOutputKeepsCounts(reqs: map<ReqId, Req>, steps: seq<Step>)
    requires CountsInv(reqs, steps) && steps != [] && steps[0].entries == map[]
    ensures CountsInv(reqs, steps[1..])
  {
    forall id | id in reqs
      ensures CountsOk(reqs[id], steps[1..], id)
    {
      assert CountsOk(reqs[id], steps, id);
    }
    assert forall k :: 0 <= k < |steps[1..]| ==> StepBounded(reqs, steps[1..][k]);
  }

  lemma AddKeepsCounts(s: State, id: ReqId, r: Req, pos: nat)
    requires CountsInv(s.reqs, s.steps) && pos <= |s.waiting| && id !in s.reqs
    requires forall k :: 0 <= k < |s.steps| ==> id !in s.steps[k].entries
    requires r.inFlight == 0 && r.stale == 0 && r.preemptions == 0 && r.dropEpoch == 0
    ensures CountsInv(ApplyAdd(s, id, r, pos).reqs, s.steps)
  {
    DueNone(s.steps, id, 0);
    var t := ApplyAdd(s, id, r, pos);
    forall x | x in t.reqs
      ensures CountsOk(t.reqs[x], s.steps, x)
    {
      if x != id {
        assert CountsOk(s.reqs[x], s.steps, x);
      }
    }
    BoundedGrows(s.reqs, t.reqs, s.steps);
  }

  lemma PreemptEventKeepsCounts(cfg: Config, s: State, id: ReqId, drop: bool, pos: nat)
    requires CountsInv(s.reqs, s.steps) && id in s.reqs && id in s.pool.lastSched && pos <= |s.waiting|
    requires s.reqs[id].status == Running
    ensures CountsInv(ApplyPreempt(cfg, s, id, drop, pos).reqs, s.steps)
  {
    var t := ApplyPreempt(cfg, s, id, drop, pos);
    forall k | 0 <= k < |s.steps| && id in s.steps[k].entries
      ensures s.steps[k].entries[id].epoch <= s.reqs[id].preemptions && s.steps[k].entries[id].n > 0
    {
      assert StepBounded(s.reqs, s.steps[k]) && EntryBounded(s.reqs, id, s.steps[k].entries[id]);
    }
    assert CountsOk(s.reqs[id], s.steps, id);
    PreemptKeepsCounts(s.reqs[id], s.steps, id, drop);
    forall x | x in t.reqs
      ensures CountsOk(t.reqs[x], s.steps, x)
    {
      if x != id {
        assert CountsOk(s.reqs[x], s.steps, x);
      }
    }
    BoundedGrows(s.reqs, t.reqs, s.steps);
  }

  /** The events of a schedule() pass do not touch the counters. */
  lemma PassEventsSameCounters(cfg: Config, s: State, e: Event)
    requires Enabled(cfg, s, e)
    requires || e.BeginPass? || e.Take? || e.Promote? || e.Skip? || e.AdmitAsync? || e.Admit? || e.Requeue?
             || e.RetainCopy?
    ensures Apply(cfg, s, e).steps == s.steps
    ensures forall id :: id in Apply(cfg, s, e).reqs ==>
              id in s.reqs && SameCounters(s.reqs[id], Apply(cfg, s, e).reqs[id])
  {
  }

  /** Nor do the events between passes, other than arrivals and preemptions. */
  lemma OtherEventsSameCounters(cfg: Config, s: State, e: Event)
    requires Enabled(cfg, s, e)
    requires || e.SetDrafts? || e.SetPlaceholders? || e.BeginOutput? || e.LoadsInvalid? || e.Finish? || e.Received?
             || e.Sent?
    ensures Apply(cfg, s, e).steps == s.steps
    ensures forall id :: id in Apply(cfg, s, e).reqs ==>
              id in s.reqs && SameCounters(s.reqs[id], Apply(cfg, s, e).reqs[id])
  {
  }

  lemma SameCounterEventsKeep(cfg: Config, s: State, e: Event)
    requires CountsInv(s.reqs, s.steps) && Enabled(cfg, s, e)
    requires !e.Add? && !e.Preempt? && !e.Commit? && !e.Output? && !e.EndOutput?
    ensures CountsInv(Apply(cfg, s, e).reqs, Apply(cfg, s, e).steps)
  {
    var t := Apply(cfg, s, e);
    assert t.steps == s.steps && forall id :: id in t.reqs ==> id in s.reqs && SameCounters(s.reqs[id], t.reqs[id]) by {
      if e.BeginPass? || e.Take? || e.Promote? || e.Skip? || e.AdmitAsync? || e.Admit? || e.Requeue? || e.RetainCopy? {
        PassEventsSameCounters(cfg, s, e);
      } else {
        OtherEventsSameCounters(cfg, s, e);
      }
    }
    SameCountersKeep(s.reqs, t.reqs, s.steps);
  }

  lemma CounterEventsKeep(cfg: Config, s: State, e: Event)
    requires CountsInv(s.reqs, s.steps) && Enabled(cfg, s, e)
    requires e.Add? || e.Preempt? || e.Output? || e.EndOutput?
    ensures CountsInv(Apply(cfg, s, e).reqs, Apply(cfg, s, e).steps)
  {
    match e
    case Add(id, prompt, maxTokens, priority, arrival, pos) =>
      AddKeepsCounts(s, id, NewRequest(prompt, maxTokens, priority, arrival), pos);
    case Preempt(id, drop, pos) => PreemptEventKeepsCounts(cfg, s, id, drop, pos);
    case Output(id, loadFailed, generated, kept, stop, send) =>
      OutputKeepsCounts(cfg, s, id, loadFailed, generated, kept, stop, send);
    case EndOutput => EndOutputKeepsCounts(s.reqs, s.steps);
  }

  lemma CountsKept(cfg: Config, s: State, e: Event)
    requires CountsInv(s.reqs, s.steps) && Enabled(cfg, s, e)
    requires forall id :: id in s.pass.shares ==>
        id in s.reqs && s.reqs[id].status == Running && s.pass.shares[id].n > 0
    ensures CountsInv(Apply(cfg, s, e).reqs, Apply(cfg, s, e).steps)
  {
    if e.Commit? {
      CommitKeepsCounts(cfg, s);
    } else if e.Add? || e.Preempt? || e.Output? || e.EndOutput? {
      CounterEventsKeep(cfg, s, e);
    } else {
      SameCounterEventsKeep(cfg, s, e);
    }
  }
}
