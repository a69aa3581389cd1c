/** Safety over whole runs: what holds after every run of the scheduler machine. */
module Runs {
  import opened Ledger
  import opened Machine
  import opened Counters
  import opened Queues
  import opened Budgets
  import opened Transfers
  import opened Fences
  import opened Collections

  ghost predicate Inv(cfg: Config, s: State) {
    && CountsInv(s.reqs, s.steps)
    && QueueInv(s)
    && BudgetInv(cfg, s)
    && TransferInv(s)
    && FenceInv(cfg, s)
  }

  /** An output handed on is never one of a loading request, and is a fresh one only while the
      request runs. */
  lemma OutputsAreSound(cfg: Config, s: State, e: Event)
    requires CountsInv(s.reqs, s.steps) && Enabled(cfg, s, e)
    ensures OutputsSound(s, e)
  {
    if e.Output? && Delivers(s, e.id) {
      assert CountsOk(s.reqs[e.id], s.steps, e.id);
      assert StepBounded(s.reqs, s.steps[0]) && EntryBounded(s.reqs, e.id, s.steps[0].entries[e.id]);
      DueAtLeast(s.steps, e.id, 0, 0);
    }
  }

  lemma SharesRun(cfg: Config, s: State)
    requires BudgetInv(cfg, s)
    ensures forall id :: id in s.pass.shares ==>
              id in s.reqs && s.reqs[id].status == Running && s.pass.shares[id].n > 0
    ensures s.phase != Scheduling ==> s.pass.stepSkipped == []
  {
  }

  lemma ReportsConcernLoads(cfg: Config, s: State, e: Event)
    requires TransferInv(s) && Enabled(cfg, s, e) && (e.Received? || e.Sent?)
    ensures s.reqs[e.id].status in {WaitingForRemoteKvs, Finished}
    ensures e.Sent? ==> s.reqs[e.id].status == Finished
  {
  }

  lemma InvKept(cfg: Config, s: State, e: Event)
    requires Inv(cfg, s) && Enabled(cfg, s, e)
    ensures Inv(cfg, Apply(cfg, s, e))
  {
    SharesRun(cfg, s);
    OutputsAreSound(cfg, s, e);
    if e.Received? || e.Sent? {
      ReportsConcernLoads(cfg, s, e);
    }
    CountsKept(cfg, s, e);
    QueuesKept(cfg, s, e);
    BudgetsKept(cfg, s, e);
    TransfersKept(cfg, s, e);
    FencesKept(cfg, s, e);
  }

  lemma InitialInv(cfg: Config)
    ensures Inv(cfg, InitialState(cfg))
  {
    var s := InitialState(cfg);
    forall x
      ensures PlacedOk(s, x)
    {
      assert multiset(s.running) == multiset(s.waiting) == multiset{};
      assert multiset(s.skipped) == multiset(s.pass.stepSkipped) == multiset{};
    }
  }

  lemma {:induction false} EveryRunKeepsInv(cfg: Config, trace: seq<Event>)
    requires IsRun(cfg, trace)
    ensures Inv(cfg, After(cfg, trace))
    decreases |trace|
  {
    if trace == [] {
      InitialInv(cfg);
    } else {
      RunPrefix(cfg, trace);
      EveryRunKeepsInv(cfg, trace[..|trace| - 1]);
      InvKept(cfg, After(cfg, trace[..|trace| - 1]), trace[|trace| - 1]);
    }
  }

  /** The states of runs. */
  ghost predicate Reachable(cfg: Config, s: State) {
    exists trace :: IsRun(cfg, trace) && After(cfg, trace) == s
  }

  lemma InitiallyReachable(cfg: Config)
    ensures Reachable(cfg, InitialState(cfg))
  {
    assert IsRun(cfg, []) && After(cfg, []) == InitialState(cfg);
  }

  lemma StepReaches(cfg: Config, s: State, e: Event)
    requires Reachable(cfg, s) && Enabled(cfg, s, e)
    ensures Reachable(cfg, Apply(cfg, s, e)) && Follows(cfg, s, Apply(cfg, s, e))
  {
    hide Exec, Follows;
    var trace :| IsRun(cfg, trace) && After(cfg, trace) == s;
    RunExtends(cfg, trace, e);
    FollowsStep(cfg, s, e);
  }

  lemma ReachableInv(cfg: Config, s: State)
    requires Reachable(cfg, s)
    ensures Inv(cfg, s)
  {
    hide Exec;
    var trace :| IsRun(cfg, trace) && After(cfg, trace) == s;
    EveryRunKeepsInv(cfg, trace);
  }

  /** From s, the events of a trace in turn lead to t. */
  ghost predicate Leads(cfg: Config, s: State, events: seq<Event>, t: State)
    decreases |events|
  {
    if events == [] then t == s
    else
      var n := |events| - 1;
      exists m :: Leads(cfg, s, events[..n], m) && Enabled(cfg, m, events[n]) && t == Apply(cfg, m, events[n])
  }

  lemma LeadsOn(cfg: Config, s: State, events: seq<Event>, m: State, e: Event)
    requires Leads(cfg, s, events, m) && Enabled(cfg, m, e)
    ensures Leads(cfg, s, events + [e], Apply(cfg, m, e))
  {
    hide Enabled, Apply;
    assert (events + [e])[..|events|] == events;
  }

  /** Whatever a run's events lead to is reached by a run. */
  lemma {:induction false} LeadsReaches(cfg: Config, s: State, events: seq<Event>, t: State)
    requires Reachable(cfg, s) && Leads(cfg, s, events, t)
    ensures Reachable(cfg, t)
    decreases |events|
  {
    hide Reachable;
    if events != [] {
      var n := |events| - 1;
      var m :| Leads(cfg, s, events[..n], m) && Enabled(cfg, m, events[n]) && t == Apply(cfg, m, events[n]);
      LeadsReaches(cfg, s, events[..n], m);
      StepReaches(cfg, m, events[n]);
    }
  }

  /** Some events of the machine lead from s to t. */
  ghost predicate Follows(cfg: Config, s: State, t: State) {
    exists events :: Leads(cfg, s, events, t)
  }

  lemma LeadsFollows(cfg: Config, s: State, events: seq<Event>, t: State)
    requires Leads(cfg, s, events, t)
    ensures Follows(cfg, s, t)
  {
  }

  lemma FollowsSelf(cfg: Config, s: State)
    ensures Follows(cfg, s, s)
  {
    assert Leads(cfg, s, [], s);
  }

  lemma FollowsStep(cfg: Config, s: State, e: Event)
    requires Enabled(cfg, s, e)
    ensures Follows(cfg, s, Apply(cfg, s, e))
  {
    hide Enabled, Apply;
    assert Leads(cfg, s, [], s);
    LeadsOn(cfg, s, [], s, e);
  }

  lemma {:induction false} LeadsConcat(cfg: Config, s: State, first: seq<Event>, m: State, second: seq<Event>, t: State)
    requires Leads(cfg, s, first, m) && Leads(cfg, m, second, t)
    ensures Leads(cfg, s, first + second, t)
    decreases |second|
  {
    hide Enabled, Apply;
    if second == [] {
      assert first + second == first;
    } else {
      var n := |second| - 1;
      var u :| Leads(cfg, m, second[..n], u) && Enabled(cfg, u, second[n]) && t == Apply(cfg, u, second[n]);
      LeadsConcat(cfg, s, first, m, second[..n], u);
      LeadsOn(cfg, s, first + second[..n], u, second[n]);
      assert first + second == first + second[..n] + [second[n]];
    }
  }

  lemma FollowsOn(cfg: Config, s: State, m: State, t: State)
    requires Follows(cfg, s, m) && Follows(cfg, m, t)
    ensures Follows(cfg, s, t)
  {
    hide Leads;
    var first :| Leads(cfg, s, first, m);
    var second :| Leads(cfg, m, second, t);
    LeadsConcat(cfg, s, first, m, second, t);
  }

  lemma {:induction false} LeadsExtends(cfg: Config, trace: seq<Event>, events: seq<Event>, t: State)
    requires IsRun(cfg, trace) && Leads(cfg, After(cfg, trace), events, t)
    ensures IsRun(cfg, trace + events) && After(cfg, trace + events) == t
    decreases |events|
  {
    hide Exec, Enabled, Apply;
    if events == [] {
      assert trace + events == trace;
    } else {
      var n := |events| - 1;
      var u :| Leads(cfg, After(cfg, trace), events[..n], u) && Enabled(cfg, u, events[n])
               && t == Apply(cfg, u, events[n]);
      LeadsExtends(cfg, trace, events[..n], u);
      RunExtends(cfg, trace + events[..n], events[n]);
      assert trace + events == trace + events[..n] + [events[n]];
    }
  }

  /** One call after another makes one run: whatever run has led to s, a state that follows s is reached by
      a run that begins with it.  So what holds of the histories of runs holds of the calls made. */
  lemma FollowingExtendsRuns(cfg: Config, trace: seq<Event>, t: State) returns (more: seq<Event>)
    requires IsRun(cfg, trace) && Follows(cfg, After(cfg, trace), t)
    ensures IsRun(cfg, trace + more) && After(cfg, trace + more) == t
  {
    hide Exec, Leads;
    more :| Leads(cfg, After(cfg, trace), more, t);
    LeadsExtends(cfg, trace, more, t);
  }

  // ------------------------------------------------------------- the in-flight protocol

  /** In every run, with any number of steps in flight, the two counters are the sums of the
      unprocessed shares: all of them, and those scheduled before the latest preemption. */
  lemma CountersAreSums(cfg: Config, trace: seq<Event>, id: ReqId)
    requires IsRun(cfg, trace) && id in After(cfg, trace).reqs
    ensures var s := After(cfg, trace);
            && s.reqs[id].inFlight == Due(s.steps, id)
            && s.reqs[id].stale == DueBefore(s.steps, id, s.reqs[id].preemptions)
            && 0 <= s.reqs[id].stale <= s.reqs[id].inFlight
  {
    EveryRunKeepsInv(cfg, trace);
    var s := After(cfg, trace);
    assert CountsOk(s.reqs[id], s.steps, id);
    DueBeforeMono(s.steps, id, 0, s.reqs[id].preemptions);
  }

  /** An output is treated as stale exactly when its step was scheduled before the request's latest
      preemption, and draining it never takes the stale counter below zero. */
  lemma StaleMeansPreempted(cfg: Config, trace: seq<Event>, e: Event)
    requires IsRun(cfg, trace) && e.Output? && Enabled(cfg, After(cfg, trace), e) && e.id in After(cfg, trace).reqs
    ensures var s := After(cfg, trace);
            var share, r := s.steps[0].entries[e.id], s.reqs[e.id];
            && (r.stale > 0 <==> share.epoch < r.preemptions)
            && r.DrainShare(share.n).stale >= 0 && r.DrainShare(share.n).inFlight >= 0
  {
    EveryRunKeepsInv(cfg, trace);
    CountersAreSums(cfg, trace, e.id);
    var s := After(cfg, trace);
    HeadStaleIff(s.reqs, s.steps, e.id);
    DueAtLeast(s.steps, e.id, 0, 0);
  }

  /** While a request stays known, its drop epoch only grows. */
  lemma DropEpochGrows(cfg: Config, s: State, e: Event, id: ReqId)
    requires CountsInv(s.reqs, s.steps) && Enabled(cfg, s, e) && id in Apply(cfg, s, e).reqs
    requires !(e.Add? && e.id == id)
    ensures id in s.reqs
    ensures Apply(cfg, s, e).reqs[id].dropEpoch >= s.reqs[id].dropEpoch
    ensures e.Preempt? && e.id == id && e.drop ==> Apply(cfg, s, e).reqs[id].dropEpoch > s.reqs[id].preemptions
  {
    OnlyAddIntroduces(cfg, s, e, id);
    assert CountsOk(s.reqs[id], s.steps, id);
    if e.Output? {
      OutputDropEpoch(cfg, s, e, id);
    }
  }

  lemma OnlyAddIntroduces(cfg: Config, s: State, e: Event, id: ReqId)
    requires Enabled(cfg, s, e) && id in Apply(cfg, s, e).reqs && !(e.Add? && e.id == id)
    ensures id in s.reqs
  {
  }

  lemma OutputDropEpoch(cfg: Config, s: State, e: Event, id: ReqId)
    requires Enabled(cfg, s, e) && e.Output? && id in s.reqs && id in Apply(cfg, s, e).reqs
    ensures Apply(cfg, s, e).reqs[id].dropEpoch == s.reqs[id].dropEpoch
  {
  }

  /** From a drop-mode preemption on, the drop epoch stays beyond that preemption's count. */
  lemma {:induction false} DropEpochStays(cfg: Config, trace: seq<Event>, k: nat, id: ReqId)
    requires IsRun(cfg, trace) && k < |trace| && trace[k].Preempt? && trace[k].id == id && trace[k].drop
    requires IsRun(cfg, trace[..k]) && id in After(cfg, trace[..k]).reqs
    requires forall j :: k < j < |trace| && trace[j].Add? ==> trace[j].id != id
    requires id in After(cfg, trace).reqs
    ensures After(cfg, trace).reqs[id].dropEpoch > After(cfg, trace[..k]).reqs[id].preemptions
    decreases |trace|
  {
    hide Exec;
    var n := |trace| - 1;
    LastEventDropEpoch(cfg, trace, id);
    if k < n {
      assert trace[..n][..k] == trace[..k];
      DropEpochStays(cfg, trace[..n], k, id);
    }
  }

  lemma LastEventDropEpoch(cfg: Config, trace: seq<Event>, id: ReqId)
    requires IsRun(cfg, trace) && trace != [] && id in After(cfg, trace).reqs
    requires !(trace[|trace| - 1].Add? && trace[|trace| - 1].id == id)
    ensures var n := |trace| - 1;
            && IsRun(cfg, trace[..n]) && id in After(cfg, trace[..n]).reqs
            && After(cfg, trace).reqs[id].dropEpoch >= After(cfg, trace[..n]).reqs[id].dropEpoch
            && (trace[n].Preempt? && trace[n].id == id && trace[n].drop ==>
                  After(cfg, trace).reqs[id].dropEpoch > After(cfg, trace[..n]).reqs[id].preemptions)
  {
    var n := |trace| - 1;
    RunPrefix(cfg, trace);
    EveryRunKeepsInv(cfg, trace[..n]);
    DropEpochGrows(cfg, After(cfg, trace[..n]), trace[n], id);
  }

  /** Preempting in drop mode marks everything then in flight: whenever a share scheduled up to that
      preemption reaches the head of the FIFO it is not delivered, whatever happened in between, later
      deliver-mode preemptions included. */
  lemma DroppedForEver(cfg: Config, trace: seq<Event>, k: nat, id: ReqId)
    requires IsRun(cfg, trace) && k < |trace| && trace[k].Preempt? && trace[k].id == id && trace[k].drop
    requires IsRun(cfg, trace[..k]) && id in After(cfg, trace[..k]).reqs
    requires forall j :: k < j < |trace| && trace[j].Add? ==> trace[j].id != id
    requires After(cfg, trace).steps != [] && id in After(cfg, trace).steps[0].entries
    requires After(cfg, trace).steps[0].entries[id].epoch <= After(cfg, trace[..k]).reqs[id].preemptions
    ensures !Delivers(After(cfg, trace), id)
  {
    if id in After(cfg, trace).reqs {
      DropEpochStays(cfg, trace, k, id);
      EveryRunKeepsInv(cfg, trace);
      DoomedHeadIsDropped(After(cfg, trace), id);
    }
  }

  lemma DoomedHeadIsDropped(s: State, id: ReqId)
    requires CountsInv(s.reqs, s.steps) && id in s.reqs && s.steps != [] && id in s.steps[0].entries
    requires s.steps[0].entries[id].epoch < s.reqs[id].dropEpoch
    ensures !Delivers(s, id)
  {
    var r := s.reqs[id];
    assert CountsOk(r, s.steps, id);
    assert StepBounded(s.reqs, s.steps[0]) && EntryBounded(s.reqs, id, s.steps[0].entries[id]);
    DueAtLeast(s.steps, id, 0, r.dropEpoch);
    DueAtLeast(s.steps, id, 0, r.preemptions);
  }

  /** Deliverable stale output is outstanding only while the request waits to resume; one that runs with
      stale output outstanding drops it. */
  lemma StaleDeliveryPrecedesResampling(cfg: Config, trace: seq<Event>, id: ReqId)
    requires IsRun(cfg, trace) && Unfinished(After(cfg, trace), id) && After(cfg, trace).reqs[id].stale > 0
    ensures var s := After(cfg, trace); var r := s.reqs[id];
            && (r.status in {Running, WaitingForRemoteKvs} ==> r.dropStale)
            && (!r.dropStale ==>
                  && r.status in {Waiting, Preempted}
                  && id !in s.pass.shares
                  && forall k :: 0 <= k < |s.steps| && id in s.steps[k].entries ==>
                       s.steps[k].entries[id].epoch == r.preemptions - 1)
  {
    EveryRunKeepsInv(cfg, trace);
    var s := After(cfg, trace);
    assert CountsOk(s.reqs[id], s.steps, id);
    if !s.reqs[id].dropStale {
      forall k | 0 <= k < |s.steps| && id in s.steps[k].entries
        ensures s.steps[k].entries[id].epoch == s.reqs[id].preemptions - 1
      {
        assert StepBounded(s.reqs, s.steps[k]) && EntryBounded(s.reqs, id, s.steps[k].entries[id]);
        AllBefore(s.steps, id, k, s.reqs[id].preemptions);
      }
    }
  }

  /** No position is both delivered and sampled again: whenever an output is delivered, every other share of
      its request in flight was scheduled between the same two preemptions, so nothing of the request has been
      scheduled again since that share; and a pass that could is not under way. */
  lemma DeliveredIsNotResampled(cfg: Config, trace: seq<Event>, id: ReqId, k: nat)
    requires IsRun(cfg, trace)
    requires var s := After(cfg, trace);
             s.phase == Processing && s.steps != [] && id in s.steps[0].entries && Delivers(s, id)
    requires k < |After(cfg, trace).steps| && id in After(cfg, trace).steps[k].entries
    ensures var s := After(cfg, trace);
            && s.steps[k].entries[id].epoch == s.steps[0].entries[id].epoch
            && id !in s.pass.shares
            && s.steps[0].entries[id].epoch
               == if s.reqs[id].stale > 0 then s.reqs[id].preemptions - 1 else s.reqs[id].preemptions
  {
    EveryRunKeepsInv(cfg, trace);
    var s := After(cfg, trace);
    HeadStaleIff(s.reqs, s.steps, id);
    assert StepBounded(s.reqs, s.steps[0]) && EntryBounded(s.reqs, id, s.steps[0].entries[id]);
    assert StepBounded(s.reqs, s.steps[k]) && EntryBounded(s.reqs, id, s.steps[k].entries[id]);
    if s.reqs[id].stale > 0 {
      StaleDeliveryPrecedesResampling(cfg, trace, id);
    } else {
      assert k > 0 ==> s.steps[0].entries[id].epoch <= s.steps[k].entries[id].epoch;
    }
  }

  /** If every due token was scheduled before an epoch, so was every entry. */
  lemma {:induction false} AllBefore(steps: seq<Step>, id: ReqId, k: nat, epoch: nat)
    requires k < |steps| && id in steps[k].entries && steps[k].entries[id].n > 0
    requires DueBefore(steps, id, epoch) == Due(steps, id)
    ensures steps[k].entries[id].epoch < epoch
  {
    DueBeforeMono(steps[1..], id, epoch, epoch);
    if k > 0 {
      AllBefore(steps[1..], id, k - 1, epoch);
    }
  }

  // ------------------------------------------------------------- blocks

  /** With deferred freeing on, no block that an unprocessed step may write is in the free pool. */
  lemma WrittenBlocksAreNotFree(cfg: Config, trace: seq<Event>, k: nat, id: ReqId, b: Block)
    requires IsRun(cfg, trace) && cfg.deferBlockFree
    requires var steps := Unwritten(After(cfg, trace));
             k < |steps| && id in steps[k].entries && b in steps[k].entries[id].blocks
    ensures !After(cfg, trace).pool.Free(b)
  {
    EveryRunKeepsInv(cfg, trace);
    var s := After(cfg, trace);
    var st := Unwritten(s)[k];
    assert StepProtected(s.pool, st);
    ProtectedIsNotFree(s.pool, id, b, st.seqNo);
  }

  /** Hence a fresh block given to any request is none an unprocessed step may still write. */
  lemma FreshBlocksAreNotWritten(cfg: Config, trace: seq<Event>, taken: seq<Block>, k: nat, id: ReqId)
    requires IsRun(cfg, trace) && cfg.deferBlockFree && After(cfg, trace).pool.CanAcquire(taken)
    requires k < |Unwritten(After(cfg, trace))| && id in Unwritten(After(cfg, trace))[k].entries
    ensures forall j :: 0 <= j < |taken| ==> taken[j] !in Unwritten(After(cfg, trace))[k].entries[id].blocks
  {
    forall j | 0 <= j < |taken|
      ensures taken[j] !in Unwritten(After(cfg, trace))[k].entries[id].blocks
    {
      if taken[j] in Unwritten(After(cfg, trace))[k].entries[id].blocks {
        WrittenBlocksAreNotFree(cfg, trace, k, id, taken[j]);
      }
    }
  }

  lemma {:induction false} HeldByNone(held: map<ReqId, seq<Block>>, b: Block)
    requires forall id :: id in held ==> b !in held[id]
    ensures b !in SumHeld(held)
    decreases held
  {
    if held != map[] {
      var id :| id in held && SumHeld(held) == multiset(held[id]) + SumHeld(held - {id});
      HeldByNone(held - {id}, b);
    }
  }

  lemma {:induction false} DeferredByNone(d: seq<DeferredFree>, b: Block)
    requires forall k :: 0 <= k < |d| ==> b !in d[k].blocks
    ensures b !in SumDeferred(d)
  {
    if d != [] {
      DeferredByNone(d[1..], b);
    }
  }

  /** Free, held and deferred: a block is free exactly when no request holds it and no deferred
      entry lists it, and its reference count is the number of holds and listings. */
  lemma PoolPartition(cfg: Config, trace: seq<Event>, b: Block)
    requires IsRun(cfg, trace)
    ensures var p := After(cfg, trace).pool;
            && p.refs[b] == SumHeld(p.held)[b] + SumDeferred(p.deferred)[b]
            && (p.Free(b) <==>
                  && (forall id :: id in p.held ==> b !in p.held[id])
                  && (forall k :: 0 <= k < |p.deferred| ==> b !in p.deferred[k].blocks))
  {
    EveryRunKeepsInv(cfg, trace);
    var p := After(cfg, trace).pool;
    forall id | id in p.held && b in p.held[id]
      ensures !p.Free(b)
    {
      SumHeldSplit(p.held, id);
    }
    forall k | 0 <= k < |p.deferred| && b in p.deferred[k].blocks
      ensures !p.Free(b)
    {
      InSumDeferred(p.deferred, k, b);
    }
    if && (forall id :: id in p.held ==> b !in p.held[id])
       && (forall k :: 0 <= k < |p.deferred| ==> b !in p.deferred[k].blocks) {
      HeldByNone(p.held, b);
      DeferredByNone(p.deferred, b);
    }
  }

  /** Deferred frees are late by at most one non-empty step, in every run; and only behind a copy
      retention for the next step. */
  lemma DeferredFreesAreTimely(cfg: Config, trace: seq<Event>, k: nat)
    requires IsRun(cfg, trace) && cfg.deferBlockFree && k < |After(cfg, trace).pool.deferred|
    ensures var p := After(cfg, trace).pool;
            && p.processed < p.deferred[k].fence + 1
            && (p.deferred[k].fence == p.processed ==> k > 0 && p.deferred[0].fence == p.processed + 1)
            && forall j :: 0 <= j < k ==> p.deferred[j].fence <= p.deferred[k].fence + 1
  {
    EveryRunKeepsInv(cfg, trace);
    FenceReleasedInTime(After(cfg, trace).pool, k);
  }

  // ------------------------------------------------------------- queues and budgets

  /** Between calls an unfinished request is in exactly one of the three queues, `running` exactly when its
      status says so; a finished request, or an unknown id, is in none. */
  lemma QueuePartition(cfg: Config, trace: seq<Event>, id: ReqId)
    requires IsRun(cfg, trace) && After(cfg, trace).phase == Idle
    ensures var s := After(cfg, trace);
            && (Unfinished(s, id) <==> id in s.running || id in s.waiting || id in s.skipped)
            && (Unfinished(s, id) ==> Count(s.running, id) + Count(s.waiting, id) + Count(s.skipped, id) == 1)
            && (id in s.running <==> id in s.reqs && s.reqs[id].status == Running)
  {
    EveryRunKeepsInv(cfg, trace);
    var s := After(cfg, trace);
    assert PlacedOk(s, id);
    assert multiset(s.pass.stepSkipped) == multiset{};
    CountIn(s.running, id);
    CountIn(s.waiting, id);
    CountIn(s.skipped, id);
  }

  /** The WAITING loop's last branch, the invalid-status error, is unreachable: what it admits was
      waiting or preempted, or has just been promoted to one of these. */
  lemma AdmissionStatusIsValid(cfg: Config, trace: seq<Event>, fromSkipped: bool)
    requires IsRun(cfg, trace) && QueueChoice(cfg, After(cfg, trace), fromSkipped)
    ensures var s := After(cfg, trace); var id := Head(s, fromSkipped);
            && id in s.reqs
            && (s.reqs[id].status != WaitingForRemoteKvs ==>
                  s.reqs[id].status in {Waiting, Preempted} && 0 <= s.reqs[id].computed < s.reqs[id].tokens)
  {
    EveryRunKeepsInv(cfg, trace);
    var s := After(cfg, trace);
    HeadWaits(cfg, s, fromSkipped);
    assert TransferOk(s, Head(s, fromSkipped));
  }

  /** All asserts at the end of schedule() hold in every run. */
  lemma ScheduleAssertsHold(cfg: Config, trace: seq<Event>)
    requires IsRun(cfg, trace) && After(cfg, trace).phase == Scheduling
    ensures var s := After(cfg, trace);
            && s.pass.tokenBudget + Charge(s.pass.shares, 0) == s.pass.limit <= cfg.maxScheduledTokens
            && s.pass.inputBudget + Charge(s.pass.shares, cfg.draftSlots) == cfg.maxBatchedTokens
            && s.pass.tokenBudget >= 0 && s.pass.inputBudget >= 0
            && |s.running| <= cfg.maxRunning
            && |s.pass.admitted| + |s.pass.continued| <= |s.running|
            && Distinct(s.pass.admitted + s.pass.continued)
            && (forall id :: id in s.pass.shares <==> id in s.pass.admitted || id in s.pass.continued)
            && (forall id :: id in s.pass.shares ==> id in s.running && s.pass.shares[id].n > 0)
  {
    EveryRunKeepsInv(cfg, trace);
    PassAssertsHold(cfg, After(cfg, trace));
  }

  /** FCFS: in a run in which nothing is skipped, `running ++ waiting` is the arrivals in their order
      with the departures deleted, through any number of steps, preemptions and resets. */
  lemma {:induction false} FirstComeFirstServed(cfg: Config, trace: seq<Event>)
    requires IsRun(cfg, trace) && cfg.policy == Fcfs && NothingSkipped(trace)
    ensures var s := After(cfg, trace);
            && s.skipped == [] && s.pass.stepSkipped == []
            && s.running + s.waiting == ArrivalOrder(cfg, trace)
    decreases |trace|
  {
    if trace != [] {
      var n := |trace| - 1;
      RunPrefix(cfg, trace);
      FirstComeFirstServed(cfg, trace[..n]);
      EveryRunKeepsInv(cfg, trace[..n]);
      OrderStep(cfg, After(cfg, trace[..n]), trace[n]);
    }
  }

  // ------------------------------------------------------------- remote KV loads

  /** The receive sets only name requests waiting for remote KVs; what is promoted from them still has a
      token to compute. */
  lemma ReceiveSetsAreSound(cfg: Config, trace: seq<Event>, id: ReqId)
    requires IsRun(cfg, trace)
    ensures var s := After(cfg, trace);
            && (id in s.recvd || id in s.failed ==> id in s.reqs && s.reqs[id].status == WaitingForRemoteKvs)
            && (id in s.reqs && s.reqs[id].status == WaitingForRemoteKvs ==>
                  var p := ApplyPromote(s, id).reqs[id];
                  p.status in {Waiting, Preempted} && 0 <= p.computed < p.tokens)
  {
    EveryRunKeepsInv(cfg, trace);
    var s := After(cfg, trace);
    if id in s.reqs {
      assert TransferOk(s, id);
    }
  }

  /** Every completion report finds a request that is waiting for it or has finished, and
      a finished request stays known exactly as long as a report about it is due. */
  lemma ReportsFindTheirRequest(cfg: Config, trace: seq<Event>, id: ReqId)
    requires IsRun(cfg, trace)
    ensures var s := After(cfg, trace);
            && (id in s.loads ==> id in s.reqs && s.reqs[id].status in {WaitingForRemoteKvs, Finished})
            && (id in s.sends ==> id in s.reqs && s.reqs[id].status == Finished && id !in s.loads)
            && (id in s.reqs && s.reqs[id].status == Finished ==> id in s.loads || id in s.sends)
  {
    EveryRunKeepsInv(cfg, trace);
    if id in After(cfg, trace).reqs {
      assert TransferOk(After(cfg, trace), id);
    }
  }

  /** A request aborted while its load is under way keeps its blocks through every event but the load's
      own report. */
  lemma AbortedLoadKeepsBlocks(cfg: Config, s: State, e: Event, id: ReqId)
    requires Inv(cfg, s) && Enabled(cfg, s, e)
    requires id in s.loads && s.reqs[id].status == Finished
    requires !(e.Received? && e.id == id)
    ensures var t := Apply(cfg, s, e);
            && id in t.loads && id in t.reqs && t.reqs[id].status == Finished
            && t.pool.Held(id) == s.pool.Held(id)
  {
    assert PlacedOk(s, id);
    CountIn(s.running, id);
    if e.Skip? || e.AdmitAsync? || e.Admit? || e.Promote? {
      HeadWaits(cfg, s, e.fromSkipped);
    } else if e.BeginOutput? && s.pool.deferOn {
      var n := DrainMeaning(s.pool.(processed := s.pool.processed + 1));
    }
    if e.Output? {
      OutputShape(cfg, s, e);
      OutputElsewhere(cfg, s, e, id);
    } else {
      HeldElsewhere(cfg, s, e, id);
    }
  }

  lemma OutputElsewhere(cfg: Config, s: State, e: Event, id: ReqId)
    requires Enabled(cfg, s, e) && e.Output? && id in s.loads && id in s.reqs && s.reqs[id].status == Finished
    ensures var t := Apply(cfg, s, e);
            && id in t.loads && id in t.reqs && t.reqs[id].status == Finished
            && t.pool.Held(id) == s.pool.Held(id)
  {
  }

  /** Nothing but an event about `id` changes what `id` holds. */
  /** The blocks of an aborted load, and the report still to come, are as they were. */
  ghost predicate StaysHeld(s: State, id: ReqId, t: State) {
    id in t.loads && id in t.reqs && t.reqs[id].status == Finished && t.pool.Held(id) == s.pool.Held(id)
  }

  lemma HeldInPass(cfg: Config, s: State, e: Event, id: ReqId)
    requires Enabled(cfg, s, e) && id in s.loads && id in s.reqs && s.reqs[id].status == Finished
    requires s.phase == Scheduling && id !in s.running
    requires e.AdmitAsync? || e.Admit? || e.Promote? ==> Head(s, e.fromSkipped) != id
    ensures StaysHeld(s, id, Apply(cfg, s, e))
  {
    hide Without, Insert, RestoreShare;
  }

  lemma HeldElsewhere(cfg: Config, s: State, e: Event, id: ReqId)
    requires Enabled(cfg, s, e) && id in s.loads && id in s.reqs && s.reqs[id].status == Finished
    requires !(e.Received? && e.id == id) && id !in s.sends && id !in s.running && !e.Output?
    requires e.AdmitAsync? || e.Admit? || e.Promote? ==> Head(s, e.fromSkipped) != id
    requires e.BeginOutput? && s.pool.deferOn ==>
      s.pool.(processed := s.pool.processed + 1).Drain().held == s.pool.held
    ensures StaysHeld(s, id, Apply(cfg, s, e))
  {
    hide ApplyOutput, Without, Insert, RestoreShare;
    if s.phase == Scheduling {
      HeldInPass(cfg, s, e, id);
      return;
    }
  }

  /** The report of an aborted load frees its blocks, and with them forgets the request: there is no
      second report, and no second free. */
  lemma AbortedLoadFreedOnce(cfg: Config, s: State, e: Event)
    requires Inv(cfg, s) && Enabled(cfg, s, e) && e.Received? && s.reqs[e.id].status == Finished
    ensures var t := Apply(cfg, s, e);
            && e.id !in t.reqs && e.id !in t.loads && e.id !in t.sends && e.id !in t.pool.held
            && multiset(s.pool.Held(e.id)) <= s.pool.refs
            && t.pool == s.pool.Release(e.id)
            && !Enabled(cfg, t, e)
  {
    FreeNowConserves(s.pool, e.id);
  }
}
