/** What a request's fields say about its history: each is a function of the events of the run so far. */
module Histories {
  import opened Ledger
  import opened Machine
  import opened Counters
  import opened Queues
  import opened Transfers
  import opened Fences
  import opened Runs

  // ------------------------------------------------------------- output tokens

  /** The tokens kept of the outputs delivered to a request since it was added, stale ones included. */
  ghost function DeliveredTokens(cfg: Config, trace: seq<Event>, id: ReqId): nat
    requires IsRun(cfg, trace)
    decreases |trace|
  {
    if trace == [] then 0
    else
      RunPrefix(cfg, trace);
      var n := |trace| - 1;
      var e, before := trace[n], DeliveredTokens(cfg, trace[..n], id);
      if e.Add? && e.id == id then 0
      else if e.Output? && e.id == id && !e.loadFailed && Delivers(After(cfg, trace[..n]), id) then before + e.kept
      else before
  }

  /** An output changes nothing but the tokens, and only if it is delivered. */
  lemma OutputTokens(cfg: Config, s: State, e: Event, id: ReqId)
    requires Enabled(cfg, s, e) && e.Output? && id in Apply(cfg, s, e).reqs
    ensures id in s.reqs && SameIdentity(s.reqs[id], Apply(cfg, s, e).reqs[id])
    ensures Apply(cfg, s, e).reqs[id].tokens == s.reqs[id].tokens +
            if e.id == id && !e.loadFailed && Delivers(s, id) then e.kept else 0
  {
    hide Without, Pool.Release;
  }

  /** What a request is made with. */
  ghost predicate SameIdentity(r: Req, q: Req) {
    && q.promptTokens == r.promptTokens && q.maxTokens == r.maxTokens
    && q.priority == r.priority && q.arrival == r.arrival
  }

  lemma OthersKeepTokens(cfg: Config, s: State, e: Event, id: ReqId)
    requires Enabled(cfg, s, e) && !e.Output? && id in Apply(cfg, s, e).reqs && !(e.Add? && e.id == id)
    ensures id in s.reqs && SameIdentity(s.reqs[id], Apply(cfg, s, e).reqs[id])
    ensures Apply(cfg, s, e).reqs[id].tokens == s.reqs[id].tokens
  {
    hide ApplyOutput, Without, Insert, RestoreShare, Pool.Release, Pool.FreeNow, Pool.Acquire, Pool.Drain;
  }

  /** No delivered token is lost and none is invented: in every run a request's tokens are its prompt and
      what was kept of every output delivered to it, through any number of preemptions and resumptions. */
  lemma {:induction false} TokensAreDelivered(cfg: Config, trace: seq<Event>, id: ReqId)
    requires IsRun(cfg, trace) && id in After(cfg, trace).reqs
    ensures After(cfg, trace).reqs[id].tokens
            == After(cfg, trace).reqs[id].promptTokens + DeliveredTokens(cfg, trace, id)
    decreases |trace|
  {
    hide Enabled, Apply, Delivers;
    if trace != [] {
      var n := |trace| - 1;
      RunPrefix(cfg, trace);
      if !(trace[n].Add? && trace[n].id == id) {
        if trace[n].Output? {
          OutputTokens(cfg, After(cfg, trace[..n]), trace[n], id);
        } else {
          OthersKeepTokens(cfg, After(cfg, trace[..n]), trace[n], id);
        }
        TokensAreDelivered(cfg, trace[..n], id);
      } else {
        AddedTokens(cfg, After(cfg, trace[..n]), trace[n]);
      }
    }
  }

  lemma AddedTokens(cfg: Config, s: State, e: Event)
    requires Enabled(cfg, s, e) && e.Add?
    ensures var t := Apply(cfg, s, e);
            && e.id in t.reqs && t.reqs[e.id].tokens == t.reqs[e.id].promptTokens == e.prompt
            && t.reqs[e.id].maxTokens == e.maxTokens && t.reqs[e.id].priority == e.priority
            && t.reqs[e.id].arrival == e.arrival
  {
  }

  // ------------------------------------------------------------- computed tokens need blocks

  /** A request that runs or loads has a block table; one without has nothing computed. */
  ghost predicate Backed(s: State, id: ReqId) {
    id in s.reqs ==>
      && (s.reqs[id].status in {Running, WaitingForRemoteKvs} ==> id in s.pool.held)
      && (id !in s.pool.held ==> s.reqs[id].computed == 0)
  }

  lemma PassKeepsBacked(cfg: Config, s: State, e: Event, id: ReqId)
    requires Backed(s, id) && Enabled(cfg, s, e) && s.phase == Scheduling
    requires e.Commit? && id in s.pass.shares ==> id in s.reqs && s.reqs[id].status == Running
    ensures Backed(Apply(cfg, s, e), id)
  {
    hide Without, Insert, RestoreShare;
  }

  lemma BeginOutputKeepsHeld(cfg: Config, s: State)
    requires Enabled(cfg, s, BeginOutput)
    ensures Apply(cfg, s, BeginOutput).pool.held == s.pool.held
  {
    if s.steps[0].entries != map[] && s.pool.deferOn {
      var n := DrainMeaning(s.pool.(processed := s.pool.processed + 1));
    }
  }

  lemma OutputKeepsBacked(cfg: Config, s: State, e: Event, id: ReqId)
    requires Backed(s, id) && Enabled(cfg, s, e) && e.Output? && OutputsSound(s, e)
    ensures Backed(Apply(cfg, s, e), id)
  {
    OutputShape(cfg, s, e);
    hide Without, Insert;
  }

  lemma CallsKeepBacked(cfg: Config, s: State, e: Event, id: ReqId)
    requires Backed(s, id) && Enabled(cfg, s, e) && s.phase != Scheduling && !e.Output?
    ensures Backed(Apply(cfg, s, e), id)
  {
    hide Without, Insert, Pool.ProcessStep;
    if e.BeginOutput? {
      BeginOutputKeepsHeld(cfg, s);
    }
  }

  /** In every run: whoever runs or loads has a block table, and whoever lost it starts from nothing. */
  lemma {:induction false} ComputedIsBacked(cfg: Config, trace: seq<Event>, id: ReqId)
    requires IsRun(cfg, trace)
    ensures Backed(After(cfg, trace), id)
    decreases |trace|
  {
    hide Enabled, Apply;
    if trace == [] {
      assert After(cfg, trace) == InitialState(cfg);
    } else {
      var n := |trace| - 1;
      RunPrefix(cfg, trace);
      var s, e := After(cfg, trace[..n]), trace[n];
      ComputedIsBacked(cfg, trace[..n], id);
      EveryRunKeepsInv(cfg, trace[..n]);
      SharesRun(cfg, s);
      OutputsAreSound(cfg, s, e);
      if s.phase == Scheduling {
        PassKeepsBacked(cfg, s, e, id);
      } else if e.Output? {
        OutputKeepsBacked(cfg, s, e, id);
      } else {
        CallsKeepBacked(cfg, s, e, id);
      }
    }
  }

  // ------------------------------------------------------------- computed tokens, event by event

  /** The drafts of a returned share that the model did not accept. */
  function RejectedDrafts(drafts: nat, generated: nat, sampledPerStep: nat): int {
    if drafts == 0 || (generated == 0 && sampledPerStep > 0) then 0
    else if generated <= sampledPerStep then drafts
    else drafts - (generated - sampledPerStep)
  }

  /** How one event changes what a request has computed. */
  ghost function NextComputed(cfg: Config, s: State, e: Event, id: ReqId, before: int): int
    requires Enabled(cfg, s, e)
  {
    match e
    case Add(x, _, _, _, _, _) => if x == id then 0 else before
    case Preempt(x, _, _) => if x == id then 0 else before
    case AdmitAsync(f, computed, _, _) => if Head(s, f) == id then computed else before
    case Admit(f, computed, _, _, _, _) => if Head(s, f) == id then computed else before
    case Promote(f) => if Head(s, f) == id && id !in s.failed && before == s.reqs[id].tokens then before - 1 else before
    case Commit => if id in s.pass.shares then before + s.pass.shares[id].n else before
    case LoadsInvalid(truncated) => if id in truncated then truncated[id] else before
    case Output(x, loadFailed, generated, _, _, _) =>
      if x == id && !loadFailed && Delivers(s, id) && s.reqs[id].stale <= 0 && before > 0
      then before - RejectedDrafts(s.steps[0].entries[id].drafts, generated, cfg.sampledPerStep) else before
    case _ => before
  }

  /** What was found for a request when it was last admitted, plus the shares booked since, less the drafts rejected
      and what failed loads took away; the last token of a complete load is computed again. */
  ghost function ComputedTokens(cfg: Config, trace: seq<Event>, id: ReqId): int
    requires IsRun(cfg, trace)
    decreases |trace|
  {
    if trace == [] then 0
    else
      RunPrefix(cfg, trace);
      var n := |trace| - 1;
      NextComputed(cfg, After(cfg, trace[..n]), trace[n], id, ComputedTokens(cfg, trace[..n], id))
  }

  lemma OutputComputes(cfg: Config, s: State, e: Event, id: ReqId)
    requires Enabled(cfg, s, e) && e.Output? && id in Apply(cfg, s, e).reqs
    ensures id in s.reqs && Apply(cfg, s, e).reqs[id].computed == NextComputed(cfg, s, e, id, s.reqs[id].computed)
  {
    hide Without, Pool.Release;
  }

  lemma PassComputes(cfg: Config, s: State, e: Event, id: ReqId)
    requires Enabled(cfg, s, e) && s.phase == Scheduling && id in Apply(cfg, s, e).reqs
    ensures id in s.reqs && Apply(cfg, s, e).reqs[id].computed == NextComputed(cfg, s, e, id, s.reqs[id].computed)
  {
    hide Without, Insert, RestoreShare, Pool.Release, Pool.FreeNow, Pool.Acquire;
  }

  lemma CallComputes(cfg: Config, s: State, e: Event, id: ReqId)
    requires Enabled(cfg, s, e) && s.phase != Scheduling && !e.Output? && id in Apply(cfg, s, e).reqs
    ensures (e.Add? && e.id == id) || id in s.reqs
    ensures Apply(cfg, s, e).reqs[id].computed
            == NextComputed(cfg, s, e, id, if id in s.reqs then s.reqs[id].computed else 0)
  {
    hide Without, Insert, Pool.Release, Pool.Drain, Pool.ProcessStep;
  }

  lemma {:induction false} ComputedIsAccounted(cfg: Config, trace: seq<Event>, id: ReqId)
    requires IsRun(cfg, trace) && id in After(cfg, trace).reqs
    ensures After(cfg, trace).reqs[id].computed == ComputedTokens(cfg, trace, id)
    decreases |trace|
  {
    hide Enabled, Apply, NextComputed;
    if trace != [] {
      var n := |trace| - 1;
      RunPrefix(cfg, trace);
      var s, e := After(cfg, trace[..n]), trace[n];
      if s.phase == Scheduling {
        PassComputes(cfg, s, e, id);
      } else if e.Output? {
        OutputComputes(cfg, s, e, id);
      } else {
        CallComputes(cfg, s, e, id);
      }
      if id in s.reqs {
        ComputedIsAccounted(cfg, trace[..n], id);
      } else {
        AddedComputes(cfg, s, e, ComputedTokens(cfg, trace[..n], id));
      }
    }
  }

  lemma AddedComputes(cfg: Config, s: State, e: Event, before: int)
    requires Enabled(cfg, s, e) && e.Add?
    ensures NextComputed(cfg, s, e, e.id, before) == 0 == NextComputed(cfg, s, e, e.id, 0)
  {
  }

  // ------------------------------------------------------------- waiting requests

  /** A request waits as new exactly until it is first preempted, and only known requests have block tables. */
  ghost predicate WaitsAsItShould(s: State, id: ReqId) {
    && (id in s.reqs && s.reqs[id].status == Waiting ==> s.reqs[id].preemptions == 0)
    && (id in s.reqs && s.reqs[id].status == Preempted ==> s.reqs[id].preemptions > 0)
    && (id in s.pool.held ==> id in s.reqs)
  }

  lemma PassKeepsWaits(cfg: Config, s: State, e: Event, id: ReqId)
    requires WaitsAsItShould(s, id) && Enabled(cfg, s, e) && s.phase == Scheduling
    ensures WaitsAsItShould(Apply(cfg, s, e), id)
  {
    hide Without, Insert, RestoreShare;
  }

  lemma OutputKeepsWaits(cfg: Config, s: State, e: Event, id: ReqId)
    requires WaitsAsItShould(s, id) && Enabled(cfg, s, e) && e.Output?
    ensures WaitsAsItShould(Apply(cfg, s, e), id)
  {
    if id in Apply(cfg, s, e).reqs {
      OutputKeepsDelivery(cfg, s, e, id);
    }
    OutputKeepsHeld(cfg, s, e, id);
    hide Apply, Enabled;
  }

  /** An output touches no block table but that of a request that it ends. */
  lemma OutputKeepsHeld(cfg: Config, s: State, e: Event, id: ReqId)
    requires Enabled(cfg, s, e) && e.Output?
    ensures var t := Apply(cfg, s, e);
            && (id in t.reqs ==> id in s.reqs && t.reqs[id].status in {s.reqs[id].status, Finished})
            && (id in t.pool.held ==> id in s.pool.held)
            && (id in s.reqs && id !in t.reqs ==> id !in t.pool.held)
  {
    hide Without;
    OutputShape(cfg, s, e);
  }

  lemma CallsKeepWaits(cfg: Config, s: State, e: Event, id: ReqId)
    requires WaitsAsItShould(s, id) && Enabled(cfg, s, e) && s.phase != Scheduling && !e.Output?
    ensures WaitsAsItShould(Apply(cfg, s, e), id)
  {
    hide Without, Insert, Pool.ProcessStep;
    if e.BeginOutput? {
      BeginOutputKeepsHeld(cfg, s);
    }
  }

  lemma {:induction false} WaitingIsNew(cfg: Config, trace: seq<Event>, id: ReqId)
    requires IsRun(cfg, trace)
    ensures WaitsAsItShould(After(cfg, trace), id)
    decreases |trace|
  {
    hide Enabled, Apply;
    if trace == [] {
      assert After(cfg, trace) == InitialState(cfg);
    } else {
      var n := |trace| - 1;
      RunPrefix(cfg, trace);
      var s, e := After(cfg, trace[..n]), trace[n];
      WaitingIsNew(cfg, trace[..n], id);
      if s.phase == Scheduling {
        PassKeepsWaits(cfg, s, e, id);
      } else if e.Output? {
        OutputKeepsWaits(cfg, s, e, id);
      } else {
        CallsKeepWaits(cfg, s, e, id);
      }
    }
  }

  /** A failed load keeps its blocks exactly if something valid is left in them; a good one keeps all, and both
      may be admitted again. */
  lemma PromotionKeepsBlocksIff(cfg: Config, s: State, e: Event, id: ReqId)
    requires Enabled(cfg, s, e) && e.Promote? && id == Head(s, e.fromSkipped) && id in s.pool.held
    ensures var t := Apply(cfg, s, e);
            && (id in t.pool.held <==> !(id in s.failed && s.reqs[id].computed == 0))
            && (id in t.pool.held ==> t.pool == s.pool)
            && t.reqs[id].status in {Waiting, Preempted} && id !in t.failed && id !in t.recvd
  {
  }

  // ------------------------------------------------------------- blocks are freed at once when they can be

  /** A request's fence is that of an unwritten step which schedules it, or has been passed. */
  ghost predicate FenceIsDue(s: State, id: ReqId) {
    s.pool.deferOn && id in s.pool.lastSched && s.pool.lastSched[id] > s.pool.processed ==>
      WrittenBy(Unwritten(s), id, s.pool.lastSched[id])
  }

  ghost predicate WrittenBy(steps: seq<Step>, id: ReqId, seqNo: nat) {
    exists k :: 0 <= k < |steps| && id in steps[k].entries && steps[k].seqNo == seqNo
  }

  lemma CommitKeepsDue(cfg: Config, s: State, id: ReqId)
    requires FenceIsDue(s, id) && Enabled(cfg, s, Commit)
    requires forall x :: x in s.pass.shares ==> x in s.reqs
    ensures FenceIsDue(ApplyCommit(s), id)
  {
    var t := ApplyCommit(s);
    var n := |s.steps|;
    if id in s.pass.shares {
      assert id in t.steps[n].entries && t.steps[n].seqNo == t.pool.sched;
    } else if s.pool.deferOn && id in s.pool.lastSched && s.pool.lastSched[id] > s.pool.processed {
      var k :| 0 <= k < n && id in s.steps[k].entries && s.steps[k].seqNo == s.pool.lastSched[id];
      assert t.steps[k] == s.steps[k];
    }
  }

  lemma BeginOutputCounts(cfg: Config, s: State)
    requires Enabled(cfg, s, BeginOutput)
    ensures var t := Apply(cfg, s, BeginOutput);
            && s.steps != [] && s.phase == Idle && t.phase == Processing && t.steps == s.steps
            && t.pool.deferOn == s.pool.deferOn && t.pool.lastSched == s.pool.lastSched
            && t.pool.processed
               == s.pool.processed + if s.pool.deferOn && s.steps[0].entries != map[] then 1 else 0
  {
    if s.steps[0].entries != map[] && s.pool.deferOn {
      var n := DrainMeaning(s.pool.(processed := s.pool.processed + 1));
    }
  }

  lemma BeginOutputKeepsDue(cfg: Config, s: State, id: ReqId)
    requires cfg.deferBlockFree == s.pool.deferOn
    requires s.pool.deferOn ==> Chained(Unwritten(s), s.pool.processed, s.pool.sched)
    requires FenceIsDue(s, id) && Enabled(cfg, s, BeginOutput)
    ensures FenceIsDue(Apply(cfg, s, BeginOutput), id)
  {
    hide Apply, Enabled;
    BeginOutputCounts(cfg, s);
    var t := Apply(cfg, s, BeginOutput);
    if t.pool.deferOn && id in t.pool.lastSched && t.pool.lastSched[id] > t.pool.processed {
      var k :| 0 <= k < |s.steps| && id in s.steps[k].entries && s.steps[k].seqNo == s.pool.lastSched[id];
      assert k > 0;
      assert Unwritten(t)[k - 1] == s.steps[k];
    }
  }

  lemma OthersKeepDue(cfg: Config, s: State, e: Event, id: ReqId)
    requires FenceIsDue(s, id) && Enabled(cfg, s, e) && !e.Commit? && !e.BeginOutput? && !e.Output?
    ensures FenceIsDue(Apply(cfg, s, e), id)
  {
    hide ApplyOutput, Without, Insert, RestoreShare;
  }

  lemma OutputKeepsDue(cfg: Config, s: State, e: Event, id: ReqId)
    requires FenceIsDue(s, id) && Enabled(cfg, s, e) && e.Output?
    ensures FenceIsDue(Apply(cfg, s, e), id)
  {
    hide Without;
    assert Unwritten(Apply(cfg, s, e)) == Unwritten(s);
  }

  /** In every run a request's blocks are deferred only while an unprocessed step may write them: without such a
      step they are freed at once. */
  lemma {:induction false} FreedAtOnce(cfg: Config, trace: seq<Event>, id: ReqId)
    requires IsRun(cfg, trace)
    ensures var s := After(cfg, trace);
            && FenceIsDue(s, id)
            && (id in s.pool.lastSched && (forall k :: 0 <= k < |Unwritten(s)| ==> id !in Unwritten(s)[k].entries) ==>
                  s.pool.Release(id) == s.pool.FreeNow(id))
    decreases |trace|
  {
    hide Enabled, Apply;
    if trace == [] {
      assert After(cfg, trace) == InitialState(cfg);
    } else {
      var n := |trace| - 1;
      RunPrefix(cfg, trace);
      var s, e := After(cfg, trace[..n]), trace[n];
      FreedAtOnce(cfg, trace[..n], id);
      EveryRunKeepsInv(cfg, trace[..n]);
      match e
      case Commit =>
        SharesRun(cfg, s);
        CommitApplies(cfg, s);
        CommitKeepsDue(cfg, s, id);
      case BeginOutput => BeginOutputKeepsDue(cfg, s, id);
      case Output(_, _, _, _, _, _) => OutputKeepsDue(cfg, s, e, id);
      case _ => OthersKeepDue(cfg, s, e, id);
    }
  }

  lemma CommitApplies(cfg: Config, s: State)
    requires Enabled(cfg, s, Commit)
    ensures Apply(cfg, s, Commit) == ApplyCommit(s)
  {
  }

  // ------------------------------------------------------------- stale output is not lost

  /** Some share of the request scheduled up to its `epoch`-th preemption is still in flight. */
  ghost predicate StillDue(s: State, id: ReqId, epoch: nat) {
    exists k :: 0 <= k < |s.steps| && id in s.steps[k].entries && s.steps[k].entries[id].epoch <= epoch
  }

  /** Such a share is in the oldest step. */
  ghost predicate ReturnsNext(s: State, id: ReqId, epoch: nat) {
    s.steps != [] && id in s.steps[0].entries && s.steps[0].entries[id].epoch <= epoch
  }

  /** As long as it is, nothing has preempted the request again, and its stale output is to be delivered. */
  ghost predicate ToBeDelivered(s: State, id: ReqId, epoch: nat) {
    Unfinished(s, id) && StillDue(s, id, epoch) ==>
      s.reqs[id].preemptions == epoch + 1 && !s.reqs[id].dropStale && s.reqs[id].stale > 0
  }

  lemma DueIsStale(s: State, id: ReqId, epoch: nat)
    requires CountsInv(s.reqs, s.steps) && id in s.reqs && StillDue(s, id, epoch) && epoch < s.reqs[id].preemptions
    ensures s.reqs[id].stale > 0
  {
    var k :| 0 <= k < |s.steps| && id in s.steps[k].entries && s.steps[k].entries[id].epoch <= epoch;
    assert CountsOk(s.reqs[id], s.steps, id);
    assert StepBounded(s.reqs, s.steps[k]) && EntryBounded(s.reqs, id, s.steps[k].entries[id]);
    DueAtLeast(s.steps, id, k, s.reqs[id].preemptions);
  }

  lemma DeliverModeStarts(cfg: Config, s: State, e: Event)
    requires Inv(cfg, s) && Enabled(cfg, s, e) && e.Preempt? && !e.drop
    requires !(s.reqs[e.id].dropStale && s.reqs[e.id].stale > 0)
    ensures ToBeDelivered(Apply(cfg, s, e), e.id, s.reqs[e.id].preemptions)
  {
    InvKept(cfg, s, e);
    var t := Apply(cfg, s, e);
    if Unfinished(t, e.id) && StillDue(t, e.id, s.reqs[e.id].preemptions) {
      DueIsStale(t, e.id, s.reqs[e.id].preemptions);
    }
  }

  lemma StepsStay(cfg: Config, s: State, e: Event)
    requires Enabled(cfg, s, e) && !e.Commit? && !e.Output? && !e.EndOutput?
    ensures Apply(cfg, s, e).steps == s.steps
  {
    hide ApplyOutput, Without, Insert, RestoreShare, Pool.Release, Pool.FreeNow, Pool.Acquire, Pool.Drain;
  }

  lemma StepsMove(cfg: Config, s: State, e: Event, id: ReqId)
    requires Enabled(cfg, s, e) && id in s.reqs && (e.Commit? || e.Output? || e.EndOutput?)
    ensures var t := Apply(cfg, s, e);
            && (e.Output? ==> |t.steps| == |s.steps| && t.steps[0].entries == s.steps[0].entries - {e.id}
                              && t.steps[1..] == s.steps[1..])
            && (e.EndOutput? ==> s.steps != [] && t.steps == s.steps[1..])
            && (e.Commit? ==> |t.steps| == |s.steps| + 1 && t.steps[..|s.steps|] == s.steps
                              && (id in t.steps[|s.steps|].entries ==>
                                    t.steps[|s.steps|].entries[id].epoch == s.reqs[id].preemptions))
  {
    if e.Output? {
      OutputShape(cfg, s, e);
    }
  }

  /** An event of the machine adds only shares of the request's present epoch to those in flight. */
  lemma NoOldShares(cfg: Config, s: State, e: Event, id: ReqId, epoch: nat)
    requires Enabled(cfg, s, e) && id in s.reqs && s.reqs[id].preemptions > epoch
    requires StillDue(Apply(cfg, s, e), id, epoch)
    ensures StillDue(s, id, epoch)
  {
    hide Enabled, Apply;
    var t := Apply(cfg, s, e);
    var k :| 0 <= k < |t.steps| && id in t.steps[k].entries && t.steps[k].entries[id].epoch <= epoch;
    if e.Commit? || e.Output? || e.EndOutput? {
      StepsMove(cfg, s, e, id);
      if e.Output? {
        assert k > 0 ==> s.steps[k] == s.steps[1..][k - 1] == t.steps[1..][k - 1];
        assert id in s.steps[k].entries && s.steps[k].entries[id].epoch <= epoch;
      } else if e.EndOutput? {
        assert s.steps[k + 1] == t.steps[k];
      } else {
        assert k < |s.steps| && s.steps[k] == t.steps[..|s.steps|][k];
      }
    } else {
      StepsStay(cfg, s, e);
    }
  }

  /** The request still counts as preempted as often, and its stale output is dropped or not as before. */
  ghost predicate SameDelivery(s: State, t: State, id: ReqId) {
    && id in s.reqs && id in t.reqs
    && (t.reqs[id].status != Finished ==> s.reqs[id].status != Finished)
    && t.reqs[id].preemptions == s.reqs[id].preemptions && t.reqs[id].dropStale == s.reqs[id].dropStale
  }

  lemma OutputKeepsDelivery(cfg: Config, s: State, e: Event, id: ReqId)
    requires Enabled(cfg, s, e) && e.Output? && id in Apply(cfg, s, e).reqs
    ensures SameDelivery(s, Apply(cfg, s, e), id)
  {
    hide Without, Pool.Release;
  }

  lemma DeliveryFields(cfg: Config, s: State, e: Event, id: ReqId)
    requires Enabled(cfg, s, e) && !e.Output? && id in Apply(cfg, s, e).reqs
    requires !(e.Add? && e.id == id) && !(e.Preempt? && e.id == id)
    ensures SameDelivery(s, Apply(cfg, s, e), id)
  {
    hide ApplyOutput, Without, Insert, RestoreShare, Pool.Release, Pool.FreeNow, Pool.Acquire, Pool.Drain;
  }

  lemma DeliveryStep(cfg: Config, s: State, e: Event, id: ReqId, epoch: nat)
    requires Inv(cfg, s) && Enabled(cfg, s, e) && !(e.Add? && e.id == id) && ToBeDelivered(s, id, epoch)
    requires Unfinished(s, id) ==> s.reqs[id].preemptions > epoch
    ensures ToBeDelivered(Apply(cfg, s, e), id, epoch)
    ensures Unfinished(Apply(cfg, s, e), id) ==> Apply(cfg, s, e).reqs[id].preemptions > epoch
  {
    InvKept(cfg, s, e);
    hide Inv, Apply, Enabled;
    var t := Apply(cfg, s, e);
    if Unfinished(t, id) {
      if e.Preempt? && e.id == id {
        PreemptedAgain(cfg, s, e, epoch);
      } else {
        if e.Output? {
          OutputKeepsDelivery(cfg, s, e, id);
        } else {
          DeliveryFields(cfg, s, e, id);
        }
        if StillDue(t, id, epoch) {
          NoOldShares(cfg, s, e, id, epoch);
          CountsOfInv(cfg, t);
          DueIsStale(t, id, epoch);
        }
      }
    }
  }

  lemma CountsOfInv(cfg: Config, s: State)
    requires Inv(cfg, s)
    ensures CountsInv(s.reqs, s.steps)
  {
  }

  /** While deliverable output is due, the request waits: it is not preempted again. */
  lemma PreemptedAgain(cfg: Config, s: State, e: Event, epoch: nat)
    requires Inv(cfg, s) && Enabled(cfg, s, e) && e.Preempt? && ToBeDelivered(s, e.id, epoch)
    requires s.reqs[e.id].preemptions > epoch
    ensures ToBeDelivered(Apply(cfg, s, e), e.id, epoch) && Apply(cfg, s, e).reqs[e.id].preemptions > epoch
  {
    assert CountsOk(s.reqs[e.id], s.steps, e.id);
    assert !StillDue(s, e.id, epoch);
    assert Apply(cfg, s, e).steps == s.steps;
    assert StillDue(Apply(cfg, s, e), e.id, epoch) <==> StillDue(s, e.id, epoch);
  }

  /** Preempting without dropping loses nothing: if no older output was being dropped, every share in flight at
      the preemption is delivered when it returns, whatever happened in between, unless the request has
      finished. */
  lemma {:induction false} DeliveredAfterAll(cfg: Config, trace: seq<Event>, k: nat, id: ReqId)
    requires IsRun(cfg, trace) && k < |trace| && trace[k].Preempt? && trace[k].id == id && !trace[k].drop
    requires IsRun(cfg, trace[..k]) && id in After(cfg, trace[..k]).reqs
    requires var r := After(cfg, trace[..k]).reqs[id]; !(r.dropStale && r.stale > 0)
    requires forall j :: k < j < |trace| && trace[j].Add? ==> trace[j].id != id
    ensures var s, epoch := After(cfg, trace), After(cfg, trace[..k]).reqs[id].preemptions;
            && (Unfinished(s, id) ==> s.reqs[id].preemptions > epoch)
            && ToBeDelivered(s, id, epoch)
            && (Unfinished(s, id) && ReturnsNext(s, id, epoch) ==> Delivers(s, id))
    decreases |trace|
  {
    hide Exec, Enabled, Apply, Inv;
    var n := |trace| - 1;
    RunPrefix(cfg, trace);
    EveryRunKeepsInv(cfg, trace[..n]);
    if k < n {
      assert trace[..n][..k] == trace[..k];
      DeliveredAfterAll(cfg, trace[..n], k, id);
      DeliveryStep(cfg, After(cfg, trace[..n]), trace[n], id, After(cfg, trace[..k]).reqs[id].preemptions);
    } else {
      DeliverModeStarts(cfg, After(cfg, trace[..n]), trace[n]);
      MorePreempted(cfg, After(cfg, trace[..n]), trace[n]);
    }
  }

  lemma MorePreempted(cfg: Config, s: State, e: Event)
    requires Enabled(cfg, s, e) && e.Preempt?
    ensures e.id in Apply(cfg, s, e).reqs && Apply(cfg, s, e).reqs[e.id].preemptions == s.reqs[e.id].preemptions + 1
  {
  }

  // ------------------------------------------------------------- drafts, placeholders, preemptions

  /** The drafts proposed to a request and neither scheduled nor given up since. */
  ghost function ProposedDrafts(cfg: Config, trace: seq<Event>, id: ReqId): nat
    requires IsRun(cfg, trace)
    decreases |trace|
  {
    if trace == [] then 0
    else
      RunPrefix(cfg, trace);
      var n := |trace| - 1;
      var e, s := trace[n], After(cfg, trace[..n]);
      if (e.Add? || e.Take? || e.Preempt?) && e.id == id then 0
      else if e.SetDrafts? && e.id == id then (if id in s.reqs && s.reqs[id].prefillChunk then 0 else e.count)
      else ProposedDrafts(cfg, trace[..n], id)
  }

  /** How often a request was preempted since it was added. */
  ghost function TimesPreempted(trace: seq<Event>, id: ReqId): nat
    decreases |trace|
  {
    if trace == [] then 0
    else
      var n := |trace| - 1;
      if trace[n].Add? && trace[n].id == id then 0
      else TimesPreempted(trace[..n], id) + if trace[n].Preempt? && trace[n].id == id then 1 else 0
  }

  lemma OutputKeepsDrafts(cfg: Config, s: State, e: Event, id: ReqId)
    requires Enabled(cfg, s, e) && e.Output? && id in Apply(cfg, s, e).reqs
    ensures id in s.reqs && Apply(cfg, s, e).reqs[id].specs == s.reqs[id].specs
    ensures Apply(cfg, s, e).reqs[id].preemptions == s.reqs[id].preemptions
  {
    hide Without, Pool.Release;
  }

  lemma DraftsStep(cfg: Config, s: State, e: Event, id: ReqId)
    requires Enabled(cfg, s, e) && !e.Output? && id in Apply(cfg, s, e).reqs && !(e.Add? && e.id == id)
    ensures id in s.reqs
    ensures Apply(cfg, s, e).reqs[id].specs ==
            if (e.Take? || e.Preempt?) && e.id == id then 0
            else if e.SetDrafts? && e.id == id then (if s.reqs[id].prefillChunk then 0 else e.count)
            else s.reqs[id].specs
    ensures Apply(cfg, s, e).reqs[id].preemptions ==
            s.reqs[id].preemptions + if e.Preempt? && e.id == id then 1 else 0
  {
    hide ApplyOutput, Without, Insert, RestoreShare, Pool.Release, Pool.FreeNow, Pool.Acquire, Pool.Drain;
  }

  lemma AddedDrafts(cfg: Config, s: State, e: Event)
    requires Enabled(cfg, s, e) && e.Add?
    ensures var t := Apply(cfg, s, e);
            && e.id in t.reqs && t.reqs[e.id].specs == 0 && t.reqs[e.id].preemptions == 0
            && t.reqs[e.id].status == Waiting && !t.reqs[e.id].prefillChunk && !t.reqs[e.id].dropStale
  {
  }

  /** The drafts a request carries are those proposed since it was last scheduled or preempted, and its
      preemption count is the number of its preemptions. */
  lemma {:induction false} DraftsAreProposed(cfg: Config, trace: seq<Event>, id: ReqId)
    requires IsRun(cfg, trace) && id in After(cfg, trace).reqs
    ensures After(cfg, trace).reqs[id].specs == ProposedDrafts(cfg, trace, id)
    ensures After(cfg, trace).reqs[id].preemptions == TimesPreempted(trace, id)
    decreases |trace|
  {
    hide Enabled, Apply;
    if trace != [] {
      var n := |trace| - 1;
      RunPrefix(cfg, trace);
      if !(trace[n].Add? && trace[n].id == id) {
        if trace[n].Output? {
          OutputKeepsDrafts(cfg, After(cfg, trace[..n]), trace[n], id);
        } else {
          DraftsStep(cfg, After(cfg, trace[..n]), trace[n], id);
        }
        DraftsAreProposed(cfg, trace[..n], id);
      } else {
        AddedDrafts(cfg, After(cfg, trace[..n]), trace[n]);
      }
    }
  }

  /** Output placeholders are a running request's: whoever waits has none. */
  ghost predicate WaitsWithoutPlaceholders(s: State, id: ReqId) {
    id in s.reqs && IsWaiting(s.reqs[id].status) ==> s.reqs[id].placeholders == 0
  }

  lemma PlaceholdersStep(cfg: Config, s: State, e: Event, id: ReqId)
    requires Enabled(cfg, s, e) && WaitsWithoutPlaceholders(s, id) && OutputsSound(s, e)
    requires e.SetPlaceholders? ==> HasStatus(s.reqs, e.id, Running)
    ensures WaitsWithoutPlaceholders(Apply(cfg, s, e), id)
  {
    hide Without, Insert, RestoreShare, Pool.Release, Pool.FreeNow, Pool.Acquire, Pool.Drain;
  }

  lemma {:induction false} PlaceholdersAreOfTheRunning(cfg: Config, trace: seq<Event>, id: ReqId)
    requires IsRun(cfg, trace)
    ensures WaitsWithoutPlaceholders(After(cfg, trace), id)
    decreases |trace|
  {
    hide Enabled, Apply;
    if trace == [] {
      assert After(cfg, trace) == InitialState(cfg);
    } else {
      var n := |trace| - 1;
      RunPrefix(cfg, trace);
      var s, e := After(cfg, trace[..n]), trace[n];
      PlaceholdersAreOfTheRunning(cfg, trace[..n], id);
      EveryRunKeepsInv(cfg, trace[..n]);
      OutputsAreSound(cfg, s, e);
      if e.SetPlaceholders? {
        PlaceholdersAreSetRunning(cfg, s, e);
      }
      PlaceholdersStep(cfg, s, e, id);
    }
  }

  lemma PlaceholdersAreSetRunning(cfg: Config, s: State, e: Event)
    requires QueueInv(s) && Enabled(cfg, s, e) && e.SetPlaceholders?
    ensures HasStatus(s.reqs, e.id, Running)
  {
    assert PlacedOk(s, e.id);
    CountIn(s.running, e.id);
  }
}
