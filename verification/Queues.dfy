/** The queue partition, and first-come-first-served order, over every run. */
module Queues {
  import opened Ledger
  import opened Machine

  predicate IsWaiting(st: Status) {
    st in {Waiting, WaitingForRemoteKvs, Preempted}
  }

  ghost function Count(q: seq<ReqId>, x: ReqId): nat {
    multiset(q)[x]
  }

  ghost predicate HasStatus(reqs: map<ReqId, Req>, x: ReqId, st: Status) {
    x in reqs && reqs[x].status == st
  }

  /** One request's places: once in `running` exactly when its status is RUNNING, once in the three
      waiting lists together exactly when it waits, nowhere otherwise. */
  ghost predicate PlacedOk(s: State, x: ReqId) {
    && Count(s.running, x) == (if HasStatus(s.reqs, x, Running) then 1 else 0)
    && Count(s.waiting, x) + Count(s.skipped, x) + Count(s.pass.stepSkipped, x)
       == (if x in s.reqs && IsWaiting(s.reqs[x].status) then 1 else 0)
  }

  ghost predicate QueueInv(s: State) {
    forall x :: PlacedOk(s, x)
  }

  // ------------------------------------------------------------- counting

  lemma {:induction false} CountWithout(q: seq<ReqId>, id: ReqId, x: ReqId)
    ensures Count(Without(q, id), x) == (if x == id then 0 else Count(q, x))
  {
    if q != [] {
      CountWithout(q[1..], id, x);
      assert q == [q[0]] + q[1..];
    }
  }

  lemma CountInsert(q: seq<ReqId>, id: ReqId, pos: nat, x: ReqId)
    requires pos <= |q|
    ensures Count(Insert(q, id, pos), x) == Count(q, x) + (if x == id then 1 else 0)
  {
    assert q == q[..pos] + q[pos..];
  }

  lemma CountPop(q: seq<ReqId>, x: ReqId)
    requires q != []
    ensures Count(q[1..], x) == Count(q, x) - (if x == q[0] then 1 else 0)
    ensures Count(q, q[0]) > 0
  {
    assert q == [q[0]] + q[1..];
  }

  lemma CountIn(q: seq<ReqId>, x: ReqId)
    ensures Count(q, x) > 0 <==> x in q
  {
  }

  /** What is counted at most once stands at one position. */
  lemma CountTwice(q: seq<ReqId>, j: nat, k: nat)
    requires j < k < |q| && Count(q, q[j]) <= 1
    ensures q[j] != q[k]
  {
    assert q == q[..k] + q[k..];
    CountIn(q[..k], q[j]);
    CountIn(q[k..], q[k]);
    assert q[..k][j] == q[j] && q[k..][0] == q[k];
  }

  // ------------------------------------------------------------- preservation

  /** The head of a waiting list waits, and is in no other place. */
  lemma HeadWaits(cfg: Config, s: State, fromSkipped: bool)
    requires QueueInv(s) && QueueChoice(cfg, s, fromSkipped)
    ensures var id := Head(s, fromSkipped); id in s.reqs && IsWaiting(s.reqs[id].status)
  {
    var id := Head(s, fromSkipped);
    assert PlacedOk(s, id);
    CountIn(if fromSkipped then s.skipped else s.waiting, id);
  }

  lemma PopPlaces(s: State, fromSkipped: bool, x: ReqId)
    requires if fromSkipped then s.skipped != [] else s.waiting != []
    ensures var t := PopHead(s, fromSkipped);
            Count(t.waiting, x) + Count(t.skipped, x) ==
              Count(s.waiting, x) + Count(s.skipped, x) - (if x == Head(s, fromSkipped) then 1 else 0)
  {
    CountPop(if fromSkipped then s.skipped else s.waiting, x);
  }

  /** The head of a waiting queue put aside, still waiting. */
  lemma HeldKeepsPlace(s: State, t: State, fromSkipped: bool, x: ReqId)
    requires PlacedOk(s, x) && if fromSkipped then s.skipped != [] else s.waiting != []
    requires t.waiting == PopHead(s, fromSkipped).waiting && t.skipped == PopHead(s, fromSkipped).skipped
    requires t.running == s.running && t.pass.stepSkipped == [Head(s, fromSkipped)] + s.pass.stepSkipped
    requires forall st :: HasStatus(t.reqs, x, st) ==>
        x in s.reqs && (st == s.reqs[x].status || (IsWaiting(st) && IsWaiting(s.reqs[x].status)))
    requires x in s.reqs ==> x in t.reqs
    ensures PlacedOk(t, x)
  {
    PopPlaces(s, fromSkipped, x);
    if x in t.reqs {
      assert HasStatus(t.reqs, x, t.reqs[x].status);
    }
  }

  /** The head of a waiting queue moved to the end of `running`. */
  lemma AdmittedKeepsPlace(s: State, t: State, fromSkipped: bool, x: ReqId)
    requires PlacedOk(s, x) && if fromSkipped then s.skipped != [] else s.waiting != []
    requires t.waiting == PopHead(s, fromSkipped).waiting && t.skipped == PopHead(s, fromSkipped).skipped
    requires t.running == s.running + [Head(s, fromSkipped)] && t.pass.stepSkipped == s.pass.stepSkipped
    requires var id := Head(s, fromSkipped);
             && id in s.reqs && IsWaiting(s.reqs[id].status) && HasStatus(t.reqs, id, Running)
             && (x != id ==> (x in t.reqs <==> x in s.reqs) && (x in s.reqs ==> t.reqs[x] == s.reqs[x]))
    ensures PlacedOk(t, x)
  {
    PopPlaces(s, fromSkipped, x);
  }

  lemma AdmissionsKeepQueues(cfg: Config, s: State, e: Event, x: ReqId)
    requires QueueInv(s) && Enabled(cfg, s, e) && (e.Skip? || e.AdmitAsync? || e.Admit?)
    ensures PlacedOk(Apply(cfg, s, e), x)
  {
    hide PlacedOk, ApplyOutput, Retire, Reclaim, ApplyCommit, ApplyLoadsInvalid, ApplyPromote, ApplyPreempt, ApplyTake,
      ApplyRequeue, ApplyAdd, ApplyBeginPass;
    HeadWaits(cfg, s, e.fromSkipped);
    assert PlacedOk(s, x);
    if e.Admit? {
      AdmittedKeepsPlace(s, Apply(cfg, s, e), e.fromSkipped, x);
    } else {
      HeldKeepsPlace(s, Apply(cfg, s, e), e.fromSkipped, x);
    }
  }

  /** Leaving every queue and no longer waiting or running. */
  lemma LeavingKeepsPlace(s: State, t: State, id: ReqId, x: ReqId)
    requires PlacedOk(s, x) && s.pass.stepSkipped == [] && t.pass == s.pass
    requires t.running == Without(s.running, id) && t.waiting == Without(s.waiting, id)
    requires t.skipped == Without(s.skipped, id)
    requires id in t.reqs ==> t.reqs[id].status == Finished
    requires x != id ==> (x in t.reqs <==> x in s.reqs) && (x in s.reqs ==> t.reqs[x] == s.reqs[x])
    ensures PlacedOk(t, x)
  {
    CountWithout(s.running, id, x);
    CountWithout(s.waiting, id, x);
    CountWithout(s.skipped, id, x);
  }

  lemma RetireKeepsQueues(s: State, id: ReqId, send: bool, x: ReqId)
    requires QueueInv(s) && id in s.reqs && id in s.pool.lastSched && s.pass.stepSkipped == []
    ensures PlacedOk(Retire(s, id, send), x)
  {
    assert PlacedOk(s, x);
    LeavingKeepsPlace(s, Retire(s, id, send), id, x);
  }

  /** The output of one request: delivered and stopped, or only its counters change. */
  lemma OutputKeepsQueues(cfg: Config, s: State, e: Event, x: ReqId)
    requires QueueInv(s) && Enabled(cfg, s, e) && e.Output? && s.pass.stepSkipped == []
    ensures PlacedOk(Apply(cfg, s, e), x)
  {
    hide ApplyOutput;
    assert PlacedOk(s, x);
    OutputShape(cfg, s, e);
    if StopsRequest(s, e) {
      LeavingKeepsPlace(s, Apply(cfg, s, e), e.id, x);
    }
  }

  lemma PreemptKeepsQueues(cfg: Config, s: State, e: Event, x: ReqId)
    requires QueueInv(s) && Enabled(cfg, s, e) && e.Preempt?
    ensures PlacedOk(Apply(cfg, s, e), x)
  {
    assert PlacedOk(s, x);
    CountWithout(s.running, e.id, x);
    CountInsert(s.waiting, e.id, e.pos, x);
  }

  lemma AddKeepsQueues(cfg: Config, s: State, e: Event, x: ReqId)
    requires QueueInv(s) && Enabled(cfg, s, e) && e.Add?
    ensures PlacedOk(Apply(cfg, s, e), x)
  {
    assert PlacedOk(s, x);
    CountInsert(s.waiting, e.id, e.pos, x);
  }

  lemma RequeueKeepsQueues(cfg: Config, s: State, e: Event, x: ReqId)
    requires QueueInv(s) && Enabled(cfg, s, e) && (e.Requeue? || e.Promote?)
    ensures PlacedOk(Apply(cfg, s, e), x)
  {
    assert PlacedOk(s, x);
  }

  lemma ReclaimKeepsQueues(cfg: Config, s: State, e: Event, x: ReqId)
    requires QueueInv(s) && Enabled(cfg, s, e) && (e.Received? || e.Sent?)
    requires s.reqs[e.id].status in {WaitingForRemoteKvs, Finished}
    requires e.Sent? ==> s.reqs[e.id].status == Finished
    ensures PlacedOk(Apply(cfg, s, e), x)
  {
    assert PlacedOk(s, x);
  }

  lemma QuietEventsKeepQueues(cfg: Config, s: State, e: Event, x: ReqId)
    requires QueueInv(s) && Enabled(cfg, s, e)
    requires || e.SetDrafts? || e.SetPlaceholders? || e.BeginPass? || e.Take? || e.RetainCopy? || e.Commit?
             || e.BeginOutput? || e.LoadsInvalid? || e.EndOutput?
    requires e.BeginPass? ==> s.pass.stepSkipped == []
    ensures PlacedOk(Apply(cfg, s, e), x)
  {
    assert PlacedOk(s, x);
  }

  /** Every event keeps the partition.  The side conditions are parts of the machine's other invariants. */
  lemma QueuesKept(cfg: Config, s: State, e: Event)
    requires QueueInv(s) && Enabled(cfg, s, e)
    requires s.phase != Scheduling ==> s.pass.stepSkipped == []
    requires e.Received? || e.Sent? ==> s.reqs[e.id].status in {WaitingForRemoteKvs, Finished}
    requires e.Sent? ==> s.reqs[e.id].status == Finished
    ensures QueueInv(Apply(cfg, s, e))
  {
    forall x
      ensures PlacedOk(Apply(cfg, s, e), x)
    {
      if e.Skip? || e.AdmitAsync? || e.Admit? {
        AdmissionsKeepQueues(cfg, s, e, x);
      } else if e.Output? {
        OutputKeepsQueues(cfg, s, e, x);
      } else if e.Finish? {
        RetireKeepsQueues(s, e.id, e.send, x);
      } else if e.Preempt? {
        PreemptKeepsQueues(cfg, s, e, x);
      } else if e.Add? {
        AddKeepsQueues(cfg, s, e, x);
      } else if e.Requeue? || e.Promote? {
        RequeueKeepsQueues(cfg, s, e, x);
      } else if e.Received? || e.Sent? {
        ReclaimKeepsQueues(cfg, s, e, x);
      } else {
        QuietEventsKeepQueues(cfg, s, e, x);
      }
    }
  }

  // ------------------------------------------------------------- first come, first served

  /** Arrivals in order, with departures deleted. */
  ghost function ArrivalOrder(cfg: Config, trace: seq<Event>): seq<ReqId>
    requires IsRun(cfg, trace)
    decreases |trace|
  {
    if trace == [] then []
    else
      RunPrefix(cfg, trace);
      var n := |trace| - 1;
      var before := ArrivalOrder(cfg, trace[..n]);
      var e := trace[n];
      if e.Add? then before + [e.id]
      else if e.Finish? || (e.Output? && StopsRequest(After(cfg, trace[..n]), e)) then Without(before, e.id)
      else before
  }

  ghost predicate NothingSkipped(trace: seq<Event>) {
    forall k :: 0 <= k < |trace| ==> !trace[k].Skip? && !trace[k].AdmitAsync?
  }

  lemma {:induction false} WithoutConcat(a: seq<ReqId>, b: seq<ReqId>, id: ReqId)
    ensures Without(a + b, id) == Without(a, id) + Without(b, id)
  {
    if a == [] {
      assert a + b == b;
    } else {
      assert (a + b)[1..] == a[1..] + b;
      WithoutConcat(a[1..], b, id);
    }
  }

  lemma WithoutLast(q: seq<ReqId>)
    requires q != [] && Count(q, q[|q| - 1]) == 1
    ensures Without(q, q[|q| - 1]) == q[..|q| - 1]
  {
    var front, id := q[..|q| - 1], q[|q| - 1];
    assert q == front + [id];
    assert Count(front, id) == 0;
    CountIn(front, id);
    WithoutConcat(front, [id], id);
    assert Without([id], id) == [];
  }

  /** One event of an FCFS run in which nothing is skipped: `running ++ waiting` loses what finishes,
      gains what arrives, and is otherwise the same sequence. */
  lemma OrderStep(cfg: Config, s: State, e: Event)
    requires cfg.policy == Fcfs && Enabled(cfg, s, e) && QueueInv(s)
    requires s.skipped == [] && s.pass.stepSkipped == [] && !e.Skip? && !e.AdmitAsync?
    ensures var t := Apply(cfg, s, e);
            && t.skipped == [] && t.pass.stepSkipped == []
            && t.running + t.waiting ==
                 if e.Add? then s.running + s.waiting + [e.id]
                 else if e.Finish? || (e.Output? && StopsRequest(s, e)) then Without(s.running + s.waiting, e.id)
                 else s.running + s.waiting
  {
    if e.Preempt? {
      PreemptOrderStep(cfg, s, e);
    } else if e.Finish? || e.Output? {
      LeaveOrderStep(cfg, s, e);
    } else {
      PlainOrderStep(cfg, s, e);
    }
  }

  lemma PreemptOrderStep(cfg: Config, s: State, e: Event)
    requires cfg.policy == Fcfs && Enabled(cfg, s, e) && QueueInv(s) && e.Preempt?
    ensures var t := Apply(cfg, s, e);
            && t.skipped == s.skipped && t.pass.stepSkipped == s.pass.stepSkipped
            && t.running + t.waiting == s.running + s.waiting
  {
    assert PlacedOk(s, e.id);
    LastToFront(s.running, s.waiting);
  }

  /** Moving the last running request to the front of the waiting queue leaves their
      concatenation as it was. */
  lemma LastToFront(running: seq<ReqId>, waiting: seq<ReqId>)
    requires running != [] && Count(running, running[|running| - 1]) == 1
    ensures var id := running[|running| - 1];
            Without(running, id) + Insert(waiting, id, 0) == running + waiting
  {
    WithoutLast(running);
    InsertFront(waiting, running[|running| - 1]);
    Regroup(running, waiting);
  }

  lemma Regroup(running: seq<ReqId>, waiting: seq<ReqId>)
    requires running != []
    ensures running[..|running| - 1] + ([running[|running| - 1]] + waiting) == running + waiting
  {
  }

  lemma InsertFront(q: seq<ReqId>, id: ReqId)
    ensures Insert(q, id, 0) == [id] + q
  {
  }

  lemma LeaveOrderStep(cfg: Config, s: State, e: Event)
    requires Enabled(cfg, s, e) && (e.Finish? || e.Output?)
    requires s.skipped == []
    ensures var t := Apply(cfg, s, e);
            && t.skipped == [] && t.pass.stepSkipped == s.pass.stepSkipped
            && t.running + t.waiting == if e.Finish? || StopsRequest(s, e)
                                        then Without(s.running + s.waiting, e.id)
                                        else s.running + s.waiting
  {
    WithoutConcat(s.running, s.waiting, e.id);
    if e.Output? {
      OutputShape(cfg, s, e);
    }
  }

  lemma PlainOrderStep(cfg: Config, s: State, e: Event)
    requires cfg.policy == Fcfs && Enabled(cfg, s, e)
    requires s.skipped == [] && s.pass.stepSkipped == []
    requires !e.Skip? && !e.AdmitAsync? && !e.Preempt? && !e.Finish? && !e.Output?
    ensures var t := Apply(cfg, s, e);
            && t.skipped == [] && t.pass.stepSkipped == []
            && t.running + t.waiting == s.running + s.waiting + (if e.Add? then [e.id] else [])
  {
    hide ApplyOutput, Retire;
    if e.Admit? {
      assert s.waiting == [s.waiting[0]] + s.waiting[1..];
    }
  }
}
