/** Arrivals, forced resets, aborts and transfer reports, on values. */
module Departures {
  import opened Ledger
  import opened Machine
  import opened Queues
  import opened Fences
  import opened Runs
  import opened Passes
  import opened Returns
  import opened Collections

  lemma AddReaches(cfg: Config, s: State, id: ReqId, prompt: nat, maxTokens: nat, priority: int, arrival: int, pos: nat)
    requires Reachable(cfg, s) && Enabled(cfg, s, Add(id, prompt, maxTokens, priority, arrival, pos))
    ensures var t := ApplyAdd(s, id, NewRequest(prompt, maxTokens, priority, arrival), pos);
            Reachable(cfg, t) && Follows(cfg, s, t)
  {
    hide Reachable, Follows;
    StepReaches(cfg, s, Add(id, prompt, maxTokens, priority, arrival, pos));
  }

  // ------------------------------------------------------------- reset_prefix_cache

  /** A forced reset so far: what left `running` is preempted in drop mode with everything it had in
      flight stale, all other requests are as they were, and in FCFS `running ++ waiting` is the same
      sequence. */
  ghost predicate ResetSoFar(cfg: Config, s0: State, s: State) {
    && s.running <= s0.running && s.skipped == s0.skipped && s.steps == s0.steps && s.reqs.Keys == s0.reqs.Keys
    && (forall x :: x in s0.reqs && (x !in s0.running || x in s.running) ==> s.reqs[x] == s0.reqs[x])
    && (forall x :: x in s0.running && x in s0.reqs && x !in s.running ==> s.reqs[x] == s0.reqs[x].Preempt(true))
    && (cfg.policy == Fcfs ==> s.running + s.waiting == s0.running + s0.waiting)
  }

  lemma ResetStarts(cfg: Config, s: State)
    ensures ResetSoFar(cfg, s, s)
  {
  }

  lemma ResetIsEnabled(cfg: Config, s: State)
    requires Reachable(cfg, s) && s.phase == Idle && s.running != []
    ensures Enabled(cfg, s, Preempt(s.running[|s.running| - 1], true, 0))
  {
    hide Reachable;
    RunningKnown(cfg, s);
  }

  lemma ResetStep(cfg: Config, s0: State, s: State, pos: nat)
    requires Reachable(cfg, s) && s.phase == Idle && s.running != [] && ResetSoFar(cfg, s0, s)
    requires pos <= |s.waiting| && (cfg.policy == Fcfs ==> pos == 0)
    ensures var id := s.running[|s.running| - 1];
            && id in s.reqs && id in s.pool.lastSched
            && var t := ApplyPreempt(cfg, s, id, true, pos);
               t.phase == Idle && ResetSoFar(cfg, s0, t) && |t.running| < |s.running|
  {
    hide Reachable, Req.Preempt, Pool.Release, Without, Insert;
    RunningKnown(cfg, s);
    LastLeaves(cfg, s);
    if cfg.policy == Fcfs {
      LastToFront(s.running, s.waiting);
    }
  }

  lemma LastLeaves(cfg: Config, s: State)
    requires Reachable(cfg, s) && s.running != []
    ensures var id := s.running[|s.running| - 1];
            Count(s.running, id) == 1 && Without(s.running, id) == s.running[..|s.running| - 1]
  {
    hide Reachable;
    var id := s.running[|s.running| - 1];
    ReachableInv(cfg, s);
    assert PlacedOk(s, id);
    CountIn(s.running, id);
    WithoutLast(s.running);
  }

  // ------------------------------------------------------------- finish_requests

  function FinishesOf(order: seq<ReqId>, sends: set<ReqId>): seq<Event> {
    if order == [] then []
    else FinishesOf(order[..|order| - 1], sends) + [Finish(order[|order| - 1], order[|order| - 1] in sends)]
  }

  lemma {:induction false} WithoutFirst(q: seq<ReqId>, gone: set<ReqId>, id: ReqId)
    requires id in gone || id !in q
    ensures WithoutAll(Without(q, id), gone - {id}) == WithoutAll(q, gone)
  {
    if q != [] {
      WithoutFirst(q[1..], gone, id);
      if q[0] != id {
        var rest := Without(q[1..], id);
        assert ([q[0]] + rest)[1..] == rest;
      }
    }
  }

  lemma FinishReaches(cfg: Config, s0: State, order: seq<ReqId>, sends: set<ReqId>, s: State, id: ReqId)
    requires Reachable(cfg, s) && s.phase == Idle && Unfinished(s, id) && (id in sends ==> !MidLoad(s, id))
    requires Leads(cfg, s0, FinishesOf(order, sends), s)
    ensures id in s.pool.lastSched && Reachable(cfg, Retire(s, id, id in sends))
    ensures Leads(cfg, s0, FinishesOf(order + [id], sends), Retire(s, id, id in sends))
  {
    hide Reachable, Leads;
    ReachableInv(cfg, s);
    StepReaches(cfg, s, Finish(id, id in sends));
    LeadsOn(cfg, s0, FinishesOf(order, sends), s, Finish(id, id in sends));
    assert (order + [id])[..|order|] == order;
  }

  lemma RetireFacts(cfg: Config, s: State, id: ReqId, send: bool)
    requires Reachable(cfg, s) && s.phase == Idle && Unfinished(s, id) && id in s.pool.lastSched
    ensures var t := Retire(s, id, send); var delay := MidLoad(s, id) || send;
            && t.phase == Idle
            && t.reqs == (if delay then s.reqs[id := s.reqs[id].(status := Finished)] else s.reqs - {id})
            && t.pool == (if delay then s.pool else s.pool.Release(id))
            && t.running == Without(s.running, id) && t.waiting == Without(s.waiting, id)
            && t.skipped == Without(s.skipped, id)
            && t.recvd == s.recvd - {id} && t.failed == s.failed - {id}
            && s.pool.Release(id).lastSched == s.pool.lastSched
            && (s.reqs[id].status != WaitingForRemoteKvs ==> id !in s.recvd && id !in s.failed)
    ensures id in s.running <==> s.reqs[id].status == Running
    ensures s.reqs[id].status == Running ==> id !in s.waiting && id !in s.skipped
  {
    hide Reachable, Pool.Release;
    ReachableInv(cfg, s);
    ReleaseNumbers(s.pool, id);
    assert PlacedOk(s, id);
    CountIn(s.running, id);
    CountIn(s.waiting, id);
    CountIn(s.skipped, id);
    assert s.reqs[id := s.reqs[id].(status := Finished)] - {id} == s.reqs - {id};
  }

  /** The requests a call finishes: those it names that are still unfinished. */
  function ToFinish(reqs: map<ReqId, Req>, ids: set<ReqId>): set<ReqId> {
    set id | id in ids && id in reqs && reqs[id].status != Finished
  }

  function RunningOf(reqs: map<ReqId, Req>, ids: set<ReqId>): set<ReqId> {
    set id | id in ids && id in reqs && reqs[id].status == Running
  }

  /** What the second pass still has to do. */
  ghost predicate StillToFinish(s: State, todo: set<ReqId>, sends: set<ReqId>) {
    forall id :: id in todo ==> Unfinished(s, id) && (id in sends ==> !MidLoad(s, id))
  }

  lemma FinishKeepsTodo(s: State, id: ReqId, send: bool, todo: set<ReqId>, sends: set<ReqId>)
    requires StillToFinish(s, todo, sends) && id in todo && id in s.pool.lastSched
    ensures StillToFinish(Retire(s, id, send), todo - {id}, sends)
    ensures RunningOf(Retire(s, id, send).reqs, todo - {id}) == RunningOf(s.reqs, todo) - {id}
  {
    hide Pool.Release;
  }

  lemma FinishStep(cfg: Config, s: State, id: ReqId, send: bool, x: ReqId)
    requires Enabled(cfg, s, Finish(id, send))
    ensures var t := Apply(cfg, s, Finish(id, send));
            && !Unfinished(t, id)
            && (x != id ==> (x in t.reqs <==> x in s.reqs) && (x in s.reqs ==> t.reqs[x] == s.reqs[x]))
            && t.running == Without(s.running, id) && t.waiting == Without(s.waiting, id)
            && t.skipped == Without(s.skipped, id) && t.steps == s.steps
  {
    hide Pool.Release, Without;
  }

  /** What finishing some requests comes to: each of them is finished or gone, every other is as it was, and the
      queues lack them and keep their order; what is in flight stays in flight. */
  ghost predicate AllFinished(s0: State, ids: set<ReqId>, s: State) {
    && (forall x :: x in ids ==> !Unfinished(s, x))
    && (forall x :: x !in ids ==> (x in s.reqs <==> x in s0.reqs) && (x in s0.reqs ==> s.reqs[x] == s0.reqs[x]))
    && s.running == WithoutAll(s0.running, ids) && s.waiting == WithoutAll(s0.waiting, ids)
    && s.skipped == WithoutAll(s0.skipped, ids) && s.steps == s0.steps
  }

  lemma OneMoreFinished(cfg: Config, s0: State, ids: set<ReqId>, s: State, id: ReqId, send: bool)
    requires AllFinished(s0, ids, s) && Enabled(cfg, s, Finish(id, send))
    ensures AllFinished(s0, ids + {id}, Apply(cfg, s, Finish(id, send)))
  {
    hide Enabled, Apply, WithoutAll, Without;
    WithoutOneMore(s0.running, ids, id);
    WithoutOneMore(s0.waiting, ids, id);
    WithoutOneMore(s0.skipped, ids, id);
    var t := Apply(cfg, s, Finish(id, send));
    forall x | x in ids + {id}
      ensures !Unfinished(t, x)
    {
      FinishStep(cfg, s, id, send, x);
    }
    forall x | x !in ids + {id}
      ensures (x in t.reqs <==> x in s0.reqs) && (x in s0.reqs ==> t.reqs[x] == s0.reqs[x])
    {
      FinishStep(cfg, s, id, send, x);
    }
    FinishStep(cfg, s, id, send, id);
  }

  lemma {:induction false} FinishesFinish(cfg: Config, s0: State, order: seq<ReqId>, ids: set<ReqId>,
                                          sends: set<ReqId>, s: State)
    requires IsOrder(order, ids) && Leads(cfg, s0, FinishesOf(order, sends), s)
    ensures AllFinished(s0, ids, s)
    decreases |order|
  {
    hide Enabled, Apply, WithoutAll, Without, AllFinished;
    if order == [] {
      assert ids == {};
      NoneFinished(s0);
    } else {
      var n := |order| - 1;
      var id, rest := order[n], order[..n];
      var e := Finish(id, id in sends);
      FinishesLength(rest, sends);
      assert FinishesOf(order, sends) == FinishesOf(rest, sends) + [e];
      assert FinishesOf(order, sends)[..n] == FinishesOf(rest, sends);
      var m :| Leads(cfg, s0, FinishesOf(rest, sends), m) && Enabled(cfg, m, e) && s == Apply(cfg, m, e);
      assert order == rest + [id];
      assert ids == (ids - {id}) + {id} && IsOrder(rest, ids - {id});
      FinishesFinish(cfg, s0, rest, ids - {id}, sends, m);
      OneMoreFinished(cfg, s0, ids - {id}, m, id, id in sends);
    }
  }

  lemma NoneFinished(s: State)
    ensures AllFinished(s, {}, s)
  {
    WithoutNone(s.running);
    WithoutNone(s.waiting);
    WithoutNone(s.skipped);
  }

  lemma {:induction false} FinishesLength(order: seq<ReqId>, sends: set<ReqId>)
    ensures |FinishesOf(order, sends)| == |order|
  {
    if order != [] {
      FinishesLength(order[..|order| - 1], sends);
    }
  }

  /** A call finishes every request it names that is known, and no other. */
  lemma NamedAreFinished(s0: State, ids: set<ReqId>, s: State)
    requires AllFinished(s0, ToFinish(s0.reqs, ids), s)
    ensures forall x :: x in ids ==> !Unfinished(s, x)
    ensures forall x :: x in s0.reqs && x !in ids ==> x in s.reqs && s.reqs[x] == s0.reqs[x]
    ensures forall x :: x in s0.reqs && s0.reqs[x].status == Finished ==> x in s.reqs && s.reqs[x] == s0.reqs[x]
  {
    forall x | x in ids
      ensures !Unfinished(s, x)
    {
      assert x in ToFinish(s0.reqs, ids) <==> Unfinished(s0, x);
    }
  }

  lemma FinishNext(s: State, todo: set<ReqId>, sends: set<ReqId>, id: ReqId)
    requires StillToFinish(s, todo, sends) && id in todo
    ensures Unfinished(s, id) && (id in sends ==> !MidLoad(s, id))
  {
  }

  lemma FinishStarts(cfg: Config, s: State, ids: set<ReqId>, sends: set<ReqId>)
    requires forall id :: id in sends && id in s.reqs ==> !MidLoad(s, id)
    ensures StillToFinish(s, ToFinish(s.reqs, ids), sends) && Leads(cfg, s, FinishesOf([], sends), s)
  {
  }

  /** Freeing one more request of the second pass: the queues of the state catch up with the fields. */
  lemma FinishedQueues(s: State, id: ReqId, send: bool, todo: set<ReqId>)
    requires Unfinished(s, id) && id in s.pool.lastSched && id in todo
    requires id in s.running <==> s.reqs[id].status == Running
    requires s.reqs[id].status == Running ==> id !in s.waiting && id !in s.skipped
    ensures var t := Retire(s, id, send);
            var before, after := RunningOf(s.reqs, todo), RunningOf(t.reqs, todo - {id});
            && WithoutAll(t.running, after) == WithoutAll(s.running, before)
            && WithoutAll(t.waiting, todo - {id} - after) == WithoutAll(s.waiting, todo - before)
            && WithoutAll(t.skipped, todo - {id} - after) == WithoutAll(s.skipped, todo - before)
  {
    hide Pool.Release, WithoutAll, Without;
    var t := Retire(s, id, send);
    var before, after := RunningOf(s.reqs, todo), RunningOf(t.reqs, todo - {id});
    assert after == before - {id};
    assert todo - {id} - after == todo - before - {id};
    WithoutFirst(s.running, before, id);
    WithoutFirst(s.waiting, todo - before, id);
    WithoutFirst(s.skipped, todo - before, id);
  }

  // ------------------------------------------------------------- transfer reports

  function ReportsOf(recving: seq<ReqId>, sending: seq<ReqId>): seq<Event> {
    seq(|recving| + |sending|, k requires 0 <= k < |recving| + |sending| =>
      if k < |recving| then Received(recving[k]) else Sent(sending[k - |recving|]))
  }

  /** What the connector may report: each load and each send under way at most once. */
  ghost predicate MayReport(s: State, recving: seq<ReqId>, sending: seq<ReqId>) {
    && Distinct(recving) && Distinct(sending)
    && (forall id :: id in recving ==> id in s.loads) && (forall id :: id in sending ==> id in s.sends)
  }

  lemma NoReports(cfg: Config, s: State)
    ensures Leads(cfg, s, ReportsOf([], []), s)
  {
    assert ReportsOf([], []) == [];
  }

  lemma ReceivedNext(cfg: Config, s0: State, done: seq<ReqId>, s: State, id: ReqId, rest: seq<ReqId>,
                     sending: seq<ReqId>)
    requires Reachable(cfg, s) && s.phase == Idle && Leads(cfg, s0, ReportsOf(done, []), s)
    requires MayReport(s, [id] + rest, sending)
    ensures ReportFacts(s, id) && s.pool.Release(id).lastSched == s.pool.lastSched
    ensures s.reqs[id].status in {WaitingForRemoteKvs, Finished}
    ensures var t := ReceivedState(s, id);
            && Reachable(cfg, t) && Leads(cfg, s0, ReportsOf(done + [id], []), t) && MayReport(t, rest, sending)
  {
    hide Reachable, Leads, Pool.Release;
    ReachableInv(cfg, s);
    assert id in [id] + rest;
    ReleaseNumbers(s.pool, id);
    StepReaches(cfg, s, Received(id));
    LeadsOn(cfg, s0, ReportsOf(done, []), s, Received(id));
    assert ReportsOf(done + [id], []) == ReportsOf(done, []) + [Received(id)];
    ReportRest(s, ReceivedState(s, id), id, rest, sending);
  }

  ghost predicate ReportFacts(s: State, id: ReqId) {
    id in s.reqs && id in s.pool.lastSched
  }

  function ReceivedState(s: State, id: ReqId): State
    requires id in s.reqs && id in s.pool.lastSched
  {
    if s.reqs[id].status == WaitingForRemoteKvs
    then s.(recvd := s.recvd + {id}, loads := s.loads - {id})
    else Reclaim(s.(loads := s.loads - {id}), id)
  }

  lemma ReportRest(s: State, t: State, id: ReqId, rest: seq<ReqId>, sending: seq<ReqId>)
    requires MayReport(s, [id] + rest, sending) && t.loads == s.loads - {id} && t.sends == s.sends
    ensures MayReport(t, rest, sending)
  {
    assert ([id] + rest)[1..] == rest;
    forall k | 0 <= k < |rest|
      ensures rest[k] != id && rest[k] in s.loads
    {
      assert ([id] + rest)[k + 1] == rest[k] && ([id] + rest)[0] == id;
    }
    forall j, k | 0 <= j < k < |rest|
      ensures rest[j] != rest[k]
    {
      assert ([id] + rest)[j + 1] == rest[j] && ([id] + rest)[k + 1] == rest[k];
    }
  }

  lemma SentNext(cfg: Config, s0: State, recving: seq<ReqId>, done: seq<ReqId>, s: State, id: ReqId, rest: seq<ReqId>)
    requires Reachable(cfg, s) && s.phase == Idle && Leads(cfg, s0, ReportsOf(recving, done), s)
    requires MayReport(s, [], [id] + rest)
    ensures ReportFacts(s, id) && s.pool.Release(id).lastSched == s.pool.lastSched
    ensures var t := Reclaim(s.(sends := s.sends - {id}), id);
            && Reachable(cfg, t) && Leads(cfg, s0, ReportsOf(recving, done + [id]), t) && MayReport(t, [], rest)
  {
    hide Reachable, Leads, Pool.Release;
    ReachableInv(cfg, s);
    assert id in [id] + rest;
    ReleaseNumbers(s.pool, id);
    StepReaches(cfg, s, Sent(id));
    LeadsOn(cfg, s0, ReportsOf(recving, done), s, Sent(id));
    assert ReportsOf(recving, done + [id]) == ReportsOf(recving, done) + [Sent(id)];
    var t := Reclaim(s.(sends := s.sends - {id}), id);
    ReportRest(s.(loads := s.sends, sends := {}), t.(loads := t.sends, sends := {}), id, rest, []);
  }

  // ------------------------------------------------------------- draft tokens

  /** The requests once the proposed drafts of `done` are set; a request in the middle of its prefill keeps none. */
  function WithDrafts(reqs: map<ReqId, Req>, drafts: map<ReqId, nat>, done: set<ReqId>): map<ReqId, Req> {
    map id | id in reqs ::
      if id in done && id in drafts && reqs[id].status != Finished
      then reqs[id].(specs := if reqs[id].prefillChunk then 0 else drafts[id]) else reqs[id]
  }

  lemma NoDrafts(reqs: map<ReqId, Req>, drafts: map<ReqId, nat>)
    ensures WithDrafts(reqs, drafts, {}) == reqs
  {
  }

  lemma DraftsNext(cfg: Config, s0: State, drafts: map<ReqId, nat>, done: set<ReqId>, id: ReqId)
    requires id in drafts && id !in done && s0.phase == Idle
    requires var s := s0.(reqs := WithDrafts(s0.reqs, drafts, done)); Reachable(cfg, s) && Follows(cfg, s0, s)
    ensures id in WithDrafts(s0.reqs, drafts, done) <==> id in s0.reqs
    ensures id in s0.reqs ==> WithDrafts(s0.reqs, drafts, done)[id] == s0.reqs[id]
    ensures WithDrafts(s0.reqs, drafts, done + {id}) ==
            if Unfinished(s0, id)
            then WithDrafts(s0.reqs, drafts, done)[
                   id := s0.reqs[id].(specs := if s0.reqs[id].prefillChunk then 0 else drafts[id])]
            else WithDrafts(s0.reqs, drafts, done)
    ensures var t := s0.(reqs := WithDrafts(s0.reqs, drafts, done + {id})); Reachable(cfg, t) && Follows(cfg, s0, t)
  {
    hide Reachable, Follows;
    var s := s0.(reqs := WithDrafts(s0.reqs, drafts, done));
    if Unfinished(s0, id) {
      StepReaches(cfg, s, SetDrafts(id, drafts[id]));
      FollowsOn(cfg, s0, s, Apply(cfg, s, SetDrafts(id, drafts[id])));
    }
  }
}
