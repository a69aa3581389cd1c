/** update_from_output, on values: the outputs of one step, one request at a time, with the stopped
    requests taken out of the queues only at the end. */
module Returns {
  import opened Ledger
  import opened Machine
  import opened Queues
  import opened Fences
  import opened Runs
  import opened Collections

  /** What the model runner and the connector say about one request of a returned step. */
  datatype Answer = Answer(
    generated: nat,    // sampled token ids
    kept: nat,         // those that remain after the stop check
    stop: bool,
    send: bool)        // the connector still sends the blocks
  {
    predicate Valid() {
      kept <= generated && (stop ==> kept > 0)
    }
  }

  function OutputOf(id: ReqId, answers: map<ReqId, Answer>, failed: set<ReqId>): Event
    requires id in answers
  {
    Output(id, id in failed, answers[id].generated, answers[id].kept, answers[id].stop, answers[id].send)
  }

  /** The step's shares are what the oldest step in flight recorded. */
  predicate StepIs(steps: seq<Step>, shares: map<ReqId, Share>) {
    && steps != [] && steps[0].entries.Keys == shares.Keys
    && forall id :: id in shares ==>
      steps[0].entries[id].n == shares[id].n && steps[0].entries[id].drafts == shares[id].drafts
  }

  function OutputsOf(order: seq<ReqId>, answers: map<ReqId, Answer>, failed: set<ReqId>): seq<Event>
    requires forall id :: id in order ==> id in answers
  {
    if order == [] then []
    else OutputsOf(order[..|order| - 1], answers, failed) + [OutputOf(order[|order| - 1], answers, failed)]
  }

  lemma OneMoreOutput(order: seq<ReqId>, answers: map<ReqId, Answer>, failed: set<ReqId>, id: ReqId)
    requires (forall x :: x in order ==> x in answers) && id in answers
    ensures OutputsOf(order + [id], answers, failed)
            == OutputsOf(order, answers, failed) + [OutputOf(id, answers, failed)]
  {
    assert (order + [id])[..|order|] == order;
  }

  /** From s, the outputs of `order`, one after another, lead to t. */
  ghost predicate TookIn(cfg: Config, s: State, answers: map<ReqId, Answer>, failed: set<ReqId>, order: seq<ReqId>,
                         t: State) {
    && (forall id :: id in order ==> id in answers)
    && Leads(cfg, s, OutputsOf(order, answers, failed), t)
  }

  lemma TookOneMore(cfg: Config, s: State, answers: map<ReqId, Answer>, failed: set<ReqId>, order: seq<ReqId>,
                    m: State, id: ReqId)
    requires TookIn(cfg, s, answers, failed, order, m) && id in answers
    requires Enabled(cfg, m, OutputOf(id, answers, failed))
    ensures TookIn(cfg, s, answers, failed, order + [id], Apply(cfg, m, OutputOf(id, answers, failed)))
  {
    hide Enabled, Apply;
    OneMoreOutput(order, answers, failed, id);
    LeadsOn(cfg, s, OutputsOf(order, answers, failed), m, OutputOf(id, answers, failed));
  }

  // ------------------------------------------------------------- remove_all

  function WithoutAll(q: seq<ReqId>, gone: set<ReqId>): seq<ReqId> {
    if q == [] then []
    else if q[0] in gone then WithoutAll(q[1..], gone)
    else [q[0]] + WithoutAll(q[1..], gone)
  }

  lemma {:induction false} WithoutNone(q: seq<ReqId>)
    ensures WithoutAll(q, {}) == q
  {
    if q != [] {
      WithoutNone(q[1..]);
    }
  }

  lemma {:induction false} WithoutOneMore(q: seq<ReqId>, gone: set<ReqId>, id: ReqId)
    ensures WithoutAll(q, gone + {id}) == Without(WithoutAll(q, gone), id)
  {
    if q != [] {
      WithoutOneMore(q[1..], gone, id);
      if q[0] !in gone {
        var rest := WithoutAll(q[1..], gone);
        assert ([q[0]] + rest)[1..] == rest;
      }
    }
  }

  /** remove_all keeps the order and the others. */
  method RemoveAll(q: seq<ReqId>, gone: set<ReqId>) returns (r: seq<ReqId>)
    ensures r == WithoutAll(q, gone)
  {
    r := [];
    var i := |q|;
    while i > 0
      invariant 0 <= i <= |q| && r == WithoutAll(q[i..], gone)
    {
      i := i - 1;
      assert q[i..][1..] == q[i + 1..];
      if q[i] !in gone {
        r := [q[i]] + r;
      }
    }
    assert q[0..] == q;
  }

  // ------------------------------------------------------------- one output

  lemma OutputReaches(cfg: Config, s: State, id: ReqId, answers: map<ReqId, Answer>, failed: set<ReqId>)
    requires Reachable(cfg, s) && id in answers && Enabled(cfg, s, OutputOf(id, answers, failed))
    ensures Reachable(cfg, Apply(cfg, s, OutputOf(id, answers, failed)))
  {
    hide Reachable;
    StepReaches(cfg, s, OutputOf(id, answers, failed));
  }

  /** The request as its output leaves it. */
  function Answered(cfg: Config, s: State, id: ReqId, a: Answer): Req
    requires id in s.reqs && s.steps != [] && id in s.steps[0].entries
  {
    var share, r := s.steps[0].entries[id], s.reqs[id];
    r.DrainShare(share.n).Deliver(r.stale > 0, share.drafts, a.generated, a.kept, cfg.sampledPerStep)
  }

  lemma AnsweredStatus(cfg: Config, s: State, id: ReqId, a: Answer)
    requires id in s.reqs && s.steps != [] && id in s.steps[0].entries
    ensures Answered(cfg, s, id, a).status == s.reqs[id].status
  {
  }

  lemma OutputCases(cfg: Config, s: State, id: ReqId, answers: map<ReqId, Answer>, failed: set<ReqId>)
    requires id in answers && Enabled(cfg, s, OutputOf(id, answers, failed))
    ensures var a := answers[id];
            var t := Apply(cfg, s, OutputOf(id, answers, failed));
            && t.phase == s.phase && t.pass == s.pass
            && t.steps == [s.steps[0].(entries := s.steps[0].entries - {id})] + s.steps[1..]
            && (if id !in s.reqs then t == s.(steps := t.steps)
                else if id in failed || !Delivers(s, id)
                then t == s.(steps := t.steps, reqs := s.reqs[id := s.reqs[id].DrainShare(s.steps[0].entries[id].n)])
                else if a.stop
                then t == Retire(s.(steps := t.steps, reqs := s.reqs[id := Answered(cfg, s, id, a)]), id, a.send)
                else t == s.(steps := t.steps, reqs := s.reqs[id := Answered(cfg, s, id, a)]))
  {
  }

  /** A stopped request leaves the one queue its status names. */
  lemma StopRetires(cfg: Config, s: State, id: ReqId, steps: seq<Step>, d: Req, send: bool)
    requires Reachable(cfg, s) && Unfinished(s, id) && s.reqs[id].status != WaitingForRemoteKvs
    requires d.status == s.reqs[id].status
    requires s.phase == Processing && id in s.pool.lastSched
    ensures var t := Retire(s.(steps := steps, reqs := s.reqs[id := d]), id, send);
            && t.recvd == s.recvd && t.failed == s.failed
            && t.reqs == (if send then s.reqs[id := d.(status := Finished)] else s.reqs - {id})
            && t.pool == (if send then s.pool else s.pool.Release(id))
            && s.pool.Release(id).lastSched == s.pool.lastSched
            && (if s.reqs[id].status == Running
                then t.running == Without(s.running, id) && t.waiting == s.waiting && t.skipped == s.skipped
                else && t.running == s.running && t.waiting == Without(s.waiting, id)
                     && t.skipped == Without(s.skipped, id))
  {
    hide Reachable, Pool.Release;
    ReachableInv(cfg, s);
    ReleaseNumbers(s.pool, id);
    assert PlacedOk(s, id);
    CountIn(s.running, id);
    CountIn(s.waiting, id);
    CountIn(s.skipped, id);
    assert s.recvd - {id} == s.recvd && s.failed - {id} == s.failed;
    assert s.reqs[id := d][id := d.(status := Finished)] == s.reqs[id := d.(status := Finished)];
    assert s.reqs[id := d.(status := Finished)] - {id} == s.reqs - {id};
  }

  lemma DeliveredIsNotLoading(cfg: Config, s: State, id: ReqId, answers: map<ReqId, Answer>, failed: set<ReqId>)
    requires Reachable(cfg, s) && id in answers && Enabled(cfg, s, OutputOf(id, answers, failed)) && Delivers(s, id)
    ensures s.reqs[id].status != WaitingForRemoteKvs && s.phase == Processing
  {
    hide Reachable;
    ReachableInv(cfg, s);
    OutputsAreSound(cfg, s, OutputOf(id, answers, failed));
  }

  // ------------------------------------------------------------- the loop

  /** What is still to be taken in: the entries `todo` of the oldest step. */
  ghost predicate Returning(s0: State, shares: map<ReqId, Share>, todo: set<ReqId>, s: State) {
    && s.phase == Processing && s.steps != [] && s0.steps != [] && s.steps[1..] == s0.steps[1..]
    && s.steps[0].entries.Keys == todo && todo <= shares.Keys
    && forall id :: id in todo ==> shares[id] == Share(s.steps[0].entries[id].n, s.steps[0].entries[id].drafts)
  }

  ghost predicate AllAnswered(shares: map<ReqId, Share>, answers: map<ReqId, Answer>) {
    forall id :: id in shares ==> id in answers && answers[id].Valid()
  }

  /** The order in which the outputs of a step are taken in: each once. */
  ghost predicate IsOrder(order: seq<ReqId>, ids: set<ReqId>) {
    (forall x :: x in order <==> x in ids) && Distinct(order)
  }

  lemma OrderNone()
    ensures IsOrder([], {})
  {
  }

  lemma OrderOneMore(order: seq<ReqId>, ids: set<ReqId>, todo: set<ReqId>, id: ReqId)
    requires IsOrder(order, ids - todo) && id in todo && todo <= ids
    ensures IsOrder(order + [id], ids - (todo - {id}))
  {
  }

  lemma ReturnBegins(cfg: Config, s: State, shares: map<ReqId, Share>)
    requires Reachable(cfg, s) && s.phase == Idle && StepIs(s.steps, shares)
    ensures Enabled(cfg, s, BeginOutput) && Reachable(cfg, Apply(cfg, s, BeginOutput))
    ensures Follows(cfg, s, Apply(cfg, s, BeginOutput))
    ensures Returning(s, shares, shares.Keys, Apply(cfg, s, BeginOutput))
    ensures var t := Apply(cfg, s, BeginOutput);
            && t.pool == (if shares.Keys == {} then s.pool else s.pool.ProcessStep())
            && t.pool.lastSched == s.pool.lastSched && t.pool.held == s.pool.held
            && t == s.(phase := Processing, pool := t.pool)
  {
    hide Reachable, Follows, Pool.Drain;
    StepReaches(cfg, s, BeginOutput);
    if s.pool.deferOn {
      var n := DrainMeaning(s.pool.(processed := s.pool.processed + 1));
    }
    assert s.steps[0].entries == map[] <==> shares.Keys == {};
  }

  lemma TookNone(cfg: Config, s: State, answers: map<ReqId, Answer>, failed: set<ReqId>)
    ensures TookIn(cfg, s, answers, failed, [], s)
  {
  }

  lemma TakenInFollows(cfg: Config, s: State, answers: map<ReqId, Answer>, failed: set<ReqId>, order: seq<ReqId>,
                       t: State)
    requires TookIn(cfg, s, answers, failed, order, t)
    ensures Follows(cfg, s, t)
  {
    hide Leads;
    LeadsFollows(cfg, s, OutputsOf(order, answers, failed), t);
  }

  lemma NextShare(s0: State, shares: map<ReqId, Share>, todo: set<ReqId>, s: State, id: ReqId)
    requires Returning(s0, shares, todo, s) && id in todo
    ensures s.steps != [] && id in s.steps[0].entries && id in shares
    ensures shares[id] == Share(s.steps[0].entries[id].n, s.steps[0].entries[id].drafts)
  {
  }

  lemma OutputIsEnabled(cfg: Config, s0: State, shares: map<ReqId, Share>, todo: set<ReqId>, s: State, id: ReqId,
                        answers: map<ReqId, Answer>, failed: set<ReqId>)
    requires Reachable(cfg, s) && Returning(s0, shares, todo, s) && id in todo && AllAnswered(shares, answers)
    ensures id in answers && Enabled(cfg, s, OutputOf(id, answers, failed))
    ensures Reachable(cfg, Apply(cfg, s, OutputOf(id, answers, failed)))
    ensures Returning(s0, shares, todo - {id}, Apply(cfg, s, OutputOf(id, answers, failed)))
  {
    hide Reachable, Retire;
    ReachableInv(cfg, s);
    OutputReaches(cfg, s, id, answers, failed);
    OutputCases(cfg, s, id, answers, failed);
    OutputLeavesSteps(cfg, s, id, answers, failed);
  }

  lemma OutputLeavesSteps(cfg: Config, s: State, id: ReqId, answers: map<ReqId, Answer>, failed: set<ReqId>)
    requires id in answers && Enabled(cfg, s, OutputOf(id, answers, failed))
    ensures var t := Apply(cfg, s, OutputOf(id, answers, failed));
            && t.phase == s.phase && t.steps == [s.steps[0].(entries := s.steps[0].entries - {id})] + s.steps[1..]
  {
    OutputShape(cfg, s, OutputOf(id, answers, failed));
  }

  lemma ReturnEnds(cfg: Config, s0: State, shares: map<ReqId, Share>, s: State)
    requires Reachable(cfg, s) && Returning(s0, shares, {}, s)
    ensures s0.steps != []
    ensures Enabled(cfg, s, EndOutput) && Reachable(cfg, Apply(cfg, s, EndOutput))
    ensures Follows(cfg, s, Apply(cfg, s, EndOutput))
    ensures Apply(cfg, s, EndOutput) == s.(steps := s0.steps[1..], phase := Idle)
  {
    hide Reachable, Follows;
    assert s.steps[0].entries == map[];
    StepReaches(cfg, s, EndOutput);
  }
}
