/** The scheduler as a state machine over values.

    A state holds the request table, the queues, the steps that have been scheduled and not yet
    processed (oldest first), the locals of a `schedule()` pass, and the block pool.  Each
    event is one decision of the scheduler or one answer of its environment; `Enabled` says
    when the code performs it and `Apply` what it then does.  Everything the environment chooses
    (allocations, cache hits, sampled tokens, transfers) is a parameter of the event.
 */
module Machine {
  import opened Ledger

  datatype Policy = Fcfs | Priority

  datatype Config = Config(
    policy: Policy,
    maxScheduledTokens: nat,      // max_num_scheduled_tokens
    maxBatchedTokens: nat,        // max_num_batched_tokens
    draftSlots: nat,              // max_num_new_slots_for_drafting
    maxRunning: nat,              // max_num_running_reqs
    sampledPerStep: nat,          // num_sampled_tokens_per_step
    requiresKvDelivery: bool,     // requires_kv_delivery
    recomputeLoadFailures: bool,  // recompute_kv_load_failures
    deferBlockFree: bool)         // defer_block_free

  datatype Status = Waiting | WaitingForRemoteKvs | Running | Preempted | Finished

  /** The fields of a Request that the scheduler reads or writes. */
  datatype Req = Req(
    status: Status,
    promptTokens: nat,     // num_prompt_tokens
    maxTokens: nat,        // max_tokens
    tokens: nat,           // num_tokens: prompt and output
    computed: int,         // num_computed_tokens
    placeholders: int,     // num_output_placeholders
    specs: nat,            // len(spec_token_ids)
    inFlight: int,         // num_in_flight_tokens
    stale: int,            // num_stale_output_tokens
    dropStale: bool,       // drop_stale_output
    prefillChunk: bool,    // is_prefill_chunk
    preemptions: nat,      // num_preemptions
    dropEpoch: nat,        // history: num_preemptions after the latest drop-mode preemption
    priority: int,
    arrival: int)
  {
    /** _preempt_request */
    function Preempt(drop: bool): Req {
      this.(status := Preempted, computed := 0, specs := 0,
            dropStale := drop || (dropStale && stale > 0),
            stale := inFlight, placeholders := 0, preemptions := preemptions + 1,
            dropEpoch := if drop then preemptions + 1 else dropEpoch)
    }

    /** _update_after_schedule */
    function Advance(n: nat): Req {
      this.(computed := computed + n, inFlight := inFlight + n,
            prefillChunk := computed + n < tokens + placeholders)
    }

    /** The head of update_from_output's loop body. */
    function DrainShare(n: nat): Req {
      this.(inFlight := inFlight - n, stale := if stale > 0 then stale - n else stale)
    }

    /** The rest of it: roll back rejected drafts, then append what was kept. */
    function Deliver(isStale: bool, drafts: nat, generated: nat, kept: nat, sampled: nat): Req {
      var rejected := if drafts > 0 && (generated > 0 || sampled == 0)
                      then drafts - (if generated > sampled then generated - sampled else 0) else 0;
      if isStale then this.(tokens := tokens + kept)
      else this.(computed := if computed > 0 then computed - rejected else computed,
                 placeholders := if placeholders > 0 then placeholders - rejected else placeholders,
                 tokens := tokens + kept)
    }

    /** The drafts that fit into a share of n tokens. */
    function DraftsIn(n: nat): nat {
      var room := n + computed - tokens - placeholders;
      if specs > 0 && room > 0 then (if specs > room then room else specs) else 0
    }
  }

  /** One request's share of a step. */
  datatype Share = Share(n: nat, drafts: nat)

  /** A share in flight: also the request's preemption count and blocks when it was scheduled. */
  datatype Entry = Entry(n: nat, drafts: nat, epoch: nat, blocks: seq<Block>)

  datatype Step = Step(entries: map<ReqId, Entry>, seqNo: nat)

  /** The locals of schedule(). */
  datatype Pass = Pass(
    limit: nat,                     // the token budget the pass started with
    tokenBudget: int,
    inputBudget: int,
    shares: map<ReqId, Share>,      // num_scheduled_tokens, scheduled_spec_decode_tokens
    admitted: seq<ReqId>,           // scheduled_new_reqs and scheduled_resumed_reqs
    continued: seq<ReqId>,          // scheduled_running_reqs
    preempted: seq<ReqId>,          // preempted_reqs
    stepSkipped: seq<ReqId>)        // step_skipped_waiting

  datatype Phase = Idle | Scheduling | Processing

  datatype State = State(
    reqs: map<ReqId, Req>,
    running: seq<ReqId>,
    waiting: seq<ReqId>,
    skipped: seq<ReqId>,
    steps: seq<Step>,               // scheduled, not processed; oldest first
    phase: Phase,
    pass: Pass,
    recvd: set<ReqId>,              // finished_recving_kv_req_ids
    failed: set<ReqId>,             // failed_recving_kv_req_ids
    loads: set<ReqId>,              // async loads the connector has not reported done
    sends: set<ReqId>,              // sends the connector has not reported done
    pool: Pool)

  datatype Event =
    | Add(id: ReqId, prompt: nat, maxTokens: nat, priority: int, arrival: int, pos: nat)
    | SetDrafts(id: ReqId, count: nat)
    | SetPlaceholders(id: ReqId, count: nat)
    | BeginPass(paused: bool)
    | Take(id: ReqId, n: nat, taken: seq<Block>)
    | Preempt(id: ReqId, drop: bool, pos: nat)
    | Promote(fromSkipped: bool)
    | Skip(fromSkipped: bool)
    | AdmitAsync(fromSkipped: bool, computed: nat, hits: seq<Block>, taken: seq<Block>)
    | Admit(fromSkipped: bool, computed: nat, n: nat, drafts: nat, hits: seq<Block>, taken: seq<Block>)
    | Requeue(order: seq<ReqId>)
    | RetainCopy(blocks: seq<Block>)
    | Commit
    | BeginOutput
    | LoadsInvalid(truncated: map<ReqId, int>)
    | Output(id: ReqId, loadFailed: bool, generated: nat, kept: nat, stop: bool, send: bool)
    | EndOutput
    | Finish(id: ReqId, send: bool)
    | Received(id: ReqId)
    | Sent(id: ReqId)

  // ------------------------------------------------------------- lists and sums

  /** remove_all, for one request. */
  function Without(q: seq<ReqId>, id: ReqId): (r: seq<ReqId>)
    ensures |r| <= |q|
    ensures id !in q ==> r == q
  {
    if q == [] then []
    else if q[0] == id then Without(q[1..], id)
    else [q[0]] + Without(q[1..], id)
  }

  function Insert(q: seq<ReqId>, id: ReqId, pos: nat): seq<ReqId>
    requires pos <= |q|
  {
    q[..pos] + [id] + q[pos..]
  }

  function ShareOf(st: Step, id: ReqId): nat {
    if id in st.entries then st.entries[id].n else 0
  }

  /** The tokens of `id` in unprocessed steps. */
  function Due(steps: seq<Step>, id: ReqId): nat {
    if steps == [] then 0 else ShareOf(steps[0], id) + Due(steps[1..], id)
  }

  function ShareBefore(st: Step, id: ReqId, epoch: nat): nat {
    if id in st.entries && st.entries[id].epoch < epoch then st.entries[id].n else 0
  }

  /** The tokens of `id` in unprocessed steps scheduled before its `epoch`-th preemption. */
  function DueBefore(steps: seq<Step>, id: ReqId, epoch: nat): nat {
    if steps == [] then 0 else ShareBefore(steps[0], id, epoch) + DueBefore(steps[1..], id, epoch)
  }

  /** What a pass has charged: the shares, plus `extra` for each. */
  ghost function Charge(shares: map<ReqId, Share>, extra: nat): nat {
    if shares == map[] then 0
    else
      var id :| id in shares;
      shares[id].n + extra + Charge(shares - {id}, extra)
  }

  // ------------------------------------------------------------- events

  const NoPass := Pass(0, 0, 0, map[], [], [], [], [])

  function InitialState(cfg: Config): State {
    State(map[], [], [], [], [], Idle, NoPass, {}, {}, {}, {},
          Pool(cfg.deferBlockFree, multiset{}, map[], map[], {}, 0, 0, []))
  }

  /** The queue the WAITING loop reads: FCFS serves the skipped queue first. */
  predicate QueueChoice(cfg: Config, s: State, fromSkipped: bool) {
    && (if fromSkipped then s.skipped != [] else s.waiting != [])
    && (cfg.policy == Fcfs ==> fromSkipped == (s.skipped != []))
  }

  function Head(s: State, fromSkipped: bool): ReqId
    requires if fromSkipped then s.skipped != [] else s.waiting != []
  {
    if fromSkipped then s.skipped[0] else s.waiting[0]
  }

  function PopHead(s: State, fromSkipped: bool): State
    requires if fromSkipped then s.skipped != [] else s.waiting != []
  {
    if fromSkipped then s.(skipped := s.skipped[1..]) else s.(waiting := s.waiting[1..])
  }

  /** (priority, arrival_time), compared lexicographically. */
  predicate KeyLeq(a: Req, b: Req) {
    a.priority < b.priority || (a.priority == b.priority && a.arrival <= b.arrival)
  }

  /** FCFS preempts the last running request, PRIORITY one with a greatest key. */
  predicate IsVictim(cfg: Config, s: State, id: ReqId) {
    && id in s.running
    && (cfg.policy == Fcfs ==> id == s.running[|s.running| - 1])
    && (cfg.policy == Priority ==>
          forall r :: r in s.running && r in s.reqs && id in s.reqs ==> KeyLeq(s.reqs[r], s.reqs[id]))
  }

  predicate Unfinished(s: State, id: ReqId) {
    id in s.reqs && s.reqs[id].status != Finished
  }

  /** Deliverable stale output still in flight. */
  predicate AwaitsStale(r: Req) {
    r.stale > 0 && !r.dropStale
  }

  /** The part of `Enabled` shared by the WAITING loop's two admissions. */
  predicate MayAdmit(cfg: Config, s: State, fromSkipped: bool) {
    && s.phase == Scheduling && s.pass.preempted == []
    && QueueChoice(cfg, s, fromSkipped)
    && |s.running| < cfg.maxRunning
    && Head(s, fromSkipped) in s.reqs
    && s.reqs[Head(s, fromSkipped)].status in {Waiting, Preempted}
    && !AwaitsStale(s.reqs[Head(s, fromSkipped)])
  }

  /** A share the budgets allow. */
  predicate Fits(cfg: Config, s: State, n: nat) {
    0 < n <= s.pass.tokenBudget && n + cfg.draftSlots <= s.pass.inputBudget
  }

  /** Whether a request leaves a transfer of its blocks behind when it finishes now. */
  predicate MidLoad(s: State, id: ReqId)
    requires id in s.reqs
  {
    s.reqs[id].status == WaitingForRemoteKvs && id !in s.recvd
  }

  predicate Enabled(cfg: Config, s: State, e: Event) {
    match e
    case Add(id, prompt, _, _, _, pos) =>
      && s.phase == Idle && id !in s.reqs && prompt > 0
      && (forall k :: 0 <= k < |s.steps| ==> id !in s.steps[k].entries)
      && pos <= |s.waiting| && (cfg.policy == Fcfs ==> pos == |s.waiting|)
    case SetDrafts(id, _) =>
      s.phase == Idle && Unfinished(s, id)
    case SetPlaceholders(id, _) =>
      s.phase == Idle && id in s.running && id in s.reqs
    case BeginPass(_) =>
      s.phase == Idle
    case Take(id, n, taken) =>
      && s.phase == Scheduling && id in s.running && id in s.reqs && id !in s.pass.shares
      && s.pass.admitted == [] && Fits(cfg, s, n) && s.pool.CanAcquire(taken)
    case Preempt(id, drop, pos) =>
      && id in s.reqs && s.reqs[id].status == Running && id in s.pool.lastSched
      && pos <= |s.waiting| && (cfg.policy == Fcfs ==> pos == 0)
      && (if s.phase == Scheduling
          then IsVictim(cfg, s, id) && drop == cfg.requiresKvDelivery
               && s.pass.admitted == [] && s.pass.stepSkipped == []
          else s.phase == Idle && s.running != [] && id == s.running[|s.running| - 1] && drop)
    case Promote(fromSkipped) =>
      && s.phase == Scheduling && s.pass.preempted == []
      && QueueChoice(cfg, s, fromSkipped) && Head(s, fromSkipped) in s.reqs
      && s.reqs[Head(s, fromSkipped)].status == WaitingForRemoteKvs
      && Head(s, fromSkipped) in s.recvd
    case Skip(fromSkipped) =>
      s.phase == Scheduling && s.pass.preempted == [] && QueueChoice(cfg, s, fromSkipped)
    case AdmitAsync(fromSkipped, computed, hits, taken) =>
      && MayAdmit(cfg, s, fromSkipped)
      && s.reqs[Head(s, fromSkipped)].computed == 0
      && 0 < computed <= s.reqs[Head(s, fromSkipped)].tokens
      && s.pool.CanAcquire(taken)
    case Admit(fromSkipped, computed, n, drafts, hits, taken) =>
      && MayAdmit(cfg, s, fromSkipped)
      && Head(s, fromSkipped) !in s.pass.shares
      && (s.reqs[Head(s, fromSkipped)].computed != 0 ==> s.reqs[Head(s, fromSkipped)].computed == computed)
      && computed < s.reqs[Head(s, fromSkipped)].tokens
      && Fits(cfg, s, n) && s.pool.CanAcquire(taken)
    case Requeue(order) =>
      s.phase == Scheduling && multiset(order) == multiset(s.pass.stepSkipped)
    case RetainCopy(_) =>
      s.phase == Scheduling
    case Commit =>
      s.phase == Scheduling && s.pass.stepSkipped == []
    case BeginOutput =>
      s.phase == Idle && s.steps != []
    case LoadsInvalid(truncated) =>
      && s.phase == Processing
      && (forall id :: id in truncated ==>
            && id in s.reqs
            && s.reqs[id].status in {WaitingForRemoteKvs, Running}
            && (s.reqs[id].status == WaitingForRemoteKvs ==> 0 <= truncated[id] < s.reqs[id].computed))
    case Output(id, _, generated, kept, stop, _) =>
      && s.phase == Processing && s.steps != [] && id in s.steps[0].entries
      && kept <= generated && (stop ==> kept > 0)
      && (id in s.reqs ==> id in s.pool.lastSched)
    case EndOutput =>
      s.phase == Processing && s.steps != [] && s.steps[0].entries == map[]
    case Finish(id, send) =>
      s.phase == Idle && Unfinished(s, id) && id in s.pool.lastSched && (send ==> !MidLoad(s, id))
    case Received(id) =>
      s.phase == Idle && id in s.loads && id in s.reqs && id in s.pool.lastSched
    case Sent(id) =>
      s.phase == Idle && id in s.sends && id in s.reqs && id in s.pool.lastSched
  }

  function Apply(cfg: Config, s: State, e: Event): State
    requires Enabled(cfg, s, e)
  {
    match e
    case Add(id, prompt, maxTokens, priority, arrival, pos) =>
      ApplyAdd(s, id, NewRequest(prompt, maxTokens, priority, arrival), pos)
    case SetDrafts(id, count) =>
      s.(reqs := s.reqs[id := s.reqs[id].(specs := if s.reqs[id].prefillChunk then 0 else count)])
    case SetPlaceholders(id, count) =>
      s.(reqs := s.reqs[id := s.reqs[id].(placeholders := count)])
    case BeginPass(paused) => ApplyBeginPass(cfg, s, paused)
    case Take(id, n, taken) => ApplyTake(cfg, s, id, n, taken)
    case Preempt(id, drop, pos) => ApplyPreempt(cfg, s, id, drop, pos)
    case Promote(fromSkipped) => ApplyPromote(s, Head(s, fromSkipped))
    case Skip(fromSkipped) => ApplySkip(s, fromSkipped)
    case AdmitAsync(fromSkipped, computed, hits, taken) => ApplyAdmitAsync(s, fromSkipped, computed, hits, taken)
    case Admit(fromSkipped, computed, n, drafts, hits, taken) =>
      ApplyAdmit(cfg, s, fromSkipped, computed, Share(n, drafts), hits, taken)
    case Requeue(order) => ApplyRequeue(s, order)
    case RetainCopy(blocks) =>
      s.(pool := s.pool.RetainForCopy(blocks))
    case Commit => ApplyCommit(s)
    case BeginOutput =>
      s.(phase := Processing,
         pool := if s.steps[0].entries == map[] then s.pool else s.pool.ProcessStep())
    case LoadsInvalid(truncated) => ApplyLoadsInvalid(cfg, s, truncated)
    case Output(id, loadFailed, generated, kept, stop, send) =>
      ApplyOutput(cfg, s, id, loadFailed, generated, kept, stop, send)
    case EndOutput =>
      s.(steps := s.steps[1..], phase := Idle)
    case Finish(id, send) => Retire(s, id, send)
    case Received(id) =>
      if s.reqs[id].status == WaitingForRemoteKvs
      then s.(recvd := s.recvd + {id}, loads := s.loads - {id})
      else Reclaim(s.(loads := s.loads - {id}), id)
    case Sent(id) => Reclaim(s.(sends := s.sends - {id}), id)
  }

  function NewRequest(prompt: nat, maxTokens: nat, priority: int, arrival: int): Req {
    Req(Waiting, prompt, maxTokens, prompt, 0, 0, 0, 0, 0, false, false, 0, 0, priority, arrival)
  }

  function ApplyAdd(s: State, id: ReqId, r: Req, pos: nat): State
    requires pos <= |s.waiting|
  {
    s.(reqs := s.reqs[id := r], waiting := Insert(s.waiting, id, pos), pool := s.pool.Admit(id))
  }

  function ApplyBeginPass(cfg: Config, s: State, paused: bool): State {
    var limit := if paused then 0 else cfg.maxScheduledTokens;
    s.(phase := Scheduling,
       pass := Pass(limit, limit, cfg.maxBatchedTokens, map[], [], [], [], []))
  }

  function ApplyTake(cfg: Config, s: State, id: ReqId, n: nat, taken: seq<Block>): State
    requires id in s.reqs
  {
    s.(reqs := s.reqs[id := s.reqs[id].(specs := 0)],
       pool := s.pool.Acquire(id, [], taken),
       pass := s.pass.(tokenBudget := s.pass.tokenBudget - n,
                       inputBudget := s.pass.inputBudget - (n + cfg.draftSlots),
                       shares := s.pass.shares[id := Share(n, s.reqs[id].DraftsIn(n))],
                       continued := s.pass.continued + [id]))
  }

  /** PRIORITY may preempt a request this pass has already scheduled; its charge is restored. */
  function RestoreShare(cfg: Config, p: Pass, id: ReqId): Pass {
    if id in p.shares then
      p.(tokenBudget := p.tokenBudget + p.shares[id].n,
         inputBudget := p.inputBudget + (p.shares[id].n + cfg.draftSlots),
         shares := p.shares - {id},
         continued := Without(p.continued, id))
    else p
  }

  function ApplyPreempt(cfg: Config, s: State, id: ReqId, drop: bool, pos: nat): State
    requires id in s.reqs && id in s.pool.lastSched && pos <= |s.waiting|
  {
    s.(reqs := s.reqs[id := s.reqs[id].Preempt(drop)],
       running := Without(s.running, id),
       waiting := Insert(s.waiting, id, pos),
       pool := s.pool.Release(id),
       pass := if s.phase == Scheduling
               then var p := RestoreShare(cfg, s.pass, id); p.(preempted := p.preempted + [id])
               else s.pass)
  }

  /** _update_waiting_for_remote_kv and the status change around it. */
  function ApplyPromote(s: State, id: ReqId): State
    requires id in s.reqs
  {
    var r := s.reqs[id];
    var computed := if id !in s.failed && r.computed == r.tokens then r.tokens - 1 else r.computed;
    s.(reqs := s.reqs[id := r.(computed := computed,
                               status := if r.preemptions > 0 then Preempted else Waiting)],
       pool := if id in s.failed && r.computed == 0 then s.pool.FreeNow(id) else s.pool,
       failed := s.failed - {id}, recvd := s.recvd - {id})
  }

  function ApplySkip(s: State, fromSkipped: bool): State
    requires if fromSkipped then s.skipped != [] else s.waiting != []
  {
    PopHead(s, fromSkipped).(pass := s.pass.(stepSkipped := [Head(s, fromSkipped)] + s.pass.stepSkipped))
  }

  function ApplyRequeue(s: State, order: seq<ReqId>): State {
    s.(skipped := order + s.skipped, pass := s.pass.(stepSkipped := []))
  }

  function ApplyAdmitAsync(s: State, fromSkipped: bool, computed: nat, hits: seq<Block>, taken: seq<Block>): State
    requires if fromSkipped then s.skipped != [] else s.waiting != []
    requires Head(s, fromSkipped) in s.reqs
  {
    var id := Head(s, fromSkipped);
    PopHead(s, fromSkipped).(
      reqs := s.reqs[id := s.reqs[id].(status := WaitingForRemoteKvs, computed := computed)],
      pool := s.pool.Acquire(id, hits, taken),
      loads := s.loads + {id},
      pass := s.pass.(stepSkipped := [id] + s.pass.stepSkipped))
  }

  function ApplyAdmit(cfg: Config, s: State, fromSkipped: bool, computed: nat, share: Share, hits: seq<Block>,
                      taken: seq<Block>): State
    requires if fromSkipped then s.skipped != [] else s.waiting != []
    requires Head(s, fromSkipped) in s.reqs
  {
    var id := Head(s, fromSkipped);
    PopHead(s, fromSkipped).(
      reqs := s.reqs[id := s.reqs[id].(status := Running, computed := computed)],
      running := s.running + [id],
      pool := s.pool.Acquire(id, hits, taken),
      pass := s.pass.(tokenBudget := s.pass.tokenBudget - share.n,
                      inputBudget := s.pass.inputBudget - (share.n + cfg.draftSlots),
                      shares := s.pass.shares[id := share],
                      admitted := s.pass.admitted + [id]))
  }

  function ApplyCommit(s: State): State {
    var shares := s.pass.shares;
    var pool := s.pool.CommitStep(shares.Keys);
    s.(reqs := map id | id in s.reqs :: if id in shares then s.reqs[id].Advance(shares[id].n) else s.reqs[id],
       steps := s.steps + [Step(map id | id in shares && id in s.reqs ::
                                  Entry(shares[id].n, shares[id].drafts, s.reqs[id].preemptions, s.pool.Held(id)),
                                pool.sched)],
       phase := Idle, pass := NoPass, pool := pool)
  }

  /** The requests whose loads failed keep fewer computed tokens. */
  function Truncate(reqs: map<ReqId, Req>, truncated: map<ReqId, int>): map<ReqId, Req> {
    map id | id in reqs :: if id in truncated then reqs[id].(computed := truncated[id]) else reqs[id]
  }

  function ApplyLoadsInvalid(cfg: Config, s: State, truncated: map<ReqId, int>): State {
    s.(reqs := Truncate(s.reqs, truncated),
       failed := if cfg.recomputeLoadFailures
                 then s.failed + set id | id in truncated && id in s.reqs && s.reqs[id].status == WaitingForRemoteKvs
                 else s.failed)
  }

  /** Whether update_from_output hands the head step's output of `id` on. */
  predicate Delivers(s: State, id: ReqId) {
    Unfinished(s, id) && !(s.reqs[id].stale > 0 && s.reqs[id].dropStale)
  }

  function ApplyOutput(cfg: Config, s: State, id: ReqId, loadFailed: bool, generated: nat, kept: nat, stop: bool,
                       send: bool): State
    requires s.steps != [] && id in s.steps[0].entries
    requires id in s.reqs ==> id in s.pool.lastSched
  {
    var share := s.steps[0].entries[id];
    var t := s.(steps := [s.steps[0].(entries := s.steps[0].entries - {id})] + s.steps[1..]);
    if id !in s.reqs then t
    else
      var r := s.reqs[id];
      var drained := r.DrainShare(share.n);
      if loadFailed || !Delivers(s, id) then t.(reqs := s.reqs[id := drained])
      else
        var d := drained.Deliver(r.stale > 0, share.drafts, generated, kept, cfg.sampledPerStep);
        var u := t.(reqs := s.reqs[id := d]);
        if stop then Retire(u, id, send) else u
  }

  /** Whether this output ends its request. */
  predicate StopsRequest(s: State, e: Event)
    requires e.Output?
  {
    !e.loadFailed && Delivers(s, e.id) && e.stop
  }

  /** An output either ends its request or changes only that request's fields. */
  lemma OutputShape(cfg: Config, s: State, e: Event)
    requires Enabled(cfg, s, e) && e.Output?
    ensures var t := Apply(cfg, s, e);
            && t.steps == [s.steps[0].(entries := s.steps[0].entries - {e.id})] + s.steps[1..]
            && (if StopsRequest(s, e) then
                  exists d: Req ::
                    && d.status == s.reqs[e.id].status && d.tokens >= s.reqs[e.id].tokens
                    && t == Retire(s.(steps := t.steps, reqs := s.reqs[e.id := d]), e.id, e.send)
                else if e.id in s.reqs then
                  exists d: Req ::
                    && d.status == s.reqs[e.id].status
                    && (d.computed == s.reqs[e.id].computed || (Delivers(s, e.id) && s.reqs[e.id].stale <= 0))
                    && d.tokens >= s.reqs[e.id].tokens
                    && (d.tokens == s.reqs[e.id].tokens || Delivers(s, e.id))
                    && t == s.(steps := t.steps, reqs := s.reqs[e.id := d])
                else t == s.(steps := t.steps))
  {
    var t := Apply(cfg, s, e);
    if e.id in s.reqs {
      var share, r := s.steps[0].entries[e.id], s.reqs[e.id];
      var drained := r.DrainShare(share.n);
      var d := if !e.loadFailed && Delivers(s, e.id)
               then drained.Deliver(r.stale > 0, share.drafts, e.generated, e.kept, cfg.sampledPerStep) else drained;
      assert d.status == r.status;
      assert t == if StopsRequest(s, e)
                  then Retire(s.(steps := t.steps, reqs := s.reqs[e.id := d]), e.id, e.send)
                  else s.(steps := t.steps, reqs := s.reqs[e.id := d]);
    }
  }

  /** Stop or abort: leave the queues; keep the blocks only while a transfer needs them. */
  function Retire(s: State, id: ReqId, send: bool): State
    requires id in s.reqs && id in s.pool.lastSched
  {
    var t := s.(running := Without(s.running, id), waiting := Without(s.waiting, id),
                skipped := Without(s.skipped, id), recvd := s.recvd - {id}, failed := s.failed - {id},
                reqs := s.reqs[id := s.reqs[id].(status := Finished)],
                sends := if send then s.sends + {id} else s.sends);
    if MidLoad(s, id) || send then t else Reclaim(t, id)
  }

  /** _free_blocks */
  function Reclaim(s: State, id: ReqId): State
    requires id in s.pool.lastSched
  {
    s.(reqs := s.reqs - {id}, pool := s.pool.Release(id))
  }

  // ------------------------------------------------------------- runs

  datatype Outcome = NotARun | Reached(state: State)

  /** Performs the events of a trace in turn; a trace is a run if each is enabled. */
  ghost function Exec(cfg: Config, trace: seq<Event>): Outcome
    decreases |trace|
  {
    if trace == [] then Reached(InitialState(cfg))
    else
      var n := |trace| - 1;
      var before := Exec(cfg, trace[..n]);
      if before.Reached? && Enabled(cfg, before.state, trace[n])
      then Reached(Apply(cfg, before.state, trace[n]))
      else NotARun
  }

  ghost predicate IsRun(cfg: Config, trace: seq<Event>) {
    Exec(cfg, trace).Reached?
  }

  ghost function After(cfg: Config, trace: seq<Event>): State
    requires IsRun(cfg, trace)
  {
    Exec(cfg, trace).state
  }

  lemma RunExtends(cfg: Config, trace: seq<Event>, e: Event)
    requires IsRun(cfg, trace) && Enabled(cfg, After(cfg, trace), e)
    ensures IsRun(cfg, trace + [e])
    ensures After(cfg, trace + [e]) == Apply(cfg, After(cfg, trace), e)
  {
    assert (trace + [e])[..|trace + [e]| - 1] == trace;
  }

  /** Every proper prefix of a run is a run. */
  lemma RunPrefix(cfg: Config, trace: seq<Event>)
    requires IsRun(cfg, trace) && trace != []
    ensures var n := |trace| - 1;
            && IsRun(cfg, trace[..n])
            && Enabled(cfg, After(cfg, trace[..n]), trace[n])
            && After(cfg, trace) == Apply(cfg, After(cfg, trace[..n]), trace[n])
  {
  }
}
