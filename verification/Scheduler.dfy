/** The scheduler itself: a class whose methods update requests, queues and step counters in place.

    `Is(s)` says that the object's fields are the machine state `s`, and that some run of the machine
    ends in `s`.  Each method takes the object from a state to what the machine's events make of it
    (`Follows`), so any sequence of calls is one run, and everything proved about runs and their histories
    holds of it (`Runs.FollowingExtendsRuns`).
 */
module Scheduling {
  import opened Ledger
  import opened Machine
  import opened Queues
  import opened Requests
  import opened Options
  import opened Tables
  import opened Fences
  import opened Runs
  import opened Offers
  import opened Passes
  import opened Admissions
  import opened Intake
  import opened Commits
  import opened FullPass
  import opened Returns
  import opened Departures
  import opened LoadFailures
  import K = KvRecovery
  import C = ChunkSplit

  class Scheduler {
    const cfg: Config
    const table: RequestTable
    const fence: BlockFence
    const connector: Connector
    const cache: LocalCache
    var running: seq<ReqId>
    var waiting: seq<ReqId>
    var skipped: seq<ReqId>
    var finishedRecving: set<ReqId>
    var failedRecving: set<ReqId>

    ghost predicate FieldsAre(s: State)
      reads this, table, table.requests.Values, fence, fence.kv
    {
      && running == s.running && waiting == s.waiting && skipped == s.skipped
      && finishedRecving == s.recvd && failedRecving == s.failed
      && table.Is(s.reqs, s.pool.lastSched) && fence.Is(s.pool)
    }

    ghost predicate Is(s: State)
      reads this, table, table.requests.Values, fence, fence.kv
    {
      Reachable(cfg, s) && FieldsAre(s)
    }

    constructor (cfg: Config)
      ensures Is(InitialState(cfg)) && this.cfg == cfg
      ensures fresh(table) && fresh(fence) && fresh(fence.kv) && fresh(connector) && fresh(cache)
      ensures table.requests == map[]
    {
      this.cfg := cfg;
      table := new RequestTable();
      fence := new BlockFence(cfg.deferBlockFree);
      connector := new Connector();
      cache := new LocalCache();
      running, waiting, skipped, finishedRecving, failedRecving := [], [], [], {}, {};
      new;
      InitiallyReachable(cfg);
    }

    // --------------------------------------------------------- preemption

    /** Where a preempted request goes: the front in FCFS; PRIORITY's heap order is not modelled. */
    method PrependWaiting(id: ReqId) returns (pos: nat)
      modifies this`waiting
      ensures pos <= |old(waiting)| && waiting == Insert(old(waiting), id, pos)
      ensures cfg.policy == Fcfs ==> pos == 0
    {
      pos := 0;
      if cfg.policy == Priority {
        pos := *;
        if pos > |waiting| {
          pos := |waiting|;
        }
      }
      waiting := waiting[..pos] + [id] + waiting[pos..];
    }

    /** Takes running[index] out of the running list and preempts it. */
    method PreemptRequest(index: nat, drop: bool, ghost s: State) returns (pos: nat)
      requires Is(s) && index < |running|
      requires Enabled(cfg, s, Preempt(running[index], drop, 0))
      modifies this`running, this`waiting, table.requests.Values, fence, fence.kv
      ensures table.requests == old(table.requests)
      ensures running == old(running)[..index] + old(running)[index + 1..]
      ensures pos <= |s.waiting| && old(running)[index] in s.reqs && old(running)[index] in s.pool.lastSched
      ensures cfg.policy == Fcfs ==> pos == 0
      ensures Is(ApplyPreempt(cfg, s, old(running)[index], drop, pos))
      ensures Follows(cfg, s, ApplyPreempt(cfg, s, old(running)[index], drop, pos))
      ensures fence.kv.refusals == old(fence.kv.refusals)
    {
      hide Reachable, Follows, Enabled, Without, Insert, RestoreShare, Pool.Release, Req.Preempt, RequestTable.Is,
        BlockFence.Is;
      var id := running[index];
      PreemptFacts(index, drop, s);
      running := running[..index] + running[index + 1..];
      pos := PrependWaiting(id);
      PreemptReaches(cfg, s, id, drop, pos);
      var request := table.Get(id, s.reqs, s.pool.lastSched);
      fence.FreeRequestBlocks(id, request.lastSchedSeq, s.pool);
      table.Preempt(id, drop, s.reqs, s.pool.lastSched);
    }

    lemma PreemptFacts(index: nat, drop: bool, s: State)
      requires Is(s) && index < |running|
      requires Enabled(cfg, s, Preempt(running[index], drop, 0))
      ensures running[index] in s.reqs && running[index] in s.pool.lastSched
      ensures running[..index] + running[index + 1..] == Without(running, running[index])
      ensures s.pool.Release(running[index]).lastSched == s.pool.lastSched
    {
      ReachableInv(cfg, s);
      assert PlacedOk(s, running[index]);
      DeleteIsWithout(running, index);
      ReleaseNumbers(s.pool, running[index]);
    }

    // --------------------------------------------------------- one share of the RUNNING loop

    /** allocate_slots for a running request and, if it succeeds, the bookkeeping of its share. */
    method TryTake(id: ReqId, n: nat, ghost s: State) returns (ok: bool, drafts: nat, ghost taken: seq<Block>)
      requires Is(s) && id in s.reqs && Enabled(cfg, s, Take(id, n, []))
      modifies table.requests.Values, fence.kv
      ensures table.requests == old(table.requests)
      ensures fence.kv.refusals == old(fence.kv.refusals) + if ok then 0 else 1
      ensures !ok ==> Is(s)
      ensures ok ==> drafts == s.reqs[id].DraftsIn(n) && Is(ApplyTake(cfg, s, id, n, taken))
      ensures ok ==> Follows(cfg, s, ApplyTake(cfg, s, id, n, taken))
    {
      hide Reachable, Follows, Enabled, RequestTable.Is, BlockFence.Is, Pool.Acquire, Req.DraftsIn;
      drafts, taken := 0, [];
      var blocks := fence.Allocate(id, [], s.pool);
      ok := blocks.Some?;
      if ok {
        taken := blocks.value;
        TakeReaches(cfg, s, id, n, taken);
        drafts := table.TakeDrafts(id, n, s.reqs, s.pool.lastSched);
      }
    }

    // --------------------------------------------------------- offers and victims

    /** any(...) over the running list, for the starvation guard. */
    method AnyDecodeRunnable(id: ReqId, ghost s: State) returns (b: bool)
      requires FieldsAre(s) && (forall x :: x in running ==> x in s.reqs)
      ensures b <==> DecodeRunnable(s.reqs, running, id)
    {
      hide RequestTable.Is;
      b := false;
      for i := 0 to |running|
        invariant b <==> exists k :: 0 <= k < i && running[k] != id && IsRunnableDecode(s.reqs, running[k])
      {
        var r := table.Get(running[i], s.reqs, s.pool.lastSched);
        if !r.prefillChunk && running[i] != id && r.tokens + r.specs + r.placeholders - r.computed > 0 {
          b := true;
        }
      }
    }

    /** num_new_tokens of the RUNNING loop, reassigned limit by limit. */
    method OfferFor(id: ReqId, lim: Limits, pass: Pass, ghost s: State) returns (n: int)
      requires FieldsAre(s) && lim.Valid() && id in s.reqs && (forall x :: x in running ==> x in s.reqs)
      ensures n == Offer(cfg, lim, s.reqs, running, id, pass)
    {
      hide RequestTable.Is, C.Split, DecodeRunnable;
      var r := table.Get(id, s.reqs, s.pool.lastSched);
      n := r.tokens + r.specs + r.placeholders - r.computed;
      if 0 < lim.rules.threshold < n {
        n := lim.rules.threshold;
      }
      n := C.Min(C.Min(n, pass.tokenBudget), pass.inputBudget - cfg.draftSlots);
      if lim.guardChunk != 0 && r.prefillChunk && n > lim.guardChunk {
        var runnable := AnyDecodeRunnable(id, s);
        if runnable {
          n := lim.guardChunk;
        }
      }
      n := C.Min(n, lim.maxModelLen - r.computed - cfg.sampledPerStep);
      if lim.alignedSplit {
        var prefill := C.Prefill(r.promptTokens, r.tokens, if id in lim.junctions then lim.junctions[id] else 0);
        n := C.MambaBlockAlignedSplit(lim.rules, prefill, r.computed, n);
      }
      n := C.ReservePrefillLookahead(lim.rules, r.tokens, r.computed, n);
    }

    /** The preemption victim: the last running request, or for PRIORITY the first with a greatest key. */
    method VictimIndex(ghost s: State) returns (index: nat)
      requires FieldsAre(s) && running != [] && (forall x :: x in running ==> x in s.reqs)
      ensures index < |running| && IsVictim(cfg, s, running[index])
      ensures cfg.policy == Priority ==>
                forall k :: 0 <= k < index ==> !KeyLeq(s.reqs[running[index]], s.reqs[running[k]])
    {
      hide RequestTable.Is;
      if cfg.policy == Fcfs {
        return |running| - 1;
      }
      index := 0;
      for i := 1 to |running|
        invariant index < i
        invariant forall k :: 0 <= k < i ==> KeyLeq(s.reqs[running[k]], s.reqs[running[index]])
        invariant forall k :: 0 <= k < index ==> !KeyLeq(s.reqs[running[index]], s.reqs[running[k]])
      {
        var r := table.Get(running[i], s.reqs, s.pool.lastSched);
        var best := table.Get(running[index], s.reqs, s.pool.lastSched);
        if best.priority < r.priority || (best.priority == r.priority && best.arrival < r.arrival) {
          index := i;
        }
      }
    }

    // --------------------------------------------------------- the RUNNING loop

    /** One preemption inside the RUNNING loop, with the cursor and the budgets set right. */
    method PreemptVictim(i: nat, pass0: Pass, ghost s0: State)
      returns (victim: ReqId, j: nat, pass: Pass, ghost s: State)
      requires Is(s0) && pass0 == s0.pass && InRunningLoop(s0) && i < |running|
      requires forall x :: x in running[i..] ==> x !in s0.pass.shares
      modifies this`running, this`waiting, table.requests.Values, fence, fence.kv
      ensures table.requests == old(table.requests)
      ensures Is(s) && Follows(cfg, s0, s) && pass == s.pass && VictimStep(cfg, s0, i, victim, s, j)
      ensures fence.kv.refusals == old(fence.kv.refusals)
    {
      hide Reachable, Follows, RequestTable.Is, BlockFence.Is, Enabled, ApplyPreempt, VictimStep, InRunningLoop,
        IsVictim, RestoreShare;
      RunningKnown(cfg, s0);
      var v := VictimIndex(s0);
      victim := running[v];
      j := if v < i then i - 1 else i;
      VictimIsEnabled(cfg, s0, v);
      FcfsVictimIsAhead(cfg, s0, i, v);
      pass := Restored(victim, pass0, s0);
      var pos := PreemptRequest(v, cfg.requiresKvDelivery, s0);
      s := ApplyPreempt(cfg, s0, victim, cfg.requiresKvDelivery, pos);
      VictimEffect(cfg, s0, i, v, pos);
    }

    /** PRIORITY takes a victim that this pass has already scheduled out of it again. */
    method Restored(victim: ReqId, pass0: Pass, ghost s0: State) returns (pass: Pass)
      requires Is(s0) && pass0 == s0.pass && InRunningLoop(s0) && IsVictim(cfg, s0, victim)
      requires cfg.policy == Fcfs ==> victim !in s0.pass.shares
      ensures pass == RestoreShare(cfg, pass0, victim).(preempted := pass0.preempted + [victim])
    {
      hide Reachable, Follows, RequestTable.Is, BlockFence.Is, IsVictim, Without;
      RunningKnown(cfg, s0);
      pass := pass0;
      if cfg.policy == Priority && victim in pass.continued {
        var restored := pass.shares[victim].n;
        pass := pass.(tokenBudget := pass.tokenBudget + restored,
                      inputBudget := pass.inputBudget + (restored + cfg.draftSlots),
                      shares := pass.shares - {victim},
                      continued := Without(pass.continued, victim));
      }
      pass := pass.(preempted := pass.preempted + [victim]);
    }

    /** Tries to allocate for running[i]; while that fails, preempts one request after another, until
        it succeeds or running[i] itself has been preempted.  `j` is the cursor afterwards. */
    method AllocateOrPreempt(i: nat, n: nat, pass0: Pass, ghost s0: State)
      returns (ok: bool, j: nat, pass: Pass, ghost s: State)
      requires Is(s0) && pass0 == s0.pass && InRunningLoop(s0) && i < |running| && Fits(cfg, s0, n)
      requires forall x :: x in running[i..] ==> x !in s0.pass.shares
      modifies this`running, this`waiting, table.requests.Values, fence, fence.kv
      ensures table.requests == old(table.requests)
      ensures Is(s) && Follows(cfg, s0, s) && pass == s.pass && InRunningLoop(s)
      ensures ServedOne(cfg, s0, i, n, ok, s, j)
      ensures |s.pass.preempted| - |s0.pass.preempted| == fence.kv.refusals - old(fence.kv.refusals)
    {
      hide Reachable, Follows, RequestTable.Is, BlockFence.Is, Fits, Enabled, ApplyTake, VictimStep, InRunningLoop,
        Progressed, TakenUndisturbed, Scheduled;
      var id := running[i];
      j, pass, s := i, pass0, s0;
      ProgressedInPlace(s0, i);
      FollowsSelf(cfg, s0);
      while true
        invariant table.requests == old(table.requests)
        invariant Is(s) && Follows(cfg, s0, s) && pass == s.pass && InRunningLoop(s)
        invariant |s.pass.preempted| - |s0.pass.preempted| == fence.kv.refusals - old(fence.kv.refusals)
        invariant StillServing(cfg, s0, i, n, s, j)
        decreases |running|
      {
        TakeIsEnabled(cfg, s, j, n);
        ghost var taken;
        var drafts;
        ok, drafts, taken := TryTake(id, n, s);
        if ok {
          TakeEffect(cfg, s0, s, i, j, n, taken);
          FollowsOn(cfg, s0, s, ApplyTake(cfg, s, id, n, taken));
          pass := TakenPass(cfg, pass, id, Share(n, drafts));
          s := ApplyTake(cfg, s, id, n, taken);
          return;
        }
        ghost var before, k := s, j;
        var victim;
        victim, j, pass, s := PreemptVictim(j, pass, s);
        FollowsOn(cfg, s0, before, s);
        VictimCounted(cfg, before, k, victim, s, j);
        VictimServes(cfg, s0, i, n, before, k, victim, s, j);
        if victim == id {
          return;
        }
      }
    }

    /** The RUNNING loop of schedule(): walks `running` while preemption deletes from it. `j` is where it
        stopped, `considered` the requests it looked at in order, `served` those it scheduled. */
    method ScheduleRunning(lim: Limits, pass0: Pass, ghost s0: State)
      returns (pass: Pass, prefillScheduled: bool, ghost s: State, ghost j: nat,
               ghost considered: seq<ReqId>, ghost served: seq<ReqId>)
      requires Is(s0) && pass0 == s0.pass && lim.Valid() && NothingDone(s0)
      modifies this`running, this`waiting, table.requests.Values, fence, fence.kv
      ensures table.requests == old(table.requests)
      ensures Is(s) && Follows(cfg, s0, s) && pass == s.pass && InRunningLoop(s)
      ensures Visits(cfg, lim, s0, considered, served, s, j)
      ensures Scanned(cfg, lim, s0, s, j, considered, served)
      ensures ScanEnded(cfg, s, j, considered)
      ensures |s.pass.preempted| == fence.kv.refusals - old(fence.kv.refusals)
      ensures prefillScheduled <==> AnyPrefill(s0, served)
    {
      hide Reachable, Follows, RequestTable.Is, BlockFence.Is, Scanned, ServedOne, Visit, Visits, Offer, PassesOver,
        Enabled, AnyPrefill;
      pass, s, considered, served := pass0, s0, [], [];
      prefillScheduled := false;
      var cursor: nat := 0;
      ScanStarts(cfg, lim, s0);
      FollowsSelf(cfg, s0);
      while cursor < |running| && pass.tokenBudget > 0
        invariant table.requests == old(table.requests)
        invariant Is(s) && Follows(cfg, s0, s) && pass == s.pass && InRunningLoop(s)
        invariant cursor <= |running| && Visits(cfg, lim, s0, considered, served, s, cursor)
        invariant |s.pass.preempted| == fence.kv.refusals - old(fence.kv.refusals)
        invariant Scanned(cfg, lim, s0, s, cursor, considered, served)
        invariant prefillScheduled <==> AnyPrefill(s0, served)
        decreases |running| - cursor
      {
        if pass.inputBudget <= cfg.draftSlots {
          break;
        }
        var id := running[cursor];
        RunningKnown(cfg, s);
        ScanIsAhead(cfg, lim, s0, s, cursor, considered, served, id);
        var n, midPrefill := ConsiderOffer(id, lim, pass, s);
        if n == 0 {
          ScanSkips(cfg, lim, s0, s, cursor, considered, served);
          VisitsOn(cfg, lim, s0, considered, served, s, cursor, id, served, s, cursor + 1);
          cursor := cursor + 1;
          considered := considered + [id];
          continue;
        }
        ghost var before, k := s, cursor;
        var ok;
        ok, cursor, pass, s := AllocateOrPreempt(cursor, n, pass, s);
        FollowsOn(cfg, s0, before, s);
        ScanServes(cfg, lim, s0, before, k, considered, served, n, ok, s, cursor);
        ServeIsVisit(cfg, lim, before, k, served, n, ok, s, cursor);
        VisitsOn(cfg, lim, s0, considered, served, before, k, id, if ok then served + [id] else served, s,
                 if ok then cursor + 1 else cursor);
        considered := considered + [id];
        if !ok {
          break;
        }
        AnyPrefillGrows(s0, served, id);
        served := served + [id];
        prefillScheduled := prefillScheduled || midPrefill;
        cursor := cursor + 1;
      }
      j := cursor;
    }

    /** The checks before an allocation: 0 if the request is passed over, else its offer. */
    method ConsiderOffer(id: ReqId, lim: Limits, pass: Pass, ghost s: State) returns (n: nat, midPrefill: bool)
      requires FieldsAre(s) && lim.Valid() && id in s.reqs && (forall x :: x in running ==> x in s.reqs)
      ensures midPrefill == s.reqs[id].prefillChunk
      ensures n == if PassesOver(lim, id, s.reqs[id]) then 0 else Offer(cfg, lim, s.reqs, running, id, pass)
      ensures n > 0 ==> n <= pass.tokenBudget && n + cfg.draftSlots <= pass.inputBudget
    {
      hide RequestTable.Is, Offer;
      n := 0;
      var r := table.Get(id, s.reqs, s.pool.lastSched);
      midPrefill := r.prefillChunk;
      if r.placeholders > 0 && r.computed + 2 - r.placeholders >= r.promptTokens + r.maxTokens {
        return;
      }
      if id in lim.ineligible {
        return;
      }
      if lim.deferPrefills && r.prefillChunk {
        return;
      }
      OfferFits(cfg, lim, s.reqs, running, id, pass);
      n := OfferFor(id, lim, pass, s);
    }

    // --------------------------------------------------------- the head of a waiting queue

    method PopRequest(fromSkipped: bool)
      requires if fromSkipped then skipped != [] else waiting != []
      modifies this`waiting, this`skipped
      ensures skipped == if fromSkipped then old(skipped)[1..] else old(skipped)
      ensures waiting == if fromSkipped then old(waiting) else old(waiting)[1..]
    {
      if fromSkipped {
        skipped := skipped[1..];
      } else {
        waiting := waiting[1..];
      }
    }

    method MoveToRunning(fromSkipped: bool)
      requires if fromSkipped then skipped != [] else waiting != []
      modifies this`running, this`waiting, this`skipped
      ensures skipped == if fromSkipped then old(skipped)[1..] else old(skipped)
      ensures waiting == if fromSkipped then old(waiting) else old(waiting)[1..]
      ensures running == old(running) + [if fromSkipped then old(skipped)[0] else old(waiting)[0]]
    {
      running := running + [if fromSkipped then skipped[0] else waiting[0]];
      PopRequest(fromSkipped);
    }

    /** Puts the head aside for this pass. */
    method HoldHead(fromSkipped: bool, pass0: Pass, ghost s0: State) returns (pass: Pass)
      requires Is(s0) && pass0 == s0.pass && HeadExists(s0, fromSkipped) && MayServe(cfg, s0, fromSkipped)
      modifies this`waiting, this`skipped
      ensures Is(ApplySkip(s0, fromSkipped)) && pass == ApplySkip(s0, fromSkipped).pass
      ensures Follows(cfg, s0, ApplySkip(s0, fromSkipped))
    {
      hide Reachable, Follows, MayServe, RequestTable.Is, BlockFence.Is;
      HeadReaches(cfg, s0, fromSkipped);
      var id := if fromSkipped then skipped[0] else waiting[0];
      PopRequest(fromSkipped);
      pass := pass0.(stepSkipped := [id] + pass0.stepSkipped);
    }

    /** _try_promote_blocked_waiting_request, with _update_waiting_for_remote_kv. */
    method TryPromote(fromSkipped: bool, ghost s0: State) returns (ok: bool, ghost s: State)
      requires Is(s0) && HeadExists(s0, fromSkipped) && MayServe(cfg, s0, fromSkipped)
      requires HasStatus(s0.reqs, Head(s0, fromSkipped), WaitingForRemoteKvs)
      modifies this`finishedRecving, this`failedRecving, table.requests.Values, fence.kv
      ensures table.requests == old(table.requests)
      ensures ok <==> Head(s0, fromSkipped) in s0.recvd
      ensures s == if ok then ApplyPromote(s0, Head(s0, fromSkipped)) else s0
      ensures Is(s) && Follows(cfg, s0, s) && fence.kv.refusals == old(fence.kv.refusals)
    {
      hide Reachable, Follows, RequestTable.Is, BlockFence.Is, Pool.FreeNow, MayServe;
      var id := if fromSkipped then skipped[0] else waiting[0];
      ok, s := id in finishedRecving, s0;
      FollowsSelf(cfg, s0);
      if ok {
        PromoteReaches(cfg, s0, fromSkipped);
        s := ApplyPromote(s0, id);
        UpdateWaitingForRemoteKv(id, s0);
      }
    }

    /** _update_waiting_for_remote_kv and the status that follows it. */
    method UpdateWaitingForRemoteKv(id: ReqId, ghost s: State)
      requires FieldsAre(s) && id in s.reqs && s.pool.FreeNow(id).lastSched == s.pool.lastSched
      modifies this`finishedRecving, this`failedRecving, table.requests.Values, fence.kv
      ensures table.requests == old(table.requests)
      ensures FieldsAre(ApplyPromote(s, id)) && fence.kv.refusals == old(fence.kv.refusals)
    {
      hide RequestTable.Is, BlockFence.Is, Pool.FreeNow;
      var r := table.Get(id, s.reqs, s.pool.lastSched);
      var computed := r.computed;
      if id in failedRecving {
        if r.computed == 0 {
          fence.FreeNow(id, s.pool);
        }
        failedRecving := failedRecving - {id};
      } else if r.computed == r.tokens {
        computed := r.tokens - 1;
      }
      finishedRecving := finishedRecving - {id};
      table.SetStatus(id, if r.preemptions > 0 then Preempted else Waiting, computed, s.reqs, s.pool.lastSched);
    }

    /** Allocates for an asynchronous load and parks the head. */
    method LoadHead(fromSkipped: bool, computed: nat, hits: seq<Block>, pass0: Pass, ghost s0: State)
      returns (ok: bool, pass: Pass, ghost s: State)
      requires Is(s0) && pass0 == s0.pass && HeadExists(s0, fromSkipped) && MayLoad(cfg, s0, fromSkipped, computed)
      modifies this`waiting, this`skipped, table.requests.Values, fence.kv
      ensures table.requests == old(table.requests)
      ensures Is(s) && Follows(cfg, s0, s) && pass == s.pass
      ensures HeadServed(s0, fromSkipped, if ok then Some(Held(Head(s0, fromSkipped), LoadStarted)) else None, s)
      ensures fence.kv.refusals == old(fence.kv.refusals) + if ok then 0 else 1
      ensures ok ==> Adopted(s0, Head(s0, fromSkipped), computed, hits, s)
    {
      hide Reachable, Follows, RequestTable.Is, BlockFence.Is, Pool.Acquire, MayLoad, HeadServed, Adopted;
      LoadFacts(cfg, s0, fromSkipped, computed);
      FollowsSelf(cfg, s0);
      pass, s := pass0, s0;
      var id := if fromSkipped then skipped[0] else waiting[0];
      var blocks := fence.Allocate(id, hits, s0.pool);
      ok := blocks.Some?;
      if ok {
        LoadReaches(cfg, s0, fromSkipped, computed, hits, blocks.value);
        PopRequest(fromSkipped);
        s := ApplyAdmitAsync(s0, fromSkipped, computed, hits, blocks.value);
        table.SetStatus(id, WaitingForRemoteKvs, computed, s0.reqs, s0.pool.lastSched);
        pass := pass.(stepSkipped := [id] + pass.stepSkipped);
      }
    }

    /** Allocates for a share and moves the head into `running`. */
    method AdmitHead(fromSkipped: bool, computed: nat, share: Share, hits: seq<Block>, pass0: Pass, ghost s0: State)
      returns (ok: bool, pass: Pass, ghost s: State)
      requires Is(s0) && pass0 == s0.pass && HeadExists(s0, fromSkipped)
      requires MayRun(cfg, s0, fromSkipped, computed, share)
      modifies this`running, this`waiting, this`skipped, table.requests.Values, fence.kv
      ensures table.requests == old(table.requests)
      ensures Is(s) && Follows(cfg, s0, s) && pass == s.pass
      ensures fence.kv.refusals == old(fence.kv.refusals) + if ok then 0 else 1
      ensures HeadServed(s0, fromSkipped, if ok then Some(Taken(Head(s0, fromSkipped))) else None, s)
      ensures ok ==> Admitted(s0, Head(s0, fromSkipped), computed, share, s)
      ensures ok ==> Adopted(s0, Head(s0, fromSkipped), computed, hits, s)
    {
      hide Reachable, Follows, RequestTable.Is, BlockFence.Is, Pool.Acquire, MayRun, HeadServed, Admitted, Adopted;
      AdmitFacts(cfg, s0, fromSkipped, computed, share);
      FollowsSelf(cfg, s0);
      pass, s := pass0, s0;
      var id := if fromSkipped then skipped[0] else waiting[0];
      var blocks := fence.Allocate(id, hits, s0.pool);
      ok := blocks.Some?;
      if ok {
        AdmitReaches(cfg, s0, fromSkipped, computed, share, hits, blocks.value);
        MoveToRunning(fromSkipped);
        s := ApplyAdmit(cfg, s0, fromSkipped, computed, share, hits, blocks.value);
        table.SetStatus(id, Running, computed, s0.reqs, s0.pool.lastSched);
        pass := pass.(tokenBudget := pass.tokenBudget - share.n,
                      inputBudget := pass.inputBudget - (share.n + cfg.draftSlots),
                      shares := pass.shares[id := share],
                      admitted := pass.admitted + [id]);
      }
    }

    /** The checks on a head that may hold it back for this pass. */
    method ReadyHead(fromSkipped: bool, pass0: Pass, ghost s0: State) returns (ready: bool, pass: Pass, ghost s: State)
      requires Is(s0) && pass0 == s0.pass && HeadExists(s0, fromSkipped) && MayServe(cfg, s0, fromSkipped)
      modifies this`waiting, this`skipped, this`finishedRecving, this`failedRecving, table.requests.Values, fence.kv
      ensures table.requests == old(table.requests)
      ensures Is(s) && Follows(cfg, s0, s) && pass == s.pass && fence.kv.refusals == old(fence.kv.refusals)
      ensures HeadServed(s0, fromSkipped, if ready then None else Some(Held(Head(s0, fromSkipped), StillBlocked)), s)
      ensures ready ==> HeadReady(cfg, s, fromSkipped)
      ensures Head(s0, fromSkipped) in s0.reqs && (ready ==> s == Promoted(s0, fromSkipped))
      ensures !ready <==> Blocked(s0, Head(s0, fromSkipped))
    {
      hide Reachable, Follows, RequestTable.Is, BlockFence.Is, HeadServed, MayServe, ApplyPromote, ApplySkip,
        QueueChoice, HeadReady;
      var id := if fromSkipped then skipped[0] else waiting[0];
      pass, s := pass0, s0;
      FollowsSelf(cfg, s0);
      ServeFacts(cfg, s, fromSkipped);
      var r := table.Get(id, s.reqs, s.pool.lastSched);
      if r.status == WaitingForRemoteKvs {
        ready, s := TryPromote(fromSkipped, s);
        if !ready {
          pass := HoldHead(fromSkipped, pass, s);
          s := ApplySkip(s, fromSkipped);
          return;
        }
        PromotedFacts(cfg, s0, fromSkipped);
        r := table.Get(id, s.reqs, s.pool.lastSched);
      }
      if r.stale > 0 && !r.dropStale {
        SkipServed(cfg, s0, s, fromSkipped, StillBlocked);
        pass := HoldHead(fromSkipped, pass, s);
        FollowsOn(cfg, s0, s, ApplySkip(s, fromSkipped));
        s := ApplySkip(s, fromSkipped);
        return false, pass, s;
      }
      ReadyFacts(cfg, s, fromSkipped);
      ready := true;
    }

    /** The rest of an iteration: looks the request up in the caches, then loads it, admits it, or stops. */
    method ServeReady(lim: Limits, adm: AdmissionRules, decodesOnly: bool, fromSkipped: bool, pass0: Pass,
                      ghost s0: State)
      returns (v: Option<Verdict>, pass: Pass, ghost s: State, ghost refused: bool)
      requires Is(s0) && pass0 == s0.pass && lim.Valid() && HeadExists(s0, fromSkipped)
      requires HeadReady(cfg, s0, fromSkipped)
      modifies this`running, this`waiting, this`skipped, table.requests.Values, fence.kv, connector, cache
      ensures table.requests == old(table.requests)
      ensures Is(s) && Follows(cfg, s0, s) && pass == s.pass && HeadServed(s0, fromSkipped, v, s)
      ensures v.Some? && v.value.Held? ==> v.value.why != StillBlocked && adm.connector
      ensures v.Some? && v != Some(Held(v.value.id, Undecided)) ==>
                AdoptsFound(adm, lim.rules.blockSize, cache.hit, connector.answer, s0, Head(s0, fromSkipped),
                            v.value.Held?, s)
      ensures v.Some? && v.value.Taken? ==> ShareIsOffered(cfg, lim, adm, decodesOnly, pass0, v.value.id, s)
      ensures v.None? && !refused ==> HeadNotOffered(cfg, lim, adm, decodesOnly, s, fromSkipped)
      ensures refused ==> v.None?
      ensures fence.kv.refusals == old(fence.kv.refusals) + if refused then 1 else 0
      ensures connector.undetermined
              == old(connector.undetermined) + if v.Some? && v.value == Held(v.value.id, Undecided) then 1 else 0
    {
      hide Reachable, Follows, RequestTable.Is, BlockFence.Is, HeadServed, HeadReady, MayLoad, MayRun, AdmissionShare,
        ShareIsOffered, HeadNotOffered, Adopted, IsFound, AdoptsFound;
      var id := if fromSkipped then skipped[0] else waiting[0];
      ReadyNumbers(cfg, s0, fromSkipped);
      var r := table.Get(id, s0.reqs, s0.pool.lastSched);
      if r.computed == 0 {
        v, pass, s, refused := ServeLookedUp(lim, adm, decodesOnly, fromSkipped, pass0, s0);
      } else {
        v, pass, s, refused := AdmitOrStop(lim, adm, decodesOnly, fromSkipped, r.computed, [], pass0, s0);
        if v.Some? {
          ComputedIsAdopted(adm, lim.rules.blockSize, cache.hit, connector.answer, s0, id, s);
        }
      }
    }

    /** A request with nothing computed. */
    method ServeLookedUp(lim: Limits, adm: AdmissionRules, decodesOnly: bool, fromSkipped: bool, pass0: Pass,
                         ghost s0: State)
      returns (v: Option<Verdict>, pass: Pass, ghost s: State, ghost refused: bool)
      requires Is(s0) && pass0 == s0.pass && lim.Valid() && HeadExists(s0, fromSkipped)
      requires HeadReady(cfg, s0, fromSkipped) && s0.reqs[Head(s0, fromSkipped)].computed == 0
      modifies this`running, this`waiting, this`skipped, table.requests.Values, fence.kv, connector, cache
      ensures table.requests == old(table.requests)
      ensures Is(s) && Follows(cfg, s0, s) && pass == s.pass && HeadServed(s0, fromSkipped, v, s)
      ensures v.Some? && v.value.Held? ==> v.value.why != StillBlocked && adm.connector
      ensures v.Some? && v != Some(Held(v.value.id, Undecided)) ==>
                AdoptsFound(adm, lim.rules.blockSize, cache.hit, connector.answer, s0, Head(s0, fromSkipped),
                            v.value.Held?, s)
      ensures v.Some? && v.value.Taken? ==> ShareIsOffered(cfg, lim, adm, decodesOnly, pass0, v.value.id, s)
      ensures v.None? && !refused ==> HeadNotOffered(cfg, lim, adm, decodesOnly, s, fromSkipped)
      ensures refused ==> v.None?
      ensures fence.kv.refusals == old(fence.kv.refusals) + if refused then 1 else 0
      ensures connector.undetermined
              == old(connector.undetermined) + if v.Some? && v.value == Held(v.value.id, Undecided) then 1 else 0
    {
      hide Reachable, Follows, RequestTable.Is, BlockFence.Is, HeadServed, HeadReady, MayLoad, MayRun, AdmissionShare,
        ShareIsOffered, HeadNotOffered, Adopted, IsFound, AdoptsFound,
        MayServe, ApplySkip;
      refused := false;
      var id := if fromSkipped then skipped[0] else waiting[0];
      ReadyNumbers(cfg, s0, fromSkipped);
      pass, s := pass0, s0;
      var r := table.Get(id, s.reqs, s.pool.lastSched);
      var hits, prefix := LookUp(adm, cache, connector, lim.rules.blockSize, r.tokens);
      if prefix.None? {
        SkipServed(cfg, s0, s, fromSkipped, Undecided);
        pass := HoldHead(fromSkipped, pass, s);
        s := ApplySkip(s, fromSkipped);
        return Some(Held(id, Undecided)), pass, s, false;
      }
      var computed := prefix.value.Total();
      if prefix.value.loadAsync {
        v, pass, s, refused := LoadOrStop(fromSkipped, computed, hits, pass, s);
      } else {
        v, pass, s, refused := AdmitOrStop(lim, adm, decodesOnly, fromSkipped, computed, hits, pass, s);
      }
      if v.Some? {
        FoundIsAdopted(adm, lim.rules.blockSize, cache.hit, connector.answer, s0, id, prefix.value, hits, s);
      }
    }

    method LoadOrStop(fromSkipped: bool, computed: nat, hits: seq<Block>, pass0: Pass, ghost s0: State)
      returns (v: Option<Verdict>, pass: Pass, ghost s: State, ghost refused: bool)
      requires Is(s0) && pass0 == s0.pass && HeadExists(s0, fromSkipped) && HeadReady(cfg, s0, fromSkipped)
      requires s0.reqs[Head(s0, fromSkipped)].computed == 0 < computed <= s0.reqs[Head(s0, fromSkipped)].tokens
      modifies this`waiting, this`skipped, table.requests.Values, fence.kv
      ensures table.requests == old(table.requests)
      ensures Is(s) && Follows(cfg, s0, s) && pass == s.pass && HeadServed(s0, fromSkipped, v, s)
      ensures v == if refused then None else Some(Held(Head(s0, fromSkipped), LoadStarted))
      ensures v.Some? ==> Adopted(s0, Head(s0, fromSkipped), computed, hits, s)
      ensures fence.kv.refusals == old(fence.kv.refusals) + if refused then 1 else 0
    {
      hide Reachable, Follows, RequestTable.Is, BlockFence.Is, HeadServed, MayLoad, Adopted;
      LoadIsEnabled(cfg, s0, fromSkipped, computed);
      var id, ok := if fromSkipped then skipped[0] else waiting[0], false;
      ok, pass, s := LoadHead(fromSkipped, computed, hits, pass0, s0);
      v, refused := if ok then Some(Held(id, LoadStarted)) else None, !ok;
    }

    method AdmitOrStop(lim: Limits, adm: AdmissionRules, decodesOnly: bool, fromSkipped: bool, computed: nat,
                       hits: seq<Block>, pass0: Pass, ghost s0: State)
      returns (v: Option<Verdict>, pass: Pass, ghost s: State, ghost refused: bool)
      requires Is(s0) && pass0 == s0.pass && lim.Valid() && HeadExists(s0, fromSkipped)
      requires HeadReady(cfg, s0, fromSkipped)
      requires ComputedIs(s0.reqs, Head(s0, fromSkipped), computed)
      modifies this`running, this`waiting, this`skipped, table.requests.Values, fence.kv
      ensures table.requests == old(table.requests)
      ensures Is(s) && Follows(cfg, s0, s) && pass == s.pass && HeadServed(s0, fromSkipped, v, s)
      ensures refused ==> v.None?
      ensures fence.kv.refusals == old(fence.kv.refusals) + if refused then 1 else 0
      ensures v.Some? ==> v.value.Taken? && ShareIsOffered(cfg, lim, adm, decodesOnly, pass0, v.value.id, s)
      ensures v.Some? ==> Adopted(s0, Head(s0, fromSkipped), computed, hits, s)
      ensures v.None? && !refused ==> HeadNotOffered(cfg, lim, adm, decodesOnly, s, fromSkipped)
    {
      hide Reachable, Follows, RequestTable.Is, BlockFence.Is, HeadServed, HeadReady, MayLoad, MayRun, AdmissionShare,
        ShareIsOffered, HeadNotOffered, Adopted;
      refused := false;
      var id := if fromSkipped then skipped[0] else waiting[0];
      ReadyNumbers(cfg, s0, fromSkipped);
      pass, s := pass0, s0;
      var r := table.Get(id, s.reqs, s.pool.lastSched);
      FollowsSelf(cfg, s0);
      var q := C.Prefill(r.promptTokens, r.tokens, if id in lim.junctions then lim.junctions[id] else 0);
      var share := AdmissionOffer(cfg, lim, adm, q, computed, pass, decodesOnly);
      if share.None? {
        NothingToOffer(cfg, lim, adm, decodesOnly, s, fromSkipped, computed);
        return None, pass, s, false;
      }
      AdmissionFits(cfg, lim, adm, q, computed, pass, decodesOnly);
      AdmitIsEnabled(cfg, s0, fromSkipped, computed, share.value);
      var ok;
      ok, pass, s := AdmitHead(fromSkipped, computed, share.value, hits, pass, s);
      if !ok {
        return None, pass, s, true;
      }
      OfferTaken(cfg, lim, adm, decodesOnly, s0, id, computed, share.value, s);
      v := Some(Taken(id));
    }

    // --------------------------------------------------------- the WAITING loop

    /** _select_waiting_queue_for_scheduling */
    method SelectQueue(ghost s: State) returns (fromSkipped: bool)
      requires FieldsAre(s) && (waiting != [] || skipped != [])
      ensures QueueChoice(cfg, s, fromSkipped)
    {
      if cfg.policy == Fcfs || waiting == [] || skipped == [] {
        return skipped != [];
      }
      fromSkipped := *;
    }

    /** The WAITING loop of schedule(): admits, loads or puts aside one head after another, then puts the
        requests set aside back in front of the skipped queue. */
    method ScheduleWaiting(lim: Limits, adm: AdmissionRules, decodesOnly: bool, pass0: Pass, ghost s0: State)
      returns (pass: Pass, ghost s: State, ghost verdicts: seq<Verdict>, ghost last: State, ghost refused: bool)
      requires Is(s0) && pass0 == s0.pass && lim.Valid() && Admitting(s0) && s0.pass.stepSkipped == []
      modifies this, table.requests.Values, fence.kv, connector, cache
      ensures table.requests == old(table.requests)
      ensures Is(s) && Follows(cfg, s0, s) && pass == s.pass && Admitting(s) && s.pass.stepSkipped == []
      ensures HeadVisits(cfg, lim, adm, decodesOnly, s0, verdicts, last) && LeftAs(last, |HeldOf(verdicts)|, s)
      ensures fence.kv.refusals == old(fence.kv.refusals) + if refused then 1 else 0
      ensures connector.undetermined == old(connector.undetermined) + Undecideds(verdicts)
      ensures IntakeDone(cfg, s0, verdicts, s)
      ensures IntakeEnded(cfg, lim, adm, decodesOnly, s, |HeldOf(verdicts)|, refused)
    {
      hide Reachable, Follows, RequestTable.Is, BlockFence.Is, HeadServed, HeadNotOffered, IntakeSoFar, IntakeDone,
        Enabled, QueueChoice, HeadReady, HeadVisit, HeadVisits, LeftAs, Undecideds, HeldOf;
      pass, s, verdicts, refused, last := pass0, s0, [], false, s0;
      IntakeStarts(cfg, s0);
      HeadVisitsNone(cfg, lim, adm, decodesOnly, s0);
      FollowsSelf(cfg, s0);
      while (waiting != [] || skipped != []) && pass.tokenBudget > 0
        invariant table.requests == old(table.requests)
        invariant Is(s) && Follows(cfg, s0, s) && pass == s.pass && Admitting(s) && IntakeSoFar(cfg, s0, verdicts, s)
        invariant HeadVisits(cfg, lim, adm, decodesOnly, s0, verdicts, last) && last == s && !refused
        invariant fence.kv.refusals == old(fence.kv.refusals)
        invariant connector.undetermined == old(connector.undetermined) + Undecideds(verdicts)
        decreases |waiting| + |skipped|
      {
        if pass.inputBudget <= cfg.draftSlots {
          break;
        }
        if |running| >= cfg.maxRunning {
          break;
        }
        var fromSkipped := SelectQueue(s);
        QueueIsThere(cfg, s, fromSkipped);
        ghost var before := s;
        var v;
        v, pass, s, refused := ServeHead(lim, adm, decodesOnly, fromSkipped, pass, s);
        FollowsOn(cfg, s0, before, s);
        if v.None? {
          HeadStays(before, fromSkipped, s);
          IntakeStops(cfg, lim, adm, decodesOnly, s0, verdicts, before, fromSkipped, s, refused);
          break;
        }
        IntakeStep(cfg, s0, verdicts, before, fromSkipped, v.value, s);
        HeadVisitsOn(cfg, lim, adm, decodesOnly, s0, verdicts, before, fromSkipped, v.value, s);
        verdicts, last := verdicts + [v.value], s;
      }
      ghost var stopped := s;
      pass, s := PutBack(lim, adm, decodesOnly, refused, pass, s0, verdicts, s);
      FollowsOn(cfg, s0, stopped, s);
    }

    /** One iteration of the loop. */
    method ServeHead(lim: Limits, adm: AdmissionRules, decodesOnly: bool, fromSkipped: bool, pass0: Pass,
                     ghost s0: State)
      returns (v: Option<Verdict>, pass: Pass, ghost s: State, ghost refused: bool)
      requires Is(s0) && pass0 == s0.pass && lim.Valid() && HeadExists(s0, fromSkipped)
      requires MayServe(cfg, s0, fromSkipped)
      modifies this, table.requests.Values, fence.kv, connector, cache
      ensures table.requests == old(table.requests)
      ensures Is(s) && Follows(cfg, s0, s) && pass == s.pass && HeadServed(s0, fromSkipped, v, s)
      ensures v.Some? ==> HeadVisit(cfg, lim, adm, decodesOnly, s0, fromSkipped, v.value, s)
      ensures Head(s0, fromSkipped) in s0.reqs
      ensures v.Some? && (v.value.Taken? || v.value.why == LoadStarted) ==>
                AdoptsFound(adm, lim.rules.blockSize, cache.hit, connector.answer, Promoted(s0, fromSkipped),
                            Head(s0, fromSkipped), v.value.Held?, s)
      ensures Blocked(s0, Head(s0, fromSkipped)) ==> v.Some?
      ensures v.None? && !refused ==> HeadNotOffered(cfg, lim, adm, decodesOnly, s, fromSkipped)
      ensures refused ==> v.None?
      ensures fence.kv.refusals == old(fence.kv.refusals) + if refused then 1 else 0
      ensures connector.undetermined
              == old(connector.undetermined) + if v.Some? && v.value == Held(v.value.id, Undecided) then 1 else 0
    {
      hide Reachable, Follows, RequestTable.Is, BlockFence.Is, HeadServed, HeadReady, MayServe, ShareIsOffered,
        AdoptsFound, HeadNotOffered;
      var id := if fromSkipped then skipped[0] else waiting[0];
      var ready;
      ready, pass, s := ReadyHead(fromSkipped, pass0, s0);
      if !ready {
        HeadIsServed(s0, fromSkipped, Held(id, StillBlocked), s);
        return Some(Held(id, StillBlocked)), pass, s, false;
      }
      HeadServedOn(s0, fromSkipped, s);
      ghost var promoted := s;
      v, pass, s, refused := ServeReady(lim, adm, decodesOnly, fromSkipped, pass, s);
      FollowsOn(cfg, s0, promoted, s);
      if v.Some? {
        HeadIsServed(s0, fromSkipped, v.value, s);
      }
    }

    /** Requeues the requests put aside. */
    method PutBack(ghost lim: Limits, ghost adm: AdmissionRules, ghost decodesOnly: bool, ghost refused: bool,
                   pass0: Pass, ghost s0: State, ghost verdicts: seq<Verdict>, ghost s1: State)
      returns (pass: Pass, ghost s: State)
      requires Is(s1) && pass0 == s1.pass && Admitting(s1) && IntakeSoFar(cfg, s0, verdicts, s1)
      requires IntakeEnded(cfg, lim, adm, decodesOnly, s1, 0, refused)
      modifies this`skipped
      ensures Is(s) && Follows(cfg, s1, s) && pass == s.pass && Admitting(s) && s.pass.stepSkipped == []
      ensures LeftAs(s1, |HeldOf(verdicts)|, s)
      ensures IntakeDone(cfg, s0, verdicts, s)
      ensures IntakeEnded(cfg, lim, adm, decodesOnly, s, |HeldOf(verdicts)|, refused)
    {
      hide Reachable, Follows, RequestTable.Is, BlockFence.Is, IntakeSoFar, IntakeDone, IntakeEnded;
      var order := AnyOrder(pass0.stepSkipped);
      RequeueReaches(cfg, s1, order);
      IntakeEnds(cfg, s0, verdicts, s1, order);
      RequeueKeepsEnd(cfg, lim, adm, decodesOnly, s0, verdicts, s1, order, refused);
      s := ApplyRequeue(s1, order);
      skipped := order + skipped;
      pass := pass0.(stepSkipped := []);
    }

    // --------------------------------------------------------- schedule()

    /** The fence counter and _update_after_schedule. */
    method UpdateAfterSchedule(shares: map<ReqId, Share>, ghost s: State)
      requires Is(s) && s.phase == Scheduling && s.pass.stepSkipped == [] && shares == s.pass.shares
      modifies table.requests.Values, fence
      ensures table.requests == old(table.requests)
      ensures Is(ApplyCommit(s)) && Follows(cfg, s, ApplyCommit(s))
    {
      hide Reachable, Follows, RequestTable.Is, BlockFence.Is, Booked, Fenced, ApplyCommit, Pool.CommitStep;
      CommitReaches(cfg, s);
      BookedAll(s);
      var seqNo := fence.AdvanceSchedSeq(shares.Keys, s.pool);
      table.AdvanceAll(shares, cfg.deferBlockFree, seqNo, s.reqs, s.pool.lastSched);
    }

    /** schedule(): one pass, from an idle scheduler to an idle scheduler with one more step in flight.
        `end` is the state at the end of the pass, before the step is booked. */
    method Schedule(lim: Limits, adm: AdmissionRules, pause: PauseState, copies: seq<Block>, ghost s0: State)
      returns (shares: map<ReqId, Share>, ghost account: Account, ghost end: State, ghost s: State)
      requires Is(s0) && s0.phase == Idle && lim.Valid()
      modifies this, table.requests.Values, fence, fence.kv, connector, cache
      ensures table.requests == old(table.requests)
      ensures Is(s) && Follows(cfg, s0, s) && s.phase == Idle && s == ApplyCommit(end) && shares == end.pass.shares
      ensures pause.PausedAll? ==> shares == map[]
      ensures PassDone(cfg, lim, pause, s0, end)
      ensures StepAppended(s0.steps, end, shares, s.steps)
      ensures Accounts(cfg, lim, adm, pause, s0, account)
      ensures var t := account.chosen; end == if copies == [] then t else t.(pool := t.pool.RetainForCopy(copies))
      ensures fence.kv.refusals
              == old(fence.kv.refusals) + |account.ran.pass.preempted| + if account.refused then 1 else 0
      ensures connector.undetermined == old(connector.undetermined) + Undecideds(account.verdicts)
    {
      hide Reachable, Follows, RequestTable.Is, BlockFence.Is, PassDone, Accounts, ApplyCommit, StepAppended,
        Undecideds;
      var pass;
      pass, account := ChooseShares(lim, adm, pause, s0);
      end := account.chosen;
      if copies != [] {
        end := RetainCopies(copies, lim, pause, s0, end);
        FollowsOn(cfg, s0, account.chosen, end);
      }
      shares := pass.shares;
      PassCloses(cfg, lim, pause, s0, end);
      assert pass.tokenBudget >= 0 && pass.inputBudget >= 0;
      assert |running| <= cfg.maxRunning && |pass.admitted| + |pass.continued| <= |running|;
      UpdateAfterSchedule(shares, end);
      FollowsOn(cfg, s0, end, ApplyCommit(end));
      s := ApplyCommit(end);
    }

    /** The two loops of schedule(). */
    method ChooseShares(lim: Limits, adm: AdmissionRules, pause: PauseState, ghost s0: State)
      returns (pass: Pass, ghost account: Account)
      requires Is(s0) && s0.phase == Idle && lim.Valid()
      modifies this, table.requests.Values, fence, fence.kv, connector, cache
      ensures table.requests == old(table.requests)
      ensures Is(account.chosen) && Follows(cfg, s0, account.chosen) && pass == account.chosen.pass
      ensures PassDone(cfg, lim, pause, s0, account.chosen) && Accounts(cfg, lim, adm, pause, s0, account)
      ensures fence.kv.refusals
              == old(fence.kv.refusals) + |account.ran.pass.preempted| + if account.refused then 1 else 0
      ensures connector.undetermined == old(connector.undetermined) + Undecideds(account.verdicts)
    {
      hide Reachable, Follows, RequestTable.Is, BlockFence.Is, Scanned, ScanEnded, IntakeDone, IntakeEnded, AnyPrefill,
        PassDone, RanFirst, Visits, HeadVisits, LeftAs;
      var limit := if pause.PausedAll? then 0 else cfg.maxScheduledTokens;
      PassBegins(cfg, s0, pause);
      ghost var s1 := ApplyBeginPass(cfg, s0, pause.PausedAll?);
      ghost var ran, j, considered, served;
      var prefillScheduled;
      pass := Pass(limit, limit, cfg.maxBatchedTokens, map[], [], [], [], []);
      pass, prefillScheduled, ran, j, considered, served := ScheduleRunning(lim, pass, s1);
      FollowsOn(cfg, s0, s1, ran);
      RunningDone(cfg, lim, pause, s0, ran, j, considered, served);
      ghost var verdicts, last, refused, chosen := [], ran, false, ran;
      if pass.preempted == [] && pause.Unpaused? {
        pass, chosen, verdicts, last, refused :=
          ScheduleWaiting(lim, adm, pass.continued != [] && !prefillScheduled, pass, ran);
        FollowsOn(cfg, s0, ran, chosen);
        WaitingDone(cfg, lim, pause, s0, ran, verdicts, chosen);
      } else {
        WaitingSkipped(cfg, lim, pause, s0, ran);
      }
      account := Account(considered, served, j, ran, verdicts, last, refused, chosen);
    }

    /** The copy-on-write retentions of a pass. */
    method RetainCopies(copies: seq<Block>, ghost lim: Limits, ghost pause: PauseState, ghost s0: State, ghost s: State)
      returns (ghost t: State)
      requires Is(s) && PassDone(cfg, lim, pause, s0, s)
      modifies fence, fence.kv
      ensures Is(t) && Follows(cfg, s, t) && PassDone(cfg, lim, pause, s0, t) && t.pass == s.pass
      ensures t == s.(pool := s.pool.RetainForCopy(copies)) && fence.kv.refusals == old(fence.kv.refusals)
    {
      hide Reachable, Follows, RequestTable.Is, BlockFence.Is, PassDone;
      RetainReaches(cfg, lim, pause, s0, s, copies);
      fence.RetainCopies(copies, s.pool);
      t := s.(pool := s.pool.RetainForCopy(copies));
    }

    // --------------------------------------------------------- update_from_output()

    /** _free_request, and _free_blocks unless a transfer delays it. */
    method FreeRequest(id: ReqId, delay: bool, ghost reqs: map<ReqId, Req>, ghost p: Pool)
      requires table.Is(reqs, p.lastSched) && fence.Is(p) && id in reqs && id in p.lastSched
      requires p.Release(id).lastSched == p.lastSched
      modifies table, table.requests.Values, fence, fence.kv
      ensures table.requests.Values <= old(table.requests.Values)
      ensures table.Is(if delay then reqs[id := reqs[id].(status := Finished)] else reqs - {id}, p.lastSched)
      ensures fence.Is(if delay then p else p.Release(id))
    {
      hide RequestTable.Is, BlockFence.Is, Pool.Release;
      var r := table.Get(id, reqs, p.lastSched);
      var seqNo := r.lastSchedSeq;
      table.SetStatus(id, Finished, r.computed, reqs, p.lastSched);
      ghost var done := reqs[id := reqs[id].(status := Finished)];
      if !delay {
        fence.FreeRequestBlocks(id, seqNo, p);
        table.Remove(id, done, p.lastSched);
        assert done - {id} == reqs - {id};
      }
    }

    /** The fields lag behind the state by the requests that have stopped but are still listed. */
    ghost predicate LagsBehind(s: State, stoppedRunning: set<ReqId>, stoppedPreempted: set<ReqId>)
      reads this, table, table.requests.Values, fence, fence.kv
    {
      && s.running == WithoutAll(running, stoppedRunning)
      && s.waiting == WithoutAll(waiting, stoppedPreempted) && s.skipped == WithoutAll(skipped, stoppedPreempted)
      && finishedRecving == s.recvd && failedRecving == s.failed
      && table.Is(s.reqs, s.pool.lastSched) && fence.Is(s.pool)
    }

    /** One iteration of update_from_output's loop. */
    method TakeOutput(id: ReqId, share: Share, answers: map<ReqId, Answer>, failed: set<ReqId>, sr0: set<ReqId>,
                      sp0: set<ReqId>, ghost s: State)
      returns (sr: set<ReqId>, sp: set<ReqId>)
      requires Reachable(cfg, s) && LagsBehind(s, sr0, sp0) && id in answers
      requires Enabled(cfg, s, OutputOf(id, answers, failed))
      requires share == Share(s.steps[0].entries[id].n, s.steps[0].entries[id].drafts)
      modifies table, table.requests.Values, fence, fence.kv
      ensures table.requests.Values <= old(table.requests.Values)
      ensures LagsBehind(Apply(cfg, s, OutputOf(id, answers, failed)), sr, sp)
    {
      hide Reachable, Follows, RequestTable.Is, BlockFence.Is, Apply, Retire, Req.DrainShare, Req.Deliver, WithoutAll,
        Without, Pool.Release;
      sr, sp := sr0, sp0;
      OutputCases(cfg, s, id, answers, failed);
      ghost var ls := s.pool.lastSched;
      var known := table.Contains(id, s.reqs, ls);
      if !known {
        return;
      }
      var was := table.Get(id, s.reqs, ls);
      var status, dropStale := was.status, was.dropStale;
      var outputIsStale := table.Drain(id, share.n, s.reqs, ls);
      if id in failed || status == Finished || (outputIsStale && dropStale) {
        return;
      }
      ghost var drained := s.reqs[id := s.reqs[id].DrainShare(share.n)];
      var a := answers[id];
      table.Accept(id, outputIsStale, share.drafts, a.generated, a.kept, cfg.sampledPerStep, drained, ls);
      ghost var d := Answered(cfg, s, id, a);
      assert drained[id := d] == s.reqs[id := d];
      if a.stop {
        sr, sp := StopRequest(id, status, a, sr, sp, answers, failed, s);
      }
    }

    /** A stopped request is freed at once and leaves its queue after the loop. */
    method StopRequest(id: ReqId, status: Status, a: Answer, sr0: set<ReqId>, sp0: set<ReqId>,
                       ghost answers: map<ReqId, Answer>, ghost failed: set<ReqId>, ghost s: State)
      returns (sr: set<ReqId>, sp: set<ReqId>)
      requires Reachable(cfg, s) && id in answers && a == answers[id] && Enabled(cfg, s, OutputOf(id, answers, failed))
      requires id in s.reqs && id !in failed && Delivers(s, id) && a.stop && status == s.reqs[id].status
      requires LagsBehind(s.(reqs := s.reqs[id := Answered(cfg, s, id, a)]), sr0, sp0)
      modifies table, table.requests.Values, fence, fence.kv
      ensures table.requests.Values <= old(table.requests.Values)
      ensures LagsBehind(Apply(cfg, s, OutputOf(id, answers, failed)), sr, sp)
    {
      hide Reachable, Follows, RequestTable.Is, BlockFence.Is, Apply, Retire, Answered, WithoutAll, Without,
        Pool.Release;
      sr, sp := sr0, sp0;
      ghost var d := Answered(cfg, s, id, a);
      OutputCases(cfg, s, id, answers, failed);
      AnsweredStatus(cfg, s, id, a);
      DeliveredIsNotLoading(cfg, s, id, answers, failed);
      StopRetires(cfg, s, id, Apply(cfg, s, OutputOf(id, answers, failed)).steps, d, a.send);
      assert s.reqs[id := d][id := d.(status := Finished)] == s.reqs[id := d.(status := Finished)];
      assert s.reqs[id := d] - {id} == s.reqs - {id};
      FreeRequest(id, a.send, s.reqs[id := d], s.pool);
      if status == Running {
        WithoutOneMore(running, sr, id);
        sr := sr + {id};
      } else {
        WithoutOneMore(waiting, sp, id);
        WithoutOneMore(skipped, sp, id);
        sp := sp + {id};
      }
    }

    /** The loads in the skipped queue, in its order. */
    method LoadingRequests(ghost s: State) returns (ids: seq<ReqId>)
      requires FieldsAre(s)
      ensures ids == LoadingOf(s.reqs, s.skipped)
    {
      hide RequestTable.Is, BlockFence.Is;
      ids := [];
      for i := 0 to |skipped|
        invariant ids == LoadingOf(s.reqs, skipped[..i])
      {
        assert skipped[..i + 1][..i] == skipped[..i];
        var known := table.Contains(skipped[i], s.reqs, s.pool.lastSched);
        if known {
          var r := table.Get(skipped[i], s.reqs, s.pool.lastSched);
          if r.status == WaitingForRemoteKvs {
            ids := ids + [skipped[i]];
          }
        }
      }
      assert skipped[..|skipped|] == skipped;
    }

    /** _handle_invalid_blocks(): truncates the affected requests, and returns the ids whose output this step
        is to be skipped. */
    method HandleInvalidBlocks(invalid: set<Block>, blockSize: nat, shares: map<ReqId, Share>, ghost s: State)
      returns (skip: set<ReqId>, evicted: set<Block>, ghost truncated: map<ReqId, int>)
      requires Reachable(cfg, s) && FieldsAre(s) && s.phase == Processing && blockSize > 0
      modifies this`failedRecving, table.requests.Values
      ensures table.requests == old(table.requests)
      ensures IsRecovery(s, shares, blockSize, invalid, truncated) && Skips(cfg, s, shares, blockSize, invalid, skip)
      ensures FieldsAre(ApplyLoadsInvalid(cfg, s, truncated))
      ensures Enabled(cfg, s, LoadsInvalid(truncated)) <==> LoadsShrink(s, shares, blockSize, invalid)
      ensures var t := ApplyLoadsInvalid(cfg, s, truncated);
              LoadsShrink(s, shares, blockSize, invalid) ==> Is(t) && Follows(cfg, s, t)
    {
      hide Reachable, Follows, RequestTable.Is, BlockFence.Is, Recovers, K.AffectedIds, K.AllEvicted, LoadsShrink,
        Enabled;
      ReachableMayRecover(cfg, s, blockSize);
      var loading := LoadingRequests(s);
      var held := fence.BlockIds(s.pool);
      skip, failedRecving, evicted, truncated :=
        table.RecoverLoads(loading, running, held, TokensOf(shares), blockSize, invalid, cfg.recomputeLoadFailures,
                           failedRecving, s.reqs, s.pool.lastSched);
      RecoveryIsEnabledIff(cfg, s, shares, blockSize, invalid, truncated);
      if Enabled(cfg, s, LoadsInvalid(truncated)) {
        RecoveryReaches(cfg, s, shares, blockSize, invalid, truncated);
      }
      RecoveryMarks(cfg, s, shares, blockSize, invalid, truncated);
    }

    /** update_from_output(): recovers from failed loads, drains and delivers the oldest step's outputs, request
        by request, then takes the stopped requests out of the queues.  `order` is the order of the outputs. */
    method UpdateFromOutput(shares: map<ReqId, Share>, answers: map<ReqId, Answer>, invalid: set<Block>,
                            blockSize: nat, ghost s0: State)
      returns (skip: set<ReqId>, ghost truncated: map<ReqId, int>, ghost s: State, ghost order: seq<ReqId>,
               ghost taken: State)
      requires Is(s0) && s0.phase == Idle && StepIs(s0.steps, shares) && AllAnswered(shares, answers)
      requires invalid != {} ==> LoadsShrink(s0, shares, blockSize, invalid)
      modifies this, table, table.requests.Values, fence, fence.kv
      ensures table.requests.Values <= old(table.requests.Values)
      ensures if invalid == {} then skip == {} && truncated == map[]
              else && IsRecovery(s0, shares, blockSize, invalid, truncated)
                   && Skips(cfg, s0, shares, blockSize, invalid, skip)
      ensures IsOrder(order, shares.Keys) && Enabled(cfg, s0, BeginOutput)
      ensures TookIn(cfg, ApplyLoadsInvalid(cfg, Apply(cfg, s0, BeginOutput), truncated), answers, skip, order, taken)
      ensures Is(s) && Follows(cfg, s0, s) && s == taken.(steps := s0.steps[1..], phase := Idle)
    {
      hide Reachable, Follows, RequestTable.Is, BlockFence.Is, Apply, Enabled, WithoutAll, TookIn, StepIs, Returning,
        AllAnswered, IsOrder, Pool.ProcessStep, ApplyLoadsInvalid, LoadsShrink, IsRecovery, Skips;
      ghost var loaded;
      skip, truncated, loaded := BeginUpdate(shares, invalid, blockSize, s0);
      WithoutNone(running);
      WithoutNone(waiting);
      WithoutNone(skipped);
      var sr, sp;
      sr, sp, order, taken := TakeOutputs(shares, answers, skip, s0, loaded);
      ReturnEnds(cfg, s0, shares, taken);
      TakenInFollows(cfg, loaded, answers, skip, order, taken);
      FollowsOn(cfg, s0, loaded, taken);
      FollowsOn(cfg, s0, taken, taken.(steps := s0.steps[1..], phase := Idle));
      s := taken.(steps := s0.steps[1..], phase := Idle);
      RemoveStopped(sr, sp, taken);
    }

    /** The part of update_from_output before its loop. */
    method BeginUpdate(shares: map<ReqId, Share>, invalid: set<Block>, blockSize: nat, ghost s0: State)
      returns (skip: set<ReqId>, ghost truncated: map<ReqId, int>, ghost s: State)
      requires Is(s0) && s0.phase == Idle && StepIs(s0.steps, shares)
      requires invalid != {} ==> LoadsShrink(s0, shares, blockSize, invalid)
      modifies this`failedRecving, table.requests.Values, fence, fence.kv
      ensures table.requests == old(table.requests)
      ensures if invalid == {} then skip == {} && truncated == map[]
              else && IsRecovery(s0, shares, blockSize, invalid, truncated)
                   && Skips(cfg, s0, shares, blockSize, invalid, skip)
      ensures Enabled(cfg, s0, BeginOutput) && s == ApplyLoadsInvalid(cfg, Apply(cfg, s0, BeginOutput), truncated)
      ensures Is(s) && Follows(cfg, s0, s) && Returning(s0, shares, shares.Keys, s)
    {
      hide Reachable, Follows, RequestTable.Is, BlockFence.Is, Apply, Enabled, StepIs, Returning, Pool.ProcessStep,
        ApplyLoadsInvalid, LoadsShrink, IsRecovery, Skips;
      ReturnBegins(cfg, s0, shares);
      ghost var begun := Apply(cfg, s0, BeginOutput);
      if shares.Keys != {} {
        fence.StepProcessed(s0.pool);
      }
      SameRows(s0, begun, shares, blockSize);
      skip, truncated := {}, map[];
      if invalid == {} {
        NothingInvalid(cfg, begun);
        FollowsSelf(cfg, begun);
      } else {
        var evicted;
        skip, evicted, truncated := HandleInvalidBlocks(invalid, blockSize, shares, begun);
      }
      s := ApplyLoadsInvalid(cfg, begun, truncated);
      RecoveryKeepsReturning(cfg, s0, shares, begun, truncated);
      FollowsOn(cfg, s0, begun, s);
    }

    method RemoveStopped(sr: set<ReqId>, sp: set<ReqId>, ghost s: State)
      requires LagsBehind(s, sr, sp)
      modifies this`running, this`waiting, this`skipped
      ensures FieldsAre(s)
    {
      hide RequestTable.Is, BlockFence.Is, WithoutAll;
      running := RemoveAll(running, sr);
      waiting := RemoveAll(waiting, sp);
      skipped := RemoveAll(skipped, sp);
    }

    /** The loop of update_from_output, with the requests it stopped. */
    method TakeOutputs(shares: map<ReqId, Share>, answers: map<ReqId, Answer>, failed: set<ReqId>, ghost s0: State,
                       ghost begun: State)
      returns (sr: set<ReqId>, sp: set<ReqId>, ghost order: seq<ReqId>, ghost s: State)
      requires Reachable(cfg, begun) && Returning(s0, shares, shares.Keys, begun) && AllAnswered(shares, answers)
      requires LagsBehind(begun, {}, {})
      modifies table, table.requests.Values, fence, fence.kv
      ensures table.requests.Values <= old(table.requests.Values)
      ensures IsOrder(order, shares.Keys) && TookIn(cfg, begun, answers, failed, order, s)
      ensures Reachable(cfg, s) && Returning(s0, shares, {}, s) && LagsBehind(s, sr, sp)
    {
      hide Reachable, Follows, Apply, Enabled, TookIn, Returning, AllAnswered, IsOrder, LagsBehind;
      s, order := begun, [];
      sr, sp := {}, {};
      TookNone(cfg, begun, answers, failed);
      var todo := shares.Keys;
      assert shares.Keys - todo == {};
      OrderNone();
      while todo != {}
        invariant table.requests.Values <= old(table.requests.Values)
        invariant Reachable(cfg, s) && Returning(s0, shares, todo, s) && LagsBehind(s, sr, sp)
        invariant TookIn(cfg, begun, answers, failed, order, s)
        invariant todo <= shares.Keys && IsOrder(order, shares.Keys - todo)
        decreases |todo|
      {
        var id :| id in todo;
        OutputIsEnabled(cfg, s0, shares, todo, s, id, answers, failed);
        TookOneMore(cfg, begun, answers, failed, order, s, id);
        NextShare(s0, shares, todo, s, id);
        OrderOneMore(order, shares.Keys, todo, id);
        sr, sp := TakeOutput(id, shares[id], answers, failed, sr, sp, s);
        s := Apply(cfg, s, OutputOf(id, answers, failed));
        order := order + [id];
        todo := todo - {id};
      }
      assert shares.Keys - todo == shares.Keys;
    }

    // --------------------------------------------------------- arrivals, resets, aborts, transfer reports

    /** add_request() of a new, non-resumable request. */
    method AddRequest(id: ReqId, prompt: nat, maxTokens: nat, priority: int, arrival: int, ghost s0: State)
      returns (pos: nat, ghost s: State)
      requires Is(s0) && s0.phase == Idle && id !in s0.reqs && prompt > 0
      requires forall k :: 0 <= k < |s0.steps| ==> id !in s0.steps[k].entries
      modifies this`waiting, table
      ensures pos <= |s0.waiting| && (cfg.policy == Fcfs ==> pos == |s0.waiting|)
      ensures Is(s) && Follows(cfg, s0, s)
      ensures s == ApplyAdd(s0, id, NewRequest(prompt, maxTokens, priority, arrival), pos)
    {
      hide Reachable, Follows, RequestTable.Is, BlockFence.Is;
      var r := new Request(id, prompt, maxTokens, priority, arrival);
      pos := |waiting|;
      if cfg.policy == Priority {
        pos :| pos <= |waiting|;
      }
      AddReaches(cfg, s0, id, prompt, maxTokens, priority, arrival, pos);
      waiting := waiting[..pos] + [id] + waiting[pos..];
      table.Add(id, r, s0.reqs, s0.pool.lastSched);
      s := ApplyAdd(s0, id, NewRequest(prompt, maxTokens, priority, arrival), pos);
      FenceIgnoresAdmission(s0.pool, id);
    }

    lemma FenceIgnoresAdmission(p: Pool, id: ReqId)
      requires fence.Is(p)
      ensures fence.Is(p.Admit(id))
    {
    }

    /** The forced part of reset_prefix_cache(): preempts every running request, the last first, in drop mode. */
    method ResetPrefixCache(ghost s0: State) returns (ghost s: State)
      requires Is(s0) && s0.phase == Idle
      modifies this`running, this`waiting, table.requests.Values, fence, fence.kv
      ensures table.requests == old(table.requests)
      ensures Is(s) && Follows(cfg, s0, s) && s.phase == Idle && s.running == []
      ensures ResetSoFar(cfg, s0, s)
    {
      hide Reachable, Follows, RequestTable.Is, BlockFence.Is, Enabled, ApplyPreempt, ResetSoFar;
      s := s0;
      ResetStarts(cfg, s0);
      FollowsSelf(cfg, s0);
      while running != []
        invariant table.requests == old(table.requests)
        invariant Is(s) && Follows(cfg, s0, s) && s.phase == Idle && ResetSoFar(cfg, s0, s)
        decreases |running|
      {
        ResetIsEnabled(cfg, s);
        ghost var last := running[|running| - 1];
        var pos := PreemptRequest(|running| - 1, true, s);
        ResetStep(cfg, s0, s, pos);
        FollowsOn(cfg, s0, s, ApplyPreempt(cfg, s, last, true, pos));
        s := ApplyPreempt(cfg, s, last, true, pos);
      }
    }

    /** finish_requests(): the named requests leave the queues together, then each is freed, at once or
        when its transfer is done.  `order` is the order of the second pass. */
    method FinishRequests(ids: set<ReqId>, sends: set<ReqId>, ghost s0: State)
      returns (ghost s: State, ghost order: seq<ReqId>)
      requires Is(s0) && s0.phase == Idle
      requires forall id :: id in sends && id in s0.reqs ==> !MidLoad(s0, id)
      modifies this, table, table.requests.Values, fence, fence.kv
      ensures Is(s) && s.phase == Idle
      ensures IsOrder(order, ToFinish(s0.reqs, ids)) && Leads(cfg, s0, FinishesOf(order, sends), s)
      ensures AllFinished(s0, ToFinish(s0.reqs, ids), s)
      ensures forall x :: x in ids ==> !Unfinished(s, x)
      ensures forall x :: x in s0.reqs && x !in ids ==> x in s.reqs && s.reqs[x] == s0.reqs[x]
      ensures Follows(cfg, s0, s)
    {
      hide Reachable, Follows, RequestTable.Is, BlockFence.Is, Leads, IsOrder, WithoutAll, StillToFinish;
      var valid, toRemoveRunning := CollectToFinish(ids, s0);
      running := RemoveAll(running, toRemoveRunning);
      waiting := RemoveAll(waiting, valid - toRemoveRunning);
      skipped := RemoveAll(skipped, valid - toRemoveRunning);
      FinishStarts(cfg, s0, ids, sends);
      s, order := FinishAll(valid, sends, s0);
      LeadsFollows(cfg, s0, FinishesOf(order, sends), s);
      FinishesFinish(cfg, s0, order, valid, sends, s);
      NamedAreFinished(s0, ids, s);
    }

    /** Second pass. */
    method FinishAll(valid: set<ReqId>, sends: set<ReqId>, ghost s0: State)
      returns (ghost s: State, ghost order: seq<ReqId>)
      requires Reachable(cfg, s0) && s0.phase == Idle && IsFinishing(s0, valid) && StillToFinish(s0, valid, sends)
      requires Leads(cfg, s0, FinishesOf([], sends), s0)
      modifies this`finishedRecving, this`failedRecving, table, table.requests.Values, fence, fence.kv
      ensures table.requests.Values <= old(table.requests.Values)
      ensures Is(s) && s.phase == Idle
      ensures IsOrder(order, valid) && Leads(cfg, s0, FinishesOf(order, sends), s)
    {
      hide Reachable, Follows, Leads, IsOrder, IsFinishing, StillToFinish, FinishesOf;
      s, order := s0, [];
      var todo := valid;
      assert valid - todo == {};
      OrderNone();
      while todo != {}
        invariant table.requests.Values <= old(table.requests.Values)
        invariant Reachable(cfg, s) && s.phase == Idle && IsFinishing(s, todo) && StillToFinish(s, todo, sends)
        invariant todo <= valid && IsOrder(order, valid - todo)
        invariant Leads(cfg, s0, FinishesOf(order, sends), s)
        decreases |todo|
      {
        var id :| id in todo;
        FinishNext(s, todo, sends, id);
        FinishReaches(cfg, s0, order, sends, s, id);
        FinishKeepsTodo(s, id, id in sends, todo, sends);
        OrderOneMore(order, valid, todo, id);
        FinishOne(id, id in sends, todo, s);
        s := Retire(s, id, id in sends);
        order := order + [id];
        todo := todo - {id};
      }
      assert valid - todo == valid;
      NothingToFinish(s);
    }

    /** First pass: which of the named requests are unfinished, and which of those run. */
    method CollectToFinish(ids: set<ReqId>, ghost s: State) returns (valid: set<ReqId>, toRemoveRunning: set<ReqId>)
      requires FieldsAre(s)
      ensures valid == ToFinish(s.reqs, ids) && toRemoveRunning == RunningOf(s.reqs, valid)
    {
      hide RequestTable.Is, BlockFence.Is;
      valid, toRemoveRunning := {}, {};
      var todo := ids;
      while todo != {}
        invariant todo <= ids && valid == ToFinish(s.reqs, ids - todo) && toRemoveRunning == RunningOf(s.reqs, valid)
        decreases |todo|
      {
        var id :| id in todo;
        todo := todo - {id};
        var known := table.Contains(id, s.reqs, s.pool.lastSched);
        if known {
          var r := table.Get(id, s.reqs, s.pool.lastSched);
          if r.status != Finished {
            valid := valid + {id};
            if r.status == Running {
              toRemoveRunning := toRemoveRunning + {id};
            }
          }
        }
      }
      assert ids - todo == ids;
    }

    /** The fields during the second pass: the queues lack all of `todo`. */
    ghost predicate IsFinishing(s: State, todo: set<ReqId>)
      reads this, table, table.requests.Values, fence, fence.kv
    {
      && running == WithoutAll(s.running, RunningOf(s.reqs, todo))
      && waiting == WithoutAll(s.waiting, todo - RunningOf(s.reqs, todo))
      && skipped == WithoutAll(s.skipped, todo - RunningOf(s.reqs, todo))
      && finishedRecving == s.recvd && failedRecving == s.failed
      && table.Is(s.reqs, s.pool.lastSched) && fence.Is(s.pool)
    }

    lemma NothingToFinish(s: State)
      requires IsFinishing(s, {})
      ensures FieldsAre(s)
    {
      assert RunningOf(s.reqs, {}) == {} == {} - RunningOf(s.reqs, {});
      WithoutNone(s.running);
      WithoutNone(s.waiting);
      WithoutNone(s.skipped);
    }

    /** Second pass, one request. */
    method FinishOne(id: ReqId, send: bool, ghost todo: set<ReqId>, ghost s: State)
      requires Reachable(cfg, s) && s.phase == Idle && IsFinishing(s, todo) && id in todo
      requires Unfinished(s, id) && id in s.pool.lastSched
      modifies this`finishedRecving, this`failedRecving, table, table.requests.Values, fence, fence.kv
      ensures table.requests.Values <= old(table.requests.Values)
      ensures IsFinishing(Retire(s, id, send), todo - {id})
    {
      hide Reachable, Follows, RequestTable.Is, BlockFence.Is, Retire, Without, WithoutAll, Pool.Release;
      RetireFacts(cfg, s, id, send);
      FinishedQueues(s, id, send, todo);
      var r := table.Get(id, s.reqs, s.pool.lastSched);
      var delayFreeBlocks := false;
      if r.status == WaitingForRemoteKvs {
        delayFreeBlocks := id !in finishedRecving;
        finishedRecving := finishedRecving - {id};
        failedRecving := failedRecving - {id};
      }
      FreeRequest(id, delayFreeBlocks || send, s.reqs, s.pool);
    }

    /** _free_blocks: the request must still be known. */
    method FreeBlocks(id: ReqId, ghost reqs: map<ReqId, Req>, ghost p: Pool)
      requires table.Is(reqs, p.lastSched) && fence.Is(p) && id in reqs && id in p.lastSched
      requires p.Release(id).lastSched == p.lastSched
      modifies table, fence, fence.kv
      ensures table.requests.Values <= old(table.requests.Values)
      ensures table.Is(reqs - {id}, p.lastSched) && fence.Is(p.Release(id))
    {
      hide RequestTable.Is, BlockFence.Is, Pool.Release;
      var r := table.Get(id, reqs, p.lastSched);
      fence.FreeRequestBlocks(id, r.lastSchedSeq, p);
      table.Remove(id, reqs, p.lastSched);
    }

    /** _update_from_kv_xfer_finished() */
    method UpdateFromKvXferFinished(recving: seq<ReqId>, sending: seq<ReqId>, ghost s0: State) returns (ghost s: State)
      requires Is(s0) && s0.phase == Idle && MayReport(s0, recving, sending)
      modifies this`finishedRecving, table, fence, fence.kv
      ensures table.requests.Values <= old(table.requests.Values)
      ensures Is(s) && s.phase == Idle && Leads(cfg, s0, ReportsOf(recving, sending), s) && Follows(cfg, s0, s)
    {
      hide Reachable, Follows, RequestTable.Is, BlockFence.Is, Leads, MayReport, ReportsOf, ReceivedState, Reclaim;
      s := s0;
      NoReports(cfg, s0);
      assert recving[..0] == [] && recving[0..] == recving && sending[..0] == [] && sending[0..] == sending;
      for i := 0 to |recving|
        invariant table.requests.Values <= old(table.requests.Values)
        invariant Is(s) && s.phase == Idle && MayReport(s, recving[i..], sending)
        invariant Leads(cfg, s0, ReportsOf(recving[..i], []), s)
      {
        assert recving[i..] == [recving[i]] + recving[i + 1..] && recving[..i + 1] == recving[..i] + [recving[i]];
        ReceivedNext(cfg, s0, recving[..i], s, recving[i], recving[i + 1..], sending);
        FinishReceiving(recving[i], s);
        s := ReceivedState(s, recving[i]);
      }
      assert recving[..|recving|] == recving && recving[|recving|..] == [];
      for i := 0 to |sending|
        invariant table.requests.Values <= old(table.requests.Values)
        invariant Is(s) && s.phase == Idle && MayReport(s, [], sending[i..])
        invariant Leads(cfg, s0, ReportsOf(recving, sending[..i]), s)
      {
        assert sending[i..] == [sending[i]] + sending[i + 1..] && sending[..i + 1] == sending[..i] + [sending[i]];
        SentNext(cfg, s0, recving, sending[..i], s, sending[i], sending[i + 1..]);
        FinishSending(sending[i], s);
        s := Reclaim(s.(sends := s.sends - {sending[i]}), sending[i]);
      }
      assert sending[..|sending|] == sending;
      LeadsFollows(cfg, s0, ReportsOf(recving, sending), s);
    }

    method FinishReceiving(id: ReqId, ghost s: State)
      requires FieldsAre(s) && ReportFacts(s, id) && s.reqs[id].status in {WaitingForRemoteKvs, Finished}
      requires s.pool.Release(id).lastSched == s.pool.lastSched
      modifies this`finishedRecving, table, fence, fence.kv
      ensures table.requests.Values <= old(table.requests.Values)
      ensures FieldsAre(ReceivedState(s, id)) && ReceivedState(s, id).phase == s.phase
    {
      hide RequestTable.Is, BlockFence.Is, Pool.Release;
      var known := table.Contains(id, s.reqs, s.pool.lastSched);
      assert known;
      var req := table.Get(id, s.reqs, s.pool.lastSched);
      if req.status == WaitingForRemoteKvs {
        finishedRecving := finishedRecving + {id};
      } else {
        assert req.status == Finished;
        FreeBlocks(id, s.reqs, s.pool);
      }
    }

    method FinishSending(id: ReqId, ghost s: State)
      requires FieldsAre(s) && ReportFacts(s, id) && s.pool.Release(id).lastSched == s.pool.lastSched
      modifies table, fence, fence.kv
      ensures table.requests.Values <= old(table.requests.Values)
      ensures var t := Reclaim(s.(sends := s.sends - {id}), id); FieldsAre(t) && t.phase == s.phase
    {
      hide RequestTable.Is, BlockFence.Is, Pool.Release;
      var known := table.Contains(id, s.reqs, s.pool.lastSched);
      assert known;
      FreeBlocks(id, s.reqs, s.pool);
    }

    /** update_draft_token_ids() */
    method UpdateDraftTokenIds(drafts: map<ReqId, nat>, ghost s0: State) returns (ghost s: State)
      requires Is(s0) && s0.phase == Idle
      modifies table.requests.Values
      ensures table.requests == old(table.requests)
      ensures Is(s) && Follows(cfg, s0, s) && s == s0.(reqs := WithDrafts(s0.reqs, drafts, drafts.Keys))
    {
      hide Reachable, Follows, RequestTable.Is, BlockFence.Is, WithDrafts;
      var todo := drafts.Keys;
      assert drafts.Keys - todo == {};
      NoDrafts(s0.reqs, drafts);
      FollowsSelf(cfg, s0);
      while todo != {}
        invariant table.requests == old(table.requests) && todo <= drafts.Keys
        invariant var t := s0.(reqs := WithDrafts(s0.reqs, drafts, drafts.Keys - todo)); Is(t) && Follows(cfg, s0, t)
        decreases |todo|
      {
        var id :| id in todo;
        ghost var done := drafts.Keys - todo;
        DraftsNext(cfg, s0, drafts, done, id);
        SetProposal(id, drafts[id], WithDrafts(s0.reqs, drafts, done), s0.pool.lastSched);
        todo := todo - {id};
        assert drafts.Keys - todo == done + {id};
      }
      assert drafts.Keys - todo == drafts.Keys;
      s := s0.(reqs := WithDrafts(s0.reqs, drafts, drafts.Keys));
    }

    /** One request's drafts: ignored once it has finished, dropped while it is mid-prefill. */
    method SetProposal(id: ReqId, count: nat, ghost reqs: map<ReqId, Req>, ghost ls: map<ReqId, nat>)
      requires table.Is(reqs, ls)
      modifies table.requests.Values
      ensures table.requests == old(table.requests)
      ensures table.Is(if id in reqs && reqs[id].status != Finished
                       then reqs[id := reqs[id].(specs := if reqs[id].prefillChunk then 0 else count)] else reqs, ls)
    {
      hide RequestTable.Is;
      var known := table.Contains(id, reqs, ls);
      if !known {
        return;
      }
      var r := table.Get(id, reqs, ls);
      if r.status == Finished {
        return;
      }
      table.SetSpecs(id, if r.prefillChunk then 0 else count, reqs, ls);
    }
  }
}
