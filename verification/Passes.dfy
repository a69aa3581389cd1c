/** One pass of the RUNNING loop, on values: what each share, each preemption and the whole walk over
    `running` does to the state. */
module Passes {
  import opened Ledger
  import opened Machine
  import opened Queues
  import opened Runs
  import Budgets
  import opened Offers
  import opened Collections

  // ------------------------------------------------------------- steps of the machine

  /** Deleting an element that occurs once, by its index. */
  lemma DeleteIsWithout(q: seq<ReqId>, index: nat)
    requires index < |q| && Count(q, q[index]) == 1
    ensures q[..index] + q[index + 1..] == Without(q, q[index])
  {
    var id, before, after := q[index], q[..index], q[index + 1..];
    assert q == before + ([id] + after);
    assert Count(before, id) + Count(after, id) == 0;
    CountIn(before, id);
    CountIn(after, id);
    WithoutConcat(before, [id] + after, id);
    assert ([id] + after)[1..] == after;
  }

  lemma PreemptReaches(cfg: Config, s: State, id: ReqId, drop: bool, pos: nat)
    requires Reachable(cfg, s) && Enabled(cfg, s, Preempt(id, drop, 0))
    requires pos <= |s.waiting| && (cfg.policy == Fcfs ==> pos == 0)
    ensures id in s.reqs && id in s.pool.lastSched
    ensures Reachable(cfg, ApplyPreempt(cfg, s, id, drop, pos))
    ensures Follows(cfg, s, ApplyPreempt(cfg, s, id, drop, pos))
  {
    hide Reachable, Follows;
    StepReaches(cfg, s, Preempt(id, drop, pos));
  }

  lemma TakeReaches(cfg: Config, s: State, id: ReqId, n: nat, taken: seq<Block>)
    requires Reachable(cfg, s) && Enabled(cfg, s, Take(id, n, [])) && s.pool.CanAcquire(taken)
    ensures id in s.reqs && Reachable(cfg, ApplyTake(cfg, s, id, n, taken))
    ensures Follows(cfg, s, ApplyTake(cfg, s, id, n, taken))
    ensures s.pool.Acquire(id, [], taken).lastSched == s.pool.lastSched
  {
    hide Reachable, Follows;
    StepReaches(cfg, s, Take(id, n, taken));
  }

  // ------------------------------------------------------------- the RUNNING loop's bookkeeping

  /** The pass is in its first half: nothing admitted or skipped yet. */
  ghost predicate InRunningLoop(s: State) {
    s.phase == Scheduling && s.pass.admitted == [] && s.pass.stepSkipped == []
  }

  /** From cursor i before to cursor j after, nothing was lost: what is still ahead was ahead, and what
      was ahead still is, or has been preempted. */
  ghost predicate Progressed(before: State, i: nat, after: State, j: nat) {
    && i <= |before.running| && j <= |after.running|
    && |after.running| - j <= |before.running| - i
    && (forall x :: x in after.running[j..] ==> x in before.running[i..])
    && (forall x :: x in before.running[i..] ==> x in after.running[j..] || x in after.pass.preempted)
    && (forall x :: x in before.pass.preempted ==> x in after.pass.preempted)
  }

  /** The pass does not change which requests are mid-prefill. */
  ghost predicate SameChunks(a: map<ReqId, Req>, b: map<ReqId, Req>) {
    forall x :: x in a ==> x in b && b[x].prefillChunk == a[x].prefillChunk
  }

  /** What shares and preemptions keep: the prefills, the skipped queue, the steps in flight and, in FCFS, the order of
      `running ++ waiting`. */
  ghost predicate Kept(cfg: Config, s: State, t: State) {
    && SameChunks(s.reqs, t.reqs) && t.skipped == s.skipped && t.steps == s.steps
    && (cfg.policy == Fcfs ==> t.running + t.waiting == s.running + s.waiting)
  }

  /** A share given earlier in the pass stays as it was unless its request is preempted. */
  ghost predicate SharesStay(p: Pass, q: Pass) {
    forall x :: x in p.shares ==> (x in q.shares && q.shares[x] == p.shares[x]) || x in q.preempted
  }

  /** One preemption, seen from the cursor: budgets only grow, the cursor stays on its request unless
      that is the victim, and nothing ahead is lost.  In FCFS the victim was not yet scheduled. */
  ghost predicate VictimStep(cfg: Config, s: State, i: nat, victim: ReqId, t: State, j: nat) {
    && i < |s.running| && |t.running| < |s.running| && Progressed(s, i, t, j) && InRunningLoop(t)
    && (if victim == s.running[i] then victim !in t.running[j..]
        else j < |t.running| && t.running[j] == s.running[i])
    && t.pass.preempted == s.pass.preempted + [victim] && Kept(cfg, s, t)
    && t.pass.limit == s.pass.limit
    && t.pass.tokenBudget >= s.pass.tokenBudget && t.pass.inputBudget >= s.pass.inputBudget
    && (forall x :: x in t.pass.shares <==> x in s.pass.shares && x != victim)
    && SharesStay(s.pass, t.pass)
    && (cfg.policy == Fcfs ==> t.pass == s.pass.(preempted := t.pass.preempted))
  }

  ghost predicate Scheduled(before: State, after: State, id: ReqId, n: nat) {
    && id in after.pass.shares && after.pass.shares[id].n == n
    && forall x :: x in after.pass.shares ==> x == id || x in before.pass.shares
  }

  /** The state after one undisturbed share, as the pass without preemption computes it. */
  ghost predicate TakenUndisturbed(cfg: Config, before: State, after: State, id: ReqId, n: nat) {
    && id in before.reqs
    && after.pass == TakenPass(cfg, before.pass, id, Share(n, before.reqs[id].DraftsIn(n)))
    && after.reqs == TakenReqs(before.reqs, id)
    && after.running == before.running
  }

  /** Between two attempts to allocate for running[i] of s0. */
  ghost predicate StillServing(cfg: Config, s0: State, i: nat, n: nat, s: State, j: nat) {
    && i < |s0.running| && j < |s.running| && s.running[j] == s0.running[i]
    && Fits(cfg, s, n) && Progressed(s0, i, s, j) && s.pass.limit == s0.pass.limit && Kept(cfg, s0, s)
    && (forall x :: x in s.running[j..] ==> x !in s.pass.shares)
    && (forall x :: x in s.pass.shares ==> x in s0.pass.shares) && SharesStay(s0.pass, s.pass)
    && (cfg.policy == Fcfs ==> s.pass == s0.pass.(preempted := s.pass.preempted))
    && (s.pass.preempted == [] ==> s == s0 && j == i)
  }

  /** The outcome for running[i] of s0: scheduled with n tokens, or preempted. */
  ghost predicate ServedOne(cfg: Config, s0: State, i: nat, n: nat, ok: bool, s: State, j: nat) {
    && i < |s0.running| && Progressed(s0, i, s, j) && s.pass.limit == s0.pass.limit && Kept(cfg, s0, s)
    && (ok ==> j < |s.running| && s.running[j] == s0.running[i] && Scheduled(s0, s, s0.running[i], n))
    && (!ok ==> s0.running[i] in s.pass.preempted && s0.running[i] !in s.running[j..])
    && (forall x :: x in s.pass.shares ==> (ok && x == s0.running[i]) || x in s0.pass.shares)
    && SharesStay(s0.pass, s.pass)
    && (cfg.policy == Fcfs ==> s.pass.continued == s0.pass.continued + if ok then [s0.running[i]] else [])
    && (s.pass.preempted == [] ==> ok && j == i && TakenUndisturbed(cfg, s0, s, s0.running[i], n))
  }

  /** The start of a pass. */
  ghost predicate NothingDone(s: State) {
    && InRunningLoop(s)
    && s.pass.shares == map[] && s.pass.continued == [] && s.pass.preempted == []
  }

  /** Who holds a share: those served, but for the preempted. */
  ghost predicate ServedStand(s: State, served: seq<ReqId>) {
    && (forall x :: x in served ==> x in s.pass.shares || x in s.pass.preempted)
    && (forall x :: x in s.pass.shares ==> x in served)
  }

  /** The RUNNING loop at cursor j: it has considered no request twice and lost none but the preempted; in
      FCFS everything it served stays scheduled; and as long as nothing was preempted it is the pass in
      which every allocation succeeds. */
  ghost predicate Scanned(cfg: Config, lim: Limits, s0: State, s: State, j: nat, considered: seq<ReqId>,
                          served: seq<ReqId>) {
    && lim.Valid() && Walked(s0, s, j, considered) && s.pass.limit == s0.pass.limit
    && (cfg.policy == Fcfs ==> s.pass.continued == served)
    && ServedStand(s, served) && Kept(cfg, s0, s)
    && (s.pass.preempted == [] ==> AsIfServed(cfg, lim, s0, s, j))
  }

  ghost predicate Walked(s0: State, s: State, j: nat, considered: seq<ReqId>) {
    && j <= |s.running| && Distinct(considered)
    && (forall x :: x in s.running[j..] ==> x !in s.pass.shares && x !in considered && x in s0.running)
    && (forall x :: x in s0.running ==> x in considered || x in s.running[j..] || x in s.pass.preempted)
    && (forall x :: x in considered ==> x in s0.running)
    && (forall x :: x in s.pass.shares ==> x in considered)
  }

  /** What the loop does at cursor k of m: it passes the request over, or offers it nothing, and moves on; or it
      serves the request with exactly its offer; or it preempts it, being refused blocks for it. */
  ghost predicate Visit(cfg: Config, lim: Limits, m: State, k: nat, served0: seq<ReqId>, id: ReqId,
                        served: seq<ReqId>, s: State, j: nat) {
    && lim.Valid() && k < |m.running| && m.running[k] == id && (forall x :: x in m.running ==> x in m.reqs)
    && m.pass.tokenBudget > 0 && m.pass.inputBudget > cfg.draftSlots
    && var n := Offer(cfg, lim, m.reqs, m.running, id, m.pass);
       if PassesOver(lim, id, m.reqs[id]) || n <= 0
       then s == m && j == k + 1 && served == served0
       else || (j > 0 && ServedOne(cfg, m, k, n, true, s, j - 1) && served == served0 + [id])
            || (ServedOne(cfg, m, k, n, false, s, j) && served == served0)
  }

  /** From s0, one visit to each of `considered` in turn leads to cursor j of s. */
  ghost predicate Visits(cfg: Config, lim: Limits, s0: State, considered: seq<ReqId>, served: seq<ReqId>, s: State,
                         j: nat)
    decreases |considered|
  {
    if considered == [] then s == s0 && j == 0 && served == []
    else
      var n := |considered| - 1;
      exists m, k, before ::
        && Visits(cfg, lim, s0, considered[..n], before, m, k)
        && Visit(cfg, lim, m, k, before, considered[n], served, s, j)
  }

  lemma VisitsOn(cfg: Config, lim: Limits, s0: State, considered: seq<ReqId>, served0: seq<ReqId>, m: State, k: nat,
                 id: ReqId, served: seq<ReqId>, s: State, j: nat)
    requires Visits(cfg, lim, s0, considered, served0, m, k) && Visit(cfg, lim, m, k, served0, id, served, s, j)
    ensures Visits(cfg, lim, s0, considered + [id], served, s, j)
  {
    hide Visit;
    assert (considered + [id])[..|considered|] == considered;
  }

  /** What the request at cursor k of m has of it at the end, in s: it was passed over or offered nothing there,
      or its share is exactly that offer, or it has been preempted since. */
  ghost predicate Outcome(cfg: Config, lim: Limits, m: State, k: nat, id: ReqId, s: State) {
    && lim.Valid() && k < |m.running| && m.running[k] == id && id in m.reqs
    && var n := Offer(cfg, lim, m.reqs, m.running, id, m.pass);
       || PassesOver(lim, id, m.reqs[id]) || n <= 0
       || (id in s.pass.shares && s.pass.shares[id].n == n)
       || id in s.pass.preempted
  }

  lemma VisitKeeps(cfg: Config, lim: Limits, m: State, k: nat, served0: seq<ReqId>, id: ReqId, served: seq<ReqId>,
                   s: State, j: nat)
    requires Visit(cfg, lim, m, k, served0, id, served, s, j)
    ensures SharesStay(m.pass, s.pass) && forall x :: x in m.pass.preempted ==> x in s.pass.preempted
    ensures Outcome(cfg, lim, m, k, id, s)
  {
    hide Offer, PassesOver;
  }

  /** No considered request is skipped silently, whatever is preempted before or after it: at its turn it was
      passed over or offered nothing, or it ends with exactly what it was offered, or it was preempted. */
  lemma {:induction false} NoneSkippedSilently(cfg: Config, lim: Limits, s0: State, considered: seq<ReqId>,
                                               served: seq<ReqId>, s: State, j: nat, i: nat)
    requires Visits(cfg, lim, s0, considered, served, s, j) && i < |considered|
    ensures exists m, k, before ::
              Visits(cfg, lim, s0, considered[..i], before, m, k) && Outcome(cfg, lim, m, k, considered[i], s)
    decreases |considered|
  {
    hide Visit, Offer, PassesOver;
    var n := |considered| - 1;
    var m, k, before :| Visits(cfg, lim, s0, considered[..n], before, m, k)
                        && Visit(cfg, lim, m, k, before, considered[n], served, s, j);
    VisitKeeps(cfg, lim, m, k, before, considered[n], served, s, j);
    if i < n {
      NoneSkippedSilently(cfg, lim, s0, considered[..n], before, m, k, i);
      assert considered[..n][..i] == considered[..i];
    }
  }

  /** prefill_scheduled: some request served in this pass is mid-prefill. */
  ghost predicate AnyPrefill(s: State, served: seq<ReqId>) {
    exists k :: 0 <= k < |served| && served[k] in s.reqs && s.reqs[served[k]].prefillChunk
  }

  lemma AnyPrefillGrows(s: State, served: seq<ReqId>, id: ReqId)
    requires id in s.reqs
    ensures AnyPrefill(s, served + [id]) <==> AnyPrefill(s, served) || s.reqs[id].prefillChunk
  {
    assert (served + [id])[|served|] == id;
    if AnyPrefill(s, served) {
      var k :| 0 <= k < |served| && served[k] in s.reqs && s.reqs[served[k]].prefillChunk;
      assert (served + [id])[k] == served[k];
    }
  }

  ghost predicate AsIfServed(cfg: Config, lim: Limits, s0: State, s: State, j: nat)
    requires lim.Valid()
  {
    && s.running == s0.running
    && (forall x :: x in s.running ==> x in s.reqs) && (forall x :: x in s0.running ==> x in s0.reqs)
    && ServeFrom(cfg, lim, s.reqs, s.running, j, s.pass) == ServeFrom(cfg, lim, s0.reqs, s0.running, 0, s0.pass)
  }

  /** Why the loop stopped: the list or a budget is exhausted, or the request it was serving had to
      be preempted itself. */
  ghost predicate ScanEnded(cfg: Config, s: State, j: nat, considered: seq<ReqId>) {
    || j == |s.running| || s.pass.tokenBudget <= 0 || s.pass.inputBudget <= cfg.draftSlots
    || (considered != [] && considered[|considered| - 1] in s.pass.preempted)
  }

  lemma ProgressedInPlace(s: State, i: nat)
    requires i <= |s.running|
    ensures Progressed(s, i, s, i)
  {
  }

  lemma RunningKnown(cfg: Config, s: State)
    requires Reachable(cfg, s)
    ensures forall x :: x in s.running ==> x in s.reqs && s.reqs[x].status == Running && x in s.pool.lastSched
    ensures Distinct(s.running)
    ensures forall x :: x in s.pass.continued ==> x in s.pass.shares
    ensures s.phase == Scheduling && s.pass.admitted == [] ==> forall x :: x in s.pass.shares ==> x in s.pass.continued
  {
    ReachableInv(cfg, s);
    forall x | x in s.running
      ensures x in s.reqs && s.reqs[x].status == Running && x in s.pool.lastSched
    {
      assert PlacedOk(s, x);
      CountIn(s.running, x);
    }
    forall j, k | 0 <= j < k < |s.running|
      ensures s.running[j] != s.running[k]
    {
      assert PlacedOk(s, s.running[j]);
      CountTwice(s.running, j, k);
    }
    if s.phase == Scheduling {
      forall x
        ensures x in s.pass.continued ==> x in s.pass.shares
        ensures s.pass.admitted == [] && x in s.pass.shares ==> x in s.pass.continued
      {
        assert Budgets.ListedOk(s.pass, x);
      }
    }
  }

  lemma ScanStarts(cfg: Config, lim: Limits, s: State)
    requires Reachable(cfg, s) && lim.Valid() && NothingDone(s)
    ensures Scanned(cfg, lim, s, s, 0, [], []) && Visits(cfg, lim, s, [], [], s, 0) && !AnyPrefill(s, [])
  {
    hide Reachable, ServeFrom;
    RunningKnown(cfg, s);
  }

  lemma ScanIsAhead(cfg: Config, lim: Limits, s0: State, s: State, j: nat, considered: seq<ReqId>, served: seq<ReqId>,
                    id: ReqId)
    requires Reachable(cfg, s0) && Scanned(cfg, lim, s0, s, j, considered, served)
    requires j < |s.running| && id == s.running[j] && id in s.reqs
    ensures forall x :: x in s.running[j..] ==> x !in s.pass.shares
    ensures id in s0.reqs && s.reqs[id].prefillChunk == s0.reqs[id].prefillChunk
  {
    hide Reachable, AsIfServed;
    RunningKnown(cfg, s0);
    assert s.running[j..][0] == id;
  }

  lemma ScanSkips(cfg: Config, lim: Limits, s0: State, s: State, j: nat, considered: seq<ReqId>, served: seq<ReqId>)
    requires Reachable(cfg, s) && Scanned(cfg, lim, s0, s, j, considered, served) && j < |s.running|
    requires s.running[j] in s.reqs && s.pass.inputBudget > cfg.draftSlots && s.pass.tokenBudget > 0
    requires var id := s.running[j];
             PassesOver(lim, id, s.reqs[id]) || Offer(cfg, lim, s.reqs, s.running, id, s.pass) <= 0
    ensures Scanned(cfg, lim, s0, s, j + 1, considered + [s.running[j]], served)
    ensures Visit(cfg, lim, s, j, served, s.running[j], served, s, j + 1)
  {
    hide Reachable, PassesOver, Offer, Walked;
    RunningKnown(cfg, s);
    WalkedOn(s0, s, j, considered, s, j, true);
  }

  /** Moving on to the next request, which stays in place unless it was preempted. */
  lemma WalkedOn(s0: State, s: State, j: nat, considered: seq<ReqId>, t: State, k: nat, ok: bool)
    requires Walked(s0, s, j, considered) && j < |s.running| && Progressed(s, j, t, k)
    requires ok ==> k < |t.running| && t.running[k] == s.running[j]
    requires !ok ==> s.running[j] !in t.running[k..]
    requires forall x :: x in t.pass.shares ==> x == s.running[j] || x in s.pass.shares
    requires Distinct(t.running)
    ensures Walked(s0, t, if ok then k + 1 else k, considered + [s.running[j]])
  {
    var id, m, next := s.running[j], if ok then k + 1 else k, considered + [s.running[j]];
    assert s.running[j..][0] == id;
    DistinctGrows(considered, id);
    if ok {
      DistinctTail(t.running, k);
    }
    forall x | x in t.running[m..]
      ensures x in s.running[j..] && x !in next && x in s0.running && x !in t.pass.shares
    {
      assert x in t.running[k..];
    }
    forall x | x in s0.running
      ensures x in next || x in t.running[m..] || x in t.pass.preempted
    {
      assert x in considered || x in s.running[j..] || x in s.pass.preempted;
    }
  }

  lemma DistinctGrows(q: seq<ReqId>, x: ReqId)
    requires Distinct(q) && x !in q
    ensures Distinct(q + [x])
  {
  }

  /** In a list without repetition, the element at k is not in the tail after it. */
  lemma DistinctTail(q: seq<ReqId>, k: nat)
    requires Distinct(q) && k < |q|
    ensures q[k..] == [q[k]] + q[k + 1..] && q[k] !in q[k + 1..]
  {
  }

  lemma ScanServes(cfg: Config, lim: Limits, s0: State, s: State, j: nat, considered: seq<ReqId>, served: seq<ReqId>,
                   n: nat, ok: bool, t: State, k: nat)
    requires Reachable(cfg, s) && Reachable(cfg, t) && Scanned(cfg, lim, s0, s, j, considered, served)
    requires ServedOne(cfg, s, j, n, ok, t, k) && s.running[j] in s.reqs && n > 0
    requires s.pass.inputBudget > cfg.draftSlots && s.pass.tokenBudget > 0
    requires !PassesOver(lim, s.running[j], s.reqs[s.running[j]])
    requires n == Offer(cfg, lim, s.reqs, s.running, s.running[j], s.pass)
    ensures k <= |t.running|
    ensures ok ==> k < |t.running| && |t.running| - k <= |s.running| - j
    ensures Scanned(cfg, lim, s0, t, if ok then k + 1 else k, considered + [s.running[j]],
                    if ok then served + [s.running[j]] else served)
    ensures !ok ==> s.running[j] in t.pass.preempted
  {
    hide Reachable, PassesOver, Offer, Walked;
    RunningKnown(cfg, t);
    WalkedOn(s0, s, j, considered, t, k, ok);
    assert t.pass.preempted == [] ==> s.pass.preempted == [] by {
      assert forall x :: x in s.pass.preempted ==> x in t.pass.preempted;
      assert s.pass.preempted != [] ==> s.pass.preempted[0] in t.pass.preempted;
    }
  }

  lemma ServeIsVisit(cfg: Config, lim: Limits, s: State, j: nat, served: seq<ReqId>, n: nat, ok: bool, t: State, k: nat)
    requires Reachable(cfg, s) && lim.Valid() && j < |s.running| && s.running[j] in s.reqs
    requires ServedOne(cfg, s, j, n, ok, t, k) && n > 0
    requires s.pass.inputBudget > cfg.draftSlots && s.pass.tokenBudget > 0
    requires !PassesOver(lim, s.running[j], s.reqs[s.running[j]])
    requires n == Offer(cfg, lim, s.reqs, s.running, s.running[j], s.pass)
    ensures Visit(cfg, lim, s, j, served, s.running[j], if ok then served + [s.running[j]] else served, t,
                  if ok then k + 1 else k)
  {
    hide Reachable, PassesOver, Offer, ServedOne;
    RunningKnown(cfg, s);
  }

  lemma TakeIsEnabled(cfg: Config, s: State, j: nat, n: nat)
    requires Reachable(cfg, s) && InRunningLoop(s) && j < |s.running| && Fits(cfg, s, n)
    requires s.running[j] !in s.pass.shares
    ensures s.running[j] in s.reqs && Enabled(cfg, s, Take(s.running[j], n, []))
  {
    RunningKnown(cfg, s);
  }

  lemma VictimIsEnabled(cfg: Config, s: State, v: nat)
    requires Reachable(cfg, s) && InRunningLoop(s) && v < |s.running| && IsVictim(cfg, s, s.running[v])
    ensures Enabled(cfg, s, Preempt(s.running[v], cfg.requiresKvDelivery, 0))
  {
    RunningKnown(cfg, s);
  }

  lemma TakeEffect(cfg: Config, s0: State, s: State, i: nat, j: nat, n: nat, taken: seq<Block>)
    requires StillServing(cfg, s0, i, n, s, j) && InRunningLoop(s) && s.running[j] in s.reqs
    ensures var id := s.running[j]; var t := ApplyTake(cfg, s, id, n, taken);
            && InRunningLoop(t) && ServedOne(cfg, s0, i, n, true, t, j)
            && t.pass == TakenPass(cfg, s.pass, id, Share(n, s.reqs[id].DraftsIn(n)))
  {
    hide Progressed, Fits;
    ProgressedSame(s0, i, s, ApplyTake(cfg, s, s.running[j], n, taken), j);
    assert s.running[j..][0] == s.running[j];
  }

  lemma ProgressedSame(s0: State, i: nat, s: State, t: State, j: nat)
    requires Progressed(s0, i, s, j) && t.running == s.running && t.pass.preempted == s.pass.preempted
    ensures Progressed(s0, i, t, j)
  {
  }

  lemma ProgressedOn(s0: State, i: nat, s: State, k: nat, t: State, j: nat)
    requires Progressed(s0, i, s, k) && Progressed(s, k, t, j)
    ensures Progressed(s0, i, t, j)
  {
  }

  lemma VictimCounted(cfg: Config, s: State, i: nat, victim: ReqId, t: State, j: nat)
    requires VictimStep(cfg, s, i, victim, t, j)
    ensures |t.pass.preempted| == |s.pass.preempted| + 1
  {
  }

  lemma VictimServes(cfg: Config, s0: State, i: nat, n: nat, s: State, k: nat, victim: ReqId, t: State, j: nat)
    requires StillServing(cfg, s0, i, n, s, k) && VictimStep(cfg, s, k, victim, t, j)
    ensures InRunningLoop(t) && |t.running| < |s.running|
    ensures victim != s0.running[i] ==> StillServing(cfg, s0, i, n, t, j)
    ensures victim == s0.running[i] ==> ServedOne(cfg, s0, i, n, false, t, j)
  {
    ProgressedOn(s0, i, s, k, t, j);
    hide Scheduled, TakenUndisturbed;
    forall x | x in t.running[j..]
      ensures x !in t.pass.shares
    {
      assert x in s.running[k..];
    }
  }

  /** Deleting position v from the running list, seen from the cursor. */
  lemma DeletedSuffix(q: seq<ReqId>, v: nat, j: nat)
    requires v < |q| && j < |q|
    ensures var r := q[..v] + q[v + 1..]; var k := if v < j then j - 1 else j;
            && k <= |r| && |r| - k <= |q| - j
            && (v != j ==> k < |r| && r[k] == q[j])
            && (forall x :: x in r[k..] ==> x in q[j..])
            && (forall x :: x in q[j..] ==> x == q[v] || x in r[k..])
  {
    var r, k := q[..v] + q[v + 1..], if v < j then j - 1 else j;
    if v < j {
      assert r[k..] == q[j..];
    } else {
      assert r[k..] == q[j..v] + q[v + 1..];
      assert q[j..] == q[j..v] + [q[v]] + q[v + 1..];
    }
  }

  /** The victim of the PRIORITY policy is a running request of the largest priority value, and of those one that
      arrived last; that of FCFS is the last running request. */
  lemma VictimIsLeastUrgent(cfg: Config, s: State, id: ReqId, x: ReqId)
    requires IsVictim(cfg, s, id) && (forall r :: r in s.running ==> r in s.reqs) && x in s.running
    ensures id in s.running
    ensures cfg.policy == Priority ==>
              && s.reqs[x].priority <= s.reqs[id].priority
              && (s.reqs[x].priority == s.reqs[id].priority ==> s.reqs[x].arrival <= s.reqs[id].arrival)
    ensures cfg.policy == Fcfs ==> id == s.running[|s.running| - 1]
  {
    assert s.running[|s.running| - 1] in s.running;
  }

  lemma VictimEffect(cfg: Config, s: State, i: nat, v: nat, pos: nat)
    requires Reachable(cfg, s) && InRunningLoop(s) && pos <= |s.waiting|
    requires i < |s.running| && v < |s.running| && IsVictim(cfg, s, s.running[v])
    requires forall x :: x in s.running[i..] ==> x !in s.pass.shares
    requires cfg.policy == Fcfs ==> pos == 0
    ensures var victim := s.running[v];
            && victim in s.reqs && victim in s.pool.lastSched
            && var t := ApplyPreempt(cfg, s, victim, cfg.requiresKvDelivery, pos);
               && t.pass == RestoreShare(cfg, s.pass, victim).(preempted := s.pass.preempted + [victim])
               && VictimStep(cfg, s, i, victim, t, if v < i then i - 1 else i)
  {
    hide Reachable, RestoreShare, Without, Insert, Req.Preempt, Pool.Release, IsVictim;
    var victim, j := s.running[v], if v < i then i - 1 else i;
    RunningKnown(cfg, s);
    WithoutVictim(cfg, s, v);
    PreemptKeepsChunk(s.reqs[victim], cfg.requiresKvDelivery);
    RestoreEffect(cfg, s.pass, victim);
    FcfsVictimIsAhead(cfg, s, i, v);
    FcfsVictimMovesOver(cfg, s, v, pos);
    var t := ApplyPreempt(cfg, s, victim, cfg.requiresKvDelivery, pos);
    DeletedProgress(s, i, v, t);
  }

  lemma PreemptKeepsChunk(r: Req, drop: bool)
    ensures r.Preempt(drop).prefillChunk == r.prefillChunk
  {
  }

  lemma WithoutVictim(cfg: Config, s: State, v: nat)
    requires Reachable(cfg, s) && v < |s.running|
    ensures Without(s.running, s.running[v]) == s.running[..v] + s.running[v + 1..]
  {
    hide Reachable;
    ReachableInv(cfg, s);
    assert PlacedOk(s, s.running[v]);
    DeleteIsWithout(s.running, v);
  }

  lemma DeletedProgress(s: State, i: nat, v: nat, t: State)
    requires i < |s.running| && v < |s.running|
    requires Distinct(s.running)
    requires t.running == s.running[..v] + s.running[v + 1..]
    requires t.pass.preempted == s.pass.preempted + [s.running[v]]
    ensures var j := if v < i then i - 1 else i;
            && Progressed(s, i, t, j)
            && (if v == i then s.running[i] !in t.running[j..] else j < |t.running| && t.running[j] == s.running[i])
  {
    DeletedSuffix(s.running, v, i);
  }

  /** FCFS moves the last running request to the front of the waiting queue. */
  lemma FcfsVictimMovesOver(cfg: Config, s: State, v: nat, pos: nat)
    requires Reachable(cfg, s) && v < |s.running| && IsVictim(cfg, s, s.running[v]) && pos <= |s.waiting|
    requires cfg.policy == Fcfs ==> pos == 0
    ensures cfg.policy == Fcfs ==>
        Without(s.running, s.running[v]) + Insert(s.waiting, s.running[v], pos) == s.running + s.waiting
  {
    hide Reachable;
    if cfg.policy == Fcfs {
      ReachableInv(cfg, s);
      assert PlacedOk(s, s.running[v]);
      CountIn(s.running, s.running[v]);
      LastToFront(s.running, s.waiting);
    }
  }

  /** FCFS preempts from the end, where nothing has been scheduled yet. */
  lemma FcfsVictimIsAhead(cfg: Config, s: State, i: nat, v: nat)
    requires i < |s.running| && v < |s.running| && IsVictim(cfg, s, s.running[v])
    requires forall x :: x in s.running[i..] ==> x !in s.pass.shares
    ensures cfg.policy == Fcfs ==> s.running[v] !in s.pass.shares
  {
    assert s.running[i..][|s.running| - 1 - i] == s.running[|s.running| - 1];
  }

  lemma RestoreEffect(cfg: Config, p: Pass, id: ReqId)
    ensures var q := RestoreShare(cfg, p, id);
            && q.limit == p.limit && q.preempted == p.preempted
            && q.admitted == p.admitted && q.stepSkipped == p.stepSkipped
            && q.tokenBudget >= p.tokenBudget && q.inputBudget >= p.inputBudget
            && (forall x :: x in q.shares <==> x in p.shares && x != id)
            && (forall x :: x in q.shares ==> q.shares[x] == p.shares[x])
            && (id !in p.shares ==> q == p)
  {
  }
}
