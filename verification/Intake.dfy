/** The WAITING loop, on values: what happens to the head of a waiting queue, and what a whole pass
    over the waiting queues does. */
module Intake {
  import opened Ledger
  import opened Machine
  import opened Queues
  import opened Runs
  import opened Offers
  import opened Admissions
  import opened Options
  import opened Transfers

  predicate HeadExists(s: State, fromSkipped: bool) {
    if fromSkipped then s.skipped != [] else s.waiting != []
  }

  /** The WAITING loop's own conditions for looking at a head. */
  ghost predicate MayServe(cfg: Config, s: State, fromSkipped: bool) {
    && Admitting(s) && QueueChoice(cfg, s, fromSkipped) && |s.running| < cfg.maxRunning
    && s.pass.tokenBudget > 0 && s.pass.inputBudget > cfg.draftSlots
  }

  ghost predicate MayLoad(cfg: Config, s: State, fromSkipped: bool, computed: nat) {
    Enabled(cfg, s, AdmitAsync(fromSkipped, computed, [], []))
  }

  ghost predicate MayRun(cfg: Config, s: State, fromSkipped: bool, computed: nat, share: Share) {
    Enabled(cfg, s, Admit(fromSkipped, computed, share.n, share.drafts, [], []))
  }

  lemma LoadFacts(cfg: Config, s: State, fromSkipped: bool, computed: nat)
    requires HeadExists(s, fromSkipped) && MayLoad(cfg, s, fromSkipped, computed)
    ensures Head(s, fromSkipped) in s.reqs && HeadServed(s, fromSkipped, None, s)
  {
  }

  lemma AdmitFacts(cfg: Config, s: State, fromSkipped: bool, computed: nat, share: Share)
    requires HeadExists(s, fromSkipped) && MayRun(cfg, s, fromSkipped, computed, share)
    ensures Head(s, fromSkipped) in s.reqs && HeadServed(s, fromSkipped, None, s)
  {
  }

  lemma HeadReaches(cfg: Config, s: State, fromSkipped: bool)
    requires Reachable(cfg, s) && HeadExists(s, fromSkipped) && MayServe(cfg, s, fromSkipped)
    ensures Reachable(cfg, ApplySkip(s, fromSkipped)) && Follows(cfg, s, ApplySkip(s, fromSkipped))
  {
    hide Reachable, Follows;
    StepReaches(cfg, s, Skip(fromSkipped));
  }

  lemma PromoteReaches(cfg: Config, s: State, fromSkipped: bool)
    requires Reachable(cfg, s) && HeadExists(s, fromSkipped) && MayServe(cfg, s, fromSkipped)
    requires HasStatus(s.reqs, Head(s, fromSkipped), WaitingForRemoteKvs) && Head(s, fromSkipped) in s.recvd
    ensures Reachable(cfg, ApplyPromote(s, Head(s, fromSkipped)))
    ensures Follows(cfg, s, ApplyPromote(s, Head(s, fromSkipped)))
    ensures s.pool.FreeNow(Head(s, fromSkipped)).lastSched == s.pool.lastSched
  {
    hide Reachable, Follows;
    StepReaches(cfg, s, Promote(fromSkipped));
  }

  lemma LoadReaches(cfg: Config, s: State, fromSkipped: bool, computed: nat, hits: seq<Block>, taken: seq<Block>)
    requires Reachable(cfg, s) && HeadExists(s, fromSkipped) && MayLoad(cfg, s, fromSkipped, computed)
    requires s.pool.CanAcquire(taken)
    ensures Head(s, fromSkipped) in s.reqs
    ensures HeadServed(s, fromSkipped, Some(Held(Head(s, fromSkipped), LoadStarted)),
                       ApplyAdmitAsync(s, fromSkipped, computed, hits, taken))
    ensures Reachable(cfg, ApplyAdmitAsync(s, fromSkipped, computed, hits, taken))
    ensures Follows(cfg, s, ApplyAdmitAsync(s, fromSkipped, computed, hits, taken))
    ensures s.pool.Acquire(Head(s, fromSkipped), hits, taken).lastSched == s.pool.lastSched
    ensures Adopted(s, Head(s, fromSkipped), computed, hits, ApplyAdmitAsync(s, fromSkipped, computed, hits, taken))
  {
    hide Reachable, Follows;
    StepReaches(cfg, s, AdmitAsync(fromSkipped, computed, hits, taken));
  }

  lemma AdmitReaches(cfg: Config, s: State, fromSkipped: bool, computed: nat, share: Share, hits: seq<Block>,
                     taken: seq<Block>)
    requires Reachable(cfg, s) && s.pool.CanAcquire(taken)
    requires HeadExists(s, fromSkipped) && MayRun(cfg, s, fromSkipped, computed, share)
    ensures Head(s, fromSkipped) in s.reqs
    ensures HeadServed(s, fromSkipped, Some(Taken(Head(s, fromSkipped))),
                       ApplyAdmit(cfg, s, fromSkipped, computed, share, hits, taken))
    ensures Admitted(s, Head(s, fromSkipped), computed, share,
                     ApplyAdmit(cfg, s, fromSkipped, computed, share, hits, taken))
    ensures Reachable(cfg, ApplyAdmit(cfg, s, fromSkipped, computed, share, hits, taken))
    ensures Follows(cfg, s, ApplyAdmit(cfg, s, fromSkipped, computed, share, hits, taken))
    ensures s.pool.Acquire(Head(s, fromSkipped), hits, taken).lastSched == s.pool.lastSched
    ensures Adopted(s, Head(s, fromSkipped), computed, hits,
                    ApplyAdmit(cfg, s, fromSkipped, computed, share, hits, taken))
  {
    hide Reachable, Follows;
    StepReaches(cfg, s, Admit(fromSkipped, computed, share.n, share.drafts, hits, taken));
  }

  // ------------------------------------------------------------- one head

  /** What becomes of a request that leaves a waiting queue in this pass. */
  datatype Verdict = Taken(id: ReqId) | Held(id: ReqId, why: Reason)

  /** Why a request is put aside: it cannot be admitted yet, its load has just been started, or the connector
      could not say how much of it is cached. */
  datatype Reason = StillBlocked | LoadStarted | Undecided

  ghost predicate Admitting(s: State) {
    s.phase == Scheduling && s.pass.preempted == []
  }

  ghost predicate KeepsShares(a: map<ReqId, Share>, b: map<ReqId, Share>) {
    forall x :: x in a ==> x in b && b[x] == a[x]
  }

  ghost predicate LoadUnderWay(s: State, id: ReqId) {
    HasStatus(s.reqs, id, WaitingForRemoteKvs) && id in s.loads
  }

  /** The loop stops at the head, or the head leaves its queue: into `running`, or aside for this pass. */
  ghost predicate HeadServed(s0: State, fromSkipped: bool, v: Option<Verdict>, s: State)
    requires if fromSkipped then s0.skipped != [] else s0.waiting != []
  {
    && Admitting(s) && s.pass.limit == s0.pass.limit && s.pass.continued == s0.pass.continued
    && KeepsShares(s0.pass.shares, s.pass.shares) && s.steps == s0.steps
    && (v.None? ==> s.pass == s0.pass && s.running == s0.running && s.waiting == s0.waiting && s.skipped == s0.skipped)
    && (v.Some? ==>
          && v.value.id == Head(s0, fromSkipped)
          && s.waiting == PopHead(s0, fromSkipped).waiting && s.skipped == PopHead(s0, fromSkipped).skipped
          && (if v.value.Taken?
              then && s.running == s0.running + [v.value.id]
                   && s.pass.admitted == s0.pass.admitted + [v.value.id]
                   && s.pass.stepSkipped == s0.pass.stepSkipped
              else && s.running == s0.running && s.pass.admitted == s0.pass.admitted
                   && s.pass.stepSkipped == [v.value.id] + s0.pass.stepSkipped
                   && (v.value.why == LoadStarted ==> LoadUnderWay(s, v.value.id))))
  }

  lemma HeadStanding(cfg: Config, s: State, fromSkipped: bool)
    requires Reachable(cfg, s) && QueueChoice(cfg, s, fromSkipped)
    ensures var id := Head(s, fromSkipped);
            && id in s.reqs && IsWaiting(s.reqs[id].status) && id !in s.pass.shares
            && 0 < s.reqs[id].tokens
            && (s.reqs[id].status != WaitingForRemoteKvs ==> 0 <= s.reqs[id].computed < s.reqs[id].tokens)
  {
    hide Reachable;
    ReachableInv(cfg, s);
    HeadWaits(cfg, s, fromSkipped);
    assert TransferOk(s, Head(s, fromSkipped));
  }

  /** What holds a head back: its load is not done, or deliverable stale output is still in flight. */
  predicate Blocked(s: State, id: ReqId) {
    id in s.reqs && ((s.reqs[id].status == WaitingForRemoteKvs && id !in s.recvd) || AwaitsStale(s.reqs[id]))
  }

  ghost predicate HeadReady(cfg: Config, s: State, fromSkipped: bool) {
    && HeadExists(s, fromSkipped) && MayServe(cfg, s, fromSkipped) && Head(s, fromSkipped) in s.reqs
    && var id := Head(s, fromSkipped);
    && s.reqs[id].status in {Waiting, Preempted} && !AwaitsStale(s.reqs[id])
    && 0 <= s.reqs[id].computed < s.reqs[id].tokens && id !in s.pass.shares
  }

  /** An admitted request got the share its own standing and the budgets at that moment call for. */
  ghost predicate ShareIsOffered(cfg: Config, lim: Limits, adm: AdmissionRules, decodesOnly: bool, p: Pass, id: ReqId,
                                 s: State) {
    && lim.Valid() && id in s.reqs && id in s.pass.shares && s.reqs[id].computed < s.reqs[id].tokens
    && p.tokenBudget > 0 && p.inputBudget > cfg.draftSlots
    && AdmissionShare(cfg, lim, adm, PrefillOf(lim, id, s.reqs[id]), s.reqs[id].computed, p, decodesOnly)
       == Some(s.pass.shares[id])
  }

  /** The request got blocks behind the cached ones that were found for it, and counts those as computed. */
  ghost predicate Adopted(m: State, id: ReqId, computed: int, hits: seq<Block>, s: State) {
    && id in s.reqs && s.reqs[id].computed == computed
    && exists taken :: m.pool.CanAcquire(taken) && s.pool == m.pool.Acquire(id, hits, taken)
  }

  /** What was found is what the two answers make of it, or, if something is computed already, just that. */
  ghost predicate AdoptsFound(adm: AdmissionRules, blockSize: int, hit: LocalHit, answer: RemoteHit, m: State,
                              id: ReqId, loading: bool, s: State)
    requires blockSize > 0
  {
    && id in m.reqs
    && if m.reqs[id].computed != 0 then !loading && Adopted(m, id, m.reqs[id].computed, [], s)
       else exists prefix: Prefix, blocks ::
              && IsFound(adm, blockSize, hit, answer, Some(prefix), blocks)
              && loading == prefix.loadAsync && Adopted(m, id, prefix.Total(), blocks, s)
  }

  lemma FoundIsAdopted(adm: AdmissionRules, blockSize: int, hit: LocalHit, answer: RemoteHit, m: State, id: ReqId,
                       prefix: Prefix, blocks: seq<Block>, s: State)
    requires blockSize > 0 && id in m.reqs && m.reqs[id].computed == 0
    requires IsFound(adm, blockSize, hit, answer, Some(prefix), blocks) && Adopted(m, id, prefix.Total(), blocks, s)
    ensures AdoptsFound(adm, blockSize, hit, answer, m, id, prefix.loadAsync, s)
  {
    hide IsFound, Adopted;
  }

  lemma ComputedIsAdopted(adm: AdmissionRules, blockSize: int, hit: LocalHit, answer: RemoteHit, m: State, id: ReqId,
                          s: State)
    requires blockSize > 0 && id in m.reqs && m.reqs[id].computed != 0
    requires Adopted(m, id, m.reqs[id].computed, [], s)
    ensures AdoptsFound(adm, blockSize, hit, answer, m, id, false, s)
  {
    hide IsFound, Adopted;
  }

  /** The state in which a head is looked at: promoted, if its load is done. */
  function Promoted(s: State, fromSkipped: bool): State
    requires HeadExists(s, fromSkipped) && Head(s, fromSkipped) in s.reqs
  {
    if s.reqs[Head(s, fromSkipped)].status == WaitingForRemoteKvs then ApplyPromote(s, Head(s, fromSkipped)) else s
  }

  predicate ComputedIs(reqs: map<ReqId, Req>, id: ReqId, computed: nat) {
    id in reqs && computed < reqs[id].tokens && (reqs[id].computed != 0 ==> reqs[id].computed == computed)
  }

  ghost predicate Admitted(s0: State, id: ReqId, computed: nat, share: Share, s: State) {
    && id in s0.reqs && id in s.reqs
    && s.reqs[id] == s0.reqs[id].(status := Running, computed := computed)
    && id in s.pass.shares && s.pass.shares[id] == share
  }

  lemma OfferTaken(cfg: Config, lim: Limits, adm: AdmissionRules, decodesOnly: bool, s0: State, id: ReqId,
                   computed: nat, share: Share, s: State)
    requires lim.Valid() && s0.pass.tokenBudget > 0 && s0.pass.inputBudget > cfg.draftSlots
    requires Admitted(s0, id, computed, share, s) && computed < s0.reqs[id].tokens
    requires AdmissionShare(cfg, lim, adm, PrefillOf(lim, id, s0.reqs[id]), computed, s0.pass, decodesOnly)
             == Some(share)
    ensures ShareIsOffered(cfg, lim, adm, decodesOnly, s0.pass, id, s)
  {
  }

  lemma ServeFacts(cfg: Config, s: State, fromSkipped: bool)
    requires Reachable(cfg, s) && HeadExists(s, fromSkipped) && MayServe(cfg, s, fromSkipped)
    ensures Head(s, fromSkipped) in s.reqs
    ensures HeadServed(s, fromSkipped, None, s)
    ensures HeadServed(s, fromSkipped, Some(Held(Head(s, fromSkipped), StillBlocked)), ApplySkip(s, fromSkipped))
  {
    hide Reachable;
    HeadStanding(cfg, s, fromSkipped);
  }

  lemma PromotedFacts(cfg: Config, s: State, fromSkipped: bool)
    requires HeadExists(s, fromSkipped) && MayServe(cfg, s, fromSkipped)
    requires HasStatus(s.reqs, Head(s, fromSkipped), WaitingForRemoteKvs)
    ensures var t := ApplyPromote(s, Head(s, fromSkipped));
            && HeadServed(s, fromSkipped, None, t) && MayServe(cfg, t, fromSkipped) && HeadExists(t, fromSkipped)
            && Head(t, fromSkipped) == Head(s, fromSkipped) && Head(s, fromSkipped) in t.reqs
            && t.reqs[Head(s, fromSkipped)].status in {Waiting, Preempted}
            && (AwaitsStale(t.reqs[Head(s, fromSkipped)]) <==> AwaitsStale(s.reqs[Head(s, fromSkipped)]))
  {
  }

  lemma SkipServed(cfg: Config, s0: State, s: State, fromSkipped: bool, why: Reason)
    requires why != LoadStarted
    requires HeadExists(s0, fromSkipped) && HeadExists(s, fromSkipped)
    requires HeadServed(s0, fromSkipped, None, s)
    ensures HeadServed(s0, fromSkipped, Some(Held(Head(s0, fromSkipped), why)), ApplySkip(s, fromSkipped))
  {
  }

  /** Blocked is exactly a head that cannot be admitted in this pass, not even after its load's promotion. */
  lemma BlockedIff(cfg: Config, s: State, fromSkipped: bool)
    requires HeadExists(s, fromSkipped) && MayServe(cfg, s, fromSkipped)
    requires var id := Head(s, fromSkipped); id in s.reqs && IsWaiting(s.reqs[id].status)
    ensures !Blocked(s, Head(s, fromSkipped)) <==>
              && (s.reqs[Head(s, fromSkipped)].status == WaitingForRemoteKvs ==> Enabled(cfg, s, Promote(fromSkipped)))
              && MayAdmit(cfg, Promoted(s, fromSkipped), fromSkipped)
  {
  }

  lemma ReadyFacts(cfg: Config, s: State, fromSkipped: bool)
    requires Reachable(cfg, s) && HeadExists(s, fromSkipped) && MayServe(cfg, s, fromSkipped)
    requires Head(s, fromSkipped) in s.reqs && s.reqs[Head(s, fromSkipped)].status != WaitingForRemoteKvs
    requires !AwaitsStale(s.reqs[Head(s, fromSkipped)])
    ensures HeadReady(cfg, s, fromSkipped)
  {
    hide Reachable;
    HeadStanding(cfg, s, fromSkipped);
  }

  lemma ReadyNumbers(cfg: Config, s: State, fromSkipped: bool)
    requires HeadReady(cfg, s, fromSkipped)
    ensures Head(s, fromSkipped) in s.reqs && MayServe(cfg, s, fromSkipped)
    ensures 0 <= s.reqs[Head(s, fromSkipped)].computed < s.reqs[Head(s, fromSkipped)].tokens
    ensures HeadServed(s, fromSkipped, None, s)
  {
  }

  lemma LoadIsEnabled(cfg: Config, s: State, fromSkipped: bool, computed: nat)
    requires HeadReady(cfg, s, fromSkipped) && s.reqs[Head(s, fromSkipped)].computed == 0
    requires 0 < computed <= s.reqs[Head(s, fromSkipped)].tokens
    ensures MayLoad(cfg, s, fromSkipped, computed)
  {
  }

  lemma AdmitIsEnabled(cfg: Config, s: State, fromSkipped: bool, computed: nat, share: Share)
    requires HeadReady(cfg, s, fromSkipped) && Fits(cfg, s, share.n)
    requires ComputedIs(s.reqs, Head(s, fromSkipped), computed)
    ensures MayRun(cfg, s, fromSkipped, computed, share)
  {
  }

  // ------------------------------------------------------------- one head after another

  /** What one iteration does with the head of a queue: it holds it back exactly if it is blocked, and otherwise
      only with a connector attached; or it admits it with the share it is due. */
  ghost predicate HeadVisit(cfg: Config, lim: Limits, adm: AdmissionRules, decodesOnly: bool, m: State,
                            fromSkipped: bool, v: Verdict, s: State) {
    && HeadExists(m, fromSkipped) && MayServe(cfg, m, fromSkipped) && HeadServed(m, fromSkipped, Some(v), s)
    && (Blocked(m, v.id) <==> v == Held(v.id, StillBlocked))
    && (v.Held? && v.why != StillBlocked ==> adm.connector)
    && (v.Taken? ==> ShareIsOffered(cfg, lim, adm, decodesOnly, m.pass, v.id, s))
  }

  /** From s0, one such iteration for each verdict leads to s. */
  ghost predicate HeadVisits(cfg: Config, lim: Limits, adm: AdmissionRules, decodesOnly: bool, s0: State,
                             vs: seq<Verdict>, s: State)
    decreases |vs|
  {
    if vs == [] then s == s0
    else
      var n := |vs| - 1;
      exists m, fromSkipped ::
        && HeadVisits(cfg, lim, adm, decodesOnly, s0, vs[..n], m)
        && HeadVisit(cfg, lim, adm, decodesOnly, m, fromSkipped, vs[n], s)
  }

  lemma HeadVisitsNone(cfg: Config, lim: Limits, adm: AdmissionRules, decodesOnly: bool, s: State)
    ensures HeadVisits(cfg, lim, adm, decodesOnly, s, [], s) && Undecideds([]) == 0
  {
  }

  /** After the last verdict only a promotion may have changed the state; then `held` requests went back in
      front of the skipped queue. */
  ghost predicate LeftAs(last: State, held: nat, s: State) {
    && s.running == last.running && s.waiting == last.waiting && s.pass == last.pass.(stepSkipped := [])
    && held <= |s.skipped| && s.skipped[held..] == last.skipped
  }

  lemma HeadIsServed(s: State, fromSkipped: bool, v: Verdict, t: State)
    requires HeadExists(s, fromSkipped) && HeadServed(s, fromSkipped, Some(v), t)
    ensures v.id == Head(s, fromSkipped)
  {
  }

  /** A head at which the loop stops stays where it is. */
  lemma HeadStays(s: State, fromSkipped: bool, t: State)
    requires HeadExists(s, fromSkipped) && HeadServed(s, fromSkipped, None, t)
    ensures forall held, u :: LeftAs(t, held, u) ==> LeftAs(s, held, u)
  {
  }

  lemma HeadVisitsOn(cfg: Config, lim: Limits, adm: AdmissionRules, decodesOnly: bool, s0: State, vs: seq<Verdict>,
                     m: State, fromSkipped: bool, v: Verdict, s: State)
    requires HeadVisits(cfg, lim, adm, decodesOnly, s0, vs, m)
    requires HeadVisit(cfg, lim, adm, decodesOnly, m, fromSkipped, v, s)
    ensures HeadVisits(cfg, lim, adm, decodesOnly, s0, vs + [v], s)
    ensures Undecideds(vs + [v]) == Undecideds(vs) + if v == Held(v.id, Undecided) then 1 else 0
  {
    hide HeadVisit;
    assert (vs + [v])[..|vs|] == vs && (vs + [v])[|vs|] == v;
    assert HeadVisits(cfg, lim, adm, decodesOnly, s0, (vs + [v])[..|vs|], m)
           && HeadVisit(cfg, lim, adm, decodesOnly, m, fromSkipped, (vs + [v])[|vs|], s);
  }

  /** How often the connector's silence held a head back. */
  function Undecideds(vs: seq<Verdict>): nat {
    if vs == [] then 0
    else Undecideds(vs[..|vs| - 1]) + if vs[|vs| - 1] == Held(vs[|vs| - 1].id, Undecided) then 1 else 0
  }

  /** Without a connector only blocked requests are put aside. */
  lemma {:induction false} OnlyBlockedAreHeld(cfg: Config, lim: Limits, adm: AdmissionRules, decodesOnly: bool,
                                              s0: State, vs: seq<Verdict>, s: State)
    requires HeadVisits(cfg, lim, adm, decodesOnly, s0, vs, s) && !adm.connector
    ensures forall k :: 0 <= k < |vs| && vs[k].Held? ==> vs[k].why == StillBlocked
    decreases |vs|
  {
    hide HeadServed, ShareIsOffered, MayServe;
    if vs != [] {
      var n := |vs| - 1;
      var m, fromSkipped :| HeadVisits(cfg, lim, adm, decodesOnly, s0, vs[..n], m)
                            && HeadVisit(cfg, lim, adm, decodesOnly, m, fromSkipped, vs[n], s);
      OnlyBlockedAreHeld(cfg, lim, adm, decodesOnly, s0, vs[..n], m);
      assert forall k :: 0 <= k < n ==> vs[..n][k] == vs[k];
    }
  }

  // ------------------------------------------------------------- the whole pass

  function IdsOf(vs: seq<Verdict>): seq<ReqId> {
    if vs == [] then [] else IdsOf(vs[..|vs| - 1]) + [vs[|vs| - 1].id]
  }

  function TakenOf(vs: seq<Verdict>): seq<ReqId> {
    if vs == [] then []
    else TakenOf(vs[..|vs| - 1]) + if vs[|vs| - 1].Taken? then [vs[|vs| - 1].id] else []
  }

  /** The requests put aside, the latest first. */
  function HeldOf(vs: seq<Verdict>): seq<ReqId> {
    if vs == [] then []
    else (if vs[|vs| - 1].Held? then [vs[|vs| - 1].id] else []) + HeldOf(vs[..|vs| - 1])
  }

  /** The loop so far: what it popped it either took, in order, into `running` and the report, or put
      aside; in FCFS it popped a prefix of the skipped queue followed by the waiting queue. */
  ghost predicate IntakeSoFar(cfg: Config, s0: State, vs: seq<Verdict>, s: State) {
    && s.pass.limit == s0.pass.limit && s.pass.continued == s0.pass.continued
    && KeepsShares(s0.pass.shares, s.pass.shares) && s.steps == s0.steps
    && s.running == s0.running + TakenOf(vs)
    && s.pass.admitted == s0.pass.admitted + TakenOf(vs)
    && s.pass.stepSkipped == HeldOf(vs)
    && (cfg.policy == Fcfs ==> s0.skipped + s0.waiting == IdsOf(vs) + (s.skipped + s.waiting))
  }

  /** The same once the requests put aside are back in front of the skipped queue. */
  ghost predicate IntakeDone(cfg: Config, s0: State, vs: seq<Verdict>, s: State) {
    && s.pass.limit == s0.pass.limit && s.pass.continued == s0.pass.continued
    && KeepsShares(s0.pass.shares, s.pass.shares) && s.steps == s0.steps
    && s.running == s0.running + TakenOf(vs)
    && s.pass.admitted == s0.pass.admitted + TakenOf(vs)
    && |HeldOf(vs)| <= |s.skipped|
    && multiset(s.skipped[..|HeldOf(vs)|]) == multiset(HeldOf(vs))
    && (cfg.policy == Fcfs ==>
          s0.skipped + s0.waiting == IdsOf(vs) + (s.skipped[|HeldOf(vs)|..] + s.waiting))
  }

  ghost predicate NotOffered(cfg: Config, lim: Limits, adm: AdmissionRules, decodesOnly: bool, s: State, id: ReqId,
                             computed: nat) {
    && lim.Valid() && ComputedIs(s.reqs, id, computed) && s.pass.tokenBudget > 0 && s.pass.inputBudget > cfg.draftSlots
    && AdmissionShare(cfg, lim, adm, PrefillOf(lim, id, s.reqs[id]), computed, s.pass, decodesOnly) == None
  }

  /** The limits leave no share for the head, for what a cache lookup may have found of it. */
  ghost predicate HeadNotOffered(cfg: Config, lim: Limits, adm: AdmissionRules, decodesOnly: bool, s: State,
                                 fromSkipped: bool) {
    && HeadExists(s, fromSkipped)
    && exists computed :: NotOffered(cfg, lim, adm, decodesOnly, s, Head(s, fromSkipped), computed)
  }

  lemma NothingToOffer(cfg: Config, lim: Limits, adm: AdmissionRules, decodesOnly: bool, s: State, fromSkipped: bool,
                       computed: nat)
    requires lim.Valid() && HeadReady(cfg, s, fromSkipped) && ComputedIs(s.reqs, Head(s, fromSkipped), computed)
    requires s.pass.tokenBudget > 0 && s.pass.inputBudget > cfg.draftSlots
    requires AdmissionShare(cfg, lim, adm, PrefillOf(lim, Head(s, fromSkipped), s.reqs[Head(s, fromSkipped)]), computed,
                            s.pass, decodesOnly) == None
    ensures HeadNotOffered(cfg, lim, adm, decodesOnly, s, fromSkipped)
  {
    assert NotOffered(cfg, lim, adm, decodesOnly, s, Head(s, fromSkipped), computed);
  }

  /** Why the loop stopped, `held` requests of this pass being back in front of the skipped queue: nobody
      is left, a budget or the running list is exhausted, or the next head was refused blocks or a share. */
  ghost predicate IntakeEnded(cfg: Config, lim: Limits, adm: AdmissionRules, decodesOnly: bool, s: State, held: nat,
                              refused: bool) {
    && held <= |s.skipped|
    && var rest := s.(skipped := s.skipped[held..]);
       || (rest.skipped == [] && s.waiting == [])
       || s.pass.tokenBudget <= 0 || s.pass.inputBudget <= cfg.draftSlots || |s.running| >= cfg.maxRunning
       || refused
       || HeadNotOffered(cfg, lim, adm, decodesOnly, rest, true)
       || HeadNotOffered(cfg, lim, adm, decodesOnly, rest, false)
  }

  lemma QueueIsThere(cfg: Config, s: State, fromSkipped: bool)
    requires QueueChoice(cfg, s, fromSkipped)
    ensures HeadExists(s, fromSkipped)
  {
  }

  lemma IntakeStarts(cfg: Config, s: State)
    requires s.pass.stepSkipped == []
    ensures IntakeSoFar(cfg, s, [], s)
  {
  }

  lemma IntakeStep(cfg: Config, s0: State, vs: seq<Verdict>, s: State, fromSkipped: bool, v: Verdict, t: State)
    requires IntakeSoFar(cfg, s0, vs, s) && QueueChoice(cfg, s, fromSkipped)
    requires HeadServed(s, fromSkipped, Some(v), t)
    ensures IntakeSoFar(cfg, s0, vs + [v], t) && Admitting(t)
    ensures |t.waiting| + |t.skipped| < |s.waiting| + |s.skipped|
  {
    assert (vs + [v])[..|vs|] == vs;
    if cfg.policy == Fcfs {
      assert s.skipped + s.waiting == [v.id] + (t.skipped + t.waiting);
      assert s0.skipped + s0.waiting == (IdsOf(vs) + [v.id]) + (t.skipped + t.waiting);
    }
  }

  lemma IntakeStops(cfg: Config, lim: Limits, adm: AdmissionRules, decodesOnly: bool, s0: State, vs: seq<Verdict>,
                    s: State, fromSkipped: bool, t: State, refused: bool)
    requires IntakeSoFar(cfg, s0, vs, s) && QueueChoice(cfg, s, fromSkipped)
    requires HeadServed(s, fromSkipped, None, t)
    requires refused || HeadNotOffered(cfg, lim, adm, decodesOnly, t, fromSkipped)
    ensures IntakeSoFar(cfg, s0, vs, t) && Admitting(t)
    ensures IntakeEnded(cfg, lim, adm, decodesOnly, t, 0, refused)
  {
    hide HeadNotOffered;
    assert t == t.(skipped := t.skipped[0..]);
  }

  lemma RequeueKeepsEnd(cfg: Config, lim: Limits, adm: AdmissionRules, decodesOnly: bool, s0: State, vs: seq<Verdict>,
                        s: State, order: seq<ReqId>, refused: bool)
    requires IntakeSoFar(cfg, s0, vs, s) && multiset(order) == multiset(s.pass.stepSkipped)
    requires IntakeEnded(cfg, lim, adm, decodesOnly, s, 0, refused)
    ensures IntakeEnded(cfg, lim, adm, decodesOnly, ApplyRequeue(s, order), |HeldOf(vs)|, refused)
  {
    assert |multiset(order)| == |order| && |multiset(HeldOf(vs))| == |HeldOf(vs)|;
    var t := ApplyRequeue(s, order);
    assert t.skipped[|order|..] == s.skipped == s.skipped[0..];
    forall fromSkipped | HeadNotOffered(cfg, lim, adm, decodesOnly, s.(skipped := s.skipped[0..]), fromSkipped)
      ensures HeadNotOffered(cfg, lim, adm, decodesOnly, t.(skipped := t.skipped[|order|..]), fromSkipped)
    {
      var before, after := s.(skipped := s.skipped[0..]), t.(skipped := t.skipped[|order|..]);
      var computed :| NotOffered(cfg, lim, adm, decodesOnly, before, Head(before, fromSkipped), computed);
      NothingOfferedStill(cfg, lim, adm, decodesOnly, before, after, Head(after, fromSkipped), computed);
    }
  }

  lemma NothingOfferedStill(cfg: Config, lim: Limits, adm: AdmissionRules, decodesOnly: bool, s: State, t: State,
                            id: ReqId, computed: nat)
    requires NotOffered(cfg, lim, adm, decodesOnly, s, id, computed) && t.reqs == s.reqs
    requires t.pass == s.pass.(stepSkipped := t.pass.stepSkipped)
    ensures NotOffered(cfg, lim, adm, decodesOnly, t, id, computed)
  {
  }

  lemma HeadServedOn(s0: State, fromSkipped: bool, s: State)
    requires HeadExists(s0, fromSkipped) && HeadServed(s0, fromSkipped, None, s)
    ensures HeadExists(s, fromSkipped) && s.pass == s0.pass
    ensures forall v, t :: HeadServed(s, fromSkipped, v, t) ==> HeadServed(s0, fromSkipped, v, t)
  {
  }

  /** prepend_requests keeps the requests; the queue's own order is not modelled. */
  method AnyOrder(q: seq<ReqId>) returns (order: seq<ReqId>)
    ensures multiset(order) == multiset(q)
  {
    order := [];
    for i := 0 to |q|
      invariant multiset(order) == multiset(q[..i])
    {
      assert q[..i + 1] == q[..i] + [q[i]];
      order := InsertAnywhere(order, q[i]);
    }
    assert q[..|q|] == q;
  }

  method InsertAnywhere(q: seq<ReqId>, id: ReqId) returns (r: seq<ReqId>)
    ensures multiset(r) == multiset(q) + multiset{id}
  {
    var pos: nat :| pos <= |q|;
    assert q == q[..pos] + q[pos..];
    r := q[..pos] + [id] + q[pos..];
  }

  lemma RequeueReaches(cfg: Config, s: State, order: seq<ReqId>)
    requires Reachable(cfg, s) && Admitting(s) && multiset(order) == multiset(s.pass.stepSkipped)
    ensures Reachable(cfg, ApplyRequeue(s, order)) && Follows(cfg, s, ApplyRequeue(s, order))
  {
    hide Reachable, Follows;
    StepReaches(cfg, s, Requeue(order));
  }

  lemma IntakeEnds(cfg: Config, s0: State, vs: seq<Verdict>, s: State, order: seq<ReqId>)
    requires IntakeSoFar(cfg, s0, vs, s) && multiset(order) == multiset(s.pass.stepSkipped)
    ensures IntakeDone(cfg, s0, vs, ApplyRequeue(s, order))
    ensures LeftAs(s, |HeldOf(vs)|, ApplyRequeue(s, order))
  {
    assert |multiset(order)| == |order| && |multiset(HeldOf(vs))| == |HeldOf(vs)|;
  }

  /** When nothing was held, an FCFS pass leaves `running ++ skipped ++ waiting` the sequence it was. */
  lemma NothingHeldKeepsOrder(cfg: Config, s0: State, vs: seq<Verdict>, s: State)
    requires IntakeDone(cfg, s0, vs, s) && cfg.policy == Fcfs && HeldOf(vs) == []
    ensures s.running + (s.skipped + s.waiting) == s0.running + (s0.skipped + s0.waiting)
  {
    AllTaken(vs);
    assert s0.running + (IdsOf(vs) + (s.skipped + s.waiting)) == (s0.running + IdsOf(vs)) + (s.skipped + s.waiting);
  }

  lemma {:induction false} AllTaken(vs: seq<Verdict>)
    requires HeldOf(vs) == []
    ensures TakenOf(vs) == IdsOf(vs)
  {
    if vs != [] {
      AllTaken(vs[..|vs| - 1]);
    }
  }
}
