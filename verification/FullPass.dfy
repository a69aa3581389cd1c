/** A whole call of schedule(), on values: what its two loops together guarantee. */
module FullPass {
  import opened Ledger
  import opened Machine
  import opened Runs
  import opened Budgets
  import opened Offers
  import opened Fairness
  import opened Collections
  import opened Passes
  import opened Intake
  import opened Admissions

  datatype PauseState = Unpaused | PausedNew | PausedAll

  /** The state in which a pass starts. */
  function Started(cfg: Config, s: State, pause: PauseState): State {
    ApplyBeginPass(cfg, s, pause.PausedAll?)
  }

  /** The tokens a pass may schedule: none while everything is paused. */
  function PassLimit(cfg: Config, pause: PauseState): nat {
    match pause
    case PausedAll => 0
    case _ => cfg.maxScheduledTokens
  }

  /** What the RUNNING loop leaves: if it preempted nothing, the shares are those of the undisturbed pass;
      in FCFS `running ++ waiting` is the sequence it was. */
  ghost predicate RanFirst(cfg: Config, lim: Limits, pause: PauseState, s0: State, s: State) {
    && lim.Valid() && InRunningLoop(s) && s.pass.limit == PassLimit(cfg, pause)
    && (forall x :: x in s0.running ==> x in s0.reqs)
    && s.steps == s0.steps
    && (s.pass.preempted == [] ==>
          && s.running == s0.running
          && KeepsShares(ServeFrom(cfg, lim, s0.reqs, s0.running, 0, Started(cfg, s0, pause).pass).shares,
                         s.pass.shares))
    && s.skipped == s0.skipped
    && (cfg.policy == Fcfs ==> s.running + s.waiting == s0.running + s0.waiting)
  }

  /** The end of a pass.  Nothing is admitted after a preemption or while paused; without preemption the
      running requests got the undisturbed pass; and an FCFS pass that skips nothing keeps the order. */
  ghost predicate PassDone(cfg: Config, lim: Limits, pause: PauseState, s0: State, s: State) {
    && lim.Valid() && s.phase == Scheduling && s.pass.stepSkipped == [] && s.pass.limit == PassLimit(cfg, pause)
    && (forall x :: x in s0.running ==> x in s0.reqs)
    && s.steps == s0.steps
    && (s.pass.preempted != [] || !pause.Unpaused? ==> s.pass.admitted == [] && s.skipped == s0.skipped)
    && (s.pass.preempted == [] ==>
          && s0.running <= s.running
          && KeepsShares(ServeFrom(cfg, lim, s0.reqs, s0.running, 0, Started(cfg, s0, pause).pass).shares,
                         s.pass.shares))
    && (cfg.policy == Fcfs && s0.skipped == [] && s.skipped == [] ==>
          s.running + s.waiting == s0.running + s0.waiting)
  }

  /** What a call did, in order: the RUNNING loop's visits up to `ran`, the WAITING loop's verdicts up to `last`,
      whether its last allocation was refused, and the state it left before the copies. */
  datatype Account = Account(considered: seq<ReqId>, served: seq<ReqId>, cursor: nat, ran: State,
                             verdicts: seq<Verdict>, last: State, refused: bool, chosen: State)

  /** Decode-only so far: the step has shares, and none for a prefill. */
  ghost predicate DecodesOnly(cfg: Config, s0: State, pause: PauseState, a: Account) {
    a.ran.pass.continued != [] && !AnyPrefill(Started(cfg, s0, pause), a.served)
  }

  /** Each loop visits requests one after another until it has a reason to stop; the second one runs only if
      nothing was preempted and new requests are not paused. */
  ghost predicate Accounts(cfg: Config, lim: Limits, adm: AdmissionRules, pause: PauseState, s0: State, a: Account) {
    && Visits(cfg, lim, Started(cfg, s0, pause), a.considered, a.served, a.ran, a.cursor)
    && ScanEnded(cfg, a.ran, a.cursor, a.considered)
    && if a.ran.pass.preempted == [] && pause.Unpaused?
       then var held, decodesOnly := |HeldOf(a.verdicts)|, DecodesOnly(cfg, s0, pause, a);
            && HeadVisits(cfg, lim, adm, decodesOnly, a.ran, a.verdicts, a.last) && LeftAs(a.last, held, a.chosen)
            && IntakeEnded(cfg, lim, adm, decodesOnly, a.chosen, held, a.refused)
       else a.verdicts == [] && !a.refused && a.chosen == a.ran
  }

  /** The step booked at the end of a pass: its shares, each with the blocks its request holds, which the step may
      write, and with how often the request has been preempted. */
  ghost predicate StepAppended(before: seq<Step>, end: State, shares: map<ReqId, Share>, after: seq<Step>) {
    && |after| == |before| + 1 && after[..|before|] == before
    && var entries := after[|before|].entries;
       && entries.Keys == shares.Keys && shares.Keys <= end.reqs.Keys
       && forall id :: id in shares ==>
            && entries[id].n == shares[id].n && entries[id].drafts == shares[id].drafts
            && entries[id].blocks == (if id in end.pool.held then end.pool.held[id] else [])
            && entries[id].epoch == end.reqs[id].preemptions
  }

  lemma PassBegins(cfg: Config, s: State, pause: PauseState)
    requires Reachable(cfg, s) && s.phase == Idle
    ensures Reachable(cfg, Started(cfg, s, pause)) && NothingDone(Started(cfg, s, pause))
    ensures Follows(cfg, s, Started(cfg, s, pause))
  {
    hide Reachable, Follows;
    StepReaches(cfg, s, BeginPass(pause.PausedAll?));
  }

  lemma RunningDone(cfg: Config, lim: Limits, pause: PauseState, s0: State, s: State, j: nat, considered: seq<ReqId>,
                    served: seq<ReqId>)
    requires Reachable(cfg, s0) && InRunningLoop(s)
    requires Scanned(cfg, lim, Started(cfg, s0, pause), s, j, considered, served) && ScanEnded(cfg, s, j, considered)
    ensures RanFirst(cfg, lim, pause, s0, s)
  {
    hide Reachable, PassesOver, Offer, Walked;
    RunningKnown(cfg, s0);
  }

  lemma WaitingDone(cfg: Config, lim: Limits, pause: PauseState, s0: State, s: State, vs: seq<Verdict>, t: State)
    requires RanFirst(cfg, lim, pause, s0, s) && IntakeDone(cfg, s, vs, t) && Admitting(t) && t.pass.stepSkipped == []
    requires s.pass.preempted == [] && pause.Unpaused?
    ensures PassDone(cfg, lim, pause, s0, t)
  {
    hide ServeFrom;
    if cfg.policy == Fcfs && s0.skipped == [] && t.skipped == [] {
      NothingHeldKeepsOrder(cfg, s, vs, t);
      assert s.skipped + s.waiting == s.waiting && t.skipped + t.waiting == t.waiting;
    }
  }

  lemma WaitingSkipped(cfg: Config, lim: Limits, pause: PauseState, s0: State, s: State)
    requires RanFirst(cfg, lim, pause, s0, s) && (s.pass.preempted != [] || !pause.Unpaused?)
    ensures PassDone(cfg, lim, pause, s0, s)
  {
    hide ServeFrom;
  }

  lemma RetainReaches(cfg: Config, lim: Limits, pause: PauseState, s0: State, s: State, copies: seq<Block>)
    requires Reachable(cfg, s) && PassDone(cfg, lim, pause, s0, s)
    ensures var t := s.(pool := s.pool.RetainForCopy(copies));
            && Reachable(cfg, t) && Follows(cfg, s, t)
            && PassDone(cfg, lim, pause, s0, t) && t.pool.lastSched == s.pool.lastSched
  {
    hide Reachable, Follows, ServeFrom;
    StepReaches(cfg, s, RetainCopy(copies));
  }

  lemma PassCloses(cfg: Config, lim: Limits, pause: PauseState, s0: State, s: State)
    requires Reachable(cfg, s) && PassDone(cfg, lim, pause, s0, s)
    ensures s.phase == Scheduling && s.pass.stepSkipped == []
    ensures s.pass.tokenBudget >= 0 && s.pass.inputBudget >= 0 && |s.running| <= cfg.maxRunning
    ensures Charge(s.pass.shares, 0) <= cfg.maxScheduledTokens
    ensures pause.PausedAll? ==> s.pass.shares == map[]
    ensures |s.pass.admitted| + |s.pass.continued| <= |s.running|
    ensures StepAppended(s0.steps, s, s.pass.shares, ApplyCommit(s).steps) && ApplyCommit(s).phase == Idle
  {
    hide Reachable, ServeFrom;
    ReachableInv(cfg, s);
    PassAssertsHold(cfg, s);
  }

  /** The service bound for a whole call: if the budgets cover the guard chunks and the decodes up to a ready
      decode, and nothing had to be preempted, the step that schedule() emits holds its full capped demand. */
  lemma ScheduleServesDecodes(cfg: Config, lim: Limits, pause: PauseState, s0: State, s: State, k: nat)
    requires PassDone(cfg, lim, pause, s0, s) && s.pass.preempted == [] && !pause.PausedAll?
    requires Distinct(s0.running) && lim.guardChunk > 0
    requires k < |s0.running| && WantsDecode(cfg, lim, s0.reqs, s0.running[k])
    requires cfg.maxScheduledTokens >= TotalNeed(cfg, lim, s0.reqs, s0.running[..k + 1], 0)
    requires cfg.maxBatchedTokens >= TotalNeed(cfg, lim, s0.reqs, s0.running[..k + 1], cfg.draftSlots)
    ensures var d := s0.running[k];
            && d in s.pass.shares && s.pass.shares[d].n == FullDemand(cfg, lim, s0.reqs[d])
            && IsFullShare(cfg, lim, s0.reqs[d], s.pass.shares[d])
  {
    hide ServeFrom, FullDemand, TotalNeed, WantsDecode;
    EveryDecodeServed(cfg, lim, s0.reqs, s0.running, 0, Started(cfg, s0, pause).pass, k);
  }
}
