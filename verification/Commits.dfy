/** The end of a pass, on values: booking the shares one by one is the machine's commit. */
module Commits {
  import opened Machine
  import opened Runs
  import opened Tables

  lemma CommitReaches(cfg: Config, s: State)
    requires Reachable(cfg, s) && s.phase == Scheduling && s.pass.stepSkipped == []
    ensures Reachable(cfg, ApplyCommit(s)) && Follows(cfg, s, ApplyCommit(s))
    ensures s.pool.deferOn == cfg.deferBlockFree
    ensures forall id :: id in s.pass.shares ==> id in s.reqs
  {
    hide Reachable, Follows;
    StepReaches(cfg, s, Commit);
    ReachableInv(cfg, s);
  }

  lemma BookedAll(s: State)
    requires forall id :: id in s.pass.shares ==> id in s.reqs
    ensures var t := ApplyCommit(s); var shares := s.pass.shares;
            && t.reqs == Booked(s.reqs, shares, shares.Keys)
            && t.pool == s.pool.CommitStep(shares.Keys)
            && t.pool.lastSched == Fenced(s.pool.lastSched, s.pool.deferOn, t.pool.sched, shares.Keys)
            && t.running == s.running && t.waiting == s.waiting && t.skipped == s.skipped
            && t.recvd == s.recvd && t.failed == s.failed
  {
    var ids := s.pass.shares.Keys;
    assert s.pool.lastSched + map[] == s.pool.lastSched;
    assert ids == {} ==> (map id | id in ids :: s.pool.sched) == map[];
  }
}
