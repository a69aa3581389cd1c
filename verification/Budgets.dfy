/** The two budgets of a schedule() pass, and the lists it reports. */
module Budgets {
  import opened Ledger
  import opened Machine
  import opened Queues
  import opened Collections

  /** Conservation: what is left of a budget and what has been charged add up to what the
      pass started with.  The reported lists name each scheduled request once. */
  ghost predicate PassOk(cfg: Config, s: State) {
    && s.pass.tokenBudget + Charge(s.pass.shares, 0) == s.pass.limit
    && s.pass.inputBudget + Charge(s.pass.shares, cfg.draftSlots) == cfg.maxBatchedTokens
    && s.pass.limit <= cfg.maxScheduledTokens
    && s.pass.tokenBudget >= 0 && s.pass.inputBudget >= 0
    && (forall id :: id in s.pass.shares ==> id in s.reqs && s.reqs[id].status == Running && s.pass.shares[id].n > 0)
    && (forall x :: ListedOk(s.pass, x))
  }

  ghost predicate ListedOk(p: Pass, x: ReqId) {
    Count(p.admitted, x) + Count(p.continued, x) == if x in p.shares then 1 else 0
  }

  ghost predicate BudgetInv(cfg: Config, s: State) {
    && |s.running| <= cfg.maxRunning
    && if s.phase == Scheduling then PassOk(cfg, s) else s.pass == NoPass
  }

  // ------------------------------------------------------------- charges

  lemma {:induction false} ChargeSplit(shares: map<ReqId, Share>, extra: nat, id: ReqId)
    requires id in shares
    ensures Charge(shares, extra) == shares[id].n + extra + Charge(shares - {id}, extra)
    decreases shares
  {
    var k :| k in shares && Charge(shares, extra) == shares[k].n + extra + Charge(shares - {k}, extra);
    if k != id {
      ChargeSplit(shares - {k}, extra, id);
      ChargeSplit(shares - {id}, extra, k);
      assert shares - {k} - {id} == shares - {id} - {k};
    }
  }

  lemma ChargeAdd(shares: map<ReqId, Share>, extra: nat, id: ReqId, share: Share)
    requires id !in shares
    ensures Charge(shares[id := share], extra) == Charge(shares, extra) + share.n + extra
  {
    ChargeSplit(shares[id := share], extra, id);
    assert shares[id := share] - {id} == shares;
  }

  // ------------------------------------------------------------- preservation

  lemma TakeKeepsBudgets(cfg: Config, s: State, e: Event)
    requires PassOk(cfg, s) && Enabled(cfg, s, e) && e.Take? && s.reqs[e.id].status == Running
    ensures PassOk(cfg, Apply(cfg, s, e))
  {
    var t := Apply(cfg, s, e);
    ChargeAdd(s.pass.shares, 0, e.id, t.pass.shares[e.id]);
    ChargeAdd(s.pass.shares, cfg.draftSlots, e.id, t.pass.shares[e.id]);
    forall x
      ensures ListedOk(t.pass, x)
    {
      assert ListedOk(s.pass, x);
    }
  }

  lemma AdmitKeepsBudgets(cfg: Config, s: State, e: Event)
    requires PassOk(cfg, s) && Enabled(cfg, s, e) && e.Admit?
    ensures PassOk(cfg, Apply(cfg, s, e))
  {
    var t := Apply(cfg, s, e);
    var id := Head(s, e.fromSkipped);
    ChargeAdd(s.pass.shares, 0, id, t.pass.shares[id]);
    ChargeAdd(s.pass.shares, cfg.draftSlots, id, t.pass.shares[id]);
    forall x
      ensures ListedOk(t.pass, x)
    {
      assert ListedOk(s.pass, x);
    }
  }

  /** A PRIORITY victim that was scheduled in this pass gives back exactly what it was charged. */
  lemma RestoreKeepsBudgets(cfg: Config, p: Pass, id: ReqId)
    requires id in p.shares && Count(p.admitted, id) == 0
    requires forall x :: ListedOk(p, x)
    ensures var q := RestoreShare(cfg, p, id);
            && q.tokenBudget + Charge(q.shares, 0) == p.tokenBudget + Charge(p.shares, 0)
            && q.inputBudget + Charge(q.shares, cfg.draftSlots) == p.inputBudget + Charge(p.shares, cfg.draftSlots)
            && forall x :: ListedOk(q, x)
  {
    ChargeSplit(p.shares, 0, id);
    ChargeSplit(p.shares, cfg.draftSlots, id);
    var q := RestoreShare(cfg, p, id);
    forall x
      ensures ListedOk(q, x)
    {
      assert ListedOk(p, x);
      CountWithout(p.continued, id, x);
    }
  }

  lemma PreemptKeepsBudgets(cfg: Config, s: State, e: Event)
    requires PassOk(cfg, s) && Enabled(cfg, s, e) && e.Preempt? && s.phase == Scheduling
    ensures PassOk(cfg, Apply(cfg, s, e))
  {
    var t := Apply(cfg, s, e);
    if e.id in s.pass.shares {
      RestoreKeepsBudgets(cfg, s.pass, e.id);
    }
    forall x
      ensures ListedOk(t.pass, x)
    {
      assert ListedOk(s.pass, x);
      if e.id in s.pass.shares {
        assert ListedOk(RestoreShare(cfg, s.pass, e.id), x);
      }
    }
  }

  lemma QuietEventsKeepPass(cfg: Config, s: State, e: Event)
    requires PassOk(cfg, s) && Enabled(cfg, s, e) && QueueInv(s) && s.phase == Scheduling
    requires e.Promote? || e.Skip? || e.AdmitAsync? || e.Requeue? || e.RetainCopy?
    ensures PassOk(cfg, Apply(cfg, s, e)) && Apply(cfg, s, e).running == s.running
  {
    var t := Apply(cfg, s, e);
    forall x
      ensures ListedOk(t.pass, x)
    {
      assert ListedOk(s.pass, x);
    }
  }

  lemma PassEventsKeepBudgets(cfg: Config, s: State, e: Event)
    requires BudgetInv(cfg, s) && QueueInv(s) && Enabled(cfg, s, e) && s.phase == Scheduling && !e.Commit?
    ensures BudgetInv(cfg, Apply(cfg, s, e))
  {
    if e.Take? {
      assert PlacedOk(s, e.id);
      TakeKeepsBudgets(cfg, s, e);
    } else if e.Admit? {
      AdmitKeepsBudgets(cfg, s, e);
    } else if e.Preempt? {
      PreemptKeepsBudgets(cfg, s, e);
    } else {
      QuietEventsKeepPass(cfg, s, e);
    }
  }

  lemma OutsideEventsKeepBudgets(cfg: Config, s: State, e: Event)
    requires BudgetInv(cfg, s) && Enabled(cfg, s, e) && (s.phase != Scheduling || e.Commit?)
    requires !e.Output?
    ensures BudgetInv(cfg, Apply(cfg, s, e))
  {
    if e.BeginPass? {
      var t := Apply(cfg, s, e);
      forall x
        ensures ListedOk(t.pass, x)
      {
        assert multiset(t.pass.admitted) == multiset{} && multiset(t.pass.continued) == multiset{};
      }
    }
  }

  lemma BudgetsKept(cfg: Config, s: State, e: Event)
    requires BudgetInv(cfg, s) && QueueInv(s) && Enabled(cfg, s, e)
    ensures BudgetInv(cfg, Apply(cfg, s, e))
  {
    if e.Output? {
      OutputShape(cfg, s, e);
    } else if s.phase == Scheduling && !e.Commit? {
      PassEventsKeepBudgets(cfg, s, e);
    } else {
      OutsideEventsKeepBudgets(cfg, s, e);
    }
  }

  // ------------------------------------------------------------- the asserts at the end of the pass

  /** A list whose elements occur once each among the running requests is no longer than `running`. */
  lemma {:induction false} ListedLength(list: seq<ReqId>, running: seq<ReqId>)
    requires forall x :: Count(list, x) <= Count(running, x)
    ensures |list| <= |running|
  {
    if list != [] {
      var id := list[0];
      assert Count(list, id) > 0;
      CountIn(running, id);
      var k :| 0 <= k < |running| && running[k] == id;
      var rest := running[..k] + running[k + 1..];
      assert running == running[..k] + ([id] + running[k + 1..]);
      forall x
        ensures Count(list[1..], x) <= Count(rest, x)
      {
        CountPop(list, x);
        assert multiset(running)[x] == multiset(rest)[x] + multiset([id])[x];
      }
      ListedLength(list[1..], rest);
    }
  }

  lemma CountedOnceIsDistinct(q: seq<ReqId>)
    requires forall x :: Count(q, x) <= 1
    ensures Distinct(q)
  {
    forall j, k | 0 <= j < k < |q|
      ensures q[j] != q[k]
    {
      CountTwice(q, j, k);
    }
  }

  /** Everything schedule() asserts about its result: the budgets are not overdrawn, the total is within
      the limit, and what was scheduled is reported once and is running. */
  lemma PassAssertsHold(cfg: Config, s: State)
    requires BudgetInv(cfg, s) && QueueInv(s) && s.phase == Scheduling
    ensures Charge(s.pass.shares, 0) <= cfg.maxScheduledTokens
    ensures Charge(s.pass.shares, cfg.draftSlots) <= cfg.maxBatchedTokens
    ensures s.pass.tokenBudget >= 0 && s.pass.inputBudget >= 0
    ensures |s.running| <= cfg.maxRunning
    ensures |s.pass.admitted| + |s.pass.continued| <= |s.running|
    ensures Distinct(s.pass.admitted + s.pass.continued)
    ensures forall id :: id in s.pass.shares <==> id in s.pass.admitted || id in s.pass.continued
    ensures forall id :: id in s.pass.shares ==> id in s.running
  {
    var list := s.pass.admitted + s.pass.continued;
    forall x
      ensures Count(list, x) <= Count(s.running, x) && Count(list, x) <= 1
      ensures x in s.pass.shares <==> x in s.pass.admitted || x in s.pass.continued
      ensures x in s.pass.shares ==> x in s.running
    {
      assert ListedOk(s.pass, x) && PlacedOk(s, x);
      CountIn(s.pass.admitted, x);
      CountIn(s.pass.continued, x);
      CountIn(s.running, x);
    }
    ListedLength(list, s.running);
    CountedOnceIsDistinct(list);
  }
}
