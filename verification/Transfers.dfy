/** The life cycle of remote KV loads, and what waiting requests have computed. */
module Transfers {
  import opened Ledger
  import opened Machine

  /** Each request's own obligations, given the transfer sets. */
  ghost predicate TransferOk(s: State, id: ReqId)
    requires id in s.reqs
  {
    var r := s.reqs[id];
    && r.tokens > 0
    && (r.status == WaitingForRemoteKvs ==> (id in s.recvd || id in s.loads) && 0 <= r.computed <= r.tokens)
    && (r.status in {Waiting, Preempted} ==> 0 <= r.computed < r.tokens)
    && (r.status == Finished ==> id in s.loads || id in s.sends)
  }

  ghost predicate TransferInv(s: State) {
    && (forall id :: id in s.reqs ==> TransferOk(s, id))
    && (forall id :: id in s.recvd ==> id in s.reqs && s.reqs[id].status == WaitingForRemoteKvs && id !in s.loads)
    && (forall id :: id in s.failed ==>
          id in s.reqs && s.reqs[id].status == WaitingForRemoteKvs && s.reqs[id].computed < s.reqs[id].tokens)
    && (forall id :: id in s.loads ==> id in s.reqs && s.reqs[id].status in {WaitingForRemoteKvs, Finished})
    && (forall id :: id in s.sends ==> id in s.reqs && s.reqs[id].status == Finished && id !in s.loads)
  }

  /** An output is handed on only to a request that is not loading, and rolls back the computed
      tokens only of one that neither waits nor was preempted. */
  ghost predicate OutputsSound(s: State, e: Event) {
    e.Output? && Delivers(s, e.id) ==>
      && s.reqs[e.id].status != WaitingForRemoteKvs
      && (s.reqs[e.id].stale <= 0 ==> s.reqs[e.id].status == Running)
  }

  lemma RetireKeepsTransfers(s: State, id: ReqId, send: bool)
    requires TransferInv(s) && Unfinished(s, id) && id in s.pool.lastSched
    requires send ==> !MidLoad(s, id)
    ensures TransferInv(Retire(s, id, send))
  {
    var t := Retire(s, id, send);
    assert TransferOk(s, id);
    forall x | x in t.reqs
      ensures TransferOk(t, x)
    {
      assert TransferOk(s, x);
    }
  }

  /** Changing one request so that its obligations still hold. */
  lemma OneRequestKeepsTransfers(s: State, t: State, id: ReqId)
    requires TransferInv(s) && id in s.reqs && id in t.reqs
    requires t.reqs == s.reqs[id := t.reqs[id]] && t.reqs[id].status == s.reqs[id].status
    requires t.recvd == s.recvd && t.failed == s.failed && t.loads == s.loads && t.sends == s.sends
    requires t.reqs[id].tokens >= s.reqs[id].tokens
    requires s.reqs[id].status in {WaitingForRemoteKvs, Waiting, Preempted} ==>
        t.reqs[id].computed == s.reqs[id].computed
    ensures TransferInv(t)
  {
    forall x | x in t.reqs
      ensures TransferOk(t, x)
    {
      assert TransferOk(s, x);
    }
  }

  lemma OutputKeepsTransfers(cfg: Config, s: State, e: Event)
    requires TransferInv(s) && Enabled(cfg, s, e) && e.Output? && OutputsSound(s, e)
    ensures TransferInv(Apply(cfg, s, e))
  {
    OutputShape(cfg, s, e);
    var t := Apply(cfg, s, e);
    if StopsRequest(s, e) {
      var d: Req :| && d.status == s.reqs[e.id].status && d.tokens >= s.reqs[e.id].tokens
                    && t == Retire(s.(steps := t.steps, reqs := s.reqs[e.id := d]), e.id, e.send);
      StoppedKeepsTransfers(s, t, d, e);
    } else if e.id in s.reqs {
      OneRequestKeepsTransfers(s, t, e.id);
    } else {
      forall x | x in t.reqs
        ensures TransferOk(t, x)
      {
        assert TransferOk(s, x);
      }
    }
  }

  lemma StoppedKeepsTransfers(s: State, t: State, d: Req, e: Event)
    requires TransferInv(s) && e.Output? && Unfinished(s, e.id) && e.id in s.pool.lastSched
    requires s.reqs[e.id].status != WaitingForRemoteKvs && d.status == s.reqs[e.id].status
    requires d.tokens >= s.reqs[e.id].tokens
    requires t == Retire(s.(steps := t.steps, reqs := s.reqs[e.id := d]), e.id, e.send)
    ensures TransferInv(t)
  {
    forall x | x in t.reqs
      ensures TransferOk(t, x)
    {
      assert TransferOk(s, x);
    }
  }

  lemma LoadsInvalidKeepsTransfers(cfg: Config, s: State, e: Event)
    requires TransferInv(s) && Enabled(cfg, s, e) && e.LoadsInvalid?
    ensures TransferInv(Apply(cfg, s, e))
  {
    var t := Apply(cfg, s, e);
    forall x | x in t.reqs
      ensures TransferOk(t, x)
    {
      assert TransferOk(s, x);
    }
    forall x | x in t.failed
      ensures x in t.reqs && t.reqs[x].status == WaitingForRemoteKvs && t.reqs[x].computed < t.reqs[x].tokens
    {
      assert x in s.reqs && TransferOk(s, x);
    }
  }

  lemma RunningEventsKeepTransfers(cfg: Config, s: State, e: Event)
    requires TransferInv(s) && Enabled(cfg, s, e)
    requires e.Take? || e.Preempt?
    ensures TransferInv(Apply(cfg, s, e))
  {
    hide ApplyOutput, Retire, Reclaim, ApplyCommit, ApplyLoadsInvalid, ApplyPromote, ApplyAdmit, ApplyAdmitAsync,
      ApplySkip, ApplyRequeue, ApplyAdd, ApplyBeginPass;
    var t := Apply(cfg, s, e);
    forall x | x in t.reqs
      ensures TransferOk(t, x)
    {
      assert TransferOk(s, x);
    }
  }

  lemma PromoteKeepsTransfers(cfg: Config, s: State, e: Event)
    requires TransferInv(s) && Enabled(cfg, s, e)
    requires e.Promote?
    ensures TransferInv(Apply(cfg, s, e))
  {
    var t := Apply(cfg, s, e);
    forall x | x in t.reqs
      ensures TransferOk(t, x)
    {
      assert TransferOk(s, x);
    }
  }

  lemma AdmitsKeepTransfers(cfg: Config, s: State, e: Event)
    requires TransferInv(s) && Enabled(cfg, s, e)
    requires e.AdmitAsync? || e.Admit?
    ensures TransferInv(Apply(cfg, s, e))
  {
    hide ApplyOutput, Retire, Reclaim, ApplyCommit, ApplyLoadsInvalid, ApplyPromote, ApplyPreempt, ApplyTake,
      ApplySkip, ApplyRequeue, ApplyAdd, ApplyBeginPass;
    var t := Apply(cfg, s, e);
    forall x | x in t.reqs
      ensures TransferOk(t, x)
    {
      assert TransferOk(s, x);
    }
  }

  lemma ReportsKeepTransfers(cfg: Config, s: State, e: Event)
    requires TransferInv(s) && Enabled(cfg, s, e)
    requires e.Received? || e.Sent?
    ensures TransferInv(Apply(cfg, s, e))
  {
    hide ApplyOutput, Retire, ApplyCommit, ApplyLoadsInvalid, ApplyPromote, ApplyPreempt, ApplyTake, ApplyAdmit,
      ApplyAdmitAsync, ApplySkip, ApplyRequeue, ApplyAdd, ApplyBeginPass;
    var t := Apply(cfg, s, e);
    forall x | x in t.reqs
      ensures TransferOk(t, x)
    {
      assert TransferOk(s, x);
    }
  }

  lemma OtherEventsKeepTransfers(cfg: Config, s: State, e: Event)
    requires TransferInv(s) && Enabled(cfg, s, e)
    requires || e.SetDrafts? || e.SetPlaceholders? || e.BeginPass? || e.Skip? || e.Requeue? || e.RetainCopy?
             || e.BeginOutput? || e.EndOutput?
    ensures TransferInv(Apply(cfg, s, e))
  {
    hide ApplyOutput, Retire, Reclaim, ApplyCommit, ApplyLoadsInvalid, ApplyPromote, ApplyPreempt, ApplyTake,
      ApplyAdmit, ApplyAdmitAsync, ApplyAdd;
    var t := Apply(cfg, s, e);
    forall x | x in t.reqs
      ensures TransferOk(t, x)
    {
      assert TransferOk(s, x);
    }
  }

  lemma AddKeepsTransfers(s: State, id: ReqId, r: Req, pos: nat)
    requires TransferInv(s) && id !in s.reqs && pos <= |s.waiting|
    requires r.tokens > 0 && r.status == Waiting && r.computed == 0
    ensures TransferInv(ApplyAdd(s, id, r, pos))
  {
    var t := ApplyAdd(s, id, r, pos);
    forall x | x in t.reqs
      ensures TransferOk(t, x)
    {
      if x != id {
        assert TransferOk(s, x);
      }
    }
  }

  lemma CommitKeepsTransfers(cfg: Config, s: State)
    requires TransferInv(s)
    requires forall id :: id in s.pass.shares ==> id in s.reqs && s.reqs[id].status == Running
    ensures TransferInv(ApplyCommit(s))
  {
    var t := ApplyCommit(s);
    forall x | x in t.reqs
      ensures TransferOk(t, x)
    {
      assert TransferOk(s, x);
    }
  }

  lemma TransfersKept(cfg: Config, s: State, e: Event)
    requires TransferInv(s) && Enabled(cfg, s, e) && OutputsSound(s, e)
    requires forall id :: id in s.pass.shares ==> id in s.reqs && s.reqs[id].status == Running
    ensures TransferInv(Apply(cfg, s, e))
  {
    if e.Output? {
      OutputKeepsTransfers(cfg, s, e);
    } else if e.Add? {
      AddKeepsTransfers(s, e.id, NewRequest(e.prompt, e.maxTokens, e.priority, e.arrival), e.pos);
    } else if e.Finish? {
      RetireKeepsTransfers(s, e.id, e.send);
    } else if e.Commit? {
      CommitKeepsTransfers(cfg, s);
    } else if e.LoadsInvalid? {
      LoadsInvalidKeepsTransfers(cfg, s, e);
    } else if e.Take? || e.Preempt? {
      RunningEventsKeepTransfers(cfg, s, e);
    } else if e.Promote? {
      PromoteKeepsTransfers(cfg, s, e);
    } else if e.AdmitAsync? || e.Admit? {
      AdmitsKeepTransfers(cfg, s, e);
    } else if e.Received? || e.Sent? {
      ReportsKeepTransfers(cfg, s, e);
    } else {
      OtherEventsKeepTransfers(cfg, s, e);
    }
  }
}
