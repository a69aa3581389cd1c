/** Failed loads inside update_from_output: the rows that recovery scans are the requests of the state, and
    what it does to them is an event of the machine. */
module LoadFailures {
  import opened Ledger
  import opened Machine
  import opened Queues
  import opened Runs
  import opened Returns
  import opened Collections
  import K = KvRecovery

  // ------------------------------------------------------------- rows of a request table

  function BlocksOf(held: map<ReqId, seq<Block>>, id: ReqId): seq<Block> {
    if id in held then held[id] else []
  }

  predicate AllKnown(reqs: map<ReqId, Req>, ids: seq<ReqId>) {
    forall id :: id in ids ==> id in reqs
  }

  function RowsFor(reqs: map<ReqId, Req>, held: map<ReqId, seq<Block>>, scheduled: map<ReqId, nat>, ids: seq<ReqId>)
    : seq<K.Row>
    requires AllKnown(reqs, ids)
  {
    seq(|ids|, k requires 0 <= k < |ids| =>
      K.Row(ids[k], reqs[ids[k]].computed, if ids[k] in scheduled then scheduled[ids[k]] else 0,
            BlocksOf(held, ids[k])))
  }

  /** num_scheduled_tokens of a step. */
  function TokensOf(shares: map<ReqId, Share>): map<ReqId, nat> {
    map id | id in shares :: shares[id].n
  }

  /** The requests of a queue that are waiting for remote KVs. */
  function LoadingOf(reqs: map<ReqId, Req>, q: seq<ReqId>): seq<ReqId> {
    if q == [] then []
    else LoadingOf(reqs, q[..|q| - 1])
         + if q[|q| - 1] in reqs && reqs[q[|q| - 1]].status == WaitingForRemoteKvs then [q[|q| - 1]] else []
  }

  lemma {:induction false} LoadingMeaning(reqs: map<ReqId, Req>, q: seq<ReqId>)
    ensures forall id :: id in LoadingOf(reqs, q) <==> id in q && id in reqs && reqs[id].status == WaitingForRemoteKvs
    ensures Distinct(q) ==> Distinct(LoadingOf(reqs, q))
  {
    if q != [] {
      var n := |q| - 1;
      LoadingMeaning(reqs, q[..n]);
      assert q == q[..n] + [q[n]];
      assert Distinct(q) ==> q[n] !in q[..n];
    }
  }

  /** The rows of the loads in the skipped queue, and of the running requests. */
  function LoadRows(s: State, shares: map<ReqId, Share>): seq<K.Row>
    requires AllKnown(s.reqs, LoadingOf(s.reqs, s.skipped))
  {
    RowsFor(s.reqs, s.pool.held, TokensOf(shares), LoadingOf(s.reqs, s.skipped))
  }

  function RunRows(s: State, shares: map<ReqId, Share>): seq<K.Row>
    requires AllKnown(s.reqs, s.running)
  {
    RowsFor(s.reqs, s.pool.held, TokensOf(shares), s.running)
  }

  // ------------------------------------------------------------- recovery as a truncation

  /** The truncated requests are the affected ones, and each keeps what the scan leaves it. */
  ghost predicate Recovers(truncated: map<ReqId, int>, loads: seq<K.Row>, runs: seq<K.Row>, blockSize: nat,
                           invalid: set<Block>)
    requires blockSize > 0
  {
    && truncated.Keys == K.AffectedIds(loads, blockSize, invalid) + K.AffectedIds(runs, blockSize, invalid)
    && KeptIn(truncated, loads, blockSize, invalid) && KeptIn(truncated, runs, blockSize, invalid)
  }

  ghost predicate KeptIn(truncated: map<ReqId, int>, rows: seq<K.Row>, blockSize: nat, invalid: set<Block>)
    requires blockSize > 0
  {
    forall k :: 0 <= k < |rows| && rows[k].id in truncated ==>
      truncated[rows[k].id] == K.Kept(rows[k], blockSize, invalid, K.MarkedBefore(rows, blockSize, invalid, k))
  }

  lemma RowsHaveIds(reqs: map<ReqId, Req>, held: map<ReqId, seq<Block>>, scheduled: map<ReqId, nat>, ids: seq<ReqId>)
    requires AllKnown(reqs, ids)
    ensures |RowsFor(reqs, held, scheduled, ids)| == |ids|
    ensures forall k :: 0 <= k < |ids| ==> RowsFor(reqs, held, scheduled, ids)[k].id == ids[k]
  {
  }

  lemma AffectedAre(rows: seq<K.Row>, blockSize: nat, invalid: set<Block>, id: ReqId)
    requires blockSize > 0 && id in K.AffectedIds(rows, blockSize, invalid)
    ensures exists k :: 0 <= k < |rows| && rows[k].id == id && K.Hits(rows[k].Scanned(blockSize), invalid) != {}
  {
  }

  /** A request that is not affected keeps all it had. */
  lemma NotAffectedKeeps(rows: seq<K.Row>, blockSize: nat, invalid: set<Block>, k: nat)
    requires blockSize > 0 && k < |rows| && rows[k].id !in K.AffectedIds(rows, blockSize, invalid)
    ensures K.Kept(rows[k], blockSize, invalid, K.MarkedBefore(rows, blockSize, invalid, k)) == rows[k].computed
  {
    K.UnaffectedKeepsAll(rows[k], blockSize, invalid, K.MarkedBefore(rows, blockSize, invalid, k));
  }

  /** Where the scan looks in a reachable state: the two lists are disjoint and repeat nothing. */
  lemma ScannedLists(cfg: Config, s: State)
    requires Reachable(cfg, s)
    ensures (forall id :: id in s.running ==> HasStatus(s.reqs, id, Running)) && Distinct(s.running)
    ensures var ids := LoadingOf(s.reqs, s.skipped);
            (forall id :: id in ids ==> HasStatus(s.reqs, id, WaitingForRemoteKvs)) && Distinct(ids)
  {
    hide Reachable;
    ReachableInv(cfg, s);
    LoadingMeaning(s.reqs, s.skipped);
    forall id | id in s.running
      ensures HasStatus(s.reqs, id, Running)
    {
      assert PlacedOk(s, id);
      CountIn(s.running, id);
    }
    forall j, k | 0 <= j < k < |s.running|
      ensures s.running[j] != s.running[k]
    {
      assert PlacedOk(s, s.running[j]);
      CountTwice(s.running, j, k);
    }
    forall j, k | 0 <= j < k < |s.skipped|
      ensures s.skipped[j] != s.skipped[k]
    {
      assert PlacedOk(s, s.skipped[j]);
      CountTwice(s.skipped, j, k);
    }
  }

  lemma AffectedHave(reqs: map<ReqId, Req>, held: map<ReqId, seq<Block>>, scheduled: map<ReqId, nat>, ids: seq<ReqId>,
                     blockSize: nat, invalid: set<Block>)
    requires blockSize > 0 && AllKnown(reqs, ids)
    ensures forall id :: id in K.AffectedIds(RowsFor(reqs, held, scheduled, ids), blockSize, invalid) ==> id in ids
  {
    var rows := RowsFor(reqs, held, scheduled, ids);
    forall id | id in K.AffectedIds(rows, blockSize, invalid)
      ensures id in ids
    {
      AffectedAre(rows, blockSize, invalid, id);
      var k :| 0 <= k < |rows| && rows[k].id == id && K.Hits(rows[k].Scanned(blockSize), invalid) != {};
      assert ids[k] == id;
    }
  }

  /** An affected load is truncated as the scan says. */
  lemma LoadIsTruncated(truncated: map<ReqId, int>, loads: seq<K.Row>, blockSize: nat, invalid: set<Block>, id: ReqId)
    requires blockSize > 0 && KeptIn(truncated, loads, blockSize, invalid)
    requires id in truncated && id in K.AffectedIds(loads, blockSize, invalid)
    ensures exists k :: 0 <= k < |loads| && K.IsTruncation(loads, blockSize, invalid, k, id, truncated[id])
  {
    AffectedAre(loads, blockSize, invalid, id);
    var k :| 0 <= k < |loads| && loads[k].id == id && K.Hits(loads[k].Scanned(blockSize), invalid) != {};
    assert K.IsTruncation(loads, blockSize, invalid, k, id, truncated[id]);
  }

  /** Each affected load marks a block or had a share in the step, as it does when asynchronous loads share no
      invalid block: the source's own assumption. */
  ghost predicate LoadsShrink(s: State, shares: map<ReqId, Share>, blockSize: nat, invalid: set<Block>) {
    && blockSize > 0
    && (AllKnown(s.reqs, LoadingOf(s.reqs, s.skipped)) ==> K.AllShrink(LoadRows(s, shares), blockSize, invalid))
  }

  /** What the scan may assume of the state. */
  ghost predicate MayRecover(s: State, blockSize: nat) {
    && blockSize > 0
    && (forall id :: id in LoadingOf(s.reqs, s.skipped) ==> HasStatus(s.reqs, id, WaitingForRemoteKvs))
    && (forall id :: id in s.running ==> HasStatus(s.reqs, id, Running))
    && AllKnown(s.reqs, LoadingOf(s.reqs, s.skipped)) && AllKnown(s.reqs, s.running)
    && Distinct(LoadingOf(s.reqs, s.skipped)) && Distinct(s.running)
    && (forall id :: id in LoadingOf(s.reqs, s.skipped) ==> id !in s.running)
  }

  lemma ReachableMayRecover(cfg: Config, s: State, blockSize: nat)
    requires Reachable(cfg, s) && blockSize > 0
    ensures MayRecover(s, blockSize)
  {
    hide Reachable;
    ScannedLists(cfg, s);
  }

  /** The truncations of a state's requests for a set of invalid blocks. */
  ghost predicate IsRecovery(s: State, shares: map<ReqId, Share>, blockSize: nat, invalid: set<Block>,
                             truncated: map<ReqId, int>) {
    && MayRecover(s, blockSize)
    && Recovers(truncated, LoadRows(s, shares), RunRows(s, shares), blockSize, invalid)
  }

  /** The ids whose outputs are skipped, and the loads newly marked failed. */
  ghost predicate Skips(cfg: Config, s: State, shares: map<ReqId, Share>, blockSize: nat, invalid: set<Block>,
                        skip: set<ReqId>)
  {
    && MayRecover(s, blockSize)
    && var a := K.AffectedIds(LoadRows(s, shares), blockSize, invalid);
       var r := K.AffectedIds(RunRows(s, shares), blockSize, invalid);
       skip == if cfg.recomputeLoadFailures then r else a + r
  }

  /** A request's table holds an invalid block among the ones for the tokens computed before the step. */
  ghost predicate ComputedFrom(s: State, shares: map<ReqId, Share>, blockSize: nat, invalid: set<Block>, id: ReqId) {
    && id in s.reqs
    && var before := s.reqs[id].computed - if id in shares then shares[id].n else 0;
       exists k :: 0 <= k < |s.pool.Held(id)| && k * blockSize < before && s.pool.Held(id)[k] in invalid
  }

  lemma RowHasInvalid(s: State, shares: map<ReqId, Share>, ids: seq<ReqId>, blockSize: nat, invalid: set<Block>,
                      id: ReqId)
    requires blockSize > 0 && AllKnown(s.reqs, ids)
    ensures id in K.AffectedIds(RowsFor(s.reqs, s.pool.held, TokensOf(shares), ids), blockSize, invalid) <==>
            id in ids && ComputedFrom(s, shares, blockSize, invalid, id)
  {
    var rows := RowsFor(s.reqs, s.pool.held, TokensOf(shares), ids);
    K.AffectedIff(rows, blockSize, invalid, id);
    forall i | 0 <= i < |rows|
      ensures rows[i].id == ids[i] && (K.HasInvalid(rows[i], blockSize, invalid) <==>
                                         ComputedFrom(s, shares, blockSize, invalid, ids[i]))
    {
      assert rows[i].blocks == s.pool.Held(ids[i]);
    }
    if id in ids {
      var i :| 0 <= i < |ids| && ids[i] == id;
      assert rows[i].id == id;
    }
  }

  /** No output computed from an invalid block is taken in: the ids to skip are exactly the running requests with
      such a block, and, if failures are not recomputed, the loads with one. */
  lemma SkippedIff(cfg: Config, s: State, shares: map<ReqId, Share>, blockSize: nat, invalid: set<Block>,
                   skip: set<ReqId>, id: ReqId)
    requires Skips(cfg, s, shares, blockSize, invalid, skip)
    ensures id in skip <==>
            && ComputedFrom(s, shares, blockSize, invalid, id)
            && (id in s.running
                || (!cfg.recomputeLoadFailures && id in s.skipped && HasStatus(s.reqs, id, WaitingForRemoteKvs)))
  {
    hide K.AffectedIds, ComputedFrom, RowsFor;
    RowHasInvalid(s, shares, LoadingOf(s.reqs, s.skipped), blockSize, invalid, id);
    RowHasInvalid(s, shares, s.running, blockSize, invalid, id);
    LoadingMeaning(s.reqs, s.skipped);
  }

  /** Recovery from failed loads is the machine's event exactly when each affected load loses something. */
  lemma RecoveryIsEnabledIff(cfg: Config, s: State, shares: map<ReqId, Share>, blockSize: nat, invalid: set<Block>,
                             truncated: map<ReqId, int>)
    requires s.phase == Processing && IsRecovery(s, shares, blockSize, invalid, truncated)
    ensures Enabled(cfg, s, LoadsInvalid(truncated)) <==> LoadsShrink(s, shares, blockSize, invalid)
  {
    hide K.AffectedIds, K.IsTruncation, K.AllShrink, K.Row.Scanned;
    var loads := LoadRows(s, shares);
    var loading := LoadingOf(s.reqs, s.skipped);
    AffectedHave(s.reqs, s.pool.held, TokensOf(shares), loading, blockSize, invalid);
    AffectedHave(s.reqs, s.pool.held, TokensOf(shares), s.running, blockSize, invalid);
    hide LoadingOf;
    forall id | id in truncated && s.reqs[id].status == WaitingForRemoteKvs
      ensures exists k :: 0 <= k < |loads| && K.IsTruncation(loads, blockSize, invalid, k, id, truncated[id])
    {
      LoadIsTruncated(truncated, loads, blockSize, invalid, id);
    }
    forall k | 0 <= k < |loads|
      ensures K.IsLoad(s, loads[k])
    {
      assert loads[k].id == loading[k] && loading[k] in loading;
    }
    forall k | 0 <= k < |loads| && K.Hits(loads[k].Scanned(blockSize), invalid) != {}
      ensures loads[k].id in truncated
      ensures K.IsTruncation(loads, blockSize, invalid, k, loads[k].id, truncated[loads[k].id])
    {
      HitIsAffected(truncated, loads, blockSize, invalid, k);
    }
    K.RecoveryIsAnEvent(cfg, s, loads, blockSize, invalid, truncated);
  }

  lemma HitIsAffected(truncated: map<ReqId, int>, loads: seq<K.Row>, blockSize: nat, invalid: set<Block>, k: nat)
    requires blockSize > 0 && KeptIn(truncated, loads, blockSize, invalid)
    requires K.AffectedIds(loads, blockSize, invalid) <= truncated.Keys
    requires k < |loads| && K.Hits(loads[k].Scanned(blockSize), invalid) != {}
    ensures loads[k].id in truncated
    ensures K.IsTruncation(loads, blockSize, invalid, k, loads[k].id, truncated[loads[k].id])
  {
    hide K.Hits, K.Row.Scanned, K.Kept, K.MarkedBefore;
    assert loads[k].id in K.AffectedIds(loads, blockSize, invalid);
  }

  lemma RecoveryReaches(cfg: Config, s: State, shares: map<ReqId, Share>, blockSize: nat, invalid: set<Block>,
                        truncated: map<ReqId, int>)
    requires Reachable(cfg, s) && s.phase == Processing && IsRecovery(s, shares, blockSize, invalid, truncated)
    requires LoadsShrink(s, shares, blockSize, invalid)
    ensures Reachable(cfg, ApplyLoadsInvalid(cfg, s, truncated))
    ensures Follows(cfg, s, ApplyLoadsInvalid(cfg, s, truncated))
  {
    hide Reachable, Follows, IsRecovery, LoadsShrink;
    RecoveryIsEnabledIff(cfg, s, shares, blockSize, invalid, truncated);
    StepReaches(cfg, s, LoadsInvalid(truncated));
  }

  /** What becomes of a load that was whole and is marked failed: once it is promoted it has a token to compute
      exactly if it lost something.  Otherwise it keeps all its tokens, invalid ones too, and none is left. */
  lemma PromotionLeavesWorkIff(cfg: Config, s: State, shares: map<ReqId, Share>, blockSize: nat, invalid: set<Block>,
                               truncated: map<ReqId, int>, k: nat)
    requires cfg.recomputeLoadFailures && IsRecovery(s, shares, blockSize, invalid, truncated)
    requires var loads := LoadRows(s, shares);
             && k < |loads| && K.Hits(loads[k].Scanned(blockSize), invalid) != {}
             && s.reqs[loads[k].id].computed == s.reqs[loads[k].id].tokens
    ensures var row := LoadRows(s, shares)[k];
            var t := ApplyLoadsInvalid(cfg, s, truncated);
            && row.id in t.failed
            && var p := ApplyPromote(t, row.id).reqs[row.id];
               (p.computed < p.tokens <==>
                  row.scheduled > 0 || K.Marks(LoadRows(s, shares), blockSize, invalid, k))
  {
    hide K.AffectedIds, K.Marks, K.Kept, K.MarkedBefore, K.Row.Scanned, K.Hits;
    var loads, loading := LoadRows(s, shares), LoadingOf(s.reqs, s.skipped);
    assert loads[k].id == loading[k] && loading[k] in loading;
    HitIsAffected(truncated, loads, blockSize, invalid, k);
    K.TruncatedIffMarks(loads, blockSize, invalid, k);
  }

  /** With recomputation the loads with an invalid block, and no other requests, are marked failed. */
  lemma MarkedFailedIff(cfg: Config, s: State, shares: map<ReqId, Share>, blockSize: nat, invalid: set<Block>,
                        truncated: map<ReqId, int>, id: ReqId)
    requires IsRecovery(s, shares, blockSize, invalid, truncated)
    ensures id in ApplyLoadsInvalid(cfg, s, truncated).failed <==>
            || id in s.failed
            || (cfg.recomputeLoadFailures && id in s.skipped && HasStatus(s.reqs, id, WaitingForRemoteKvs)
                && ComputedFrom(s, shares, blockSize, invalid, id))
  {
    hide K.AffectedIds, ComputedFrom, RowsFor, Recovers;
    RecoveryMarks(cfg, s, shares, blockSize, invalid, truncated);
    RowHasInvalid(s, shares, LoadingOf(s.reqs, s.skipped), blockSize, invalid, id);
    LoadingMeaning(s.reqs, s.skipped);
  }

  lemma RecoveryMarks(cfg: Config, s: State, shares: map<ReqId, Share>, blockSize: nat, invalid: set<Block>,
                      truncated: map<ReqId, int>)
    requires IsRecovery(s, shares, blockSize, invalid, truncated)
    ensures ApplyLoadsInvalid(cfg, s, truncated).failed
            == if cfg.recomputeLoadFailures
               then s.failed + K.AffectedIds(LoadRows(s, shares), blockSize, invalid) else s.failed
  {
    hide K.AffectedIds;
    AffectedHave(s.reqs, s.pool.held, TokensOf(shares), LoadingOf(s.reqs, s.skipped), blockSize, invalid);
    AffectedHave(s.reqs, s.pool.held, TokensOf(shares), s.running, blockSize, invalid);
  }

  /** Without invalid blocks nothing is truncated. */
  lemma NothingInvalid(cfg: Config, s: State)
    ensures ApplyLoadsInvalid(cfg, s, map[]) == s
  {
    assert Truncate(s.reqs, map[]) == s.reqs;
  }

  /** Processing a step leaves the requests and their block tables as the scan sees them. */
  lemma SameRows(s: State, t: State, shares: map<ReqId, Share>, blockSize: nat)
    requires t.reqs == s.reqs && t.pool.held == s.pool.held && t.skipped == s.skipped && t.running == s.running
    ensures forall invalid :: LoadsShrink(s, shares, blockSize, invalid) ==>
              blockSize > 0 && LoadsShrink(t, shares, blockSize, invalid)
    ensures forall invalid, truncated :: IsRecovery(t, shares, blockSize, invalid, truncated) ==>
              IsRecovery(s, shares, blockSize, invalid, truncated)
    ensures forall cfg, invalid, skip :: Skips(cfg, t, shares, blockSize, invalid, skip) ==>
              Skips(cfg, s, shares, blockSize, invalid, skip)
  {
    hide K.AllShrink, K.AffectedIds, Recovers;
  }

  lemma RecoveryKeepsReturning(cfg: Config, s0: State, shares: map<ReqId, Share>, s: State, truncated: map<ReqId, int>)
    requires Returning(s0, shares, shares.Keys, s)
    ensures Returning(s0, shares, shares.Keys, ApplyLoadsInvalid(cfg, s, truncated))
  {
  }
}
