/** Recovery from failed KV loads: which computed tokens each request keeps when blocks turn out invalid. */
module KvRecovery {
  import opened Ledger
  import opened Machine
  import opened Requests
  import opened Collections

  /** What the scan knows of one request: its computed tokens, its share of the step being processed, and
      its block table. */
  datatype Row = Row(id: ReqId, computed: int, scheduled: nat, blocks: seq<Block>)
  {
    /** The tokens computed before the step: the part an external load may have filled. */
    function Before(): int {
      computed - scheduled
    }

    /** How many leading blocks hold them. */
    function Depth(blockSize: nat): (depth: nat)
      requires blockSize > 0
      ensures depth <= |blocks|
    {
      var n := (Before() + blockSize - 1) / blockSize;
      if n < 0 then 0 else if n > |blocks| then |blocks| else n
    }

    function Scanned(blockSize: nat): seq<Block>
      requires blockSize > 0
    {
      blocks[..Depth(blockSize)]
    }
  }

  function Hits(q: seq<Block>, invalid: set<Block>): set<Block> {
    set b | b in q && b in invalid
  }

  predicate IsNew(b: Block, invalid: set<Block>, marked: set<Block>) {
    b in invalid && b !in marked
  }

  /** The first position of a block that is invalid and not yet marked; |q| if there is none. */
  function FirstNew(q: seq<Block>, invalid: set<Block>, marked: set<Block>): (f: nat)
    ensures f <= |q| && (f < |q| ==> IsNew(q[f], invalid, marked))
    ensures forall k :: 0 <= k < f ==> !IsNew(q[k], invalid, marked)
  {
    if q == [] || IsNew(q[0], invalid, marked) then 0 else 1 + FirstNew(q[1..], invalid, marked)
  }

  /** The tokens a request keeps, given the blocks that earlier requests have marked: up to its first newly
      marked block; all of the earlier steps' if its invalid blocks are recomputed by others; else all. */
  function Kept(row: Row, blockSize: nat, invalid: set<Block>, marked: set<Block>): int
    requires blockSize > 0
  {
    var q := row.Scanned(blockSize);
    var f := FirstNew(q, invalid, marked);
    if f < |q| then f * blockSize else if Hits(q, invalid) != {} then row.Before() else row.computed
  }

  /** Its contribution to total_affected_tokens. */
  function Lost(row: Row, blockSize: nat, invalid: set<Block>, marked: set<Block>): int
    requires blockSize > 0
  {
    var q := row.Scanned(blockSize);
    var f := FirstNew(q, invalid, marked);
    if f < |q| then row.Before() - f * blockSize
    else if Hits(q, invalid) != {} then row.computed - row.Before() else 0
  }

  /** Its contribution to blocks_to_evict: the first newly marked block and everything after it. */
  function Evicted(row: Row, blockSize: nat, invalid: set<Block>, marked: set<Block>): set<Block>
    requires blockSize > 0
  {
    var f := FirstNew(row.Scanned(blockSize), invalid, marked);
    if f < |row.Scanned(blockSize)| then set b | b in row.blocks[f..] else {}
  }

  /** marked_invalid_block_ids when request i is reached. */
  function MarkedBefore(rows: seq<Row>, blockSize: nat, invalid: set<Block>, i: nat): set<Block>
    requires blockSize > 0 && i <= |rows|
  {
    if i == 0 then {} else MarkedBefore(rows, blockSize, invalid, i - 1) + Hits(rows[i - 1].Scanned(blockSize), invalid)
  }

  function AffectedIds(rows: seq<Row>, blockSize: nat, invalid: set<Block>): set<ReqId>
    requires blockSize > 0
  {
    set k | 0 <= k < |rows| && Hits(rows[k].Scanned(blockSize), invalid) != {} :: rows[k].id
  }

  function TotalLost(rows: seq<Row>, blockSize: nat, invalid: set<Block>, i: nat): int
    requires blockSize > 0 && i <= |rows|
  {
    if i == 0 then 0
    else TotalLost(rows, blockSize, invalid, i - 1)
         + Lost(rows[i - 1], blockSize, invalid, MarkedBefore(rows, blockSize, invalid, i - 1))
  }

  function AllEvicted(rows: seq<Row>, blockSize: nat, invalid: set<Block>, i: nat): set<Block>
    requires blockSize > 0 && i <= |rows|
  {
    if i == 0 then {}
    else AllEvicted(rows, blockSize, invalid, i - 1)
         + Evicted(rows[i - 1], blockSize, invalid, MarkedBefore(rows, blockSize, invalid, i - 1))
  }

  // ------------------------------------------------------------- the scan

  /** The inner loop: walks one request's blocks, marking and truncating as it goes. */
  method ScanRequest(request: Request, scheduled: nat, blocks: seq<Block>, blockSize: nat, invalid: set<Block>,
                     marked0: set<Block>, evictBlocks: bool)
    returns (isAffected: bool, lost: int, toEvict: set<Block>, marked: set<Block>)
    requires blockSize > 0
    modifies request`computed
    ensures var row := Row(request.id, old(request.computed), scheduled, blocks);
            && request.computed == Kept(row, blockSize, invalid, marked0)
            && (isAffected <==> Hits(row.Scanned(blockSize), invalid) != {})
            && lost == Lost(row, blockSize, invalid, marked0)
            && toEvict == (if evictBlocks then Evicted(row, blockSize, invalid, marked0) else {})
            && marked == marked0 + Hits(row.Scanned(blockSize), invalid)
  {
    hide Row.Depth, FirstNew, Hits, Evicted;
    var row := Row(request.id, request.computed, scheduled, blocks);
    ghost var q := row.Scanned(blockSize);
    ghost var f := FirstNew(q, invalid, marked0);
    EvictedFrom(row, blockSize, invalid, marked0);
    NoHits(invalid);
    isAffected, lost, toEvict, marked := false, 0, {}, marked0;
    var markedInvalidBlock := false;
    var numComputedTokens := request.computed - scheduled;
    var depth := row.Depth(blockSize);
    var idx := 0;
    while idx < depth
      invariant 0 <= idx <= |q| == depth && marked == marked0 + Hits(q[..idx], invalid)
      invariant isAffected <==> Hits(q[..idx], invalid) != {}
      invariant markedInvalidBlock <==> f < idx
      invariant request.computed == if f < idx then f * blockSize else row.computed
      invariant lost == if f < idx then row.Before() - f * blockSize else 0
      invariant toEvict == if f < idx && evictBlocks then Evicted(row, blockSize, invalid, marked0) else {}
    {
      var blockId := blocks[idx];
      assert q[idx] == blockId && q[..idx + 1] == q[..idx] + [blockId];
      ExtendHits(q[..idx], blockId, invalid);
      SeenBefore(q, idx, invalid, marked0, blockId);
      if blockId in invalid {
        isAffected := true;
        if blockId !in marked {
          marked := marked + {blockId};
          if !markedInvalidBlock {
            markedInvalidBlock := true;
            request.computed := idx * blockSize;
            lost := lost + (numComputedTokens - request.computed);
            if evictBlocks {
              toEvict := toEvict + set b | b in blocks[idx..];
            }
          }
        }
      }
      idx := idx + 1;
    }
    assert q[..idx] == q;
    if isAffected && !markedInvalidBlock {
      lost := lost + (request.computed - numComputedTokens);
      request.computed := numComputedTokens;
    }
  }

  lemma NoHits(invalid: set<Block>)
    ensures Hits([], invalid) == {}
  {
  }

  /** A block marked earlier in this very request comes after the first new one. */
  lemma SeenBefore(q: seq<Block>, idx: nat, invalid: set<Block>, marked: set<Block>, b: Block)
    requires idx <= |q|
    ensures b in Hits(q[..idx], invalid) && b !in marked ==> FirstNew(q, invalid, marked) < idx
  {
    if b in Hits(q[..idx], invalid) && b !in marked {
      var k :| 0 <= k < idx && q[..idx][k] == b;
      assert IsNew(q[k], invalid, marked);
    }
  }

  lemma EvictedFrom(row: Row, blockSize: nat, invalid: set<Block>, marked: set<Block>)
    requires blockSize > 0
    ensures var f := FirstNew(row.Scanned(blockSize), invalid, marked);
            Evicted(row, blockSize, invalid, marked)
            == if f < |row.Scanned(blockSize)| then set b | b in row.blocks[f..] else {}
  {
  }

  lemma ExtendHits(q: seq<Block>, b: Block, invalid: set<Block>)
    ensures Hits(q + [b], invalid) == Hits(q, invalid) + if b in invalid then {b} else {}
  {
  }

  /** The rows are the requests as the scan finds them. */
  ghost predicate AreRows(rows: seq<Row>, requests: seq<Request>, blockIds: map<ReqId, seq<Block>>,
                          scheduled: map<ReqId, nat>)
    reads requests
  {
    && |rows| == |requests|
    && (forall k :: 0 <= k < |requests| ==>
          && requests[k].id in blockIds
          && rows[k] == Row(requests[k].id, requests[k].computed,
                            if requests[k].id in scheduled then scheduled[requests[k].id] else 0,
                            blockIds[requests[k].id]))
  }

  /** _update_requests_with_invalid_blocks() */
  method UpdateRequestsWithInvalidBlocks(requests: seq<Request>, blockIds: map<ReqId, seq<Block>>,
                                         scheduled: map<ReqId, nat>, blockSize: nat, invalid: set<Block>,
                                         evictBlocks: bool, ghost rows: seq<Row>)
    returns (affected: set<ReqId>, total: int, toEvict: set<Block>)
    requires blockSize > 0 && AreRows(rows, requests, blockIds, scheduled)
    requires Distinct(requests)
    modifies (set r | r in requests)`computed
    ensures forall k :: 0 <= k < |requests| ==>
              requests[k].computed == Kept(rows[k], blockSize, invalid, MarkedBefore(rows, blockSize, invalid, k))
    ensures affected == AffectedIds(rows, blockSize, invalid)
    ensures total == TotalLost(rows, blockSize, invalid, |rows|)
    ensures toEvict == if evictBlocks then AllEvicted(rows, blockSize, invalid, |rows|) else {}
  {
    hide Kept, Lost, Evicted, Hits, Row.Scanned, MarkedBefore, AffectedIds, TotalLost, AllEvicted;
    NoRows(rows, blockSize, invalid);
    affected, total, toEvict := {}, 0, {};
    var marked: set<Block> := {};
    for i := 0 to |requests|
      invariant marked == MarkedBefore(rows, blockSize, invalid, i)
      invariant affected == AffectedIds(rows[..i], blockSize, invalid)
      invariant total == TotalLost(rows, blockSize, invalid, i)
      invariant toEvict == if evictBlocks then AllEvicted(rows, blockSize, invalid, i) else {}
      invariant forall k :: 0 <= k < i ==>
                  requests[k].computed == Kept(rows[k], blockSize, invalid, MarkedBefore(rows, blockSize, invalid, k))
      invariant forall k :: i <= k < |requests| ==> requests[k].computed == rows[k].computed
    {
      var request := requests[i];
      assert request in requests;
      var share := if request.id in scheduled then scheduled[request.id] else 0;
      var isAffected, lost, evicted, nowMarked :=
        ScanRequest(request, share, blockIds[request.id], blockSize, invalid, marked, evictBlocks);
      OneMoreRow(rows, blockSize, invalid, i);
      OneMoreAffected(rows, blockSize, invalid, i);
      if isAffected {
        affected := affected + {request.id};
      }
      total, toEvict, marked := total + lost, toEvict + evicted, nowMarked;
    }
    assert rows[..|rows|] == rows;
  }

  lemma NoRows(rows: seq<Row>, blockSize: nat, invalid: set<Block>)
    requires blockSize > 0
    ensures MarkedBefore(rows, blockSize, invalid, 0) == {} && AffectedIds(rows[..0], blockSize, invalid) == {}
    ensures TotalLost(rows, blockSize, invalid, 0) == 0 && AllEvicted(rows, blockSize, invalid, 0) == {}
  {
  }

  lemma OneMoreRow(rows: seq<Row>, blockSize: nat, invalid: set<Block>, i: nat)
    requires blockSize > 0 && i < |rows|
    ensures var marked := MarkedBefore(rows, blockSize, invalid, i);
            && MarkedBefore(rows, blockSize, invalid, i + 1) == marked + Hits(rows[i].Scanned(blockSize), invalid)
            && TotalLost(rows, blockSize, invalid, i + 1)
               == TotalLost(rows, blockSize, invalid, i) + Lost(rows[i], blockSize, invalid, marked)
            && AllEvicted(rows, blockSize, invalid, i + 1)
               == AllEvicted(rows, blockSize, invalid, i) + Evicted(rows[i], blockSize, invalid, marked)
  {
    hide Kept, Lost, Evicted, Hits, Row.Scanned;
  }

  lemma OneMoreAffected(rows: seq<Row>, blockSize: nat, invalid: set<Block>, i: nat)
    requires blockSize > 0 && i < |rows|
    ensures AffectedIds(rows[..i + 1], blockSize, invalid)
            == AffectedIds(rows[..i], blockSize, invalid)
               + if Hits(rows[i].Scanned(blockSize), invalid) != {} then {rows[i].id} else {}
  {
    hide Hits, Row.Scanned;
    var before, after := AffectedIds(rows[..i], blockSize, invalid), AffectedIds(rows[..i + 1], blockSize, invalid);
    forall id | id in after
      ensures id in before || (id == rows[i].id && Hits(rows[i].Scanned(blockSize), invalid) != {})
    {
      var k :| 0 <= k < i + 1 && Hits(rows[..i + 1][k].Scanned(blockSize), invalid) != {} && rows[..i + 1][k].id == id;
      assert k < i ==> rows[..i][k] == rows[k];
    }
    forall id | id in before
      ensures id in after
    {
      var k :| 0 <= k < i && Hits(rows[..i][k].Scanned(blockSize), invalid) != {} && rows[..i][k].id == id;
      assert rows[..i + 1][k] == rows[k];
    }
    assert rows[..i + 1][i] == rows[i];
  }

  // ------------------------------------------------------------- what recovery guarantees

  /** Request i is the one that recomputes block b: it is the first whose scanned prefix holds it. */
  ghost predicate MarkedBy(rows: seq<Row>, blockSize: nat, invalid: set<Block>, i: nat, b: Block)
    requires blockSize > 0 && i < |rows|
  {
    b in rows[i].Scanned(blockSize) && IsNew(b, invalid, MarkedBefore(rows, blockSize, invalid, i))
  }

  lemma {:induction false} MarkedBeforeMeaning(rows: seq<Row>, blockSize: nat, invalid: set<Block>, i: nat, b: Block)
    requires blockSize > 0 && i <= |rows|
    ensures b in MarkedBefore(rows, blockSize, invalid, i) <==>
            b in invalid && exists j :: 0 <= j < i && b in rows[j].Scanned(blockSize)
  {
    hide Row.Scanned;
    if i > 0 {
      MarkedBeforeMeaning(rows, blockSize, invalid, i - 1, b);
    }
  }

  /** Every invalid block inside some request's computed prefix is recomputed by exactly one request. */
  lemma MarkedByExactlyOne(rows: seq<Row>, blockSize: nat, invalid: set<Block>, b: Block) returns (i: nat)
    requires blockSize > 0 && b in invalid && exists j :: 0 <= j < |rows| && b in rows[j].Scanned(blockSize)
    ensures i < |rows| && MarkedBy(rows, blockSize, invalid, i, b)
    ensures forall j: nat :: j < |rows| && MarkedBy(rows, blockSize, invalid, j, b) ==> j == i
  {
    hide Row.Scanned;
    i := 0;
    while b !in rows[i].Scanned(blockSize)
      invariant i < |rows| && forall j :: 0 <= j < i ==> b !in rows[j].Scanned(blockSize)
      decreases |rows| - i
    {
      var j :| 0 <= j < |rows| && b in rows[j].Scanned(blockSize);
      assert j > i;
      i := i + 1;
    }
    MarkedBeforeMeaning(rows, blockSize, invalid, i, b);
    forall j: nat | j < |rows| && MarkedBy(rows, blockSize, invalid, j, b)
      ensures j == i
    {
      MarkedBeforeMeaning(rows, blockSize, invalid, j, b);
    }
  }

  lemma Deeper(a: int, b: int, unit: int)
    requires a <= b && unit >= 0
    ensures a * unit <= b * unit
  {
  }

  /** Whoever marks a block starts again at or before it. */
  lemma MarkerRestartsBefore(rows: seq<Row>, blockSize: nat, invalid: set<Block>, i: nat, k: nat)
    requires blockSize > 0 && i < |rows| && k < rows[i].Depth(blockSize)
    requires MarkedBy(rows, blockSize, invalid, i, rows[i].blocks[k])
    ensures Kept(rows[i], blockSize, invalid, MarkedBefore(rows, blockSize, invalid, i)) <= k * blockSize
  {
    var q := rows[i].Scanned(blockSize);
    var f := FirstNew(q, invalid, MarkedBefore(rows, blockSize, invalid, i));
    assert q[k] == rows[i].blocks[k];
    Deeper(f, k, blockSize);
  }

  /** Every scanned block that lies in what a request keeps is valid or recomputed by an earlier request. */
  lemma KeptBlocksAreSound(rows: seq<Row>, blockSize: nat, invalid: set<Block>, i: nat, k: nat)
    requires blockSize > 0 && i < |rows| && k < rows[i].Depth(blockSize)
    requires k * blockSize < Kept(rows[i], blockSize, invalid, MarkedBefore(rows, blockSize, invalid, i))
    ensures rows[i].blocks[k] !in invalid || rows[i].blocks[k] in MarkedBefore(rows, blockSize, invalid, i)
  {
    var q := rows[i].Scanned(blockSize);
    var f := FirstNew(q, invalid, MarkedBefore(rows, blockSize, invalid, i));
    assert q[k] == rows[i].blocks[k];
    if f <= k {
      Deeper(f, k, blockSize);
    }
  }

  /** total_affected_tokens counts what a marking request had before the step and loses, and what one that
      only shares invalid blocks was given in the step. */
  lemma LostIsWhatIsGivenUp(row: Row, blockSize: nat, invalid: set<Block>, marked: set<Block>)
    requires blockSize > 0
    ensures var marks := FirstNew(row.Scanned(blockSize), invalid, marked) < |row.Scanned(blockSize)|;
            Lost(row, blockSize, invalid, marked)
            == (if marks then row.Before() else row.computed) - Kept(row, blockSize, invalid, marked)
  {
  }

  /** An affected request keeps no more than it had computed before the step, so for it the previous
      statement covers its whole new prefix. */
  lemma AffectedKeepsScanned(row: Row, blockSize: nat, invalid: set<Block>, marked: set<Block>, k: nat)
    requires blockSize > 0 && Hits(row.Scanned(blockSize), invalid) != {}
    requires k < |row.blocks| && k * blockSize < Kept(row, blockSize, invalid, marked)
    ensures Kept(row, blockSize, invalid, marked) <= row.Before()
    ensures k < row.Depth(blockSize)
  {
    var q := row.Scanned(blockSize);
    var f := FirstNew(q, invalid, marked);
    if f < |q| {
      InDepth(row, blockSize, f);
    }
    if k >= row.Depth(blockSize) {
      BeyondDepth(row, blockSize, k);
    }
  }

  /** Everything in what request i keeps is valid or recomputed by an earlier request. */
  ghost predicate PrefixSound(rows: seq<Row>, blockSize: nat, invalid: set<Block>, i: nat)
    requires blockSize > 0 && i < |rows|
  {
    forall k :: 0 <= k < |rows[i].blocks|
                && k * blockSize < Kept(rows[i], blockSize, invalid, MarkedBefore(rows, blockSize, invalid, i)) ==>
      Covered(rows, blockSize, invalid, i, rows[i].blocks[k])
  }

  ghost predicate Covered(rows: seq<Row>, blockSize: nat, invalid: set<Block>, i: nat, b: Block)
    requires blockSize > 0 && i < |rows|
  {
    b !in invalid || b in MarkedBefore(rows, blockSize, invalid, i)
  }

  /** Beyond the scanned blocks, those that the step being processed counts as computed are covered. */
  ghost predicate TailCovered(rows: seq<Row>, blockSize: nat, invalid: set<Block>, i: nat)
    requires blockSize > 0 && i < |rows|
  {
    forall k :: rows[i].Depth(blockSize) <= k < |rows[i].blocks| && k * blockSize < rows[i].computed ==>
      Covered(rows, blockSize, invalid, i, rows[i].blocks[k])
  }

  /** Every block left in a request's computed prefix is valid or recomputed by an earlier request, exactly
      when the request is affected or its unscanned blocks are: the scan stops at what was computed before the
      step, and an unaffected request keeps the step's share too. */
  lemma PrefixSoundIff(rows: seq<Row>, blockSize: nat, invalid: set<Block>, i: nat)
    requires blockSize > 0 && i < |rows|
    ensures PrefixSound(rows, blockSize, invalid, i) <==>
            || Hits(rows[i].Scanned(blockSize), invalid) != {}
            || TailCovered(rows, blockSize, invalid, i)
  {
    hide MarkedBefore, Row.Depth, FirstNew;
    var row, marked := rows[i], MarkedBefore(rows, blockSize, invalid, i);
    var q := row.Scanned(blockSize);
    if Hits(q, invalid) != {} {
      forall k | 0 <= k < |row.blocks| && k * blockSize < Kept(row, blockSize, invalid, marked)
        ensures Covered(rows, blockSize, invalid, i, row.blocks[k])
      {
        AffectedKeepsScanned(row, blockSize, invalid, marked, k);
        KeptBlocksAreSound(rows, blockSize, invalid, i, k);
      }
    } else {
      UnaffectedKeepsAll(row, blockSize, invalid, marked);
      forall k | 0 <= k < row.Depth(blockSize)
        ensures Covered(rows, blockSize, invalid, i, row.blocks[k])
      {
        HitAt(q, invalid, k);
      }
    }
  }

  lemma UnaffectedKeepsAll(row: Row, blockSize: nat, invalid: set<Block>, marked: set<Block>)
    requires blockSize > 0 && Hits(row.Scanned(blockSize), invalid) == {}
    ensures Kept(row, blockSize, invalid, marked) == row.computed
  {
    var q := row.Scanned(blockSize);
    var f := FirstNew(q, invalid, marked);
    forall k | 0 <= k < |q|
      ensures q[k] !in invalid
    {
      HitAt(q, invalid, k);
    }
  }

  lemma HitAt(q: seq<Block>, invalid: set<Block>, k: nat)
    requires k < |q|
    ensures q[k] in invalid <==> q[k] in Hits(q, invalid)
  {
  }

  /** A concrete unsound tail: the one block of a request was first computed in the step being processed, so
      the scan does not look at it. */
  lemma UnscannedBlockIsKept(id: ReqId, b: Block)
    ensures var rows := [Row(id, 4, 4, [b])];
            && Kept(rows[0], 4, {b}, MarkedBefore(rows, 4, {b}, 0)) == 4
            && AffectedIds(rows, 4, {b}) == {}
            && !PrefixSound(rows, 4, {b}, 0)
  {
    var rows := [Row(id, 4, 4, [b])];
    assert rows[0].Scanned(4) == [];
    NoHits({b});
    assert !Covered(rows, 4, {b}, 0, rows[0].blocks[0]);
    assert 0 * 4 < 4;
  }

  /** Position k lies within the depth exactly when its first token was computed. */
  lemma InDepth(row: Row, blockSize: nat, k: nat)
    requires blockSize > 0 && k < row.Depth(blockSize)
    ensures k * blockSize < row.Before()
  {
    var n := (row.Before() + blockSize - 1) / blockSize;
    Deeper(k + 1, n, blockSize);
  }

  lemma BeyondDepth(row: Row, blockSize: nat, k: nat)
    requires blockSize > 0 && row.Depth(blockSize) <= k < |row.blocks|
    ensures k * blockSize >= row.Before()
  {
    var n := (row.Before() + blockSize - 1) / blockSize;
    Deeper(n, k, blockSize);
  }

  /** When evicting, every marked block is evicted, together with all that follow it in its marker's table. */
  lemma {:induction false} MarkedIsEvicted(rows: seq<Row>, blockSize: nat, invalid: set<Block>, n: nat, i: nat, k: nat,
                                           m: nat)
    requires blockSize > 0 && i < n <= |rows| && k < rows[i].Depth(blockSize) && k <= m < |rows[i].blocks|
    requires MarkedBy(rows, blockSize, invalid, i, rows[i].blocks[k])
    ensures rows[i].blocks[m] in AllEvicted(rows, blockSize, invalid, n)
  {
    if i < n - 1 {
      MarkedIsEvicted(rows, blockSize, invalid, n - 1, i, k, m);
    } else {
      var q := rows[i].Scanned(blockSize);
      var f := FirstNew(q, invalid, MarkedBefore(rows, blockSize, invalid, i));
      assert q[k] == rows[i].blocks[k] && f <= k;
      assert rows[i].blocks[f..][m - f] == rows[i].blocks[m];
    }
  }

  /** And nothing else is: an evicted block is marked, or follows a marked one in its marker's table. */
  lemma {:induction false} EvictedIsDownstream(rows: seq<Row>, blockSize: nat, invalid: set<Block>, n: nat, b: Block)
    returns (i: nat, k: nat, m: nat)
    requires blockSize > 0 && n <= |rows| && b in AllEvicted(rows, blockSize, invalid, n)
    ensures i < n && k < rows[i].Depth(blockSize) && k <= m < |rows[i].blocks| && rows[i].blocks[m] == b
    ensures MarkedBy(rows, blockSize, invalid, i, rows[i].blocks[k])
  {
    hide Row.Depth, MarkedBefore;
    if b in AllEvicted(rows, blockSize, invalid, n - 1) {
      i, k, m := EvictedIsDownstream(rows, blockSize, invalid, n - 1, b);
    } else {
      i := n - 1;
      var q := rows[i].Scanned(blockSize);
      k := FirstNew(q, invalid, MarkedBefore(rows, blockSize, invalid, i));
      var at :| 0 <= at < |rows[i].blocks[k..]| && rows[i].blocks[k..][at] == b;
      m := k + at;
    }
  }

  // ------------------------------------------------------------- who is affected

  /** One of the blocks that hold the tokens computed before the step is invalid. */
  ghost predicate HasInvalid(row: Row, blockSize: nat, invalid: set<Block>) {
    exists k :: 0 <= k < |row.blocks| && k * blockSize < row.computed - row.scheduled && row.blocks[k] in invalid
  }

  lemma HitsIff(row: Row, blockSize: nat, invalid: set<Block>)
    requires blockSize > 0
    ensures Hits(row.Scanned(blockSize), invalid) != {} <==> HasInvalid(row, blockSize, invalid)
  {
    hide Row.Depth;
    var q := row.Scanned(blockSize);
    ScannedLength(row, blockSize);
    if Hits(q, invalid) != {} {
      var b :| b in Hits(q, invalid);
      var k :| 0 <= k < |q| && q[k] == b;
      InDepth(row, blockSize, k);
      assert row.blocks[k] == b && k * blockSize < row.computed - row.scheduled;
    }
    if HasInvalid(row, blockSize, invalid) {
      var k :| 0 <= k < |row.blocks| && k * blockSize < row.computed - row.scheduled && row.blocks[k] in invalid;
      if k >= row.Depth(blockSize) {
        BeyondDepth(row, blockSize, k);
      }
      assert q[k] == row.blocks[k];
      HitAt(q, invalid, k);
    }
  }

  /** The affected requests are exactly those with an invalid block among the ones that hold the tokens computed
      before the step. */
  lemma AffectedIff(rows: seq<Row>, blockSize: nat, invalid: set<Block>, id: ReqId)
    requires blockSize > 0
    ensures id in AffectedIds(rows, blockSize, invalid) <==>
            exists i :: 0 <= i < |rows| && rows[i].id == id && HasInvalid(rows[i], blockSize, invalid)
  {
    hide Row.Scanned, Hits, HasInvalid;
    forall i | 0 <= i < |rows|
      ensures Hits(rows[i].Scanned(blockSize), invalid) != {} <==> HasInvalid(rows[i], blockSize, invalid)
    {
      HitsIff(rows[i], blockSize, invalid);
    }
  }

  // ------------------------------------------------------------- both kinds of loads

  lemma {:induction false} EvictedOnlyIfAffected(rows: seq<Row>, blockSize: nat, invalid: set<Block>, n: nat)
    requires blockSize > 0 && n <= |rows|
    ensures AllEvicted(rows, blockSize, invalid, n) != {} ==> AffectedIds(rows, blockSize, invalid) != {}
  {
    hide Row.Scanned;
    if n > 0 {
      EvictedOnlyIfAffected(rows, blockSize, invalid, n - 1);
      var q := rows[n - 1].Scanned(blockSize);
      var f := FirstNew(q, invalid, MarkedBefore(rows, blockSize, invalid, n - 1));
      if f < |q| {
        assert q[f] in Hits(q, invalid);
        assert rows[n - 1].id in AffectedIds(rows, blockSize, invalid);
      }
    }
  }

  /** The outcome under either failure policy. */
  ghost predicate Recovered(loads: seq<Row>, runs: seq<Row>, blockSize: nat, invalid: set<Block>, recompute: bool,
                            failed: set<ReqId>, skip: set<ReqId>, nowFailed: set<ReqId>, evicted: set<Block>)
    requires blockSize > 0
  {
    var a, r := AffectedIds(loads, blockSize, invalid), AffectedIds(runs, blockSize, invalid);
    if recompute then skip == r && nowFailed == failed + a && evicted == {}
    else skip == a + r && nowFailed == failed && evicted == AllEvicted(runs, blockSize, invalid, |runs|)
  }

  /** _handle_invalid_blocks(): `loading` are the requests waiting for remote KVs.  With recomputation,
      affected loads are marked failed and affected running requests lose this step's output; without,
      all affected requests are returned, to be failed, and the blocks are evicted. */
  method HandleInvalidBlocks(loading: seq<Request>, running: seq<Request>, blockIds: map<ReqId, seq<Block>>,
                             scheduled: map<ReqId, nat>, blockSize: nat, invalid: set<Block>, recompute: bool,
                             failedRecving: set<ReqId>, ghost loads: seq<Row>, ghost runs: seq<Row>)
    returns (skip: set<ReqId>, nowFailed: set<ReqId>, evicted: set<Block>)
    requires blockSize > 0
    requires AreRows(loads, loading, blockIds, scheduled) && AreRows(runs, running, blockIds, scheduled)
    requires Distinct(loading)
    requires Distinct(running)
    requires forall j, k :: 0 <= j < |loading| && 0 <= k < |running| ==> loading[j] != running[k]
    modifies (set r | r in loading)`computed, (set r | r in running)`computed
    ensures forall k :: 0 <= k < |loading| ==>
              loading[k].computed == Kept(loads[k], blockSize, invalid, MarkedBefore(loads, blockSize, invalid, k))
    ensures forall k :: 0 <= k < |running| ==>
              running[k].computed == Kept(runs[k], blockSize, invalid, MarkedBefore(runs, blockSize, invalid, k))
    ensures Recovered(loads, runs, blockSize, invalid, recompute, failedRecving, skip, nowFailed, evicted)
  {
    hide Kept, MarkedBefore, AffectedIds, TotalLost, AllEvicted;
    nowFailed, evicted := failedRecving, {};
    var asyncFailed, asyncTokens, _ :=
      UpdateRequestsWithInvalidBlocks(loading, blockIds, scheduled, blockSize, invalid, false, loads);
    var syncFailed, syncTokens, syncEvict :=
      UpdateRequestsWithInvalidBlocks(running, blockIds, scheduled, blockSize, invalid, true, runs);
    if asyncFailed == {} && syncFailed == {} {
      EvictedOnlyIfAffected(runs, blockSize, invalid, |runs|);
      return {}, nowFailed, evicted;
    }
    if syncEvict != {} && !recompute {
      evicted := syncEvict;
    }
    if !recompute {
      return asyncFailed + syncFailed, nowFailed, evicted;
    }
    nowFailed := nowFailed + asyncFailed;
    skip := syncFailed;
  }

  // ------------------------------------------------------------- asynchronous loads

  /** No invalid block lies in the scanned prefix of two requests. */
  ghost predicate Unshared(rows: seq<Row>, blockSize: nat, invalid: set<Block>)
    requires blockSize > 0
  {
    forall j, k, b :: 0 <= j < k < |rows| && b in invalid && b in rows[j].Scanned(blockSize) ==>
      b !in rows[k].Scanned(blockSize)
  }

  /** Request i has an invalid block that no earlier request has. */
  ghost predicate Marks(rows: seq<Row>, blockSize: nat, invalid: set<Block>, i: nat)
    requires blockSize > 0 && i < |rows|
  {
    exists b :: b in Hits(rows[i].Scanned(blockSize), invalid) && b !in MarkedBefore(rows, blockSize, invalid, i)
  }

  lemma ScannedLength(row: Row, blockSize: nat)
    requires blockSize > 0
    ensures |row.Scanned(blockSize)| == row.Depth(blockSize)
  {
  }

  /** An affected request is truncated below what it had before the step exactly when it marks a block; one
      that shares all its invalid blocks with earlier requests keeps all of that. */
  lemma TruncatedIffMarks(rows: seq<Row>, blockSize: nat, invalid: set<Block>, i: nat)
    requires blockSize > 0 && i < |rows| && Hits(rows[i].Scanned(blockSize), invalid) != {}
    ensures var kept := Kept(rows[i], blockSize, invalid, MarkedBefore(rows, blockSize, invalid, i));
            && 0 <= kept <= rows[i].Before()
            && (kept < rows[i].Before() <==> Marks(rows, blockSize, invalid, i))
  {
    hide Row.Depth, Row.Scanned, MarkedBefore, FirstNew;
    var q, marked := rows[i].Scanned(blockSize), MarkedBefore(rows, blockSize, invalid, i);
    var f := FirstNew(q, invalid, marked);
    ScannedLength(rows[i], blockSize);
    InDepth(rows[i], blockSize, 0);
    if f < |q| {
      assert q[f] in Hits(q, invalid) && q[f] !in marked;
      InDepth(rows[i], blockSize, f);
    }
    if Marks(rows, blockSize, invalid, i) {
      var b :| b in Hits(q, invalid) && b !in marked;
      var k :| 0 <= k < |q| && q[k] == b;
      assert IsNew(q[k], invalid, marked);
    }
  }

  /** And it gives up no more than it must: what it keeps ends where the first block that it marks begins, and
      it marks no earlier one. */
  lemma KeepsUpToItsFirstMark(rows: seq<Row>, blockSize: nat, invalid: set<Block>, i: nat) returns (f: nat)
    requires blockSize > 0 && i < |rows| && Marks(rows, blockSize, invalid, i)
    ensures f < rows[i].Depth(blockSize) && MarkedBy(rows, blockSize, invalid, i, rows[i].blocks[f])
    ensures Kept(rows[i], blockSize, invalid, MarkedBefore(rows, blockSize, invalid, i)) == f * blockSize
    ensures forall k :: 0 <= k < f ==> Covered(rows, blockSize, invalid, i, rows[i].blocks[k])
  {
    hide Row.Depth, MarkedBefore, FirstNew;
    var q, marked := rows[i].Scanned(blockSize), MarkedBefore(rows, blockSize, invalid, i);
    f := FirstNew(q, invalid, marked);
    var b :| b in Hits(q, invalid) && b !in marked;
    var k :| 0 <= k < |q| && q[k] == b;
    assert IsNew(q[k], invalid, marked);
    assert forall k :: 0 <= k < f ==> q[k] == rows[i].blocks[k];
  }

  /** Requests that share no invalid block all mark one, if they are affected. */
  lemma UnsharedMarks(rows: seq<Row>, blockSize: nat, invalid: set<Block>, i: nat)
    requires blockSize > 0 && i < |rows| && Unshared(rows, blockSize, invalid)
    requires Hits(rows[i].Scanned(blockSize), invalid) != {}
    ensures Marks(rows, blockSize, invalid, i)
  {
    hide Row.Scanned, MarkedBefore;
    var b :| b in Hits(rows[i].Scanned(blockSize), invalid);
    MarkedBeforeMeaning(rows, blockSize, invalid, i, b);
  }

  /** An affected load that shares no invalid block is truncated below what it had. */
  lemma UnsharedLoadIsTruncated(rows: seq<Row>, blockSize: nat, invalid: set<Block>, i: nat)
    requires blockSize > 0 && i < |rows| && Unshared(rows, blockSize, invalid)
    requires Hits(rows[i].Scanned(blockSize), invalid) != {}
    ensures 0 <= Kept(rows[i], blockSize, invalid, MarkedBefore(rows, blockSize, invalid, i)) < rows[i].Before()
  {
    hide Row.Scanned, MarkedBefore, Kept;
    UnsharedMarks(rows, blockSize, invalid, i);
    TruncatedIffMarks(rows, blockSize, invalid, i);
  }

  /** Each affected load loses something: a block it marks, or its share of the step being processed. */
  ghost predicate AllShrink(rows: seq<Row>, blockSize: nat, invalid: set<Block>)
    requires blockSize > 0
  {
    forall i :: 0 <= i < |rows| && Hits(rows[i].Scanned(blockSize), invalid) != {} ==>
      rows[i].scheduled > 0 || Marks(rows, blockSize, invalid, i)
  }

  /** In particular if no two loads share an invalid block; valid ones they may share. */
  lemma UnsharedShrink(rows: seq<Row>, blockSize: nat, invalid: set<Block>)
    requires blockSize > 0 && Unshared(rows, blockSize, invalid)
    ensures AllShrink(rows, blockSize, invalid)
  {
    hide Marks, Unshared, Hits, Row.Scanned;
    forall i | 0 <= i < |rows| && Hits(rows[i].Scanned(blockSize), invalid) != {}
      ensures Marks(rows, blockSize, invalid, i)
    {
      UnsharedMarks(rows, blockSize, invalid, i);
    }
  }

  /** The truncations of loads, together with any of running requests, are an event of the machine exactly
      when each affected load loses something. */
  lemma RecoveryIsAnEvent(cfg: Config, s: State, loads: seq<Row>, blockSize: nat, invalid: set<Block>,
                          truncated: map<ReqId, int>)
    requires blockSize > 0 && s.phase == Processing
    requires forall k :: 0 <= k < |loads| ==> IsLoad(s, loads[k])
    requires forall k :: 0 <= k < |loads| && Hits(loads[k].Scanned(blockSize), invalid) != {} ==>
               && loads[k].id in truncated
               && IsTruncation(loads, blockSize, invalid, k, loads[k].id, truncated[loads[k].id])
    requires forall id :: id in truncated ==>
               && id in s.reqs && s.reqs[id].status in {WaitingForRemoteKvs, Running}
               && (s.reqs[id].status == WaitingForRemoteKvs ==>
                     exists k :: 0 <= k < |loads| && IsTruncation(loads, blockSize, invalid, k, id, truncated[id]))
    ensures Enabled(cfg, s, LoadsInvalid(truncated)) <==> AllShrink(loads, blockSize, invalid)
  {
    hide Kept, MarkedBefore, Row.Scanned, Hits, Marks;
    if AllShrink(loads, blockSize, invalid) {
      forall id | id in truncated && s.reqs[id].status == WaitingForRemoteKvs
        ensures 0 <= truncated[id] < s.reqs[id].computed
      {
        var k :| 0 <= k < |loads| && IsTruncation(loads, blockSize, invalid, k, id, truncated[id]);
        TruncatedIffMarks(loads, blockSize, invalid, k);
      }
    }
    if Enabled(cfg, s, LoadsInvalid(truncated)) {
      forall k | 0 <= k < |loads| && Hits(loads[k].Scanned(blockSize), invalid) != {}
        ensures loads[k].scheduled > 0 || Marks(loads, blockSize, invalid, k)
      {
        assert truncated[loads[k].id] < s.reqs[loads[k].id].computed;
        TruncatedIffMarks(loads, blockSize, invalid, k);
      }
    }
  }

  /** The row is a request that waits for remote KVs, as the scan finds it. */
  ghost predicate IsLoad(s: State, row: Row) {
    && row.id in s.reqs && s.reqs[row.id].status == WaitingForRemoteKvs && row.computed == s.reqs[row.id].computed
  }

  ghost predicate IsTruncation(rows: seq<Row>, blockSize: nat, invalid: set<Block>, k: nat, id: ReqId, computed: int)
    requires blockSize > 0 && k < |rows|
  {
    && rows[k].id == id && Hits(rows[k].Scanned(blockSize), invalid) != {}
    && computed == Kept(rows[k], blockSize, invalid, MarkedBefore(rows, blockSize, invalid, k))
  }

  /** Promotion leaves a token to compute exactly unless the load is marked failed and yet whole. */
  lemma PromotionLeavesWork(s: State, id: ReqId)
    requires id in s.reqs && 0 <= s.reqs[id].computed <= s.reqs[id].tokens && s.reqs[id].tokens > 0
    ensures var p := ApplyPromote(s, id).reqs[id];
            p.computed < p.tokens <==> !(id in s.failed && s.reqs[id].computed == s.reqs[id].tokens)
  {
  }

  /** Which sharing can bring about: of two loads with one invalid block between them, the second is
      affected and keeps everything. */
  lemma SharedLoadKeepsAll(first: ReqId, second: ReqId, b: Block, blockSize: nat)
    requires blockSize > 0
    ensures var row := (id: ReqId) => Row(id, blockSize, 0, [b]);
            var rows := [row(first), row(second)];
            && second in AffectedIds(rows, blockSize, {b})
            && Kept(rows[0], blockSize, {b}, MarkedBefore(rows, blockSize, {b}, 0)) == 0
            && Kept(rows[1], blockSize, {b}, MarkedBefore(rows, blockSize, {b}, 1)) == blockSize
  {
    var rows := [Row(first, blockSize, 0, [b]), Row(second, blockSize, 0, [b])];
    OneBlockDeep(blockSize);
    forall k | 0 <= k < 2
      ensures rows[k].Scanned(blockSize) == [b] && b in Hits(rows[k].Scanned(blockSize), {b})
    {
      assert rows[k].Before() == blockSize;
    }
    assert rows[1].id in AffectedIds(rows, blockSize, {b});
    assert MarkedBefore(rows, blockSize, {b}, 1) == MarkedBefore(rows, blockSize, {b}, 0) + Hits([b], {b});
    assert !IsNew(b, {b}, MarkedBefore(rows, blockSize, {b}, 1));
    assert FirstNew([b][1..], {b}, MarkedBefore(rows, blockSize, {b}, 1)) == 0;
  }

  lemma OneBlockDeep(blockSize: nat)
    requires blockSize > 0
    ensures (blockSize + blockSize - 1) / blockSize == 1
  {
    var q := (blockSize + blockSize - 1) / blockSize;
    if q >= 2 {
      Deeper(2, q, blockSize);
    } else if q <= 0 {
      Deeper(q, 0, blockSize);
    }
  }
}
