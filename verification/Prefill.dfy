/** Admission of waiting prompts: reservation, prefix reuse, and chunking. */
module Prefill {
  import opened Options
  import opened Alignment
  import opened PrefixStore
  import Sums
  import opened World
  import opened RadixCache
  import opened Core
  import opened TableManagement
  import opened CacheManagement
  import opened Residency
  import opened Decoding

  /** A waiting prompt; `chunkedReq` carries the part of it that has been admitted. */
  datatype PendingReq = PendingReq(uid: int, inputIds: seq<int>, maxTokens: nat, ignoreEos: bool, chunkedReq: Req?)

  datatype Resource = NoResource | Resource(handle: RadixCacheHandle, tableIdx: nat)

  /** The reservation estimate: the part of the prompt that is not stored, plus the output. */
  ghost function Estimated(ids: seq<int>, n: nat, outputLen: nat): int
  {
    |ids| - n + outputLen
  }

  /** What the second test sees: with the matched prefix locked, the estimate and all reservations still fit. */
  ghost predicate Fits(s: Store, ids: seq<int>, n: nat, outputLen: nat, reserved: int)
  {
    n <= |ids| && Estimated(ids, n, outputLen) + reserved <= Available(s.(locks := s.locks + multiset{ids[..n]})) * s.ps
  }

  lemma LockingLowers(s: Store, p: Prefix)
    ensures Available(s.(locks := s.locks + multiset{p})) * s.ps <= Available(s) * s.ps
  {
    hide Locked;
    FewerLocks(s.view, s.view, s.locks + multiset{p}, s.locks);
    Smaller(Unlocked(s.view, s.locks + multiset{p}), Unlocked(s.view, s.locks));
    if s.ps > 0 {
      FactorOrder(Available(s.(locks := s.locks + multiset{p})), Available(s), s.ps);
    }
  }

  lemma FoundSame(view: View, a: seq<int>, b: seq<int>, n: nat)
    requires n <= |a| && n <= |b| && a[..n] == b[..n]
    ensures Found(view, a, n) == Found(view, b, n)
  {
  }

  /** The estimate for a request that holds no pages yet covers the pages it may need, if a page holds one or two tokens. */
  lemma NewcomerNeed(h: Holding, ps: nat, n: nat)
    requires h.alloc == n < h.goal && (ps > 0 ==> Aligned(n, ps))
    ensures EstimateCovers(ps) ==> 0 <= Need(h, ps) && Need(h, ps) * ps <= h.goal - n
  {
    if EstimateCovers(ps) { NeedBound(h, ps); }
  }

  /** And so does the estimate for the rest of a prompt, from what has been computed of it. */
  lemma ChunkNeed(cm: CacheManager, tm: TableManager, c: Req)
    requires Done(c, cm, tm) && c.tableIdx < cm.pageTable.Length
    ensures cm.pageSize > 0 && c.cachedLen < c.goal
    ensures EstimateCovers(cm.pageSize) ==> Need(HoldingOf(c, cm.pageTable), cm.pageSize) * cm.pageSize <= c.goal - c.cachedLen
  {
    hide Chained, Voiced;
    DivCeilCovers(c.cachedLen, cm.pageSize);
    NeedBound(HoldingOf(c, cm.pageTable), cm.pageSize);
  }

  /** What the reservation test has checked is what keeps the budget when the request joins. */
  twostate lemma ArrivedBudget(cm: CacheManager, new live: set<Req>, new r: Req, new ids: seq<int>, new n: nat,
                               new outputLen: nat, new reserved: int)
    requires old(allocated(live))
    requires old(Afford(cm, live)) && old(Promised(cm, live, {}, reserved)) && Seated(live + {r}, cm.pageTable) && r !in live
    requires Holdings(live, cm.pageTable) == old(Holdings(live, cm.pageTable))
    requires Fits(old(cm.StoreOf(map[])), ids, n, outputLen, reserved)
    requires cm.StoreOf(map[]) == old(cm.StoreOf(map[])).(locks := old(cm.prefixCache.locks) + multiset{ids[..n]})
    requires r.alloc == n < |ids| && r.goal == |ids| + outputLen && (cm.pageSize > 0 ==> Aligned(n, cm.pageSize))
    ensures Afford(cm, live + {r}) && Promised(cm, live + {r}, {}, reserved + Estimated(ids, n, outputLen))
  {
    hide Sums.Total, NeedMap, Available, Need;
    var m := Holdings(live, cm.pageTable);
    assert m - {} == m;
    NewcomerNeed(HoldingOf(r, cm.pageTable), cm.pageSize, n);
    ArrivedAfford(cm, live, r, m, reserved, Estimated(ids, n, outputLen));
  }

  lemma ArrivedReady(cm: CacheManager, tm: TableManager, r: Req, p: PendingReq, n: nat, budget: int, first: seq<int>)
    requires r.tableIdx < tm.tokenPool.Length && cm.pageSize > 0 && Aligned(n, cm.pageSize) && |first| == tm.width
    requires NextPart(r, p, n, budget) && Plausible(p, tm.width) && r.alloc == n && r.cuts == [n]
    requires tm.tokenPool[r.tableIdx] == Overwritten(Overwritten(first, 0, p.inputIds[..n]), n, p.inputIds[n..r.deviceLen])
    ensures Ready(r, cm, tm)
  {
    hide DivCeil, Aligned, Overwritten;
    PoolRow(first, p.inputIds, n, r.deviceLen);
    WholePages(n, cm.pageSize);
  }

  twostate lemma ArrivedGround(cm: CacheManager, new tm: TableManager, new live: set<Req>, new kv: map<int, Prefix>, new r: Req,
                               new p: PendingReq, new n: nat, new budget: int, new reserved: int, new first: seq<int>)
    requires old(allocated(tm)) && old(allocated(live)) && old(allocated(p))
    requires old(Ground(cm, tm, live, kv)) && Reshaped(cm) && unchanged(live) && r !in live
    requires Arrived(cm, tm, r, n) && Plausible(p, tm.width) && NextPart(r, p, n, budget) && r.cuts == [n]
    requires cm.pageSize > 0 && IsLongest(cm.prefixCache.view, cm.pageSize, p.inputIds[..|p.inputIds| - 1], n)
    requires old(Promised(cm, live, {}, reserved)) && Fits(old(cm.StoreOf(map[])), p.inputIds, n, p.maxTokens, reserved)
    requires Rect(tm.tokenPool, tm.width) && |first| == tm.width && r.tableIdx < tm.tokenPool.Length
    requires tm.tokenPool[r.tableIdx] == Overwritten(Overwritten(first, 0, p.inputIds[..n]), n, p.inputIds[n..r.deviceLen])
    ensures Ground(cm, tm, live + {r}, kv) && Ready(r, cm, tm)
    ensures Promised(cm, live + {r}, {}, reserved + Estimated(p.inputIds, n, p.maxTokens))
  {
    hide InOrder, Afford, Promised, Overwritten, RowSet, RadixPrefixCache.Valid, Rect, IsLongest, Fits, Found, WorldOk;
    hide Ready, Aligned, Labelled;
    GroundBefore(cm, tm, live, kv);
    LongestStored(cm.prefixCache.view, cm.pageSize, p.inputIds[..|p.inputIds| - 1], n);
    assert r.tok[..n] == p.inputIds[..n];
    ArrivedInOrder(cm, tm, live, kv, r, n);
    ArrivedBudget(cm, live, r, p.inputIds, n, p.maxTokens, reserved);
    ArrivedReady(cm, tm, r, p, n, budget, first);
  }

  /** What a prompt must satisfy to be scheduled: the clamp on arrival sees to it. */
  predicate Plausible(p: PendingReq, maxSeqLen: nat)
  {
    0 < |p.inputIds| && 0 < p.maxTokens && |p.inputIds| + p.maxTokens <= maxSeqLen
  }

  lemma PlausibleLengths(p: PendingReq, maxSeqLen: nat)
    requires Plausible(p, maxSeqLen)
    ensures 0 < |p.inputIds| < maxSeqLen
  {
  }

  lemma WiredFacts(cm: CacheManager, tm: TableManager, live: set<Req>)
    requires Wired(cm, tm) && tm.Seats(live)
    ensures cm.pageSize > 0 && tm.tokenPool.Length == cm.pageTable.Length && tm.tokenPool != cm.pageTable
    ensures Rect(cm.pageTable, tm.width) && Rect(tm.tokenPool, tm.width)
    ensures forall s :: s in tm.freeSlots ==> s < tm.maxRunningReqs <= cm.pageTable.Length
  {
    hide Rect;
  }

  /** `c` holds the first part of the prompt of `p`. */
  ghost predicate ChunkOf(p: PendingReq, c: Req)
    reads c`tok
  {
    && c.chunked && c.uid == p.uid && c.ignoreEos == p.ignoreEos
    && c.prompt == p.inputIds && c.promptLen == |p.inputIds| && c.goal == |p.inputIds| + p.maxTokens
    && |c.tok| < |p.inputIds| && c.tok == p.inputIds[..|c.tok|]
  }

  ghost function Carried(p: PendingReq): set<Req>
  {
    if p.chunkedReq == null then {} else {p.chunkedReq}
  }

  function Min(a: int, b: int): int
  {
    if a <= b then a else b
  }

  /** `r` is the next part of the prompt of `p`: from `lo` on, as long as the budget allows. */
  ghost predicate NextPart(r: Req, p: PendingReq, lo: nat, budget: int)
    reads r`cachedLen, r`deviceLen, r`inputIds, r`tok, r`replies
  {
    var chunk := Min(budget, |p.inputIds| - lo);
    && 0 < chunk && r.cachedLen == lo && r.deviceLen == lo + chunk <= |p.inputIds|
    && r.inputIds == r.tok == p.inputIds[..lo + chunk]
    && r.chunked == (chunk < |p.inputIds| - lo) && r.maxDeviceLen == r.deviceLen + p.maxTokens
    && r.uid == p.uid && r.ignoreEos == p.ignoreEos
    && r.prompt == p.inputIds && r.promptLen == |p.inputIds| && r.goal == |p.inputIds| + p.maxTokens && r.replies == []
  }

  class PrefillAdder {
    var tokenBudget: int
    var reservedSize: int
    const cacheManager: CacheManager
    const tableManager: TableManager

    constructor (tokenBudget: int, reservedSize: int, cacheManager: CacheManager, tableManager: TableManager)
      ensures this.tokenBudget == tokenBudget && this.reservedSize == reservedSize
      ensures this.cacheManager == cacheManager && this.tableManager == tableManager
    {
      this.tokenBudget, this.reservedSize := tokenBudget, reservedSize;
      this.cacheManager, this.tableManager := cacheManager, tableManager;
    }

    /** A prompt starts with the tokens and the slots that are stored. */
    method CopyPrefix(ids: seq<int>, handle: RadixCacheHandle, tableIdx: nat)
      requires Wired(cacheManager, tableManager) && cacheManager.Valid() && tableIdx < cacheManager.pageTable.Length
      requires handle.cachedLen <= |ids| <= tableManager.width && handle.node in cacheManager.prefixCache.nodes
      requires handle.node.prefix == ids[..handle.cachedLen]
      modifies cacheManager.pageTable, tableManager.tokenPool
      ensures |Found(cacheManager.prefixCache.view, ids, handle.cachedLen)| == handle.cachedLen
      ensures handle.cachedLen == 0 || ids[..handle.cachedLen] in cacheManager.prefixCache.view
      ensures RowSet(cacheManager.pageTable, tableIdx, 0, Found(cacheManager.prefixCache.view, ids, handle.cachedLen))
      ensures RowSet(tableManager.tokenPool, tableIdx, 0, ids[..handle.cachedLen])
    {
      hide RadixPrefixCache.Valid;
      var cachedLen := handle.cachedLen;
      if cachedLen > 0 {
        cacheManager.MatchedNode(handle.node);
        var matched := cacheManager.prefixCache.GetMatchedIndices(handle);
        tableManager.tokenPool[tableIdx] := ids[..cachedLen] + tableManager.tokenPool[tableIdx][cachedLen..];
        cacheManager.pageTable[tableIdx] := matched + cacheManager.pageTable[tableIdx][cachedLen..];
        assert Overwritten(old(cacheManager.pageTable[tableIdx]), 0, matched) == matched + old(cacheManager.pageTable[tableIdx])[cachedLen..];
        assert Overwritten(old(tableManager.tokenPool[tableIdx]), 0, ids[..cachedLen]) == ids[..cachedLen] + old(tableManager.tokenPool[tableIdx])[cachedLen..];
      } else {
        NothingOverwritten(cacheManager.pageTable[..], tableIdx);
        NothingOverwritten(tableManager.tokenPool[..], tableIdx);
      }
    }

    /** Match, test, lock, and test again: the lock takes the matched prefix out of what can be evicted. */
    method Reserve(req: PendingReq, tic: int) returns (ok: bool, handle: RadixCacheHandle)
      requires cacheManager.Valid() && !cacheManager.lazyRegion && 0 < |req.inputIds|
      modifies cacheManager.prefixCache`nodes, cacheManager.prefixCache`evictableSize, cacheManager.prefixCache`protectedSize
      modifies cacheManager.prefixCache`locks
      modifies cacheManager.prefixCache.nodes`key, cacheManager.prefixCache.nodes`value, cacheManager.prefixCache.nodes`parent
      modifies cacheManager.prefixCache.nodes`children, cacheManager.prefixCache.nodes`timestamp, cacheManager.prefixCache.nodes`refCount
      ensures Reshaped(cacheManager) && old(cacheManager.prefixCache.nodes) <= cacheManager.prefixCache.nodes
      ensures fresh(cacheManager.prefixCache.nodes - old(cacheManager.prefixCache.nodes))
      ensures IsLongest(cacheManager.prefixCache.view, cacheManager.pageSize, req.inputIds[..|req.inputIds| - 1], handle.cachedLen)
      ensures ok <==> Fits(old(cacheManager.StoreOf(map[])), req.inputIds, handle.cachedLen, req.maxTokens, reservedSize)
      ensures !ok ==> cacheManager.prefixCache.locks == old(cacheManager.prefixCache.locks)
      ensures ok ==>
        cacheManager.prefixCache.locks == old(cacheManager.prefixCache.locks) + multiset{req.inputIds[..handle.cachedLen]}
      ensures handle.cachedLen < |req.inputIds| && handle.node in cacheManager.prefixCache.nodes
      ensures handle.node.prefix == req.inputIds[..handle.cachedLen]
    {
      hide RadixPrefixCache.Valid, IsLongest, Available, Aligned, Found, Flatten, Locked, ValidView;
      hide RadixPrefixCache.Stamped, RadixPrefixCache.Stamps, CacheManager.Anchored;
      ok := false;
      ghost var s := cacheManager.StoreOf(map[]);
      handle := cacheManager.MatchReq(req.inputIds, tic);
      var extendLen := |req.inputIds| - handle.cachedLen;
      var estimatedLen := extendLen + req.maxTokens;
      cacheManager.AvailableIs(map[]);
      LockingLowers(s, req.inputIds[..handle.cachedLen]);
      if estimatedLen + reservedSize > cacheManager.AvailableSize() {
        return;
      }
      cacheManager.Lock(handle);
      cacheManager.AvailableIs(map[]);
      if estimatedLen + reservedSize > cacheManager.AvailableSize() {
        cacheManager.Unlock(handle);
        return;
      }
      ok := true;
    }

    method TryAllocateOne(req: PendingReq, tic: int) returns (r: Resource, ghost n: nat)
      requires Wired(cacheManager, tableManager) && cacheManager.Valid() && !cacheManager.lazyRegion
      requires 0 < |req.inputIds| <= tableManager.width
      requires forall s :: s in tableManager.freeSlots ==> s < tableManager.maxRunningReqs
      modifies cacheManager.prefixCache`nodes, cacheManager.prefixCache`evictableSize, cacheManager.prefixCache`protectedSize
      modifies cacheManager.prefixCache`locks
      modifies cacheManager.prefixCache.nodes`key, cacheManager.prefixCache.nodes`value, cacheManager.prefixCache.nodes`parent
      modifies cacheManager.prefixCache.nodes`children, cacheManager.prefixCache.nodes`timestamp, cacheManager.prefixCache.nodes`refCount
      modifies tableManager`freeSlots, cacheManager.pageTable, tableManager.tokenPool
      ensures Reshaped(cacheManager) && old(cacheManager.prefixCache.nodes) <= cacheManager.prefixCache.nodes
      ensures fresh(cacheManager.prefixCache.nodes - old(cacheManager.prefixCache.nodes))
      ensures old(tableManager.freeSlots) != [] ==>
        IsLongest(cacheManager.prefixCache.view, cacheManager.pageSize, req.inputIds[..|req.inputIds| - 1], n)
      ensures r.Resource? <==>
        old(tableManager.freeSlots) != [] && Fits(old(cacheManager.StoreOf(map[])), req.inputIds, n, req.maxTokens, reservedSize)
      ensures r.NoResource? ==>
        && tableManager.freeSlots == old(tableManager.freeSlots) && cacheManager.prefixCache.locks == old(cacheManager.prefixCache.locks)
        && cacheManager.pageTable[..] == old(cacheManager.pageTable[..]) && tableManager.tokenPool[..] == old(tableManager.tokenPool[..])
      ensures r.Resource? ==>
        && r.handle.cachedLen == n < |req.inputIds| && r.handle.node in cacheManager.prefixCache.nodes
        && r.handle.node.prefix == req.inputIds[..n]
        && cacheManager.prefixCache.locks == old(cacheManager.prefixCache.locks) + multiset{req.inputIds[..n]}
        && old(tableManager.freeSlots) == tableManager.freeSlots + [r.tableIdx]
        && |Found(cacheManager.prefixCache.view, req.inputIds, n)| == n && (n == 0 || req.inputIds[..n] in cacheManager.prefixCache.view)
        && RowSet(cacheManager.pageTable, r.tableIdx, 0, Found(cacheManager.prefixCache.view, req.inputIds, n))
        && RowSet(tableManager.tokenPool, r.tableIdx, 0, req.inputIds[..n])
    {
      hide RadixPrefixCache.Valid, IsLongest, Available, Aligned, Found, Overwritten, Flatten, Locked, ValidView, Rect;
      hide Reshaped, Fits;
      r, n := NoResource, 0;
      if tableManager.AvailableSize() == 0 {
        RefusedAtOnce(cacheManager);
        return;
      }
      var ok, handle := Reserve(req, tic);
      n := handle.cachedLen;
      if !ok {
        return;
      }
      ReshapedFacts(cacheManager);
      var tableIdx := tableManager.Allocate();
      assert tableIdx in old(tableManager.freeSlots);
      CopyPrefix(req.inputIds, handle, tableIdx);
      r := Resource(handle, tableIdx);
    }

    method AddOneReq(pendingReq: PendingReq, cacheHandle: RadixCacheHandle, tableIdx: nat, cachedLen: nat,
                     ghost alloc: nat, ghost cuts: seq<nat>, ghost shares: bool) returns (req: Req)
      requires tokenBudget > 0 && cachedLen < |pendingReq.inputIds| <= tableManager.width
      requires tableIdx < tableManager.tokenPool.Length && Rect(tableManager.tokenPool, tableManager.width)
      modifies this`tokenBudget, this`reservedSize, tableManager.tokenPool
      ensures fresh(req) && NextPart(req, pendingReq, cachedLen, old(tokenBudget))
      ensures req.tableIdx == tableIdx && req.cacheHandle == cacheHandle && req.alloc == alloc && req.cuts == cuts && req.shares == shares
      ensures tokenBudget == old(tokenBudget) - (req.deviceLen - req.cachedLen)
      ensures reservedSize == old(reservedSize) + |pendingReq.inputIds| - cachedLen + pendingReq.maxTokens
      ensures RowSet(tableManager.tokenPool, tableIdx, cachedLen, pendingReq.inputIds[cachedLen..req.deviceLen])
    {
      var remainLen := |pendingReq.inputIds| - cachedLen;
      var chunkSize := Min(tokenBudget, remainLen);
      var isChunked := chunkSize < remainLen;
      tokenBudget := tokenBudget - chunkSize;
      reservedSize := reservedSize + remainLen + pendingReq.maxTokens;
      var part := pendingReq.inputIds[cachedLen..cachedLen + chunkSize];
      var row := tableManager.tokenPool[tableIdx];
      tableManager.tokenPool[tableIdx] := row[..cachedLen] + part + row[cachedLen + chunkSize..];
      req := new Req(pendingReq.inputIds[..cachedLen + chunkSize], tableIdx, cachedLen, pendingReq.maxTokens,
                     pendingReq.uid, pendingReq.ignoreEos, cacheHandle, isChunked, pendingReq.inputIds, alloc, cuts, shares);
    }

    lemma ChunkLengths(p: PendingReq, c: Req)
      requires Plausible(p, tableManager.width) && ChunkOf(p, c) && Done(c, cacheManager, tableManager)
      ensures c.cachedLen < |p.inputIds| <= tableManager.width && c.goal == |p.inputIds| + p.maxTokens
      ensures c.tableIdx < tableManager.tokenPool.Length
    {
      hide Chained, Voiced, DivCeil;
    }

    /** The next part of a prompt takes over the row, the pages and the lock of the last one. */
    twostate lemma ContinuedGround(p: PendingReq, new c: Req, new live: set<Req>, new kv: map<int, Prefix>, new r: Req,
                                   new budget: int)
      requires old(allocated(c)) && old(allocated(live)) && c.cachedLen <= r.deviceLen <= |p.inputIds|
      requires RowSet(tableManager.tokenPool, c.tableIdx, c.cachedLen, p.inputIds[c.cachedLen..r.deviceLen])
      requires old(Ground(cacheManager, tableManager, live, kv)) && unchanged(live) && unchanged(cacheManager) && unchanged(cacheManager.prefixCache)
      requires unchanged(cacheManager.prefixCache.nodes) && unchanged(cacheManager.pageTable) && unchanged(tableManager)
      requires c in live && r !in live && ChunkOf(p, c) && old(Done(c, cacheManager, tableManager)) && Plausible(p, tableManager.width)
      requires NextPart(r, p, c.cachedLen, budget) && r.tableIdx == c.tableIdx && r.cacheHandle == c.cacheHandle
      requires r.alloc == c.alloc && r.cuts == c.cuts && r.shares == c.shares
      ensures Ground(cacheManager, tableManager, live - {c} + {r}, kv) && Ready(r, cacheManager, tableManager)
      ensures RowsStay(tableManager.tokenPool, live - {c}) && Seated(live, cacheManager.pageTable) && Succeeds(r, c)
    {
      hide InOrder, Afford, Overwritten, RowSet, DivCeil, RadixPrefixCache.Valid, Rect, Increasing;
      var part := p.inputIds[c.cachedLen..r.deviceLen];
      OtherRows(tableManager.tokenPool, tableManager.width, live - {c}, c.tableIdx, c.cachedLen, part);
      RowSetHere(tableManager.tokenPool, c.tableIdx, c.cachedLen, part);
      OverwrittenPrefix(old(tableManager.tokenPool[c.tableIdx]), c.cachedLen, part);
      assert c.tok <= r.tok && c.tok + part == r.tok;
      DivCeilCovers(c.cachedLen, cacheManager.pageSize);
      ContinueInOrder(cacheManager, live, kv, c, r);
      ContinuedAfford(cacheManager, live, c, r);
      tableManager.SeatKept(live, c, r);
    }

    /** The next part of a prompt that is under way. */
    method ContinueOne(pendingReq: PendingReq, c: Req, ghost live: set<Req>, ghost kv: map<int, Prefix>) returns (req: Req)
      requires Ground(cacheManager, tableManager, live, kv) && Plausible(pendingReq, tableManager.width) && tokenBudget > 0
      requires Promised(cacheManager, live, {c}, reservedSize)
      requires c in live && ChunkOf(pendingReq, c) && Done(c, cacheManager, tableManager)
      modifies this`tokenBudget, this`reservedSize, tableManager.tokenPool
      ensures fresh(req) && Ground(cacheManager, tableManager, live - {c} + {req}, kv)
      ensures Promised(cacheManager, live - {c} + {req}, {}, reservedSize)
      ensures tokenBudget == old(tokenBudget) - (req.deviceLen - req.cachedLen)
      ensures reservedSize == old(reservedSize) + Estimated(pendingReq.inputIds, c.cachedLen, pendingReq.maxTokens)
      ensures NextPart(req, pendingReq, c.cachedLen, old(tokenBudget)) && Ready(req, cacheManager, tableManager) && req.shares == c.shares
      ensures RowsStay(tableManager.tokenPool, live - {c})
    {
      hide Ground, Afford, Promised, NextPart, Ready, Done, ChunkOf, Plausible, RowSet, RowsStay, Succeeds, InOrder;
      GroundFacts(cacheManager, tableManager, live, kv);
      ChunkNeed(cacheManager, tableManager, c);
      ChunkLengths(pendingReq, c);
      WiredFacts(cacheManager, tableManager, live);
      req := AddOneReq(pendingReq, c.cacheHandle, c.tableIdx, c.cachedLen, c.alloc, c.cuts, c.shares);
      ContinuedGround(pendingReq, c, live, kv, req, old(tokenBudget));
      ContinueAfford(cacheManager, live, c, req, old(reservedSize), reservedSize);
    }

    /** A slot that has been taken for a new prompt belongs to no live request, and its row starts with the stored part. */
    twostate lemma MatchedRow(tableIdx: nat, new live: set<Req>, new part: seq<int>, new first: seq<int>)
      requires old(allocated(live))
      requires old(Wired(cacheManager, tableManager)) && old(tableManager.Seats(live)) && tableIdx in old(tableManager.freeSlots)
      requires tableIdx < tableManager.tokenPool.Length && |part| <= tableManager.width && first == old(tableManager.tokenPool[tableIdx])
      requires RowSet(tableManager.tokenPool, tableIdx, 0, part)
      ensures forall q :: q in live ==> q.tableIdx != tableIdx
      ensures Rect(tableManager.tokenPool, tableManager.width) && RowsStay(tableManager.tokenPool, live) && |first| == tableManager.width
      ensures tableManager.tokenPool[tableIdx] == Overwritten(first, 0, part)
    {
      hide Overwritten, RowSet;
      OtherRows(tableManager.tokenPool, tableManager.width, live, tableIdx, 0, part);
      RowSetHere(tableManager.tokenPool, tableIdx, 0, part);
    }

    /** The first part of a new prompt, behind the stored part that is already in its row. */
    method AddMatched(pendingReq: PendingReq, handle: RadixCacheHandle, tableIdx: nat, ghost live: set<Req>, ghost first: seq<int>)
      returns (req: Req)
      requires tokenBudget > 0 && handle.cachedLen < |pendingReq.inputIds| <= tableManager.width
      requires tableIdx < tableManager.tokenPool.Length && Rect(tableManager.tokenPool, tableManager.width) && |first| == tableManager.width
      requires tableManager.tokenPool[tableIdx] == Overwritten(first, 0, pendingReq.inputIds[..handle.cachedLen])
      requires forall q :: q in live ==> q.tableIdx != tableIdx
      modifies this`tokenBudget, this`reservedSize, tableManager.tokenPool
      ensures fresh(req) && NextPart(req, pendingReq, handle.cachedLen, old(tokenBudget))
      ensures req.tableIdx == tableIdx && req.cacheHandle == handle && req.alloc == handle.cachedLen && req.cuts == [handle.cachedLen]
      ensures req.shares
      ensures tokenBudget == old(tokenBudget) - (req.deviceLen - req.cachedLen)
      ensures reservedSize == old(reservedSize) + Estimated(pendingReq.inputIds, handle.cachedLen, pendingReq.maxTokens)
      ensures Rect(tableManager.tokenPool, tableManager.width) && RowsStay(tableManager.tokenPool, live)
      ensures tableManager.tokenPool[tableIdx]
           == Overwritten(Overwritten(first, 0, pendingReq.inputIds[..handle.cachedLen]), handle.cachedLen, pendingReq.inputIds[handle.cachedLen..req.deviceLen])
    {
      hide Overwritten, RowSet, Rect, NextPart;
      var n := handle.cachedLen;
      RectAt(tableManager.tokenPool, tableManager.width, tableIdx);
      req := AddOneReq(pendingReq, handle, tableIdx, n, n, [n], true);
      PartEnds(req, pendingReq, n, old(tokenBudget));
      OtherRows(tableManager.tokenPool, tableManager.width, live, tableIdx, n, pendingReq.inputIds[n..req.deviceLen]);
      RowSetHere(tableManager.tokenPool, tableIdx, n, pendingReq.inputIds[n..req.deviceLen]);
    }

    /** What has been set up for a new prompt, put together. */
    twostate lemma ArrivedNow(new r: Req, new p: PendingReq, new n: nat, new budget: int)
      requires NextPart(r, p, n, budget) && |p.inputIds| <= tableManager.width && r.cacheHandle.cachedLen == n == r.alloc
      requires r.cacheHandle.node in cacheManager.prefixCache.nodes && r.cacheHandle.node.prefix == p.inputIds[..n]
      requires cacheManager.prefixCache.locks == old(cacheManager.prefixCache.locks) + multiset{p.inputIds[..n]}
      requires old(tableManager.freeSlots) == tableManager.freeSlots + [r.tableIdx]
      requires |Found(cacheManager.prefixCache.view, p.inputIds, n)| == n && (n == 0 || p.inputIds[..n] in cacheManager.prefixCache.view)
      requires RowSet(cacheManager.pageTable, r.tableIdx, 0, Found(cacheManager.prefixCache.view, p.inputIds, n))
      ensures Arrived(cacheManager, tableManager, r, n)
    {
      hide RowSet, Found;
      assert r.tok[..n] == p.inputIds[..n];
      FoundSame(cacheManager.prefixCache.view, p.inputIds, r.tok, n);
    }

    lemma PartEnds(r: Req, p: PendingReq, lo: nat, budget: int)
      requires NextPart(r, p, lo, budget)
      ensures lo < r.deviceLen <= |p.inputIds|
    {
    }

    /** A new prompt gets a slot, the stored part of its prompt under a lock, and the first part of the rest. */
    method Place(pendingReq: PendingReq, tic: int, ghost live: set<Req>) returns (req: Req?, ghost n: nat, ghost first: seq<int>)
      requires Wired(cacheManager, tableManager) && cacheManager.Valid() && !cacheManager.lazyRegion && tableManager.Seats(live)
      requires 0 < |pendingReq.inputIds| <= tableManager.width && tokenBudget > 0
      modifies this`tokenBudget, this`reservedSize
      modifies cacheManager.prefixCache`nodes, cacheManager.prefixCache`evictableSize, cacheManager.prefixCache`protectedSize
      modifies cacheManager.prefixCache`locks
      modifies cacheManager.prefixCache.nodes`key, cacheManager.prefixCache.nodes`value, cacheManager.prefixCache.nodes`parent
      modifies cacheManager.prefixCache.nodes`children, cacheManager.prefixCache.nodes`timestamp, cacheManager.prefixCache.nodes`refCount
      modifies tableManager`freeSlots, cacheManager.pageTable, tableManager.tokenPool
      ensures Reshaped(cacheManager) && old(cacheManager.prefixCache.nodes) <= cacheManager.prefixCache.nodes
      ensures fresh(cacheManager.prefixCache.nodes - old(cacheManager.prefixCache.nodes))
      ensures old(tableManager.freeSlots) != [] ==>
        IsLongest(cacheManager.prefixCache.view, cacheManager.pageSize, pendingReq.inputIds[..|pendingReq.inputIds| - 1], n)
      ensures req != null <==>
        old(tableManager.freeSlots) != [] && Fits(old(cacheManager.StoreOf(map[])), pendingReq.inputIds, n, pendingReq.maxTokens, old(reservedSize))
      ensures req == null ==>
        && tokenBudget == old(tokenBudget) && reservedSize == old(reservedSize)
        && tableManager.freeSlots == old(tableManager.freeSlots) && cacheManager.prefixCache.locks == old(cacheManager.prefixCache.locks)
        && SameTable(cacheManager.pageTable) && SameTable(tableManager.tokenPool)
      ensures req != null ==>
        && fresh(req) && NextPart(req, pendingReq, n, old(tokenBudget)) && req.cuts == [n] && req.shares && Arrived(cacheManager, tableManager, req, n)
        && tokenBudget == old(tokenBudget) - (req.deviceLen - req.cachedLen)
        && reservedSize == old(reservedSize) + Estimated(pendingReq.inputIds, n, pendingReq.maxTokens)
        && Rect(tableManager.tokenPool, tableManager.width) && |first| == tableManager.width && req.tableIdx < tableManager.tokenPool.Length
        && n < |pendingReq.inputIds| && n <= req.deviceLen <= |pendingReq.inputIds|
        && tableManager.tokenPool[req.tableIdx] == Overwritten(Overwritten(first, 0, pendingReq.inputIds[..n]), n, pendingReq.inputIds[n..req.deviceLen])
      ensures RowsStay(tableManager.tokenPool, live)
    {
      hide RadixPrefixCache.Valid, CacheManager.Valid, Overwritten, RowSet, Rect, IsLongest, Fits, Found, Reshaped, Wired;
      hide NextPart, TableManager.Seats, Arrived, CacheManager.StoreOf;
      WiredFacts(cacheManager, tableManager, live);
      req, first := null, [];
      var resource;
      resource, n := TryAllocateOne(pendingReq, tic);
      if resource.NoResource? {
        return;
      }
      var tableIdx := resource.tableIdx;
      assert tableIdx in old(tableManager.freeSlots);
      first := old(tableManager.tokenPool[tableIdx]);
      MatchedRow(tableIdx, live, pendingReq.inputIds[..n], first);
      var r := AddMatched(pendingReq, resource.handle, tableIdx, live, first);
      PartEnds(r, pendingReq, n, old(tokenBudget));
      ArrivedNow(r, pendingReq, n, old(tokenBudget));
      req := r;
    }

    /** With a new prompt in its place, everything is in order again. */
    method AdmitOne(pendingReq: PendingReq, tic: int, ghost live: set<Req>, ghost kv: map<int, Prefix>)
      returns (req: Req?, ghost live': set<Req>, ghost n: nat)
      requires Ground(cacheManager, tableManager, live, kv) && Plausible(pendingReq, tableManager.width) && tokenBudget > 0
      requires Promised(cacheManager, live, {}, reservedSize)
      modifies this`tokenBudget, this`reservedSize
      modifies cacheManager.prefixCache`nodes, cacheManager.prefixCache`evictableSize, cacheManager.prefixCache`protectedSize
      modifies cacheManager.prefixCache`locks
      modifies cacheManager.prefixCache.nodes`key, cacheManager.prefixCache.nodes`value, cacheManager.prefixCache.nodes`parent
      modifies cacheManager.prefixCache.nodes`children, cacheManager.prefixCache.nodes`timestamp, cacheManager.prefixCache.nodes`refCount
      modifies tableManager`freeSlots, cacheManager.pageTable, tableManager.tokenPool
      ensures cacheManager.pageSize > 0 && old(cacheManager.prefixCache.nodes) <= cacheManager.prefixCache.nodes
      ensures fresh(cacheManager.prefixCache.nodes - old(cacheManager.prefixCache.nodes))
      ensures old(tableManager.freeSlots) != [] ==>
        IsLongest(cacheManager.prefixCache.view, cacheManager.pageSize, pendingReq.inputIds[..|pendingReq.inputIds| - 1], n)
      ensures req != null <==>
        old(tableManager.freeSlots) != [] && Fits(old(cacheManager.StoreOf(map[])), pendingReq.inputIds, n, pendingReq.maxTokens, old(reservedSize))
      ensures Ground(cacheManager, tableManager, live', kv)
      ensures req == null ==>
        && live' == live && tokenBudget == old(tokenBudget) && reservedSize == old(reservedSize)
        && tableManager.freeSlots == old(tableManager.freeSlots) && cacheManager.prefixCache.locks == old(cacheManager.prefixCache.locks)
      ensures req != null ==>
        && fresh(req) && live' == live + {req} && Promised(cacheManager, live', {}, reservedSize)
        && tokenBudget == old(tokenBudget) - (req.deviceLen - req.cachedLen)
        && reservedSize == old(reservedSize) + Estimated(pendingReq.inputIds, n, pendingReq.maxTokens)
        && NextPart(req, pendingReq, n, old(tokenBudget)) && Ready(req, cacheManager, tableManager) && req.shares
      ensures RowsStay(tableManager.tokenPool, live)
    {
      hide InOrder, Afford, Promised, Overwritten, RadixPrefixCache.Valid, Rect, IsLongest, Fits, Ready, Holdings, Reshaped;
      hide CacheManager.Anchored, CacheManager.Valid, Ground, Arrived, NextPart, Plausible, Wired, TableManager.Seats;
      hide CacheManager.StoreOf, SameTable, RowsStay;
      GroundFacts(cacheManager, tableManager, live, kv);
      GroundPages(cacheManager, tableManager, live, kv);
      PlausibleLengths(pendingReq, tableManager.width);
      ghost var first;
      req, n, first := Place(pendingReq, tic, live);
      live' := live;
      if req != null {
        live' := live + {req};
        ArrivedGround(cacheManager, tableManager, live, kv, req, pendingReq, n, old(tokenBudget), old(reservedSize), first);
      } else {
        RefusedGround(cacheManager, tableManager, live, kv);
      }
    }

    method TryAddOne(pendingReq: PendingReq, tic: int, ghost live: set<Req>, ghost kv: map<int, Prefix>)
      returns (req: Req?, ghost live': set<Req>, ghost n: nat)
      requires Ground(cacheManager, tableManager, live, kv) && Plausible(pendingReq, tableManager.width)
      requires Promised(cacheManager, live, Carried(pendingReq), reservedSize)
      requires pendingReq.chunkedReq != null ==>
        && pendingReq.chunkedReq in live && ChunkOf(pendingReq, pendingReq.chunkedReq)
        && Done(pendingReq.chunkedReq, cacheManager, tableManager)
      modifies this`tokenBudget, this`reservedSize
      modifies cacheManager.prefixCache`nodes, cacheManager.prefixCache`evictableSize, cacheManager.prefixCache`protectedSize
      modifies cacheManager.prefixCache`locks
      modifies cacheManager.prefixCache.nodes`key, cacheManager.prefixCache.nodes`value, cacheManager.prefixCache.nodes`parent
      modifies cacheManager.prefixCache.nodes`children, cacheManager.prefixCache.nodes`timestamp, cacheManager.prefixCache.nodes`refCount
      modifies tableManager`freeSlots, cacheManager.pageTable, tableManager.tokenPool
      ensures Ground(cacheManager, tableManager, live', kv)
      ensures old(cacheManager.prefixCache.nodes) <= cacheManager.prefixCache.nodes
      ensures fresh(cacheManager.prefixCache.nodes - old(cacheManager.prefixCache.nodes))
      ensures req == null ==>
        && live' == live && tokenBudget == old(tokenBudget) && reservedSize == old(reservedSize)
        && tableManager.freeSlots == old(tableManager.freeSlots) && cacheManager.prefixCache.locks == old(cacheManager.prefixCache.locks)
      ensures req != null ==>
        && fresh(req) && live' == live - Carried(pendingReq) + {req}
        && Promised(cacheManager, live', {}, reservedSize)
        && tokenBudget == old(tokenBudget) - (req.deviceLen - req.cachedLen)
        && reservedSize == old(reservedSize) + Estimated(pendingReq.inputIds, req.cachedLen, pendingReq.maxTokens)
        && Ready(req, cacheManager, tableManager) && req.shares == (pendingReq.chunkedReq == null || pendingReq.chunkedReq.shares)
        && NextPart(req, pendingReq, if pendingReq.chunkedReq != null then old(pendingReq.chunkedReq.cachedLen) else n, old(tokenBudget))
      ensures RowsStay(tableManager.tokenPool, if req == null then live else live - Carried(pendingReq))
      ensures pendingReq.chunkedReq != null ==> (req != null <==> old(tokenBudget) > 0)
      ensures pendingReq.chunkedReq == null ==> (req != null <==>
        && old(tokenBudget) > 0 && old(tableManager.freeSlots) != []
        && Fits(old(cacheManager.StoreOf(map[])), pendingReq.inputIds, n, pendingReq.maxTokens, old(reservedSize)))
      ensures old(tokenBudget) > 0 && pendingReq.chunkedReq == null && old(tableManager.freeSlots) != [] ==>
        cacheManager.pageSize > 0 && IsLongest(old(cacheManager.prefixCache.view), cacheManager.pageSize, pendingReq.inputIds[..|pendingReq.inputIds| - 1], n)
    {
      hide Ground, Afford, InOrder, Promised, Ready, NextPart, Fits, IsLongest, Done, ChunkOf, Plausible, Holdings;
      req, live', n := null, live, 0;
      if tokenBudget <= 0 {
        return;
      }
      if pendingReq.chunkedReq != null {
        var c := pendingReq.chunkedReq;
        var r := ContinueOne(pendingReq, c, live, kv);
        PartFrom(r, pendingReq, old(c.cachedLen), old(tokenBudget));
        req, live' := r, live - {c} + {r};
      } else {
        assert live - Carried(pendingReq) == live;
        req, live', n := AdmitOne(pendingReq, tic, live, kv);
        if req != null { PartFrom(req, pendingReq, n, old(tokenBudget)); }
      }
    }
  }

  /** The store as it is seen depends on the map, the locks and the free list only. */
  twostate lemma StoreStays(cm: CacheManager)
    requires cm.prefixCache.view == old(cm.prefixCache.view) && cm.prefixCache.locks == old(cm.prefixCache.locks)
    requires cm.freeSlots == old(cm.freeSlots) && cm.lazyList == old(cm.lazyList) && cm.lazyRegion == old(cm.lazyRegion)
    ensures cm.StoreOf(map[]) == old(cm.StoreOf(map[]))
  {
  }

  // ---- the list of waiting prompts ----

  /** Only the first prompt can be under way, and the live chunk is the one it carries. */
  ghost predicate PendingOk(pending: seq<PendingReq>, live: set<Req>, maxSeqLen: nat)
    reads live`tok
  {
    && (forall p :: p in pending ==> Plausible(p, maxSeqLen))
    && (forall i :: 0 < i < |pending| ==> pending[i].chunkedReq == null)
    && (pending != [] && pending[0].chunkedReq != null ==>
          pending[0].chunkedReq in live && ChunkOf(pending[0], pending[0].chunkedReq))
    && forall r :: r in live && r.chunked ==> pending != [] && pending[0].chunkedReq == r
  }

  ghost function CarriedFirst(pending: seq<PendingReq>): set<Req>
  {
    if pending == [] then {} else Carried(pending[0])
  }

  /** The prompt tokens a batch computes. */
  ghost function Extends(reqs: seq<Req>): int
    reads Elements(reqs)`cachedLen, Elements(reqs)`deviceLen
  {
    if reqs == [] then 0 else reqs[|reqs| - 1].ExtendLen() + Extends(reqs[..|reqs| - 1])
  }

  /** In the order of their arrival, the first waiting prompts have been given their next parts within the budget. */
  ghost predicate Dealt(pending: seq<PendingReq>, reqs: seq<Req>, los: seq<nat>, budget: int)
    reads Elements(reqs)`cachedLen, Elements(reqs)`deviceLen, Elements(reqs)`inputIds, Elements(reqs)`tok, Elements(reqs)`replies
  {
    && |los| == |reqs| <= |pending| && NoDup(reqs)
    && forall j :: 0 <= j < |reqs| ==> NextPart(reqs[j], pending[j], los[j], budget - Extends(reqs[..j]))
  }

  /** Where each part starts: where the last one ended, or behind the longest stored prefix. */
  ghost predicate StartsAt(pending: seq<PendingReq>, los: seq<nat>, view: View, ps: int)
    reads set p | p in pending && p.chunkedReq != null :: p.chunkedReq`cachedLen
  {
    && ps > 0 && |los| <= |pending|
    && forall j :: 0 <= j < |los| ==>
      if pending[j].chunkedReq != null then los[j] == pending[j].chunkedReq.cachedLen
      else |pending[j].inputIds| > 0 && IsLongest(view, ps, pending[j].inputIds[..|pending[j].inputIds| - 1], los[j])
  }

  lemma ExtendsMore(reqs: seq<Req>, r: Req)
    ensures Extends(reqs + [r]) == Extends(reqs) + r.deviceLen - r.cachedLen
  {
    assert (reqs + [r])[..|reqs|] == reqs;
  }

  lemma PartFrom(r: Req, p: PendingReq, lo: nat, budget: int)
    requires NextPart(r, p, lo, budget)
    ensures r.cachedLen == lo
  {
  }

  lemma PartFacts(r: Req, p: PendingReq, lo: nat, budget: int)
    requires NextPart(r, p, lo, budget)
    ensures 0 < r.deviceLen - r.cachedLen <= budget && (r.chunked ==> r.deviceLen - r.cachedLen == budget && ChunkOf(p, r))
  {
  }

  lemma NoDupMore(reqs: seq<Req>, r: Req)
    requires NoDup(reqs) && r !in reqs
    ensures NoDup(reqs + [r])
  {
  }

  lemma DealtMore(pending: seq<PendingReq>, reqs: seq<Req>, los: seq<nat>, budget: int, r: Req, lo: nat)
    requires Dealt(pending, reqs, los, budget) && r !in reqs && |reqs| < |pending|
    requires NextPart(r, pending[|reqs|], lo, budget - Extends(reqs))
    ensures Dealt(pending, reqs + [r], los + [lo], budget)
    ensures Extends(reqs + [r]) == Extends(reqs) + r.deviceLen - r.cachedLen
    ensures 0 < r.deviceLen - r.cachedLen <= budget - Extends(reqs)
    ensures r.chunked ==> Extends(reqs + [r]) == budget && ChunkOf(pending[|reqs|], r)
  {
    hide NextPart, Extends, ChunkOf, NoDup;
    ExtendsMore(reqs, r);
    PartFacts(r, pending[|reqs|], lo, budget - Extends(reqs));
    DealtToo(pending, reqs, los, budget, r, lo);
  }

  lemma DealtToo(pending: seq<PendingReq>, reqs: seq<Req>, los: seq<nat>, budget: int, r: Req, lo: nat)
    requires Dealt(pending, reqs, los, budget) && r !in reqs && |reqs| < |pending|
    requires NextPart(r, pending[|reqs|], lo, budget - Extends(reqs))
    ensures Dealt(pending, reqs + [r], los + [lo], budget)
  {
    hide NextPart, Extends, NoDup;
    NoDupMore(reqs, r);
    forall j | 0 <= j < |reqs + [r]|
      ensures NextPart((reqs + [r])[j], pending[j], (los + [lo])[j], budget - Extends((reqs + [r])[..j]))
    {
      PartAt(pending, reqs, los, budget, r, lo, j);
    }
  }

  lemma PartAt(pending: seq<PendingReq>, reqs: seq<Req>, los: seq<nat>, budget: int, r: Req, lo: nat, j: nat)
    requires Dealt(pending, reqs, los, budget) && |reqs| < |pending| && j <= |reqs|
    requires NextPart(r, pending[|reqs|], lo, budget - Extends(reqs))
    ensures NextPart((reqs + [r])[j], pending[j], (los + [lo])[j], budget - Extends((reqs + [r])[..j]))
  {
    hide NextPart, Extends, NoDup;
    assert (reqs + [r])[..j] == reqs[..j];
    if j == |reqs| { assert reqs[..j] == reqs; }
  }

  /** The unfinished prompt of a batch, if its last request is one. */
  ghost function ChunkLeft(pending: seq<PendingReq>, reqs: seq<Req>): seq<PendingReq>
    requires |reqs| <= |pending|
  {
    if reqs != [] && reqs[|reqs| - 1].chunked then [pending[|reqs| - 1].(chunkedReq := reqs[|reqs| - 1])] else []
  }

  /** The waiting prompts after a batch: at most one unfinished prompt, at the head. */
  ghost function Rest(pending: seq<PendingReq>, reqs: seq<Req>): seq<PendingReq>
    requires |reqs| <= |pending|
  {
    ChunkLeft(pending, reqs) + pending[|reqs|..]
  }

  /** The requests of the batch wait for their forward pass; the others have had theirs. */
  ghost predicate Statuses(live: set<Req>, reqs: seq<Req>, cm: CacheManager, tm: TableManager)
    reads live`tok, live`cachedLen, live`deviceLen, live`alloc, live`cuts, tm.tokenPool
  {
    && (forall r :: r in reqs ==> r in live)
    && forall r :: r in live ==> if r in reqs then Ready(r, cm, tm) else Done(r, cm, tm)
  }

  twostate lemma StatusesMore(live: set<Req>, new gone: set<Req>, new reqs: seq<Req>, new cm: CacheManager,
                              new tm: TableManager, new r: Req)
    requires old(allocated(gone)) && old(allocated(reqs)) && old(allocated(cm)) && old(allocated(tm))
    requires old(Statuses(live, reqs, cm, tm)) && unchanged(live) && RowsStay(tm.tokenPool, live - gone)
    requires Ready(r, cm, tm) && gone !! Elements(reqs)
    ensures Statuses(live - gone + {r}, reqs + [r], cm, tm)
  {
    hide Chained, DivCeil;
    forall q | q in live - gone + {r} ensures if q in reqs + [r] then Ready(q, cm, tm) else Done(q, cm, tm) {
      if q != r {
        assert if q in reqs then old(Ready(q, cm, tm)) else old(Done(q, cm, tm));
        assert q in reqs <==> q in reqs + [r];
      }
    }
  }

  lemma RestOk(pending: seq<PendingReq>, reqs: seq<Req>, live: set<Req>, live': set<Req>, maxSeqLen: nat)
    requires PendingOk(pending, live, maxSeqLen) && 0 < |reqs| <= |pending|
    requires live' == live - CarriedFirst(pending) + Elements(reqs)
    requires forall j :: 0 <= j < |reqs| - 1 ==> !reqs[j].chunked
    requires reqs[|reqs| - 1].chunked ==> ChunkOf(pending[|reqs| - 1], reqs[|reqs| - 1])
    ensures PendingOk(Rest(pending, reqs), live', maxSeqLen)
  {
    hide ChunkOf;
    var n := |reqs| - 1;
    if reqs[n].chunked {
      PlausibleChunk(pending[n], reqs[n], maxSeqLen);
    }
    forall r | r in live' && r.chunked ensures Rest(pending, reqs) != [] && Rest(pending, reqs)[0].chunkedReq == r {
      if r in reqs {
        var j :| 0 <= j < |reqs| && reqs[j] == r;
        assert j == n;
      }
    }
  }

  lemma NothingDealt(pending: seq<PendingReq>, budget: int)
    ensures Dealt(pending, [], [], budget) && Extends([]) == 0
  {
  }

  lemma PlausibleChunk(p: PendingReq, c: Req, maxSeqLen: nat)
    requires Plausible(p, maxSeqLen) && ChunkOf(p, c)
    ensures Plausible(p.(chunkedReq := c), maxSeqLen) && ChunkOf(p.(chunkedReq := c), c)
  {
  }

  /** Who is decoded is who can be. */
  ghost predicate RunningOk(running: set<Req>, live: set<Req>)
    reads live`deviceLen
  {
    && (forall r :: r in running ==> r in live && !r.chunked && r.RemainLen() > 0)
    && forall r :: r in live && !r.chunked ==> r in running || r.RemainLen() == 0
  }

  /** The batch under construction: `left` of the budget is left, and only the last request can be a chunk. */
  ghost predicate InBatch(pending: seq<PendingReq>, reqs: seq<Req>, los: seq<nat>, budget: int, left: int, live: set<Req>,
                          live': set<Req>, cm: CacheManager, tm: TableManager)
    reads Elements(reqs), live', tm.tokenPool, cm.prefixCache`view
    reads set p | p in pending && p.chunkedReq != null :: p.chunkedReq`cachedLen
  {
    && Dealt(pending, reqs, los, budget) && left == budget - Extends(reqs) && (reqs == [] || left >= 0)
    && live' == (if reqs == [] then live else live - CarriedFirst(pending) + Elements(reqs))
    && Statuses(live', reqs, cm, tm) && StartsAt(pending, los, cm.prefixCache.view, cm.pageSize)
    && (left > 0 ==> forall j :: 0 <= j < |reqs| ==> !reqs[j].chunked)
    && (forall j :: 0 <= j < |reqs| - 1 ==> !reqs[j].chunked)
    && (reqs != [] && reqs[|reqs| - 1].chunked ==> ChunkOf(pending[|reqs| - 1], reqs[|reqs| - 1]))
  }

  lemma BatchStarts(pending: seq<PendingReq>, budget: int, live: set<Req>, cm: CacheManager, tm: TableManager, kv: map<int, Prefix>)
    requires Statuses(live, [], cm, tm) && Ground(cm, tm, live, kv)
    ensures InBatch(pending, [], [], budget, budget, live, live, cm, tm) && ChunkLeft(pending, []) == []
  {
    hide Done, Ready, InOrder, Afford;
    NothingDealt(pending, budget);
  }

  /** What holds when it is the next prompt's turn. */
  lemma Turn(pending: seq<PendingReq>, reqs: seq<Req>, los: seq<nat>, budget: int, left: int, live: set<Req>, live': set<Req>,
             cm: CacheManager, tm: TableManager, maxSeqLen: nat)
    requires InBatch(pending, reqs, los, budget, left, live, live', cm, tm) && PendingOk(pending, live, maxSeqLen)
    requires |reqs| < |pending| && maxSeqLen <= tm.width
    ensures var p := pending[|reqs|];
      && Plausible(p, tm.width) && |p.inputIds| > 0 && Carried(p) == (if reqs == [] then CarriedFirst(pending) else {})
      && (p.chunkedReq != null ==> p.chunkedReq in live' && ChunkOf(p, p.chunkedReq) && Done(p.chunkedReq, cm, tm))
  {
    hide ChunkOf, Done, Ready, Dealt, StartsAt, Extends;
    assert pending[|reqs|] in pending;
  }

  lemma StartsAtMore(pending: seq<PendingReq>, los: seq<nat>, lo: nat, view: View, ps: int)
    requires StartsAt(pending, los, view, ps) && |los| < |pending|
    requires if pending[|los|].chunkedReq != null then lo == pending[|los|].chunkedReq.cachedLen
             else |pending[|los|].inputIds| > 0 && IsLongest(view, ps, pending[|los|].inputIds[..|pending[|los|].inputIds| - 1], lo)
    ensures StartsAt(pending, los + [lo], view, ps)
  {
    hide IsLongest;
  }

  lemma DealtLengths(pending: seq<PendingReq>, reqs: seq<Req>, los: seq<nat>, budget: int)
    requires Dealt(pending, reqs, los, budget)
    ensures |los| == |reqs| <= |pending|
  {
  }

  /** The parts dealt out so far stay what they are. */
  twostate lemma DealtStays(pending: seq<PendingReq>, new reqs: seq<Req>, new los: seq<nat>, new budget: int, new cm: CacheManager)
    requires old(allocated(reqs)) && old(allocated(cm))
    requires unchanged(Elements(reqs)) && cm.prefixCache.view == old(cm.prefixCache.view)
    requires forall p :: p in pending && p.chunkedReq != null ==> p.chunkedReq.cachedLen == old(p.chunkedReq.cachedLen)
    requires old(Dealt(pending, reqs, los, budget)) && old(StartsAt(pending, los, cm.prefixCache.view, cm.pageSize))
    ensures Dealt(pending, reqs, los, budget) && StartsAt(pending, los, cm.prefixCache.view, cm.pageSize)
    ensures Extends(reqs) == old(Extends(reqs))
  {
    hide Dealt, StartsAt, Extends;
  }

  twostate lemma NotAdded(pending: seq<PendingReq>, new reqs: seq<Req>, new los: seq<nat>, new budget: int,
                          new left: int, new live: set<Req>,
                          new live': set<Req>, new cm: CacheManager, new tm: TableManager)
    requires old(allocated(reqs)) && old(allocated(live)) && old(allocated(live')) && old(allocated(cm)) && old(allocated(tm))
    requires old(InBatch(pending, reqs, los, budget, left, live, live', cm, tm)) && |reqs| < |pending|
    requires unchanged(live') && unchanged(Elements(reqs)) && RowsStay(tm.tokenPool, live')
    requires cm.prefixCache.view == old(cm.prefixCache.view)
    requires forall p :: p in pending && p.chunkedReq != null ==> p.chunkedReq.cachedLen == old(p.chunkedReq.cachedLen)
    ensures InBatch(pending, reqs, los, budget, left, live, live', cm, tm)
  {
    hide Dealt, StartsAt, Extends, ChunkOf, Chained, DivCeil;
    DealtStays(pending, reqs, los, budget, cm);
    forall r | r in live' ensures if r in reqs then Ready(r, cm, tm) else Done(r, cm, tm) {
      assert if r in reqs then old(Ready(r, cm, tm)) else old(Done(r, cm, tm));
    }
  }

  twostate lemma Added(pending: seq<PendingReq>, new reqs: seq<Req>, new los: seq<nat>, new budget: int, new left: int,
                       new live: set<Req>,
                       new live': set<Req>, new cm: CacheManager, new tm: TableManager, new r: Req, new lo: nat)
    requires old(allocated(reqs)) && old(allocated(live)) && old(allocated(live')) && old(allocated(cm)) && old(allocated(tm))
    requires old(InBatch(pending, reqs, los, budget, left, live, live', cm, tm)) && |reqs| < |pending|
    requires unchanged(live') && unchanged(Elements(reqs)) && RowsStay(tm.tokenPool, live' - Carried(pending[|reqs|]))
    requires cm.prefixCache.view == old(cm.prefixCache.view)
    requires forall p :: p in pending && p.chunkedReq != null ==> p.chunkedReq.cachedLen == old(p.chunkedReq.cachedLen)
    requires Carried(pending[|reqs|]) == if reqs == [] then CarriedFirst(pending) else {}
    requires Ready(r, cm, tm) && r !in live' && r !in reqs && NextPart(r, pending[|reqs|], lo, left) && left > 0
    requires var p := pending[|reqs|];
      if p.chunkedReq != null then lo == p.chunkedReq.cachedLen
      else |p.inputIds| > 0 && cm.pageSize > 0 && IsLongest(cm.prefixCache.view, cm.pageSize, p.inputIds[..|p.inputIds| - 1], lo)
    ensures InBatch(pending, reqs + [r], los + [lo], budget, left - (r.deviceLen - r.cachedLen), live, live' - Carried(pending[|reqs|]) + {r}, cm, tm)
    ensures ChunkLeft(pending, reqs + [r]) == ChunkLeft(pending, reqs) + if r.chunked then [pending[|reqs|].(chunkedReq := r)] else []
  {
    hide Dealt, StartsAt, Extends, ChunkOf, Ready, Done, NextPart;
    DealtStays(pending, reqs, los, budget, cm);
    DealtMore(pending, reqs, los, budget, r, lo);
    DealtLengths(pending, reqs, los, budget);
    StartsAtMore(pending, los, lo, cm.prefixCache.view, cm.pageSize);
    StatusesMore(live', Carried(pending[|reqs|]), reqs, cm, tm, r);
    assert Elements(reqs + [r]) == Elements(reqs) + {r};
  }

  lemma BatchEnds(pending: seq<PendingReq>, reqs: seq<Req>, los: seq<nat>, budget: int, left: int, live: set<Req>, live': set<Req>,
                  cm: CacheManager, tm: TableManager, maxSeqLen: nat)
    requires InBatch(pending, reqs, los, budget, left, live, live', cm, tm) && PendingOk(pending, live, maxSeqLen)
    ensures Dealt(pending, reqs, los, budget) && Statuses(live', reqs, cm, tm) && StartsAt(pending, los, cm.prefixCache.view, cm.pageSize)
    ensures left == budget - Extends(reqs)
    ensures reqs == [] ==> live' == live
    ensures reqs != [] ==>
      && live' == live - CarriedFirst(pending) + Elements(reqs) && Extends(reqs) <= budget
      && PendingOk(Rest(pending, reqs), live', maxSeqLen)
    ensures Rest(pending, reqs) == ChunkLeft(pending, reqs) + pending[|reqs|..]
  {
    hide ChunkOf, Done, Ready, StartsAt, Extends, PendingOk, Plausible, NextPart;
    if reqs != [] { RestOk(pending, reqs, live, live', maxSeqLen); }
  }

  /** What the parts dealt out have been estimated to take. */
  ghost function Reserved(pending: seq<PendingReq>, los: seq<nat>): int
    requires |los| <= |pending|
  {
    if los == [] then 0
    else
      var j := |los| - 1;
      Reserved(pending, los[..j]) + Estimated(pending[j].inputIds, los[j], pending[j].maxTokens)
  }

  lemma ReservedMore(pending: seq<PendingReq>, los: seq<nat>, lo: nat)
    requires |los| < |pending|
    ensures Reserved(pending, los + [lo])
         == Reserved(pending, los) + Estimated(pending[|los|].inputIds, lo, pending[|los|].maxTokens)
  {
    assert (los + [lo])[..|los|] == los;
  }

  /** Why no more prompts have been taken: there are none, the budget is used up, or the next one is turned away. */
  ghost predicate Stopped(s: Store, slots: nat, pending: seq<PendingReq>, los: seq<nat>, left: int, inflight: int)
  {
    && |los| <= |pending|
    && (|los| == |pending| || left <= 0 || Refused(s, slots, pending[|los|], inflight + Reserved(pending, los)))
  }

  /** Why a prompt can be turned away: no slot is free, or its estimate does not fit. */
  ghost predicate Refused(s: Store, slots: nat, p: PendingReq, reserved: int)
  {
    && p.chunkedReq == null
    && (slots == 0 || exists n ::
      && s.ps > 0 && |p.inputIds| > 0 && IsLongest(s.view, s.ps, p.inputIds[..|p.inputIds| - 1], n)
      && !Fits(s, p.inputIds, n, p.maxTokens, reserved))
  }

  lemma RefusedWhy(s: Store, slots: nat, p: PendingReq, reserved: int, n: nat)
    requires p.chunkedReq == null && |p.inputIds| > 0 && s.ps > 0
    requires slots == 0 || (IsLongest(s.view, s.ps, p.inputIds[..|p.inputIds| - 1], n) && !Fits(s, p.inputIds, n, p.maxTokens, reserved))
    ensures Refused(s, slots, p, reserved)
  {
    hide IsLongest, Fits;
  }

  /** When nothing is live, the prompt at the head is always admitted, whatever the page size. */
  lemma HeadAdmitted(s: Store, slots: nat, p: PendingReq, live: map<Req, Holding>)
    requires WorldOk(s, live, multiset{}) && live == map[] && slots > 0
    requires 0 < |p.inputIds| && |p.inputIds| + p.maxTokens <= s.numPages * s.ps
    ensures !Refused(s, slots, p, 0)
  {
    hide ViewOk, AllOk, Conserved, LocksMatch;
    IdleStore(s, live);
    forall n | s.ps > 0 && IsLongest(s.view, s.ps, p.inputIds[..|p.inputIds| - 1], n) ensures Fits(s, p.inputIds, n, p.maxTokens, 0) {
      IdleFits(s, p, n);
    }
  }

  lemma IdleStore(s: Store, live: map<Req, Holding>)
    requires WorldOk(s, live, multiset{}) && live == map[]
    ensures s.ps > 0 && ValidView(s.view, s.ps) && Available(s) == s.numPages
  {
    hide ValidView;
    IdleIntegrity(s, live);
    assert Unlocked(s.view, s.locks) == s.view.Keys;
  }

  lemma IdleFits(s: Store, p: PendingReq, n: nat)
    requires s.ps > 0 && ValidView(s.view, s.ps) && Available(s) == s.numPages
    requires 0 < |p.inputIds| && |p.inputIds| + p.maxTokens <= s.numPages * s.ps
    requires IsLongest(s.view, s.ps, p.inputIds[..|p.inputIds| - 1], n)
    ensures Fits(s, p.inputIds, n, p.maxTokens, 0)
  {
    hide Available, ValidView, Cells;
    LongestStored(s.view, s.ps, p.inputIds[..|p.inputIds| - 1], n);
    var prefix := p.inputIds[..n];
    LockBudget(s, prefix);
    var t := s.(locks := s.locks + multiset{prefix});
    SumTimes(Available(t) + |Cells(0, prefix, s.ps)|, Available(t), |Cells(0, prefix, s.ps)|, s.ps);
    FactorOrder(Available(s), Available(t) + |Cells(0, prefix, s.ps)|, s.ps);
  }

  class PrefillManager {
    const cacheManager: CacheManager
    const tableManager: TableManager
    const decodeManager: DecodeManager
    var pendingList: seq<PendingReq>

    constructor (cacheManager: CacheManager, tableManager: TableManager, decodeManager: DecodeManager)
      ensures this.cacheManager == cacheManager && this.tableManager == tableManager && this.decodeManager == decodeManager
      ensures pendingList == []
    {
      this.cacheManager, this.tableManager, this.decodeManager := cacheManager, tableManager, decodeManager;
      pendingList := [];
    }

    method AddOneReq(req: PendingReq)
      modifies this`pendingList
      ensures pendingList == old(pendingList) + [req]
    {
      pendingList := pendingList + [req];
    }

    /** Takes the first prompt with the given number off the list; what has been admitted of it is to be freed. */
    method AbortReq(uid: int) returns (req: Req?, ghost at: nat)
      modifies this`pendingList
      ensures at <= |old(pendingList)| && forall j :: 0 <= j < at ==> old(pendingList)[j].uid != uid
      ensures at == |old(pendingList)| ==> req == null && pendingList == old(pendingList)
      ensures at < |old(pendingList)| ==>
        && old(pendingList)[at].uid == uid && req == old(pendingList)[at].chunkedReq
        && pendingList == old(pendingList)[..at] + old(pendingList)[at + 1..]
    {
      var i := 0;
      while i < |pendingList|
        invariant 0 <= i <= |pendingList| && pendingList == old(pendingList)
        invariant forall j :: 0 <= j < i ==> pendingList[j].uid != uid
      {
        if pendingList[i].uid == uid {
          req, at := pendingList[i].chunkedReq, i;
          pendingList := pendingList[..i] + pendingList[i + 1..];
          return;
        }
        i := i + 1;
      }
      req, at := null, |pendingList|;
    }

    predicate Runnable()
      reads this`pendingList
    {
      |pendingList| > 0
    }

    /** The reservation starts from what is in flight, which covers everything but the chunk about to continue. */
    lemma StartOfBatch(live: set<Req>, kv: map<int, Prefix>, maxSeqLen: nat)
      requires Ground(cacheManager, tableManager, live, kv) && Statuses(live, [], cacheManager, tableManager)
      requires pendingList != [] && PendingOk(pendingList, live, maxSeqLen) && RunningOk(decodeManager.runningReqs, live)
      requires decodeManager.pageSize == cacheManager.pageSize
      ensures Promised(cacheManager, live, CarriedFirst(pendingList), decodeManager.Inflight())
    {
      hide Done, Ready, InOrder, Afford, Plausible, Sums.Total, NeedMap, Holdings, Rect;
      var skip := CarriedFirst(pendingList);
      InflightPromised(cacheManager, tableManager, live, skip, decodeManager.runningReqs);
    }

    /** The prompt at the head did not get in. */
    twostate predicate TurnedAway(reserved: int)
    {
      old(pendingList) != [] &&
      Refused(old(cacheManager.StoreOf(map[])), |old(tableManager.freeSlots)|, old(pendingList)[0], reserved)
    }

    /** Tries to add the next waiting prompt. */
    method FillOne(adder: PrefillAdder, reqs: seq<Req>, chunkedList: seq<PendingReq>, ghost los: seq<nat>, ghost budget: int,
                   ghost live: set<Req>, ghost before: set<Req>, ghost kv: map<int, Prefix>, ghost maxSeqLen: nat)
      returns (added: bool, reqs': seq<Req>, chunkedList': seq<PendingReq>, ghost los': seq<nat>, ghost next: set<Req>)
      requires |los| == |reqs| < |pendingList| && chunkedList == ChunkLeft(pendingList, reqs)
      requires adder.cacheManager == cacheManager && adder.tableManager == tableManager && maxSeqLen <= tableManager.width
      requires reqs == [] ==> adder.tokenBudget == budget
      requires Ground(cacheManager, tableManager, before, kv) && PendingOk(pendingList, live, maxSeqLen)
      requires Promised(cacheManager, before, if reqs == [] then CarriedFirst(pendingList) else {}, adder.reservedSize)
      requires InBatch(pendingList, reqs, los, budget, adder.tokenBudget, live, before, cacheManager, tableManager)
      modifies adder
      modifies cacheManager.prefixCache`nodes, cacheManager.prefixCache`evictableSize, cacheManager.prefixCache`protectedSize
      modifies cacheManager.prefixCache`locks
      modifies cacheManager.prefixCache.nodes`key, cacheManager.prefixCache.nodes`value, cacheManager.prefixCache.nodes`parent
      modifies cacheManager.prefixCache.nodes`children, cacheManager.prefixCache.nodes`timestamp, cacheManager.prefixCache.nodes`refCount
      modifies tableManager`freeSlots, cacheManager.pageTable, tableManager.tokenPool
      ensures reqs <= reqs' && |reqs'| == |reqs| + (if added then 1 else 0) && chunkedList' == ChunkLeft(pendingList, reqs')
      ensures forall r :: r in reqs' && r !in reqs ==> fresh(r)
      ensures old(cacheManager.prefixCache.nodes) <= cacheManager.prefixCache.nodes
      ensures fresh(cacheManager.prefixCache.nodes - old(cacheManager.prefixCache.nodes))
      ensures Ground(cacheManager, tableManager, next, kv)
      ensures added ==> Promised(cacheManager, next, {}, adder.reservedSize)
      ensures InBatch(pendingList, reqs', los', budget, adder.tokenBudget, live, next, cacheManager, tableManager)
      ensures |los'| == |reqs'| && (added ==>
        && los' == los + [los'[|los|]]
        && adder.reservedSize == old(adder.reservedSize) + Estimated(pendingList[|los|].inputIds, los'[|los|], pendingList[|los|].maxTokens))
      ensures !added ==>
        && los' == los && adder.tokenBudget == old(adder.tokenBudget) && adder.reservedSize == old(adder.reservedSize)
        && tableManager.freeSlots == old(tableManager.freeSlots) && cacheManager.StoreOf(map[]) == old(cacheManager.StoreOf(map[]))
        && (adder.tokenBudget <= 0 || Refused(cacheManager.StoreOf(map[]), |tableManager.freeSlots|, pendingList[|reqs|], adder.reservedSize))
    {
      hide Ground, Promised, PendingOk, NextPart, Ready, Extends, Sums.Total, Remains, RowsStay, InBatch, Dealt, Statuses;
      hide StartsAt, Done, ChunkOf, Plausible, RunningOk, IsLongest, Fits, CarriedFirst, Wired, Seated, NoDup, Rest;
      hide Refused, CacheManager.StoreOf, CacheManager.AllFree;
      GroundPages(cacheManager, tableManager, before, kv);
      StoreFields(cacheManager);
      var pendingReq := pendingList[|reqs|];
      var tic: int := *;
      Turn(pendingList, reqs, los, budget, adder.tokenBudget, live, before, cacheManager, tableManager, maxSeqLen);
      var req;
      ghost var n;
      req, next, n := adder.TryAddOne(pendingReq, tic, before, kv);
      added, reqs', chunkedList', los' := false, reqs, chunkedList, los;
      if req == null {
        NotAdded(pendingList, reqs, los, budget, adder.tokenBudget, live, next, cacheManager, tableManager);
        StoreStays(cacheManager);
        if adder.tokenBudget > 0 {
          RefusedWhy(old(cacheManager.StoreOf(map[])), |old(tableManager.freeSlots)|, pendingReq, old(adder.reservedSize), n);
        }
      } else {
        var r: Req := req;
        ghost var lo: nat := if pendingReq.chunkedReq != null then pendingReq.chunkedReq.cachedLen else n;
        Added(pendingList, reqs, los, budget, old(adder.tokenBudget), live, before, cacheManager, tableManager, r, lo);
        if r.chunked {
          chunkedList' := chunkedList + [pendingReq.(chunkedReq := r)];
        }
        added, reqs', los' := true, reqs + [r], los + [lo];
        assert r.cachedLen == lo by { PartFrom(r, pendingReq, lo, old(adder.tokenBudget)); }
      }
    }

    /** Adds waiting prompts in order until one cannot be added. */
    method Fill(adder: PrefillAdder, ghost live: set<Req>, ghost kv: map<int, Prefix>, ghost maxSeqLen: nat)
      returns (reqs: seq<Req>, chunkedList: seq<PendingReq>, ghost live': set<Req>, ghost los: seq<nat>)
      requires Ground(cacheManager, tableManager, live, kv) && PendingOk(pendingList, live, maxSeqLen) && maxSeqLen <= tableManager.width
      requires Statuses(live, [], cacheManager, tableManager)
      requires adder.cacheManager == cacheManager && adder.tableManager == tableManager
      requires Promised(cacheManager, live, CarriedFirst(pendingList), adder.reservedSize)
      modifies adder
      modifies cacheManager.prefixCache`nodes, cacheManager.prefixCache`evictableSize, cacheManager.prefixCache`protectedSize
      modifies cacheManager.prefixCache`locks
      modifies cacheManager.prefixCache.nodes`key, cacheManager.prefixCache.nodes`value, cacheManager.prefixCache.nodes`parent
      modifies cacheManager.prefixCache.nodes`children, cacheManager.prefixCache.nodes`timestamp, cacheManager.prefixCache.nodes`refCount
      modifies tableManager`freeSlots, cacheManager.pageTable, tableManager.tokenPool
      ensures Ground(cacheManager, tableManager, live', kv) && |reqs| <= |pendingList| && fresh(Elements(reqs))
      ensures fresh(cacheManager.prefixCache.nodes - old(cacheManager.prefixCache.nodes))
      ensures InBatch(pendingList, reqs, los, old(adder.tokenBudget), adder.tokenBudget, live, live', cacheManager, tableManager)
      ensures chunkedList == ChunkLeft(pendingList, reqs)
      ensures |los| == |reqs| && Stopped(cacheManager.StoreOf(map[]), |tableManager.freeSlots|, pendingList, los, adder.tokenBudget, old(adder.reservedSize))
      ensures reqs == [] ==>
        cacheManager.StoreOf(map[]) == old(cacheManager.StoreOf(map[])) && tableManager.freeSlots == old(tableManager.freeSlots)
      ensures reqs == [] ==> adder.tokenBudget == old(adder.tokenBudget)
    {
      hide Ground, Promised, PendingOk, InBatch, Statuses, CarriedFirst, Refused, CacheManager.StoreOf, ChunkLeft, Reserved;
      hide Estimated;
      live', los := live, [];
      reqs, chunkedList := [], [];
      ghost var budget := adder.tokenBudget;
      NothingLeft(pendingList);
      NothingReserved(pendingList);
      BatchStarts(pendingList, budget, live, cacheManager, tableManager, kv);
      while |reqs| < |pendingList|
        invariant |los| == |reqs| <= |pendingList| && forall r :: r in reqs ==> fresh(r)
        invariant old(cacheManager.prefixCache.nodes) <= cacheManager.prefixCache.nodes
        invariant fresh(cacheManager.prefixCache.nodes - old(cacheManager.prefixCache.nodes))
        invariant Ground(cacheManager, tableManager, live', kv) && PendingOk(pendingList, live, maxSeqLen)
        invariant Promised(cacheManager, live', if reqs == [] then CarriedFirst(pendingList) else {}, adder.reservedSize)
        invariant adder.reservedSize == old(adder.reservedSize) + Reserved(pendingList, los)
        invariant InBatch(pendingList, reqs, los, budget, adder.tokenBudget, live, live', cacheManager, tableManager)
        invariant chunkedList == ChunkLeft(pendingList, reqs)
        invariant reqs == [] ==>
          cacheManager.StoreOf(map[]) == old(cacheManager.StoreOf(map[])) && tableManager.freeSlots == old(tableManager.freeSlots)
        invariant reqs == [] ==> adder.tokenBudget == budget && adder.reservedSize == old(adder.reservedSize)
      {
        ghost var before := los;
        var added;
        added, reqs, chunkedList, los, live' := FillOne(adder, reqs, chunkedList, los, budget, live, live', kv, maxSeqLen);
        if !added { break; }
        ReservedMore(pendingList, before, los[|before|]);
      }
    }

    twostate lemma StoppedAtOnce(new left: int, new inflight: int)
      requires cacheManager.StoreOf(map[]) == old(cacheManager.StoreOf(map[])) && tableManager.freeSlots == old(tableManager.freeSlots)
      requires Stopped(cacheManager.StoreOf(map[]), |tableManager.freeSlots|, old(pendingList), [], left, inflight)
      requires old(pendingList) != [] && left > 0
      ensures TurnedAway(inflight)
    {
      hide Refused, CacheManager.StoreOf;
    }

    lemma NothingReserved(pending: seq<PendingReq>)
      ensures Reserved(pending, []) == 0
    {
    }

    lemma NothingLeft(pending: seq<PendingReq>)
      ensures ChunkLeft(pending, []) == []
    {
    }

    /** What a batch of prompts is: parts of the prompts that came first, within the budget. */
    ghost predicate Scheduled(pending: seq<PendingReq>, reqs: seq<Req>, live: set<Req>, live': set<Req>, los: seq<nat>, budget: int)
      reads this`pendingList
      reads Elements(reqs)`cachedLen, Elements(reqs)`deviceLen, Elements(reqs)`inputIds, Elements(reqs)`tok, Elements(reqs)`replies
    {
      && reqs != [] && Dealt(pending, reqs, los, budget) && Extends(reqs) <= budget
      && pendingList == Rest(pending, reqs) && live' == live - CarriedFirst(pending) + Elements(reqs)
    }

    lemma ScheduledNow(pending: seq<PendingReq>, reqs: seq<Req>, live: set<Req>, live': set<Req>, los: seq<nat>, budget: int)
      requires reqs != [] && Dealt(pending, reqs, los, budget) && Extends(reqs) <= budget
      requires pendingList == Rest(pending, reqs) && live' == live - CarriedFirst(pending) + Elements(reqs)
      ensures Scheduled(pending, reqs, live, live', los, budget)
    {
    }

    /** A batch from a list of waiting prompts that is not empty. */
    method ScheduleSome(prefillBudget: int, ghost live: set<Req>, ghost kv: map<int, Prefix>, ghost maxSeqLen: nat)
      returns (batch: Option<Batch>, ghost live': set<Req>, ghost los: seq<nat>)
      requires pendingList != []
      requires Ground(cacheManager, tableManager, live, kv) && PendingOk(pendingList, live, maxSeqLen) && maxSeqLen <= tableManager.width
      requires Statuses(live, [], cacheManager, tableManager) && RunningOk(decodeManager.runningReqs, live)
      requires decodeManager.pageSize == cacheManager.pageSize
      modifies this`pendingList
      modifies cacheManager.prefixCache`nodes, cacheManager.prefixCache`evictableSize, cacheManager.prefixCache`protectedSize
      modifies cacheManager.prefixCache`locks
      modifies cacheManager.prefixCache.nodes`key, cacheManager.prefixCache.nodes`value, cacheManager.prefixCache.nodes`parent
      modifies cacheManager.prefixCache.nodes`children, cacheManager.prefixCache.nodes`timestamp, cacheManager.prefixCache.nodes`refCount
      modifies tableManager`freeSlots, cacheManager.pageTable, tableManager.tokenPool
      ensures Ground(cacheManager, tableManager, live', kv) && PendingOk(pendingList, live', maxSeqLen)
      ensures fresh(cacheManager.prefixCache.nodes - old(cacheManager.prefixCache.nodes))
      ensures StartsAt(old(pendingList), los, old(cacheManager.prefixCache.view), cacheManager.pageSize)
      ensures batch.None? ==> live' == live && pendingList == old(pendingList) && Statuses(live, [], cacheManager, tableManager)
      ensures batch.None? && pendingList != [] && prefillBudget > 0 ==> TurnedAway(old(decodeManager.Inflight()))
      ensures batch.Some? ==>
        && |los| == |batch.value.reqs|
        && Stopped(cacheManager.StoreOf(map[]), |tableManager.freeSlots|, old(pendingList), los,
                   prefillBudget - Extends(batch.value.reqs), old(decodeManager.Inflight()))
      ensures batch.Some? ==>
        && batch.value.reqs != [] && batch.value.isPrefill && fresh(Elements(batch.value.reqs))
        && Scheduled(old(pendingList), batch.value.reqs, live, live', los, prefillBudget)
        && Statuses(live', batch.value.reqs, cacheManager, tableManager)
    {
      hide Ground, Promised, PendingOk, NextPart, Ready, Extends, Sums.Total, Remains, RowsStay, InBatch, Dealt, Statuses;
      hide StartsAt, Done, ChunkOf, Plausible, RunningOk, IsLongest, Fits, DecodeManager.Inflight, CarriedFirst, ChunkLeft;
      hide Rest, Wired, Seated, NoDup, Refused, Stopped, Reserved, Scheduled, CacheManager.StoreOf, TurnedAway, Elements;
      batch := None;
      ghost var pending := pendingList;
      var inflight := decodeManager.InflightTokens();
      var adder := new PrefillAdder(prefillBudget, inflight, cacheManager, tableManager);
      StartOfBatch(live, kv, maxSeqLen);
      var reqs, chunkedList;
      reqs, chunkedList, live', los := Fill(adder, live, kv, maxSeqLen);
      BatchEnds(pending, reqs, los, prefillBudget, adder.tokenBudget, live, live', cacheManager, tableManager, maxSeqLen);
      if |reqs| == 0 {
        assert los == [];
        if prefillBudget > 0 {
          StoppedAtOnce(adder.tokenBudget, inflight);
        }
        return;
      }
      pendingList := chunkedList + pendingList[|reqs|..];
      batch := Some(Batch(reqs, true));
      ScheduledNow(pending, reqs, live, live', los, prefillBudget);
    }

    method ScheduleNextBatch(prefillBudget: int, ghost live: set<Req>, ghost kv: map<int, Prefix>, ghost maxSeqLen: nat)
      returns (batch: Option<Batch>, ghost live': set<Req>, ghost los: seq<nat>)
      requires Ground(cacheManager, tableManager, live, kv) && PendingOk(pendingList, live, maxSeqLen) && maxSeqLen <= tableManager.width
      requires Statuses(live, [], cacheManager, tableManager) && RunningOk(decodeManager.runningReqs, live)
      requires decodeManager.pageSize == cacheManager.pageSize
      modifies this`pendingList
      modifies cacheManager.prefixCache`nodes, cacheManager.prefixCache`evictableSize, cacheManager.prefixCache`protectedSize
      modifies cacheManager.prefixCache`locks
      modifies cacheManager.prefixCache.nodes`key, cacheManager.prefixCache.nodes`value, cacheManager.prefixCache.nodes`parent
      modifies cacheManager.prefixCache.nodes`children, cacheManager.prefixCache.nodes`timestamp, cacheManager.prefixCache.nodes`refCount
      modifies tableManager`freeSlots, cacheManager.pageTable, tableManager.tokenPool
      ensures Ground(cacheManager, tableManager, live', kv) && PendingOk(pendingList, live', maxSeqLen)
      ensures fresh(cacheManager.prefixCache.nodes - old(cacheManager.prefixCache.nodes))
      ensures StartsAt(old(pendingList), los, old(cacheManager.prefixCache.view), cacheManager.pageSize)
      ensures batch.None? ==> live' == live && pendingList == old(pendingList) && Statuses(live, [], cacheManager, tableManager)
      ensures batch.None? && pendingList != [] && prefillBudget > 0 ==> TurnedAway(old(decodeManager.Inflight()))
      ensures batch.Some? ==>
        && |los| == |batch.value.reqs|
        && Stopped(cacheManager.StoreOf(map[]), |tableManager.freeSlots|, old(pendingList), los,
                   prefillBudget - Extends(batch.value.reqs), old(decodeManager.Inflight()))
      ensures batch.Some? ==>
        && batch.value.reqs != [] && batch.value.isPrefill && fresh(Elements(batch.value.reqs))
        && Scheduled(old(pendingList), batch.value.reqs, live, live', los, prefillBudget)
        && Statuses(live', batch.value.reqs, cacheManager, tableManager)
    {
      hide Ground, PendingOk, InBatch, Dealt, Statuses, StartsAt, RunningOk, DecodeManager.Inflight, Stopped, Scheduled;
      hide TurnedAway, CacheManager.StoreOf, Extends;
      if |pendingList| == 0 {
        batch, live', los := None, live, [];
        BatchStarts(pendingList, prefillBudget, live, cacheManager, tableManager, kv);
        BatchEnds(pendingList, [], [], prefillBudget, prefillBudget, live, live, cacheManager, tableManager, maxSeqLen);
        return;
      }
      batch, live', los := ScheduleSome(prefillBudget, live, kv, maxSeqLen);
    }
  }
}
