/** What holds of all live requests together, between any two steps of the scheduler. */
module Residency {
  import opened Alignment
  import opened PrefixStore
  import opened Sums
  import opened World
  import opened Sharing
  import opened RadixCache
  import opened Core
  import opened TableManagement
  import opened CacheManagement
  import opened Decoding

  /** Both managers work on the same tables, whose rows have a whole number of pages. */
  ghost predicate Wired(cm: CacheManager, tm: TableManager)
    reads cm.pageTable, tm.tokenPool
  {
    && cm.pageSize > 0 && cm.pageTable == tm.pageTable && tm.tokenPool != cm.pageTable
    && tm.tokenPool.Length == cm.pageTable.Length && tm.maxRunningReqs <= cm.pageTable.Length
    && Rect(cm.pageTable, tm.width) && Rect(tm.tokenPool, tm.width) && Aligned(tm.width, cm.pageSize)
  }

  /** Pages, locks, blocks and labels are in order, and every live request is anchored in the tree. */
  ghost predicate InOrder(cm: CacheManager, live: set<Req>, kv: map<int, Prefix>)
    reads cm, cm.prefixCache, cm.prefixCache.nodes, cm.pageTable
    reads live`tok, live`cacheHandle, live`cachedLen, live`alloc, live`shares
  {
    && cm.Valid() && Seated(live, cm.pageTable)
    && WorldOk(cm.StoreOf(kv), Holdings(live, cm.pageTable), multiset{})
    && (forall r :: r in live ==> cm.Anchored(r)) && Sharers(cm, live)
  }

  /** The rows of the requests that share name the slots of their locked prefixes. */
  ghost predicate Sharers(cm: CacheManager, live: set<Req>)
    reads cm.prefixCache`view, cm.pageTable, live`tok, live`cacheHandle, live`cachedLen, live`alloc, live`shares
  {
    forall r :: r in live && r.shares ==> RowShares(cm, r)
  }

  ghost predicate RowShares(cm: CacheManager, r: Req)
    reads cm.prefixCache`view, cm.pageTable, r`tok, r`cacheHandle, r`cachedLen, r`alloc
  {
    r.tableIdx < cm.pageTable.Length && Shares(cm.prefixCache.view, HoldingOf(r, cm.pageTable))
  }

  /** As long as its row, its handle and the map do not change, a request goes on sharing, whatever is known of its tokens. */
  twostate lemma SharersStay(cm: CacheManager, new live: set<Req>)
    requires old(allocated(live)) && old(Sharers(cm, live)) && RowsStay(cm.pageTable, live)
    requires cm.prefixCache.view == old(cm.prefixCache.view)
    requires forall r :: r in live ==> r.cacheHandle == old(r.cacheHandle) && old(r.tok) <= r.tok && r.shares == old(r.shares)
    ensures Sharers(cm, live)
  {
    hide Shares;
    forall r | r in live && r.shares ensures RowShares(cm, r) {
      assert old(RowShares(cm, r));
      SameShares(cm.prefixCache.view, old(HoldingOf(r, cm.pageTable)), HoldingOf(r, cm.pageTable));
    }
  }

  lemma SameShares(view: View, h: Holding, g: Holding)
    requires Shares(view, h) && g.hl == h.hl && g.row == h.row && h.tok <= g.tok
    ensures Shares(view, g)
  {
    SharesStays(view, h, view, g);
  }

  /** When a computed prompt is stored, or a request is given up, the rows of the others go on sharing. */
  twostate lemma SharersBesides(cm: CacheManager, new live: set<Req>, new s: Store, new q: Holding, new n: nat, new base: nat)
    requires old(allocated(live)) && old(Sharers(cm, live)) && unchanged(cm.pageTable) && SameFields(live)
    requires old(cm.prefixCache.view) == s.view && CacheStep(s, q, n, base) && cm.prefixCache.view == Cached(s, q, n, base)
    ensures Sharers(cm, live)
  {
    hide Shares, CacheStep, Cached;
    forall r | r in live && r.shares ensures RowShares(cm, r) {
      assert old(RowShares(cm, r));
      SharesAfterCaching(s, HoldingOf(r, cm.pageTable), q, n, base);
    }
  }

  lemma KeptView(s: Store, r: Holding, n: nat, base: nat)
    requires CacheStep(s, r, n, base) && r.hl <= base && base <= |r.row|
    ensures Kept(s, r, n, base).view == Cached(s, r, n, base)
  {
    hide CacheStep, Cached;
  }

  lemma DroppedView(s: Store, r: Holding, n: nat, base: nat)
    requires CacheStep(s, r, n, base) && r.hl <= base && n <= r.cachedLen <= |r.row|
    ensures Dropped(s, r, n, base).view == Cached(s, r, n, base)
  {
    hide CacheStep, Cached;
  }

  /** The page sizes at which the reservation estimate, made in tokens, covers the pages that are taken. */
  predicate EstimateCovers(ps: nat)
  {
    0 < ps <= 2
  }

  /** Where the estimate covers the pages, whatever the live requests may still need can be had. */
  ghost predicate Afford(cm: CacheManager, live: set<Req>)
    reads cm, cm.prefixCache, cm.pageTable
    reads live`tok, live`cacheHandle, live`cachedLen, live`alloc, live`shares
  {
    Seated(live, cm.pageTable) && (EstimateCovers(cm.pageSize) ==> Budgeted(cm.StoreOf(map[]), Holdings(live, cm.pageTable)))
  }

  ghost predicate Increasing(cuts: seq<nat>)
  {
    forall i, j :: 0 <= i < j < |cuts| ==> cuts[i] < cuts[j]
  }

  /** The parts computed so far follow each other without gap or overlap. */
  ghost predicate Chained(cuts: seq<nat>, cachedLen: nat)
  {
    |cuts| > 0 && cuts[|cuts| - 1] == cachedLen && Increasing(cuts)
  }

  lemma ChainedMore(cuts: seq<nat>, cachedLen: nat, n: nat)
    requires Chained(cuts, cachedLen) && cachedLen < n
    ensures Chained(cuts + [n], n)
  {
  }

  /** The tokens of a row are the prompt, or a part of it from the start, and what follows it. */
  ghost predicate Voiced(tok: seq<int>, prompt: seq<int>, promptLen: nat)
  {
    promptLen == |prompt| && (tok <= prompt || prompt <= tok)
  }

  lemma VoicedMore(tok: seq<int>, more: seq<int>, prompt: seq<int>, promptLen: nat)
    requires Voiced(tok, prompt, promptLen) && promptLen <= |tok|
    ensures Voiced(tok + more, prompt, promptLen)
  {
    assert prompt <= tok;
    assert prompt <= tok + more;
  }

  /** The row of a live request in the token pool, and its lengths; `n` positions are backed, up to whole pages. */
  ghost predicate Fit(r: Req, cm: CacheManager, tm: TableManager, n: nat)
    reads r`tok, r`cachedLen, r`deviceLen, r`alloc, r`cuts, tm.tokenPool
  {
    && cm.pageSize > 0 && r.tableIdx < tm.tokenPool.Length && |tm.tokenPool[r.tableIdx]| == tm.width
    && |r.tok| <= r.goal <= tm.width && r.promptLen < r.goal
    && tm.tokenPool[r.tableIdx][..|r.tok|] == r.tok
    && r.cachedLen < r.deviceLen && r.alloc == DivCeil(n, cm.pageSize) * cm.pageSize
    && (if r.chunked then |r.tok| < r.promptLen else r.promptLen <= |r.tok| == r.deviceLen && r.maxDeviceLen == r.goal)
    && Voiced(r.tok, r.prompt, r.promptLen)
    && Chained(r.cuts, r.cachedLen)
  }

  /** Waiting for its forward pass. */
  ghost predicate Ready(r: Req, cm: CacheManager, tm: TableManager)
    reads r`tok, r`cachedLen, r`deviceLen, r`alloc, r`cuts, tm.tokenPool
  {
    Fit(r, cm, tm, r.cachedLen) && r.deviceLen == |r.tok| < r.goal
  }

  /** Waiting for its forward pass, with pages for all it will compute. */
  ghost predicate Backed(r: Req, cm: CacheManager, tm: TableManager)
    reads r`tok, r`cachedLen, r`deviceLen, r`alloc, r`cuts, tm.tokenPool
  {
    Fit(r, cm, tm, r.deviceLen) && r.deviceLen == |r.tok| < r.goal
  }

  /** Every token of its row but the one sampled last has been computed. */
  ghost predicate Done(r: Req, cm: CacheManager, tm: TableManager)
    reads r`tok, r`cachedLen, r`deviceLen, r`alloc, r`cuts, tm.tokenPool
  {
    Fit(r, cm, tm, r.cachedLen) && r.cachedLen == r.deviceLen - 1 && (r.chunked ==> r.cachedLen == |r.tok|)
  }

  /** A request that has not reached its goal can be decoded further. */
  lemma DoneReady(r: Req, cm: CacheManager, tm: TableManager)
    requires Done(r, cm, tm) && !r.chunked && r.RemainLen() > 0
    ensures Ready(r, cm, tm)
  {
  }

  // ---- requests come ----

  lemma StoreWithLabels(cm: CacheManager, kv: map<int, Prefix>)
    requires cm.pageSize > 0
    ensures cm.StoreOf(kv) == cm.StoreOf(map[]).(kv := kv)
    ensures Available(cm.StoreOf(kv)) == Available(cm.StoreOf(map[]))
  {
  }

  /** Whole pages need no rounding. */
  lemma WholePages(n: nat, ps: nat)
    requires ps > 0 && Aligned(n, ps)
    ensures DivCeil(n, ps) * ps == n
  {
    DivCeilCovers(n, ps);
    if DivCeil(n, ps) * ps > n { AlignedGap(n, DivCeil(n, ps) * ps, ps); }
  }

  /** A new request joins with the stored prefix of its prompt, whose slots it copies. */
  lemma Join(cm: CacheManager, live: set<Req>, kv: map<int, Prefix>, s: Store, r: Req)
    requires Seated(live + {r}, cm.pageTable) && r !in live
    requires WorldOk(s, Holdings(live, cm.pageTable), multiset{})
    requires Starts(s, HoldingOf(r, cm.pageTable), r.cacheHandle.cachedLen)
    requires cm.StoreOf(kv) == s.(locks := s.locks + multiset{r.tok[..r.cacheHandle.cachedLen]})
    ensures WorldOk(cm.StoreOf(kv), Holdings(live + {r}, cm.pageTable), multiset{})
    ensures Labelled(cm.pageTable[r.tableIdx], r.tok, 0, r.cacheHandle.cachedLen, kv)
  {
    hide WorldOk, Starts, Labelled;
    var m := Holdings(live, cm.pageTable);
    Admit(s, m, multiset{}, r, HoldingOf(r, cm.pageTable), r.cacheHandle.cachedLen);
    assert Holdings(live + {r}, cm.pageTable) == m[r := HoldingOf(r, cm.pageTable)];
  }

  lemma JoinAfford(s: Store, m: map<Req, Holding>, r: Req, h: Holding, reserved: int, estimated: int)
    requires s.ps > 0 && r !in m && (forall k :: k in m ==> Need(m[k], s.ps) >= 0) && Total(NeedMap(m, s.ps)) * s.ps <= reserved
    requires 0 <= Need(h, s.ps) && Need(h, s.ps) * s.ps <= estimated && reserved + estimated <= Available(s) * s.ps
    ensures Budgeted(s, m[r := h]) && Total(NeedMap(m[r := h], s.ps)) * s.ps <= reserved + estimated
  {
    hide Total, Need, Available, NeedMap;
    NeedSet(m, r, h, s.ps);
    var a, b := Total(NeedMap(m, s.ps)), Need(h, s.ps);
    assert (a + b) * s.ps == a * s.ps + b * s.ps;
    NotBeyondPages(a + b, Available(s), s.ps);
  }

  lemma NotBeyondPages(a: int, b: int, ps: nat)
    requires ps > 0 && a * ps <= b * ps
    ensures a <= b
  {
    assert (b + 1) * ps == b * ps + ps;
    Below(a, b + 1, ps);
  }

  /** The next chunk of a prompt takes over what the last one holds. */
  ghost function Handed(m: map<Req, Holding>, c: Req, r: Req, tok: seq<int>): map<Req, Holding>
    requires c in m
  {
    (m - {c})[r := m[c].(tok := tok)]
  }

  lemma TakeOver(s: Store, m: map<Req, Holding>, c: Req, r: Req, tok: seq<int>)
    requires WorldOk(s, m, multiset{}) && c in m && r !in m && m[c].tok <= tok
    ensures WorldOk(s, Handed(m, c, r, tok), multiset{})
  {
    hide ViewOk, HoldingOk, Conserved, LocksMatch;
    Rename<Req>(s, m, multiset{}, c, r);
    var renamed: map<Req, Holding> := (m - {c})[r := m[c]];
    assert WorldOk<Req>(s, renamed, multiset{});
    Lengthen(s, renamed, multiset{}, r, tok);
    assert renamed[r := renamed[r].(tok := tok)] == Handed(m, c, r, tok);
  }

  lemma TakeOverAfford(s: Store, m: map<Req, Holding>, c: Req, r: Req, tok: seq<int>, reserved: int, more: int)
    requires c in m && r !in m && Budgeted(s, m)
    requires Total(NeedMap(m - {c}, s.ps)) * s.ps <= reserved && Need(m[c], s.ps) * s.ps <= more
    ensures Budgeted(s, Handed(m, c, r, tok)) && Total(NeedMap(Handed(m, c, r, tok), s.ps)) * s.ps <= reserved + more
  {
    hide Total, Available, Need, NeedMap;
    NeedWithout(m, c, s.ps);
    NeedSet(m - {c}, r, m[c].(tok := tok), s.ps);
    SameNeed(m[c], m[c].(tok := tok), s.ps);
    BothFit(Total(NeedMap(m - {c}, s.ps)), Need(m[c], s.ps), s.ps, reserved, more);
  }

  lemma SameNeed(r: Holding, q: Holding, ps: nat)
    requires ps > 0 && r.goal == q.goal && r.alloc == q.alloc
    ensures Need(r, ps) == Need(q, ps)
  {
  }

  lemma BothFit(a: int, b: int, ps: nat, reserved: int, more: int)
    requires a * ps <= reserved && b * ps <= more
    ensures (a + b) * ps <= reserved + more
  {
    assert (a + b) * ps == a * ps + b * ps;
  }

  /** What every step of the scheduler starts from and comes back to. */
  ghost predicate Ground(cm: CacheManager, tm: TableManager, live: set<Req>, kv: map<int, Prefix>)
    reads cm, cm.prefixCache, cm.prefixCache.nodes, cm.pageTable, tm`freeSlots, tm.tokenPool
    reads live`tok, live`cacheHandle, live`cachedLen, live`alloc, live`shares
  {
    !cm.lazyRegion && Standing(cm, tm, live, kv)
  }

  /** The same, also while freed pages are being collected. */
  ghost predicate Standing(cm: CacheManager, tm: TableManager, live: set<Req>, kv: map<int, Prefix>)
    reads cm, cm.prefixCache, cm.prefixCache.nodes, cm.pageTable, tm`freeSlots, tm.tokenPool
    reads live`tok, live`cacheHandle, live`cachedLen, live`alloc, live`shares
  {
    Wired(cm, tm) && InOrder(cm, live, kv) && tm.Seats(live) && Afford(cm, live)
  }

  /** Every slot that a sharing request's row maps was last written for the prefix of its own tokens that ends there. */
  lemma StandingRow(cm: CacheManager, tm: TableManager, live: set<Req>, kv: map<int, Prefix>, r: Req)
    requires Standing(cm, tm, live, kv) && r in live && r.shares
    ensures r.tableIdx < cm.pageTable.Length && Labelled(cm.pageTable[r.tableIdx], r.tok, 0, r.cachedLen, kv)
  {
    hide ViewOk, HoldingOk, Conserved, LocksMatch, RadixPrefixCache.Valid, Budgeted, Labelled, Shares;
    var h := Holdings(live, cm.pageTable)[r];
    assert HoldingOk(h, cm.StoreOf(kv)) && RowShares(cm, r);
    SharingRowIsRight(cm.StoreOf(kv), h);
  }

  /** The pages that the requests of `live` other than those of `skip` need hold no more tokens than have been reserved. */
  ghost predicate Promised(cm: CacheManager, live: set<Req>, skip: set<Req>, reserved: int)
    reads cm.pageTable, live`tok, live`cacheHandle, live`cachedLen, live`alloc, live`shares
  {
    Seated(live, cm.pageTable) && (EstimateCovers(cm.pageSize) ==> Total(NeedMap(Holdings(live, cm.pageTable) - skip, cm.pageSize)) * cm.pageSize <= reserved)
  }

  lemma GroundFacts(cm: CacheManager, tm: TableManager, live: set<Req>, kv: map<int, Prefix>)
    requires Ground(cm, tm, live, kv)
    ensures Wired(cm, tm) && !cm.lazyRegion && InOrder(cm, live, kv) && tm.Seats(live) && Seated(live, cm.pageTable) && Afford(cm, live)
    ensures cm.Valid()
  {
  }

  lemma GroundPages(cm: CacheManager, tm: TableManager, live: set<Req>, kv: map<int, Prefix>)
    requires Ground(cm, tm, live, kv)
    ensures cm.pageSize > 0
  {
  }

  lemma StoreFields(cm: CacheManager)
    ensures cm.StoreOf(map[]).ps == cm.pageSize && cm.StoreOf(map[]).view == cm.prefixCache.view
  {
  }

  twostate lemma GroundBefore(cm: CacheManager, new tm: TableManager, new live: set<Req>, new kv: map<int, Prefix>)
    requires old(allocated(tm)) && old(allocated(live))
    requires old(Ground(cm, tm, live, kv))
    ensures old(Wired(cm, tm)) && old(!cm.lazyRegion) && old(InOrder(cm, live, kv)) && old(tm.Seats(live)) && Seated(live, cm.pageTable)
    ensures old(Afford(cm, live)) && old(cm.Valid())
  {
  }

  /** `r` takes over the row, the pages and the lock of `c`, with more tokens. */
  ghost predicate Succeeds(r: Req, c: Req)
    reads r`tok, r`cacheHandle, r`cachedLen, r`alloc, r`shares, c`tok, c`cacheHandle, c`cachedLen, c`alloc, c`shares
  {
    && r.tableIdx == c.tableIdx && r.cacheHandle == c.cacheHandle && r.cachedLen == c.cachedLen && r.alloc == c.alloc
    && r.goal == c.goal && c.tok <= r.tok && (r.shares ==> c.shares)
  }

  lemma Handover(cm: CacheManager, live: set<Req>, c: Req, r: Req)
    requires Seated(live, cm.pageTable) && c in live && r !in live && Succeeds(r, c)
    ensures Seated(live - {c} + {r}, cm.pageTable)
    ensures Holdings(live - {c} + {r}, cm.pageTable) == Handed(Holdings(live, cm.pageTable), c, r, r.tok)
  {
  }

  lemma ContinueInOrder(cm: CacheManager, live: set<Req>, kv: map<int, Prefix>, c: Req, r: Req)
    requires InOrder(cm, live, kv) && c in live && r !in live && Succeeds(r, c)
    ensures InOrder(cm, live - {c} + {r}, kv)
  {
    hide WorldOk, RadixPrefixCache.Valid;
    Handover(cm, live, c, r);
    TakeOver(cm.StoreOf(kv), Holdings(live, cm.pageTable), c, r, r.tok);
    assert cm.Anchored(c);
    if r.shares {
      assert RowShares(cm, c);
      SameShares(cm.prefixCache.view, HoldingOf(c, cm.pageTable), HoldingOf(r, cm.pageTable));
    }
  }

  lemma ContinueAfford(cm: CacheManager, live: set<Req>, c: Req, r: Req, reserved: int, total: int)
    requires Seated(live, cm.pageTable) && Afford(cm, live) && c in live && r !in live && Succeeds(r, c)
    requires Promised(cm, live, {c}, reserved)
    requires EstimateCovers(cm.pageSize) ==> Need(HoldingOf(c, cm.pageTable), cm.pageSize) * cm.pageSize <= total - reserved
    ensures Seated(live - {c} + {r}, cm.pageTable) && Afford(cm, live - {c} + {r})
    ensures Promised(cm, live - {c} + {r}, {}, total)
  {
    hide Budgeted, NeedMap, Total, Need;
    Handover(cm, live, c, r);
    var m := Holdings(live, cm.pageTable);
    if EstimateCovers(cm.pageSize) {
      TakeOverAfford(cm.StoreOf(map[]), m, c, r, r.tok, reserved, total - reserved);
      assert Handed(m, c, r, r.tok) - {} == Handed(m, c, r, r.tok);
    }
  }

  lemma ContinuedAfford(cm: CacheManager, live: set<Req>, c: Req, r: Req)
    requires Seated(live, cm.pageTable) && Afford(cm, live) && c in live && r !in live && Succeeds(r, c)
    ensures Seated(live - {c} + {r}, cm.pageTable) && Afford(cm, live - {c} + {r})
  {
    hide Afford, Need, NeedMap, Total, Succeeds;
    if cm.pageSize > 0 {
      var others := Total(NeedMap(Holdings(live, cm.pageTable) - {c}, cm.pageSize)) * cm.pageSize;
      ContinueAfford(cm, live, c, r, others, others + Need(HoldingOf(c, cm.pageTable), cm.pageSize) * cm.pageSize);
    } else {
      ContinueAfford(cm, live, c, r, 0, 0);
    }
  }

  /** Only the shape of the tree, and possibly its locks, has changed. */
  twostate predicate Reshaped(cm: CacheManager)
    reads cm, cm.prefixCache, cm.prefixCache.nodes
  {
    && cm.Valid() && unchanged(cm) && cm.prefixCache.view == old(cm.prefixCache.view)
    && old(cm.prefixCache.nodes) <= cm.prefixCache.nodes
    && forall n :: n in old(cm.prefixCache.nodes) ==> n.prefix == old(n.prefix)
  }

  twostate lemma ReshapedFacts(cm: CacheManager)
    requires Reshaped(cm)
    ensures cm.Valid() && cm.prefixCache.view == old(cm.prefixCache.view)
  {
  }

  twostate lemma RefusedAtOnce(cm: CacheManager)
    requires cm.Valid() && unchanged(cm) && unchanged(cm.prefixCache) && unchanged(cm.prefixCache.nodes)
    ensures Reshaped(cm)
  {
  }

  twostate predicate SameTable(table: Table)
    reads table
  {
    table[..] == old(table[..])
  }

  twostate lemma SameRect(table: Table, new width: nat, new live: set<Req>)
    requires old(allocated(live))
    requires old(Rect(table, width)) && SameTable(table)
    ensures Rect(table, width) && RowsStay(table, live)
  {
    var before := old(table[..]);
    forall t | 0 <= t < table.Length ensures table[t] == old(table[t]) {
      assert table[t] == table[..][t] && before[t] == old(table[t]);
    }
  }

  twostate lemma SameHoldings(live: set<Req>, new table: Table)
    requires old(allocated(table))
    requires Seated(live, table) && unchanged(live) && RowsStay(table, live)
    ensures Holdings(live, table) == old(Holdings(live, table))
  {
  }

  twostate lemma StillAnchored(cm: CacheManager, new live: set<Req>)
    requires old(allocated(live))
    requires Reshaped(cm) && unchanged(live) && old(cm.prefixCache.locks) <= cm.prefixCache.locks
    requires forall r :: r in live ==> old(cm.Anchored(r))
    ensures forall r :: r in live ==> cm.Anchored(r)
  {
    hide RadixPrefixCache.Valid;
    forall r | r in live ensures cm.Anchored(r) {
      assert old(cm.Anchored(r));
    }
  }

  /** A match that admits nothing leaves everything as it was. */
  twostate lemma RefusedGround(cm: CacheManager, new tm: TableManager, new live: set<Req>, new kv: map<int, Prefix>)
    requires old(allocated(tm)) && old(allocated(live))
    requires old(Ground(cm, tm, live, kv)) && Reshaped(cm) && unchanged(live) && cm.prefixCache.locks == old(cm.prefixCache.locks)
    requires SameTable(cm.pageTable) && SameTable(tm.tokenPool) && tm.freeSlots == old(tm.freeSlots)
    ensures Ground(cm, tm, live, kv)
  {
    hide WorldOk, Budgeted, RadixPrefixCache.Valid, SameTable, Rect, RowsStay, Holdings, CacheManager.Anchored, Sharers;
    SameRect(cm.pageTable, tm.width, live);
    SameRect(tm.tokenPool, tm.width, live);
    SameHoldings(live, cm.pageTable);
    StillAnchored(cm, live);
    SharersStay(cm, live);
  }

  /** `r` sits at a slot of its own, on the stored prefix of its tokens, which it has just locked. */
  twostate predicate Arrived(cm: CacheManager, tm: TableManager, new r: Req, n: nat)
    reads cm.prefixCache, r, cm.pageTable, tm, cm.prefixCache.nodes`prefix, tm.tokenPool
  {
    && r.cacheHandle.cachedLen == n && r.cachedLen == n && r.alloc == n && n <= |r.tok| <= tm.width
    && r.cacheHandle.node in cm.prefixCache.nodes && r.cacheHandle.node.prefix == r.tok[..n]
    && cm.prefixCache.locks == old(cm.prefixCache.locks) + multiset{r.tok[..n]}
    && old(tm.freeSlots) == tm.freeSlots + [r.tableIdx]
    && (n == 0 || r.tok[..n] in cm.prefixCache.view)
    && |Found(cm.prefixCache.view, r.tok, n)| == n
    && RowSet(cm.pageTable, r.tableIdx, 0, Found(cm.prefixCache.view, r.tok, n))
  }

  /** The slots at which the first `n` tokens are stored. */
  ghost function Found(view: View, ids: seq<int>, n: nat): seq<int>
  {
    if 0 < n <= |ids| && ids[..n] in view then view[ids[..n]] else []
  }

  twostate lemma ArrivedStarts(cm: CacheManager, new tm: TableManager, new r: Req, new n: nat, new s: Store)
    requires old(allocated(tm))
    requires old(Wired(cm, tm)) && Arrived(cm, tm, r, n) && r.tableIdx < cm.pageTable.Length
    requires s.ps == cm.pageSize && s.view == cm.prefixCache.view && Aligned(n, s.ps)
    ensures Starts(s, HoldingOf(r, cm.pageTable), n)
  {
    var t := r.tableIdx;
    RowSetHere(cm.pageTable, t, 0, Found(cm.prefixCache.view, r.tok, n));
    OverwrittenPrefix(old(cm.pageTable[t]), 0, Found(cm.prefixCache.view, r.tok, n));
  }

  twostate lemma ArrivedInOrder(cm: CacheManager, new tm: TableManager, new live: set<Req>, new kv: map<int, Prefix>,
                                new r: Req, new n: nat)
    requires old(allocated(tm)) && old(allocated(live))
    requires old(Ground(cm, tm, live, kv)) && Reshaped(cm) && unchanged(live) && r !in live
    requires Arrived(cm, tm, r, n) && Aligned(n, cm.pageSize)
    ensures Seated(live, cm.pageTable) && Holdings(live, cm.pageTable) == old(Holdings(live, cm.pageTable))
    ensures Rect(cm.pageTable, tm.width) && tm.Seats(live + {r}) && Seated(live + {r}, cm.pageTable)
    ensures InOrder(cm, live + {r}, kv)
    ensures Labelled(cm.pageTable[r.tableIdx], r.tok, 0, n, kv)
  {
    hide WorldOk, Budgeted, RadixPrefixCache.Valid, Rect, Starts, Labelled, Found, RowSet, RowsStay, Aligned, Shares;
    tm.SeatTaken(live, r);
    assert r.tableIdx in old(tm.freeSlots);
    OtherRows(cm.pageTable, tm.width, live, r.tableIdx, 0, Found(cm.prefixCache.view, r.tok, n));
    SameHoldings(live, cm.pageTable);
    ArrivedStarts(cm, tm, r, n, old(cm.StoreOf(kv)));
    Join(cm, live, kv, old(cm.StoreOf(kv)), r);
    StillAnchored(cm, live);
    SharersStay(cm, live);
    AdmittedShares(old(cm.StoreOf(kv)), HoldingOf(r, cm.pageTable), n);
  }

  lemma ArrivedAfford(cm: CacheManager, live: set<Req>, r: Req, m: map<Req, Holding>, reserved: int, estimated: int)
    requires Seated(live + {r}, cm.pageTable) && r !in live && m == Holdings(live, cm.pageTable)
    requires EstimateCovers(cm.pageSize) ==>
      && (forall k :: k in m ==> Need(m[k], cm.pageSize) >= 0) && Total(NeedMap(m, cm.pageSize)) * cm.pageSize <= reserved
      && 0 <= Need(HoldingOf(r, cm.pageTable), cm.pageSize)
      && Need(HoldingOf(r, cm.pageTable), cm.pageSize) * cm.pageSize <= estimated
      && reserved + estimated <= Available(cm.StoreOf(map[])) * cm.pageSize
    ensures Afford(cm, live + {r}) && Promised(cm, live + {r}, {}, reserved + estimated)
  {
    hide Total, Need, Available, NeedMap;
    var h := HoldingOf(r, cm.pageTable);
    assert Holdings(live + {r}, cm.pageTable) == m[r := h];
    assert m[r := h] - {} == m[r := h];
    if EstimateCovers(cm.pageSize) {
      JoinAfford(cm.StoreOf(map[]), m, r, h, reserved, estimated);
    }
  }

  /** A row of the pool that has been overwritten from its start on holds the tokens. */
  lemma PoolRow(first: seq<int>, tok: seq<int>, lo: nat, hi: nat)
    requires lo <= hi <= |tok| && hi <= |first|
    ensures |Overwritten(Overwritten(first, 0, tok[..lo]), lo, tok[lo..hi])| == |first|
    ensures Overwritten(Overwritten(first, 0, tok[..lo]), lo, tok[lo..hi])[..hi] == tok[..hi]
  {
    OverwrittenPrefix(first, 0, tok[..lo]);
    OverwrittenPrefix(Overwritten(first, 0, tok[..lo]), lo, tok[lo..hi]);
    assert tok[..lo] + tok[lo..hi] == tok[..hi];
  }

  /** At any page size, what is in flight covers the pages that the requests that are no chunks may still need. */
  lemma InflightCovers(cm: CacheManager, tm: TableManager, live: set<Req>, skip: set<Req>, running: set<Req>)
    requires Seated(live, cm.pageTable) && (forall r :: r in live ==> Done(r, cm, tm))
    requires running <= live - skip && forall r :: r in live - skip ==> !r.chunked && (r in running || r.RemainLen() == 0)
    requires cm.pageSize > 0
    ensures Total(NeedMap(Holdings(live, cm.pageTable) - skip, cm.pageSize)) * cm.pageSize
         <= Total(Remains(running)) + (cm.pageSize - 1) * |running|
  {
    hide Done, Total, Need, Covers, Remains;
    var ps := cm.pageSize;
    RemainsOf(running);
    var m, n := NeedMap(Holdings(live, cm.pageTable) - skip, ps), Remains(running);
    forall k | k in m ensures if k in n then Covers(m[k], n[k], 1, ps) else Covers(m[k], 0, 0, ps) {
      assert Done(k, cm, tm);
      DoneNeed(cm, tm, k);
    }
    TotalPages(m, n, ps);
    CoversMeans(Total(m), Total(n), |running|, ps);
  }

  lemma InflightPromised(cm: CacheManager, tm: TableManager, live: set<Req>, skip: set<Req>, running: set<Req>)
    requires Seated(live, cm.pageTable) && (forall r :: r in live ==> Done(r, cm, tm))
    requires running <= live - skip && forall r :: r in live - skip ==> !r.chunked && (r in running || r.RemainLen() == 0)
    requires cm.pageSize > 0
    ensures Promised(cm, live, skip, Total(Remains(running)) + (cm.pageSize - 1) * |running|)
  {
    hide Done, Total, NeedMap, Remains;
    InflightCovers(cm, tm, live, skip, running);
  }

  lemma CoversMeans(pages: int, tokens: int, spare: nat, ps: nat)
    requires Covers(pages, tokens, spare, ps)
    ensures pages * ps <= tokens + (ps - 1) * spare
  {
  }

  lemma RemainsOf(running: set<Req>)
    ensures Remains(running).Keys == running && |Remains(running)| == |running|
    ensures forall r :: r in running ==> Remains(running)[r] == r.RemainLen()
  {
    assert Remains(running).Keys == running;
    assert |Remains(running).Keys| == |Remains(running)|;
  }

  /** A request that has been computed needs pages for what remains, and up to one page more than that would fill. */
  lemma DoneNeed(cm: CacheManager, tm: TableManager, r: Req)
    requires Done(r, cm, tm) && !r.chunked && r.tableIdx < cm.pageTable.Length
    ensures var need := Need(HoldingOf(r, cm.pageTable), cm.pageSize);
      Covers(need, r.RemainLen(), 1, cm.pageSize) && (r.RemainLen() == 0 ==> Covers(need, 0, 0, cm.pageSize))
  {
    hide Chained, Voiced;
    DivCeilCovers(r.cachedLen, cm.pageSize);
    NeedBound(HoldingOf(r, cm.pageTable), cm.pageSize);
    if r.RemainLen() == 0 {
      MultipleAligned(DivCeil(r.cachedLen, cm.pageSize), cm.pageSize);
    }
  }

  /** That many pages hold no more than that many tokens, but for what the last of each of `spare` requests wastes. */
  ghost predicate Covers(pages: int, tokens: int, spare: nat, ps: nat)
  {
    pages * ps <= tokens + (ps - 1) * spare
  }

  lemma CoversAdd(a: int, x: int, i: nat, b: int, y: int, j: nat, ps: nat)
    requires Covers(a, x, i, ps) && Covers(b, y, j, ps)
    ensures Covers(a + b, x + y, i + j, ps)
  {
    assert (a + b) * ps == a * ps + b * ps && (ps - 1) * (i + j) == (ps - 1) * i + (ps - 1) * j;
  }

  lemma OneLess<K>(n: map<K, int>, k: K)
    requires k in n
    ensures |n - {k}| == |n| - 1
  {
    assert (n - {k}).Keys == n.Keys - {k};
    assert |n.Keys - {k}| == |n.Keys| - 1;
  }

  lemma {:induction false} TotalPages<K>(m: map<K, int>, n: map<K, int>, ps: nat)
    requires n.Keys <= m.Keys
    requires forall k :: k in m ==> if k in n then Covers(m[k], n[k], 1, ps) else Covers(m[k], 0, 0, ps)
    ensures Covers(Total(m), Total(n), |n|, ps)
    decreases |m|
  {
    hide Covers, Total;
    if m == map[] {
      NothingCovered(m, n, ps);
    } else {
      var k :| k in m;
      TotalWithout(m, k);
      if k in n {
        TotalWithout(n, k);
        OneLess(n, k);
        TotalPages(m - {k}, n - {k}, ps);
        CoversAdd(m[k], n[k], 1, Total(m - {k}), Total(n - {k}), |n - {k}|, ps);
      } else {
        TotalPages(m - {k}, n, ps);
        CoversAdd(m[k], 0, 0, Total(m - {k}), Total(n), |n|, ps);
      }
    }
  }

  lemma NothingCovered<K>(m: map<K, int>, n: map<K, int>, ps: nat)
    requires m == map[] && n.Keys <= m.Keys
    ensures Covers(Total(m), Total(n), |n|, ps)
  {
    assert n == map[];
  }

  // ---- requests leave ----

  twostate predicate SameFields(live: set<Req>)
    reads live`tok, live`cacheHandle, live`cachedLen, live`alloc, live`shares
  {
    forall r :: r in live ==>
      && r.tok == old(r.tok) && r.cacheHandle == old(r.cacheHandle) && r.cachedLen == old(r.cachedLen) && r.alloc == old(r.alloc)
      && r.shares == old(r.shares)
  }

  /** The tree has grown, and no node stands for anything else. */
  twostate predicate Grown(cm: CacheManager)
    reads cm, cm.prefixCache, cm.prefixCache.nodes
  {
    && cm.Valid() && old(cm.prefixCache.nodes) <= cm.prefixCache.nodes
    && forall n :: n in old(cm.prefixCache.nodes) ==> n.prefix == old(n.prefix)
  }

  /** The locks of the live requests are where their handles say. */
  twostate lemma AnchoredAgain(cm: CacheManager, new live: set<Req>, new kv: map<int, Prefix>)
    requires old(allocated(live))
    requires Grown(cm) && SameFields(live) && forall r :: r in live ==> old(cm.Anchored(r))
    requires Seated(live, cm.pageTable) && LocksMatch(cm.StoreOf(kv), Holdings(live, cm.pageTable))
    ensures forall r :: r in live ==> cm.Anchored(r)
  {
    hide RadixPrefixCache.Valid, LocksMatch, Locked;
    forall r | r in live ensures cm.Anchored(r) {
      assert old(cm.Anchored(r));
      HandleLocked<Req>(cm.StoreOf(kv), Holdings(live, cm.pageTable), r);
    }
  }

  twostate lemma Departed(cm: CacheManager, new live: set<Req>, new kv: map<int, Prefix>, new r: Req, new n: nat, new base: nat)
    requires old(allocated(live)) && old(allocated(r))
    requires old(InOrder(cm, live, kv)) && r in live && SameFields(live) && unchanged(cm.pageTable) && Grown(cm)
    requires old(Tight(HoldingOf(r, cm.pageTable), cm.pageSize))
    requires old(CacheStep(cm.StoreOf(kv), HoldingOf(r, cm.pageTable), n, base))
    requires var h := old(HoldingOf(r, cm.pageTable)); h.hl <= base && n <= h.cachedLen <= |h.row|
    requires cm.StoreOf(kv) == old(Dropped(cm.StoreOf(kv), HoldingOf(r, cm.pageTable), n, base))
    ensures InOrder(cm, live - {r}, kv)
    ensures old(Afford(cm, live)) ==> Afford(cm, live - {r})
  {
    hide ViewOk, AllOk, Conserved, LocksMatch, Tight, CacheStep, Dropped, RadixPrefixCache.Valid, Budgeted;
    hide CacheManager.Anchored, RowShares;
    var m := old(Holdings(live, cm.pageTable));
    Drop<Req>(old(cm.StoreOf(kv)), m, multiset{}, r, n, base);
    assert Holdings(live - {r}, cm.pageTable) == m - {r};
    AnchoredAgain(cm, live - {r}, kv);
    DroppedView(old(cm.StoreOf(kv)), old(HoldingOf(r, cm.pageTable)), n, base);
    SharersBesides(cm, live - {r}, old(cm.StoreOf(kv)), old(HoldingOf(r, cm.pageTable)), n, base);
    if old(Afford(cm, live)) {
      DepartedAfford(cm, live, kv, r, n, base);
    }
  }

  twostate lemma DepartedAfford(cm: CacheManager, new live: set<Req>, new kv: map<int, Prefix>, new r: Req, new n: nat,
                                new base: nat)
    requires old(allocated(live)) && old(allocated(r))
    requires old(Afford(cm, live)) && r in live && SameFields(live) && unchanged(cm.pageTable)
    requires old(CacheStep(cm.StoreOf(kv), HoldingOf(r, cm.pageTable), n, base))
    requires var h := old(HoldingOf(r, cm.pageTable)); h.hl <= base && n <= h.cachedLen <= |h.row|
    requires cm.StoreOf(kv) == old(Dropped(cm.StoreOf(kv), HoldingOf(r, cm.pageTable), n, base))
    ensures Afford(cm, live - {r})
  {
    hide CacheStep, Dropped, Total, Available;
    var m, h := old(Holdings(live, cm.pageTable)), old(HoldingOf(r, cm.pageTable));
    var s := old(cm.StoreOf(kv));
    assert Holdings(live - {r}, cm.pageTable) == m - {r};
    if EstimateCovers(cm.pageSize) {
      StoreWithLabels(cm, kv);
      SameAvailable(s, map[]);
      assert old(cm.StoreOf(map[])) == s.(kv := map[]);
      DropBudget(s, h, n, base);
      NeedWithout(m, r, cm.pageSize);
    }
  }

  lemma SameAvailable(s: Store, kv: map<int, Prefix>)
    ensures Available(s.(kv := kv)) == Available(s)
  {
  }

  // ---- requests stay ----

  /** Only the handle of `r` has changed. */
  twostate predicate SameButHandle(live: set<Req>, r: Req)
    reads live`tok, live`cacheHandle, live`cachedLen, live`alloc, live`shares, r`tok, r`cachedLen, r`alloc
  {
    SameFields(live - {r}) && r.tok == old(r.tok) && r.cachedLen == old(r.cachedLen) && r.alloc == old(r.alloc)
  }

  twostate lemma Stayed(cm: CacheManager, new live: set<Req>, new kv: map<int, Prefix>, new r: Req, new n: nat, new base: nat)
    requires old(allocated(live)) && old(allocated(r))
    requires old(InOrder(cm, live, kv)) && r in live && SameButHandle(live, r) && unchanged(cm.pageTable) && Grown(cm)
    requires old(Tight(HoldingOf(r, cm.pageTable), cm.pageSize))
    requires old(CacheStep(cm.StoreOf(kv), HoldingOf(r, cm.pageTable), n, base))
    requires var h := old(HoldingOf(r, cm.pageTable)); h.hl <= base && base <= |h.row|
    requires cm.StoreOf(kv) == old(Kept(cm.StoreOf(kv), HoldingOf(r, cm.pageTable), n, base))
    requires r.cacheHandle.cachedLen == n && cm.Anchored(r)
    requires r.shares ==> old(r.shares) && base == old(r.cacheHandle.cachedLen)
    ensures InOrder(cm, live, kv)
    ensures old(Afford(cm, live)) ==> Afford(cm, live)
  {
    hide ViewOk, HoldingOk, Conserved, LocksMatch, Tight, CacheStep, Kept, RadixPrefixCache.Valid, Budgeted;
    hide CacheManager.Anchored, Shares;
    var m, h := old(Holdings(live, cm.pageTable)), old(HoldingOf(r, cm.pageTable));
    Keep<Req>(old(cm.StoreOf(kv)), m, multiset{}, r, n, base);
    assert Holdings(live, cm.pageTable) == m[r := h.(hl := n)];
    OthersAnchored(cm, live, kv, r);
    KeptView(old(cm.StoreOf(kv)), h, n, base);
    SharersBesides(cm, live - {r}, old(cm.StoreOf(kv)), h, n, base);
    if r.shares {
      assert old(RowShares(cm, r));
      KeptShares<Req>(old(cm.StoreOf(kv)), m, r, n, base);
    }
    if old(Afford(cm, live)) {
      HandleLocked<Req>(old(cm.StoreOf(kv)), m, r);
      assert HoldingOk(m[r], old(cm.StoreOf(kv)));
      StayedAfford(cm, live, kv, r, n, base);
    }
  }

  twostate lemma OthersAnchored(cm: CacheManager, new live: set<Req>, new kv: map<int, Prefix>, new r: Req)
    requires old(allocated(live)) && old(allocated(r))
    requires Grown(cm) && SameFields(live - {r}) && (forall q :: q in live ==> old(cm.Anchored(q))) && cm.Anchored(r)
    requires Seated(live, cm.pageTable) && LocksMatch(cm.StoreOf(kv), Holdings(live, cm.pageTable))
    ensures forall q :: q in live ==> cm.Anchored(q)
  {
    hide RadixPrefixCache.Valid, LocksMatch, Locked;
    forall q | q in live && q != r ensures cm.Anchored(q) {
      assert old(cm.Anchored(q));
      HandleLocked<Req>(cm.StoreOf(kv), Holdings(live, cm.pageTable), q);
    }
  }

  twostate lemma StayedAfford(cm: CacheManager, new live: set<Req>, new kv: map<int, Prefix>, new r: Req, new n: nat, new base: nat)
    requires old(allocated(live)) && old(allocated(r))
    requires old(Afford(cm, live)) && r in live && SameButHandle(live, r) && unchanged(cm.pageTable)
    requires old(CacheStep(cm.StoreOf(kv), HoldingOf(r, cm.pageTable), n, base))
    requires var h := old(HoldingOf(r, cm.pageTable)); h.hl <= base && base <= |h.row|
    requires old(ViewOk(cm.StoreOf(kv)) && HoldingOk(HoldingOf(r, cm.pageTable), cm.StoreOf(kv)))
    requires old(Tight(HoldingOf(r, cm.pageTable), cm.pageSize) && Handle(HoldingOf(r, cm.pageTable)) in cm.prefixCache.locks)
    requires cm.StoreOf(kv) == old(Kept(cm.StoreOf(kv), HoldingOf(r, cm.pageTable), n, base)) && r.cacheHandle.cachedLen == n
    ensures Afford(cm, live)
  {
    hide CacheStep, Kept, Total, Available, ViewOk, HoldingOk, Tight, Handle, Need, NeedMap;
    var m, h := old(Holdings(live, cm.pageTable)), old(HoldingOf(r, cm.pageTable));
    var s := old(cm.StoreOf(kv));
    assert Holdings(live, cm.pageTable) == m[r := h.(hl := n)];
    if EstimateCovers(cm.pageSize) {
      StoreWithLabels(cm, kv);
      SameAvailable(s, map[]);
      assert old(cm.StoreOf(map[])) == s.(kv := map[]);
      KeepBudget(s, h, n, base);
      NeedSet<Req>(m, r, h.(hl := n), cm.pageSize);
      SameNeed(h, h.(hl := n), cm.pageSize);
    }
  }

  // ---- requests are computed ----

  /** Progress that takes no page changes no need. */
  twostate lemma ProgressAfford(cm: CacheManager, new live: set<Req>, new r: Req)
    requires old(allocated(live)) && old(allocated(r))
    requires old(Afford(cm, live)) && r in live && SameFields(live - {r}) && unchanged(cm.pageTable)
    requires unchanged(cm) && unchanged(cm.prefixCache) && r.cacheHandle == old(r.cacheHandle) && r.alloc == old(r.alloc)
    ensures Afford(cm, live)
  {
    hide Total, Available, Need, NeedMap;
    var m := old(Holdings(live, cm.pageTable));
    var h := m[r].(tok := r.tok, cachedLen := r.cachedLen);
    assert Holdings(live, cm.pageTable) == m[r := h];
    if cm.pageSize > 0 {
      NeedSet<Req>(m, r, h, cm.pageSize);
      SameNeed(m[r], h, cm.pageSize);
    }
  }

  /** The forward pass of `r` has written the KV of its row up to `|r.tok|`. */
  twostate lemma ComputedOne(cm: CacheManager, new live: set<Req>, new kv: map<int, Prefix>, new r: Req)
    requires old(allocated(live)) && old(allocated(r))
    requires old(InOrder(cm, live, kv)) && r in live && SameFields(live - {r}) && unchanged(cm.pageTable)
    requires unchanged(cm) && unchanged(cm.prefixCache) && unchanged(cm.prefixCache.nodes)
    requires r.tok == old(r.tok) && r.cacheHandle == old(r.cacheHandle) && r.alloc == old(r.alloc) && r.cachedLen == |r.tok|
    requires r.shares == old(r.shares)
    requires old(r.cachedLen) <= |r.tok| <= r.alloc <= |cm.pageTable[r.tableIdx]|
    ensures InOrder(cm, live, Computed(kv, cm.pageTable[r.tableIdx], r.tok, old(r.cachedLen), |r.tok|))
    ensures old(Afford(cm, live)) ==> Afford(cm, live)
  {
    hide ViewOk, AllOk, Conserved, LocksMatch, RadixPrefixCache.Valid, Budgeted, Computed, Sharers;
    SharersStay(cm, live);
    var m := old(Holdings(live, cm.pageTable));
    var s := old(cm.StoreOf(kv));
    World.Forward<Req>(s, m, multiset{}, r, |r.tok|);
    var kv' := Computed(kv, cm.pageTable[r.tableIdx], r.tok, old(r.cachedLen), |r.tok|);
    assert Holdings(live, cm.pageTable) == m[r := m[r].(cachedLen := |r.tok|)];
    assert cm.StoreOf(kv') == Wrote(s, m[r], |r.tok|);
    forall q | q in live ensures cm.Anchored(q) {
      assert old(cm.Anchored(q));
    }
    if old(Afford(cm, live)) { ProgressAfford(cm, live, r); }
  }

  /** One more token is known of `r`. */
  twostate lemma SampledOne(cm: CacheManager, new live: set<Req>, new kv: map<int, Prefix>, new r: Req)
    requires old(allocated(live)) && old(allocated(r))
    requires old(InOrder(cm, live, kv)) && r in live && SameFields(live - {r}) && unchanged(cm.pageTable)
    requires unchanged(cm) && unchanged(cm.prefixCache) && unchanged(cm.prefixCache.nodes)
    requires old(r.tok) <= r.tok && r.cacheHandle == old(r.cacheHandle) && r.alloc == old(r.alloc) && r.cachedLen == old(r.cachedLen)
    requires r.shares == old(r.shares)
    ensures InOrder(cm, live, kv)
    ensures old(Afford(cm, live)) ==> Afford(cm, live)
  {
    hide ViewOk, AllOk, Conserved, LocksMatch, RadixPrefixCache.Valid, Budgeted, Sharers;
    SharersStay(cm, live);
    var m := old(Holdings(live, cm.pageTable));
    Lengthen<Req>(old(cm.StoreOf(kv)), m, multiset{}, r, r.tok);
    assert Holdings(live, cm.pageTable) == m[r := m[r].(tok := r.tok)];
    forall q | q in live ensures cm.Anchored(q) {
      assert old(cm.Anchored(q));
    }
    if old(Afford(cm, live)) { ProgressAfford(cm, live, r); }
  }

  // ---- a batch is backed ----

  /** Every request of the batch has room in its row for the pages it gets. */
  ghost predicate Roomy(m: map<Req, Holding>, reqs: seq<Req>, counts: seq<nat>, ps: nat)
  {
    && |counts| == |reqs|
    && forall i :: 0 <= i < |reqs| ==> reqs[i] in m && m[reqs[i]].alloc + counts[i] * ps <= |m[reqs[i]].row|
  }

  /** No request of the batch gets more than it may still need. */
  ghost predicate WithinNeed(m: map<Req, Holding>, reqs: seq<Req>, counts: seq<nat>, ps: nat)
    requires ps > 0
  {
    |counts| == |reqs| && forall i :: 0 <= i < |reqs| ==> reqs[i] in m && counts[i] <= Need(m[reqs[i]], ps)
  }

  twostate lemma RectStays(table: Table, new width: nat)
    requires old(Rect(table, width)) && SameShape(table[..], old(table[..]))
    ensures Rect(table, width)
  {
    var before := old(table[..]);
    forall t | 0 <= t < table.Length ensures |table[t]| == width {
      assert |table[..][t]| == |before[t]| && before[t] == old(table[t]);
    }
  }

  lemma BatchIsRoomy(cm: CacheManager, reqs: seq<Req>, live: set<Req>, counts: seq<nat>)
    requires cm.Preparable(reqs, live) && |counts| == |reqs| && Seated(live, cm.pageTable) && cm.pageSize > 0
    requires forall i :: 0 <= i < |reqs| ==>
      DivCeil(reqs[i].deviceLen, cm.pageSize) == DivCeil(reqs[i].cachedLen, cm.pageSize) + counts[i]
    ensures Roomy(Holdings(live, cm.pageTable), reqs, counts, cm.pageSize)
  {
    hide DivCeil;
    forall i | 0 <= i < |reqs|
      ensures reqs[i] in live && Holdings(live, cm.pageTable)[reqs[i]].alloc + counts[i] * cm.pageSize <= |Holdings(live, cm.pageTable)[reqs[i]].row|
    {
      assert reqs[i] in reqs;
      SumTimes(DivCeil(reqs[i].deviceLen, cm.pageSize), DivCeil(reqs[i].cachedLen, cm.pageSize), counts[i], cm.pageSize);
    }
  }

  twostate lemma BackedInOrder(cm: CacheManager, new live: set<Req>, new kv: map<int, Prefix>, new reqs: seq<Req>,
                               new order: seq<Prefix>, new counts: seq<nat>, new taken: seq<int>)
    requires old(allocated(live)) && old(allocated(reqs))
    requires old(InOrder(cm, live, kv)) && NoDup(reqs) && Roomy(old(Holdings(live, cm.pageTable)), reqs, counts, cm.pageSize)
    requires cm.Valid() && PagesDealt(cm, live, reqs, order, counts, taken) && ValidView(cm.prefixCache.view, cm.pageSize)
    requires cm.prefixCache.locks == old(cm.prefixCache.locks) && cm.prefixCache.nodes <= old(cm.prefixCache.nodes)
    requires forall n :: n in old(cm.prefixCache.nodes) && Locked(cm.prefixCache.locks, n.prefix) ==> n in cm.prefixCache.nodes
    requires forall n :: n in old(cm.prefixCache.nodes) ==> n.prefix == old(n.prefix)
    requires forall r :: r in live ==> r.tok == old(r.tok) && r.cacheHandle == old(r.cacheHandle) && r.shares == old(r.shares)
    ensures InOrder(cm, live, kv)
  {
    hide ViewOk, AllOk, Conserved, LocksMatch, RadixPrefixCache.Valid, Removed, Refilled, Flat, GrantAll, NoDup, ValidView;
    hide Shares;
    var m, s := old(Holdings(live, cm.pageTable)), old(cm.StoreOf(kv));
    assert s.(kv := map[]) == old(cm.StoreOf(map[]));
    SameRefill(s, old(cm.StoreOf(map[])), Flat(old(cm.prefixCache.view), order, cm.pageSize));
    BackBatch<Req>(s, m, order, cm.prefixCache.view, reqs, counts);
    forall r | r in live ensures cm.Anchored(r) {
      assert old(cm.Anchored(r));
      assert Locked(cm.prefixCache.locks, r.cacheHandle.node.prefix);
    }
    forall r | r in live && r.shares ensures RowShares(cm, r) {
      BackedShares(cm, live, kv, reqs, order, counts, taken, r);
    }
  }

  /** Neither the eviction for a batch nor the pages it gets stop a row from sharing. */
  twostate lemma BackedShares(cm: CacheManager, new live: set<Req>, new kv: map<int, Prefix>, new reqs: seq<Req>,
                              new order: seq<Prefix>, new counts: seq<nat>, new taken: seq<int>, new r: Req)
    requires old(allocated(live)) && old(allocated(reqs)) && old(allocated(r))
    requires old(InOrder(cm, live, kv)) && r in live && r.shares && old(r.shares)
    requires PagesDealt(cm, live, reqs, order, counts, taken) && cm.prefixCache.locks == old(cm.prefixCache.locks)
    ensures RowShares(cm, r)
  {
    hide ViewOk, HoldingOk, Conserved, LocksMatch, RadixPrefixCache.Valid, Removed, Refilled, Flat, GrantAll, Shares;
    hide Handle, Locked;
    var m, s := old(Holdings(live, cm.pageTable)), old(cm.StoreOf(kv));
    assert old(RowShares(cm, r));
    HandleLocked<Req>(s, m, r);
    SharesAfterEviction(s, m[r], order, cm.prefixCache.view);
    assert HoldingOk(m[r], s);
    HoldingShape(m[r], s);
    SharesAfterGrants<Req>(cm.prefixCache.view, m, reqs, counts, taken, cm.pageSize, r);
  }

  lemma HoldingShape(r: Holding, s: Store)
    requires HoldingOk(r, s)
    ensures r.hl <= r.cachedLen <= r.alloc <= |r.row|
  {
  }

  lemma SameRefill(s: Store, t: Store, evicted: seq<int>)
    requires s.ps > 0 && t == s.(kv := t.kv)
    ensures Refilled(s, evicted) == Refilled(t, evicted)
  {
  }

  /** Where the budget holds, the batch gets its pages. */
  lemma BatchHasPages(s: Store, m: map<Req, Holding>, reqs: seq<Req>, counts: seq<nat>)
    requires Budgeted(s, m) && NoDup(reqs) && Roomy(m, reqs, counts, s.ps) && WithinNeed(m, reqs, counts, s.ps)
    ensures Sum(counts) <= Available(s)
  {
    hide Available, Total, NoDup, Need;
    BatchAffordable<Req>(s, m, reqs, counts);
  }

  twostate lemma BackedAfford(cm: CacheManager, new live: set<Req>, new reqs: seq<Req>, new order: seq<Prefix>,
                              new counts: seq<nat>, new taken: seq<int>)
    requires old(allocated(live)) && old(allocated(reqs))
    requires old(Afford(cm, live)) && NoDup(reqs) && Roomy(old(Holdings(live, cm.pageTable)), reqs, counts, cm.pageSize)
    requires PagesDealt(cm, live, reqs, order, counts, taken) && old(ValidView(cm.prefixCache.view, cm.pageSize))
    requires cm.prefixCache.locks == old(cm.prefixCache.locks)
    requires EstimateCovers(cm.pageSize) ==> WithinNeed(old(Holdings(live, cm.pageTable)), reqs, counts, cm.pageSize)
    ensures Afford(cm, live)
  {
    hide Removed, Refilled, Flat, GrantAll, NoDup, ValidView, Total, Available, Need, Locked;
    if EstimateCovers(cm.pageSize) {
      BackBudget<Req>(old(cm.StoreOf(map[])), old(Holdings(live, cm.pageTable)), order, cm.prefixCache.view, reqs, counts, taken);
    }
  }
}
