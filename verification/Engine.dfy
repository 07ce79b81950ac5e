/** Running a batch: the forward pass, and what it leaves in the KV slots and in the token pool. */
module Execution {
  import opened Alignment
  import opened PrefixStore
  import Pages
  import opened World
  import opened RadixCache
  import opened Core
  import opened TableManagement
  import opened CacheManagement
  import opened Residency
  import opened Batching

  /** Its forward pass has run, and its next token is not yet in its row. */
  ghost predicate Completed(r: Req, cm: CacheManager, tm: TableManager)
    reads r`tok, r`cachedLen, r`deviceLen, r`alloc, r`cuts, tm.tokenPool
  {
    && cm.pageSize > 0 && r.tableIdx < tm.tokenPool.Length && |tm.tokenPool[r.tableIdx]| == tm.width
    && |r.tok| < r.goal <= tm.width && r.promptLen < r.goal
    && tm.tokenPool[r.tableIdx][..|r.tok|] == r.tok
    && r.cachedLen == |r.tok| == r.deviceLen - 1 && r.alloc == DivCeil(r.cachedLen, cm.pageSize) * cm.pageSize
    && (if r.chunked then |r.tok| < r.promptLen else r.promptLen <= |r.tok| && r.maxDeviceLen == r.goal)
    && Voiced(r.tok, r.prompt, r.promptLen)
    && Chained(r.cuts, r.cachedLen)
  }

  lemma BackedBounds(cm: CacheManager, tm: TableManager, live: set<Req>, kv: map<int, Prefix>, r: Req)
    requires Standing(cm, tm, live, kv) && r in live && Backed(r, cm, tm)
    ensures r.tableIdx < cm.pageTable.Length && r.cachedLen <= r.deviceLen == |r.tok| <= r.alloc <= |cm.pageTable[r.tableIdx]|
  {
    hide ViewOk, Conserved, LocksMatch, Labelled, Pages.Blocked, DivCeil, RadixPrefixCache.Valid, Budgeted;
    DivCeilCovers(r.deviceLen, cm.pageSize);
    assert HoldingOk(Holdings(live, cm.pageTable)[r], cm.StoreOf(kv));
  }

  twostate lemma CompletedOne(cm: CacheManager, new tm: TableManager, new live: set<Req>, new kv: map<int, Prefix>, new r: Req)
    requires old(allocated(tm)) && old(allocated(live)) && old(allocated(r))
    requires old(Standing(cm, tm, live, kv)) && r in live && old(Backed(r, cm, tm)) && SameFields(live - {r})
    requires unchanged(cm.pageTable) && unchanged(tm.tokenPool) && unchanged(cm) && unchanged(tm)
    requires unchanged(cm.prefixCache) && unchanged(cm.prefixCache.nodes)
    requires r.tok == old(r.tok) && r.cacheHandle == old(r.cacheHandle) && r.alloc == old(r.alloc) && r.shares == old(r.shares)
    requires r.cachedLen == old(r.deviceLen) && r.deviceLen == r.cachedLen + 1 && r.cuts == old(r.cuts) + [r.cachedLen]
    ensures Completed(r, cm, tm) && r.tableIdx < cm.pageTable.Length && |r.tok| <= |cm.pageTable[r.tableIdx]|
    ensures Standing(cm, tm, live, Computed(kv, cm.pageTable[r.tableIdx], r.tok, old(r.cachedLen), |r.tok|))
  {
    hide InOrder, Afford, DivCeil, Computed, Increasing, Rect, Voiced;
    BackedBefore(cm, tm, live, kv, r);
    ChainedMore(old(r.cuts), old(r.cachedLen), r.cachedLen);
    ComputedOne(cm, live, kv, r);
  }

  twostate lemma BackedBefore(cm: CacheManager, new tm: TableManager, new live: set<Req>, new kv: map<int, Prefix>, new r: Req)
    requires old(allocated(tm)) && old(allocated(live)) && old(allocated(r))
    requires old(Standing(cm, tm, live, kv)) && r in live && old(Backed(r, cm, tm))
    ensures r.tableIdx < cm.pageTable.Length
    ensures old(r.cachedLen <= r.deviceLen == |r.tok| <= r.alloc <= |cm.pageTable[r.tableIdx]|)
  {
    hide ViewOk, Conserved, LocksMatch, Labelled, Pages.Blocked, DivCeil, RadixPrefixCache.Valid, Budgeted;
    DivCeilCovers(old(r.deviceLen), cm.pageSize);
    assert old(HoldingOk(Holdings(live, cm.pageTable)[r], cm.StoreOf(kv)));
  }

  /** `outLoc` lists the slots of the positions to compute, and `labels` the prefixes they are computed for. */
  ghost predicate Addressed(reqs: seq<Req>, table: Table, outLoc: seq<int>, labels: seq<Prefix>)
    reads table, Elements(reqs)`cachedLen, Elements(reqs)`deviceLen, Elements(reqs)`tok
  {
    && Reaching(Spans(reqs), table[..]) && (forall i :: 0 <= i < |reqs| ==> |Toks(reqs)[i]| == Spans(reqs)[i].hi)
    && outLoc == Stretches(Spans(reqs), table[..]) && labels == LabelsOf(Spans(reqs), Toks(reqs))
    && |outLoc| == |labels|
  }

  /** The prefixes that a forward pass of the batch computes, in the order of its positions. */
  ghost function BatchLabels(reqs: seq<Req>): seq<Prefix>
    reads Elements(reqs)`cachedLen, Elements(reqs)`deviceLen, Elements(reqs)`tok
  {
    if forall i :: 0 <= i < |reqs| ==> Spans(reqs)[i].lo <= |Toks(reqs)[i]| then LabelsOf(Spans(reqs), Toks(reqs)) else []
  }

  lemma BatchAddressed(cm: CacheManager, tm: TableManager, live: set<Req>, kv: map<int, Prefix>, reqs: seq<Req>)
    requires Standing(cm, tm, live, kv) && forall r :: r in reqs ==> r in live && Backed(r, cm, tm)
    ensures Reaching(Spans(reqs), cm.pageTable[..])
    ensures Addressed(reqs, cm.pageTable, Stretches(Spans(reqs), cm.pageTable[..]), BatchLabels(reqs))
  {
    hide Standing, Backed, Spans, Toks, Stretches, LabelsOf, Stored, ComputedAll;
    BatchReaches(cm, tm, live, kv, reqs);
    StoredIsComputed(kv, Spans(reqs), cm.pageTable[..], Toks(reqs));
  }

  lemma BatchReaches(cm: CacheManager, tm: TableManager, live: set<Req>, kv: map<int, Prefix>, reqs: seq<Req>)
    requires Standing(cm, tm, live, kv) && forall r :: r in reqs ==> r in live && Backed(r, cm, tm)
    ensures Reaching(Spans(reqs), cm.pageTable[..])
    ensures forall i :: 0 <= i < |reqs| ==> |Toks(reqs)[i]| == Spans(reqs)[i].hi
  {
    hide Standing, Backed, Spans, Toks;
    forall i | 0 <= i < |reqs| ensures var x := Spans(reqs)[i];
      && x.lo <= x.hi && x.row < cm.pageTable.Length && x.hi <= |cm.pageTable[..][x.row]| && |Toks(reqs)[i]| == x.hi
    {
      assert reqs[i] in reqs;
      BackedBounds(cm, tm, live, kv, reqs[i]);
    }
  }

  /** One token for each row of the logits; nothing is known about which. */
  method Sample(n: nat) returns (nextTokens: seq<int>)
    ensures |nextTokens| == n
  {
    nextTokens := [];
    while |nextTokens| < n
      invariant |nextTokens| <= n
    {
      var token: int := *;
      nextTokens := nextTokens + [token];
    }
  }

  /** What the forward pass does to one request. */
  method CompleteReq(req: Req, cm: CacheManager, tm: TableManager, ghost live: set<Req>, ghost kv: map<int, Prefix>)
    requires Standing(cm, tm, live, kv) && req in live && Backed(req, cm, tm)
    modifies req`cachedLen, req`deviceLen, req`cuts
    ensures Completed(req, cm, tm) && req.tableIdx < cm.pageTable.Length && |req.tok| <= |cm.pageTable[req.tableIdx]|
    ensures req.cachedLen == old(req.deviceLen) == |req.tok|
    ensures Standing(cm, tm, live, Computed(kv, cm.pageTable[req.tableIdx], req.tok, old(req.cachedLen), |req.tok|))
  {
    hide Standing, Backed, Completed, Computed;
    BackedBounds(cm, tm, live, kv, req);
    req.CompleteOne();
    req.cuts := req.cuts + [req.cachedLen];
    CompletedOne(cm, tm, live, kv, req);
  }

  lemma ComputedAllStep(kv: map<int, Prefix>, spans: seq<Span>, rows: seq<seq<int>>, toks: seq<seq<int>>, i: nat)
    requires Reaching(spans, rows) && |spans| == |toks| && i < |spans| && forall j :: 0 <= j < |spans| ==> |toks[j]| == spans[j].hi
    ensures ComputedAll(kv, spans[..i + 1], rows, toks[..i + 1])
         == Computed(ComputedAll(kv, spans[..i], rows, toks[..i]), rows[spans[i].row], toks[i], spans[i].lo, spans[i].hi)
  {
    assert spans[..i + 1][..i] == spans[..i] && toks[..i + 1][..i] == toks[..i];
  }

  lemma NothingComputed(kv: map<int, Prefix>, rows: seq<seq<int>>)
    ensures ComputedAll(kv, [], rows, []) == kv
  {
  }

  /** What the forward pass does to one request after the other. */
  method ForwardBatch(reqs: seq<Req>, outLoc: seq<int>, cm: CacheManager, tm: TableManager,
                  ghost labels: seq<Prefix>, ghost live: set<Req>, ghost kv: map<int, Prefix>)
    returns (nextTokens: seq<int>, ghost kv': map<int, Prefix>)
    requires Standing(cm, tm, live, kv) && NoDup(reqs) && forall r :: r in reqs ==> r in live && Backed(r, cm, tm)
    requires Addressed(reqs, cm.pageTable, outLoc, labels)
    modifies Elements(reqs)`cachedLen, Elements(reqs)`deviceLen, Elements(reqs)`cuts
    ensures |nextTokens| == |reqs| && Standing(cm, tm, live, kv') && kv' == StoredAt(kv, outLoc, labels)
    ensures forall r :: r in reqs ==> Completed(r, cm, tm) && r.cachedLen == old(r.deviceLen)
  {
    hide Standing, Backed, Completed, Spans, Toks, Stretches, LabelsOf, Stored, Computed, ComputedAll;
    ghost var spans, toks, rows := Spans(reqs), Toks(reqs), cm.pageTable[..];
    StoredIsComputed(kv, spans, rows, toks);
    kv' := kv;
    assert spans[..0] == [] && toks[..0] == [];
    NothingComputed(kv, rows);
    var i := 0;
    while i < |reqs|
      invariant 0 <= i <= |reqs| && Standing(cm, tm, live, kv')
      invariant kv' == ComputedAll(kv, spans[..i], rows, toks[..i])
      invariant forall j :: 0 <= j < i ==> Completed(reqs[j], cm, tm) && reqs[j].cachedLen == spans[j].hi
      invariant forall j :: i <= j < |reqs| ==> Backed(reqs[j], cm, tm) && SpanOf(reqs[j]) == spans[j]
    {
      var req := reqs[i];
      assert req in reqs;
      CompleteReq(req, cm, tm, live, kv');
      ComputedAllStep(kv, spans, rows, toks, i);
      kv' := ComputedAll(kv, spans[..i + 1], rows, toks[..i + 1]);
      i := i + 1;
    }
    assert spans[..i] == spans && toks[..i] == toks;
    nextTokens := Sample(|reqs|);
  }

  /** An index of -1 names the last column. */
  function Column(column: int, width: nat): int
  {
    if column < 0 then width + column else column
  }

  /** The sampled token goes behind the last one; for a chunk, to the last column, which nothing reads. */
  method WriteToken(tableIdx: nat, column: int, token: int, cm: CacheManager, tm: TableManager,
                    ghost req: Req, ghost live: set<Req>, ghost kv: map<int, Prefix>)
    requires Standing(cm, tm, live, kv) && req in live && Completed(req, cm, tm)
    requires tableIdx == req.tableIdx && column == if req.chunked then -1 else |req.tok|
    modifies tm.tokenPool, req`tok
    ensures Standing(cm, tm, live, kv) && Done(req, cm, tm)
    ensures req.tok == old(req.tok) + if req.chunked then [] else [token]
    ensures RowsStay(tm.tokenPool, live - {req})
  {
    hide InOrder, Afford, DivCeil, Chained, Voiced;
    var row := tm.tokenPool[tableIdx];
    tm.tokenPool[tableIdx] := row[Column(column, tm.width) := token];
    if !req.chunked {
      VoicedMore(req.tok, [token], req.prompt, req.promptLen);
      req.tok := req.tok + [token];
    }
    SampledOne(cm, live, kv, req);
    assert row[Column(column, tm.width) := token][..|req.tok|] == req.tok;
  }

  method WriteTokens(rows: seq<nat>, columns: seq<int>, nextTokens: seq<int>, cm: CacheManager, tm: TableManager,
                     ghost reqs: seq<Req>, ghost live: set<Req>, ghost kv: map<int, Prefix>)
    requires Standing(cm, tm, live, kv) && NoDup(reqs) && |rows| == |columns| == |nextTokens| == |reqs|
    requires forall r :: r in reqs ==> r in live && Completed(r, cm, tm)
    requires forall i :: 0 <= i < |reqs| ==>
      rows[i] == reqs[i].tableIdx && columns[i] == if reqs[i].chunked then -1 else |reqs[i].tok|
    modifies tm.tokenPool, Elements(reqs)`tok
    ensures Standing(cm, tm, live, kv) && forall r :: r in reqs ==> Done(r, cm, tm)
    ensures forall i :: 0 <= i < |reqs| ==> reqs[i].tok == old(reqs[i].tok) + if reqs[i].chunked then [] else [nextTokens[i]]
    ensures RowsStay(tm.tokenPool, live - Elements(reqs))
  {
    hide Standing, Done, Completed;
    var i := 0;
    while i < |rows|
      invariant 0 <= i <= |reqs| && Standing(cm, tm, live, kv) && RowsStay(tm.tokenPool, live - Elements(reqs))
      invariant forall j :: 0 <= j < i ==> Done(reqs[j], cm, tm)
      invariant forall j :: i <= j < |reqs| ==> Completed(reqs[j], cm, tm) && reqs[j].tok == old(reqs[j].tok)
      invariant forall j :: 0 <= j < i ==> reqs[j].tok == old(reqs[j].tok) + if reqs[j].chunked then [] else [nextTokens[j]]
    {
      ghost var req := reqs[i];
      assert req in reqs;
      label writing:
      WriteToken(rows[i], columns[i], nextTokens[i], cm, tm, req, live, kv);
      forall j | 0 <= j < |reqs| && j != i
        ensures j < i ==> Done(reqs[j], cm, tm)
        ensures j > i ==> Completed(reqs[j], cm, tm)
      {
        assert reqs[j] in reqs && reqs[j] != req;
        if j < i { DoneStays@writing(cm, tm, live - {req}, reqs[j]); } else { CompletedStays@writing(cm, tm, live - {req}, reqs[j]); }
      }
      i := i + 1;
    }
  }

  twostate lemma DoneStays(cm: CacheManager, new tm: TableManager, new others: set<Req>, new r: Req)
    requires old(allocated(tm)) && old(allocated(others)) && old(allocated(r))
    requires old(Done(r, cm, tm)) && r in others && RowsStay(tm.tokenPool, others)
    requires r.tok == old(r.tok) && r.cachedLen == old(r.cachedLen) && r.deviceLen == old(r.deviceLen)
    requires r.alloc == old(r.alloc) && r.cuts == old(r.cuts)
    ensures Done(r, cm, tm)
  {
  }

  twostate lemma CompletedStays(cm: CacheManager, new tm: TableManager, new others: set<Req>, new r: Req)
    requires old(allocated(tm)) && old(allocated(others)) && old(allocated(r))
    requires old(Completed(r, cm, tm)) && r in others && RowsStay(tm.tokenPool, others)
    requires r.tok == old(r.tok) && r.cachedLen == old(r.cachedLen) && r.deviceLen == old(r.deviceLen)
    requires r.alloc == old(r.alloc) && r.cuts == old(r.cuts)
    ensures Completed(r, cm, tm)
  {
  }
}
