/** The scheduler: message handling, batches, forward passes, and the two loops. */
module Scheduling {
  import opened Options
  import opened Alignment
  import opened PrefixStore
  import opened Sums
  import opened World
  import Sharing
  import opened RadixCache
  import opened Core
  import opened TableManagement
  import opened CacheManagement
  import opened Decoding
  import opened Residency
  import opened Batching
  import opened Attention
  import opened Execution
  import opened Prefill
  import opened Progress
  import opened Tickets

  datatype ForwardInput = ForwardInput(batch: Batch, positions: seq<int>, inputRows: seq<nat>, outLoc: seq<int>,
                                       attnMetadata: Metadata, writeRows: seq<nat>, writeColumns: seq<int>)

  /** A batch that has been run, and the token sampled for each of its requests. */
  datatype ForwardData = ForwardData(batch: Batch, nextTokens: seq<int>)

  datatype Msg =
    | BatchMsg(data: seq<Msg>)
    | UserMsg(uid: int, inputIds: seq<int>, maxTokens: nat, ignoreEos: bool)
    | AbortMsg(uid: int)

  // ---- tokens on their way to the host ----

  ghost function IndexOf(reqs: seq<Req>, r: Req): (i: nat)
    requires r in reqs
    ensures i < |reqs| && reqs[i] == r
  {
    var i :| 0 <= i < |reqs| && reqs[i] == r; i
  }

  /** The token of `r` that entries `i` and later of an unprocessed batch hold. */
  ghost function DueFrom(data: ForwardData, i: nat, r: Req): seq<int>
  {
    if r.chunked || i > |data.batch.reqs| || r !in data.batch.reqs[i..] || IndexOf(data.batch.reqs, r) >= |data.nextTokens| then []
    else [data.nextTokens[IndexOf(data.batch.reqs, r)]]
  }

  ghost function Due(data: Option<ForwardData>, r: Req): seq<int>
  {
    if data.None? then [] else DueFrom(data.value, 0, r)
  }

  /** What has been sent for `r`: one reply for each token on the host behind the prompt, none of them final. */
  ghost predicate Answered(r: Req, eos: int)
    reads r`inputIds, r`replies
  {
    && |r.inputIds| == r.promptLen + |r.replies|
    && forall i :: 0 <= i < |r.replies| ==>
      && r.replies[i] == Reply(r.uid, r.inputIds[r.promptLen + i], false)
      && (r.ignoreEos || r.inputIds[r.promptLen + i] != eos)
  }

  /** The host lacks the tokens that are due, and has answered for all others. */
  ghost predicate Spoken(r: Req, due: seq<int>, eos: int)
    reads r`inputIds, r`tok, r`replies
  {
    && r.tok == r.inputIds + due
    && if r.chunked then due == [] && r.replies == [] else Answered(r, eos)
  }

  /** The replies of a request that has come to its end. */
  ghost predicate Finished(r: Req, eos: int)
    reads r`inputIds, r`replies
  {
    && r.prompt <= r.inputIds && |r.inputIds| == r.promptLen + |r.replies| && 0 < |r.replies| <= r.goal - r.promptLen
    && (forall i :: 0 <= i < |r.replies| ==> r.replies[i] == Reply(r.uid, r.inputIds[r.promptLen + i], i == |r.replies| - 1))
    && (forall i :: 0 <= i < |r.replies| - 1 ==> r.ignoreEos || r.replies[i].nextToken != eos)
    && (|r.replies| == r.goal - r.promptLen || (!r.ignoreEos && r.replies[|r.replies| - 1].nextToken == eos))
  }

  /** An unprocessed batch: its requests are live, or were released while it was in flight. */
  ghost predicate Flight(data: Option<ForwardData>, live: set<Req>, finished: set<Req>)
  {
    data.Some? ==>
      && NoDup(data.value.batch.reqs) && |data.value.nextTokens| == |data.value.batch.reqs|
      && (forall r :: r in data.value.batch.reqs && !r.chunked ==> r in live || r in finished)
      && (data.value.batch.isPrefill ==> forall r :: r in data.value.batch.reqs ==> r !in finished)
  }

  /** The table slots of the requests, in their order. */
  ghost function SlotsOf(reqs: seq<Req>): seq<nat>
  {
    seq(|reqs|, i requires 0 <= i < |reqs| => reqs[i].tableIdx)
  }

  // ---- what is sent ----

  /** The answer with a new token; it is the last one when the output is complete or the token ends the text. */
  ghost function AnswerTo(r: Req, token: int, eos: int): Reply
    reads r`deviceLen
  {
    Reply(r.uid, token, !r.CanDecode() || (!r.ignoreEos && token == eos))
  }

  /** A chunk of a prompt is not answered. */
  ghost function AnswerOf(data: ForwardData, i: nat, eos: int): seq<Reply>
    requires i < |data.batch.reqs| == |data.nextTokens|
    reads Elements(data.batch.reqs)`deviceLen
  {
    if data.batch.reqs[i].chunked then [] else [AnswerTo(data.batch.reqs[i], data.nextTokens[i], eos)]
  }

  /** The answers of the first `n` entries, in the order of the batch. */
  ghost function Answers(data: ForwardData, n: nat, eos: int): seq<Reply>
    requires n <= |data.batch.reqs| == |data.nextTokens|
    reads Elements(data.batch.reqs)`deviceLen
  {
    if n == 0 then [] else Answers(data, n - 1, eos) + AnswerOf(data, n - 1, eos)
  }

  ghost function LogsOf(reqs: seq<Req>): (logs: seq<seq<Reply>>)
    reads Elements(reqs)`replies
    ensures |logs| == |reqs| && forall j :: 0 <= j < |reqs| ==> logs[j] == reqs[j].replies
  {
    if reqs == [] then []
    else
      assert Elements(reqs) == Elements(reqs[..|reqs| - 1]) + {reqs[|reqs| - 1]};
      LogsOf(reqs[..|reqs| - 1]) + [reqs[|reqs| - 1].replies]
  }

  ghost function LengthsOf(reqs: seq<Req>): (lengths: seq<nat>)
    reads Elements(reqs)`deviceLen
    ensures |lengths| == |reqs| && forall j :: 0 <= j < |reqs| ==> lengths[j] == reqs[j].deviceLen
  {
    if reqs == [] then []
    else
      assert Elements(reqs) == Elements(reqs[..|reqs| - 1]) + {reqs[|reqs| - 1]};
      LengthsOf(reqs[..|reqs| - 1]) + [reqs[|reqs| - 1].deviceLen]
  }

  /** Each request has been run once since it had the given length. */
  ghost predicate Grew(reqs: seq<Req>, lengths: seq<nat>)
    reads Elements(reqs)`cachedLen, Elements(reqs)`deviceLen
  {
    && |lengths| == |reqs|
    && forall j :: 0 <= j < |reqs| ==> reqs[j].cachedLen == lengths[j] && reqs[j].deviceLen == lengths[j] + 1
  }

  /** The first `n` requests have been answered since their logs were `logs`, the others have not. */
  ghost predicate Logged(data: ForwardData, n: nat, logs: seq<seq<Reply>>, replies: seq<Reply>, eos: int)
    reads Elements(data.batch.reqs)`deviceLen, Elements(data.batch.reqs)`replies
  {
    && |logs| == |data.batch.reqs| == |data.nextTokens| && n <= |logs| && replies == Answers(data, n, eos)
    && forall j :: 0 <= j < |data.batch.reqs| ==>
      data.batch.reqs[j].replies == logs[j] + if j < n then AnswerOf(data, j, eos) else []
  }

  twostate lemma {:induction false} AnswersStay(data: ForwardData, new n: nat, new eos: int)
    requires n <= |data.batch.reqs| == |data.nextTokens| && forall r :: r in data.batch.reqs ==> r.deviceLen == old(r.deviceLen)
    ensures Answers(data, n, eos) == old(Answers(data, n, eos))
    decreases n
  {
    if n > 0 {
      AnswersStay(data, n - 1, eos);
      assert data.batch.reqs[n - 1] in data.batch.reqs;
    }
  }

  twostate lemma LoggedMore(data: ForwardData, new n: nat, new logs: seq<seq<Reply>>, new replies: seq<Reply>, new eos: int)
    requires NoDup(data.batch.reqs) && n < |data.batch.reqs| == |data.nextTokens| && old(Logged(data, n, logs, replies, eos))
    requires forall r :: r in data.batch.reqs ==> r.deviceLen == old(r.deviceLen)
    requires forall r :: r in data.batch.reqs && r != data.batch.reqs[n] ==> r.replies == old(r.replies)
    requires data.batch.reqs[n].replies == old(data.batch.reqs[n].replies) + AnswerOf(data, n, eos)
    ensures Logged(data, n + 1, logs, replies + AnswerOf(data, n, eos), eos)
  {
    AnswersStay(data, n, eos);
    forall j | 0 <= j < |data.batch.reqs|
      ensures data.batch.reqs[j].replies == logs[j] + if j < n + 1 then AnswerOf(data, j, eos) else []
    {
      assert data.batch.reqs[j] in data.batch.reqs;
      assert AnswerOf(data, j, eos) == old(AnswerOf(data, j, eos));
    }
  }

  twostate lemma LoggedStays(data: ForwardData, new logs: seq<seq<Reply>>, new replies: seq<Reply>, new eos: int)
    requires old(Logged(data, |data.batch.reqs|, logs, replies, eos))
    requires forall r :: r in data.batch.reqs ==> r.deviceLen == old(r.deviceLen) && r.replies == old(r.replies)
    ensures Logged(data, |data.batch.reqs|, logs, replies, eos)
  {
    AnswersStay(data, |data.batch.reqs|, eos);
    forall j | 0 <= j < |data.batch.reqs|
      ensures data.batch.reqs[j].replies == logs[j] + AnswerOf(data, j, eos)
    {
      assert data.batch.reqs[j] in data.batch.reqs;
      assert AnswerOf(data, j, eos) == old(AnswerOf(data, j, eos));
    }
  }

  /** To whom the answers of the first `n` entries go. */
  ghost function Askers(data: ForwardData, n: nat): seq<Req>
    requires n <= |data.batch.reqs|
  {
    if n == 0 then [] else Askers(data, n - 1) + if data.batch.reqs[n - 1].chunked then [] else [data.batch.reqs[n - 1]]
  }

  /** Those of the replies that have been sent to `r`, in their order. */
  ghost function Sent(r: Req, to: seq<Req>, replies: seq<Reply>): seq<Reply>
    requires |to| == |replies|
    decreases |to|
  {
    if to == [] then []
    else
      var n := |to| - 1;
      Sent(r, to[..n], replies[..n]) + if to[n] == r then [replies[n]] else []
  }

  lemma {:induction false} SentBoth(r: Req, to: seq<Req>, replies: seq<Reply>, more: seq<Req>, answers: seq<Reply>)
    requires |to| == |replies| && |more| == |answers|
    ensures Sent(r, to + more, replies + answers) == Sent(r, to, replies) + Sent(r, more, answers)
    decreases |more|
  {
    var n := |more| - 1;
    if more == [] {
      assert to + more == to && replies + answers == replies;
    } else {
      assert (to + more)[..|to| + n] == to + more[..n] && (replies + answers)[..|to| + n] == replies + answers[..n];
      SentBoth(r, to, replies, more[..n], answers[..n]);
    }
  }

  lemma {:induction false} SentNothing(r: Req, to: seq<Req>, replies: seq<Reply>)
    requires |to| == |replies| && r !in to
    ensures Sent(r, to, replies) == []
    decreases |to|
  {
    if to != [] {
      SentNothing(r, to[..|to| - 1], replies[..|to| - 1]);
    }
  }

  /** The answers of a batch go out under the numbers of those who asked. */
  lemma {:induction false} AnswersToAskers(data: ForwardData, n: nat, eos: int)
    requires n <= |data.batch.reqs| == |data.nextTokens|
    ensures |Askers(data, n)| == |Answers(data, n, eos)|
    ensures forall k :: 0 <= k < |Askers(data, n)| ==>
      && Askers(data, n)[k] in data.batch.reqs[..n] && !Askers(data, n)[k].chunked
      && Answers(data, n, eos)[k].uid == Askers(data, n)[k].uid
    decreases n
  {
    if n > 0 {
      AnswersToAskers(data, n - 1, eos);
      assert data.batch.reqs[..n] == data.batch.reqs[..n - 1] + [data.batch.reqs[n - 1]];
    }
  }

  lemma SentStep(data: ForwardData, n: nat, eos: int, r: Req)
    requires n < |data.batch.reqs| == |data.nextTokens|
    ensures |Askers(data, n)| == |Answers(data, n, eos)| && |Askers(data, n + 1)| == |Answers(data, n + 1, eos)|
    ensures Sent(r, Askers(data, n + 1), Answers(data, n + 1, eos))
         == Sent(r, Askers(data, n), Answers(data, n, eos)) + if data.batch.reqs[n] == r then AnswerOf(data, n, eos) else []
  {
    hide Sent;
    AnswersToAskers(data, n, eos);
    AnswersToAskers(data, n + 1, eos);
    var asker := if data.batch.reqs[n].chunked then [] else [data.batch.reqs[n]];
    SentBoth(r, Askers(data, n), Answers(data, n, eos), asker, AnswerOf(data, n, eos));
    SentLast(r, asker, AnswerOf(data, n, eos));
  }

  /** Whoever is in a batch is sent his own answer, and nobody else anything. */
  lemma {:induction false} SentOfBatch(data: ForwardData, n: nat, eos: int, r: Req)
    requires NoDup(data.batch.reqs) && n <= |data.batch.reqs| == |data.nextTokens|
    ensures |Askers(data, n)| == |Answers(data, n, eos)|
    ensures (forall j :: 0 <= j < n ==> data.batch.reqs[j] != r) ==> Sent(r, Askers(data, n), Answers(data, n, eos)) == []
    ensures forall j :: 0 <= j < n && data.batch.reqs[j] == r ==>
      Sent(r, Askers(data, n), Answers(data, n, eos)) == AnswerOf(data, j, eos)
    decreases n
  {
    hide AnswerOf, Sent, Askers, Answers;
    AnswersToAskers(data, n, eos);
    if n == 0 {
      SentNone(data, eos, r);
    } else {
      SentOfBatch(data, n - 1, eos, r);
      SentStep(data, n - 1, eos, r);
      var front := Sent(r, Askers(data, n - 1), Answers(data, n - 1, eos));
      assert front + [] == front && [] + AnswerOf(data, n - 1, eos) == AnswerOf(data, n - 1, eos);
    }
  }

  lemma SentNone(data: ForwardData, eos: int, r: Req)
    requires |data.batch.reqs| == |data.nextTokens|
    ensures |Askers(data, 0)| == |Answers(data, 0, eos)| && Sent(r, Askers(data, 0), Answers(data, 0, eos)) == []
  {
  }

  lemma SentLast(r: Req, to: seq<Req>, replies: seq<Reply>)
    requires |to| == |replies| <= 1
    ensures Sent(r, to, replies) == if to == [r] then replies else []
  {
    if |to| == 1 {
      assert to[..0] == [] && replies[..0] == [];
    }
  }

  /** Every request of the batch has been sent its token, and its log has grown by that answer and no other. */
  twostate predicate Replied(data: ForwardData, eos: int)
    reads Elements(data.batch.reqs)`deviceLen, Elements(data.batch.reqs)`replies
  {
    && |data.nextTokens| == |data.batch.reqs|
    && forall j :: 0 <= j < |data.batch.reqs| ==>
      data.batch.reqs[j].replies == old(data.batch.reqs[j].replies) + AnswerOf(data, j, eos)
  }

  ghost predicate InBatchOf(data: Option<ForwardData>, r: Req)
  {
    data.Some? && r in data.value.batch.reqs
  }

  /** Processing entry `i` settles what is due to its request, and to nobody else. */
  lemma DueStep(data: ForwardData, i: nat, q: Req)
    requires NoDup(data.batch.reqs) && i < |data.batch.reqs| == |data.nextTokens|
    ensures q != data.batch.reqs[i] ==> DueFrom(data, i + 1, q) == DueFrom(data, i, q)
    ensures q == data.batch.reqs[i] ==>
      DueFrom(data, i + 1, q) == [] && DueFrom(data, i, q) == if q.chunked then [] else [data.nextTokens[i]]
  {
    var reqs := data.batch.reqs;
    assert reqs[i..] == [reqs[i]] + reqs[i + 1..];
    if q == reqs[i] {
      assert IndexOf(reqs, q) == i;
      NotAfter(reqs, i);
    }
  }

  lemma NotAfter(reqs: seq<Req>, i: nat)
    requires NoDup(reqs) && i < |reqs|
    ensures reqs[i] !in reqs[i + 1..]
  {
    var later := reqs[i + 1..];
    assert forall k :: 0 <= k < |later| ==> later[k] == reqs[i + 1 + k];
  }

  lemma NotBefore(reqs: seq<Req>, i: nat)
    requires NoDup(reqs) && i < |reqs|
    ensures reqs[i] !in Elements(reqs[..i])
  {
  }

  lemma DueDone(data: ForwardData, q: Req)
    ensures DueFrom(data, |data.batch.reqs|, q) == []
  {
  }

  lemma CacheableNow(cm: CacheManager, tm: TableManager, live: set<Req>, kv: map<int, Prefix>, r: Req)
    requires Standing(cm, tm, live, kv) && r in live && Done(r, cm, tm) && cm.HostKnows(r)
    ensures cm.Cacheable(r, kv) && cm.pageSize > 0 && Tight(HoldingOf(r, cm.pageTable), cm.pageSize)
  {
    hide ViewOk, Conserved, LocksMatch, HoldingOk, DivCeil, RadixPrefixCache.Valid, Budgeted;
    DivCeilCovers(r.cachedLen, cm.pageSize);
    assert HoldingOk(Holdings(live, cm.pageTable)[r], cm.StoreOf(kv));
    assert cm.Anchored(r);
  }

  twostate lemma DepartedStanding(cm: CacheManager, new tm: TableManager, new live: set<Req>, new kv: map<int, Prefix>,
                                  new r: Req, new n: nat, new base: nat)
    requires old(allocated(tm)) && old(allocated(live)) && old(allocated(r))
    requires old(Standing(cm, tm, live, kv)) && r in live && SameFields(live) && Grown(cm)
    requires unchanged(cm.pageTable) && unchanged(tm.tokenPool) && tm.freeSlots == old(tm.freeSlots) + [r.tableIdx]
    requires r.tableIdx < cm.pageTable.Length && cm.pageSize > 0 && old(Tight(HoldingOf(r, cm.pageTable), cm.pageSize))
    requires old(CacheStep(cm.StoreOf(kv), HoldingOf(r, cm.pageTable), n, base))
    requires var h := old(HoldingOf(r, cm.pageTable)); h.hl <= base && n <= h.cachedLen <= |h.row|
    requires cm.StoreOf(kv) == old(Dropped(cm.StoreOf(kv), HoldingOf(r, cm.pageTable), n, base))
    ensures Standing(cm, tm, live - {r}, kv)
  {
    hide InOrder, Afford, CacheStep, Dropped, Tight, RadixPrefixCache.Valid, NoDup;
    Departed(cm, live, kv, r, n, base);
    tm.SeatLeft(live, r);
  }

  twostate lemma StayedStanding(cm: CacheManager, new tm: TableManager, new live: set<Req>, new kv: map<int, Prefix>,
                                new r: Req, new n: nat, new base: nat)
    requires old(allocated(tm)) && old(allocated(live)) && old(allocated(r))
    requires old(Standing(cm, tm, live, kv)) && r in live && SameButHandle(live, r) && Grown(cm)
    requires unchanged(cm.pageTable) && unchanged(tm.tokenPool) && tm.freeSlots == old(tm.freeSlots)
    requires r.tableIdx < cm.pageTable.Length && cm.pageSize > 0 && old(Tight(HoldingOf(r, cm.pageTable), cm.pageSize))
    requires old(CacheStep(cm.StoreOf(kv), HoldingOf(r, cm.pageTable), n, base))
    requires var h := old(HoldingOf(r, cm.pageTable)); h.hl <= base && base <= |h.row|
    requires cm.StoreOf(kv) == old(Kept(cm.StoreOf(kv), HoldingOf(r, cm.pageTable), n, base))
    requires r.cacheHandle.cachedLen == n && cm.Anchored(r)
    requires r.shares ==> old(r.shares) && base == old(r.cacheHandle.cachedLen)
    ensures Standing(cm, tm, live, kv)
  {
    hide InOrder, Afford, CacheStep, Kept, Tight, RadixPrefixCache.Valid, NoDup;
    Stayed(cm, live, kv, r, n, base);
  }

  /** All pages are free, nobody holds any, and nothing is stored. */
  lemma EmptyGround(cm: CacheManager, tm: TableManager)
    requires Wired(cm, tm) && cm.Valid() && !cm.lazyRegion && tm.Seats({})
    requires cm.StoreOf(map[]) == Store(cm.pageSize, cm.numPages, Pages.AllPages(cm.numPages, cm.pageSize), map[], multiset{}, map[])
    ensures Ground(cm, tm, {}, map[])
  {
    hide RadixPrefixCache.Valid, Rect;
    var none: set<Req> := {};
    assert Holdings(none, cm.pageTable) == map[];
    EmptyWorld(cm.StoreOf(map[]));
  }

  lemma EmptyWorld(s: Store)
    requires s.ps > 0 && s == Store(s.ps, s.numPages, Pages.AllPages(s.numPages, s.ps), map[], multiset{}, map[])
    ensures WorldOk<Req>(s, map[], multiset{}) && Budgeted<Req>(s, map[])
  {
    var none: map<Req, Holding> := map[];
    assert OwnedMap(none, s.ps) == map[] && HandleMap(none) == map[] && (forall ps: nat :: ps > 0 ==> NeedMap(none, ps) == map[]);
    assert Pages.HeadMap(s.view, s.ps) == map[];
  }

  class Scheduler {
    const tableManager: TableManager
    const cacheManager: CacheManager
    const decodeManager: DecodeManager
    const prefillManager: PrefillManager
    const maxSeqLen: nat
    const prefillBudget: int
    const eosTokenId: int
    var finishedReqs: set<Req>
    ghost var live: set<Req>            // who holds a table slot
    ghost var released: seq<Req>        // who has given it back, in order
    ghost var kv: map<int, Prefix>      // the prefix each KV slot was last written for

    constructor (maxRunningReqs: nat, numPages: nat, pageSize: nat, pageTable: Table, width: nat, maxSeqLen: nat,
                 prefillBudget: int, eosTokenId: int)
      requires 0 < pageSize && Aligned(width, pageSize) && Rect(pageTable, width)
      requires 0 < maxRunningReqs <= pageTable.Length && 0 < prefillBudget
      requires 0 < maxSeqLen <= width && maxSeqLen <= numPages * pageSize
      ensures Wires() && AtRest(None) && Accounts() == multiset{} && cacheManager.pageSize == pageSize
      ensures fresh(tableManager) && fresh(tableManager.tokenPool) && fresh(cacheManager) && cacheManager.pageTable == pageTable
      ensures fresh(cacheManager.prefixCache) && fresh(cacheManager.prefixCache.nodes) && fresh(decodeManager) && fresh(prefillManager)
      ensures this.maxSeqLen == maxSeqLen && this.prefillBudget == prefillBudget
      ensures live == {} && prefillManager.pendingList == [] && |tableManager.freeSlots| == maxRunningReqs
      ensures cacheManager.StoreOf(map[]) == Store(pageSize, numPages, Pages.AllPages(numPages, pageSize), map[], multiset{}, map[])
    {
      hide Ground, AtRest, WorldOk, RadixPrefixCache.Valid, Waiting, Seats, Gone, Pages.AllPages, TableManager.Seats;
      hide Flying, NoDup;
      var tm := new TableManager(maxRunningReqs, pageTable, width);
      var cm := new CacheManager(numPages, pageSize, pageTable);
      var dm := new DecodeManager(pageSize);
      var pm := new PrefillManager(cm, tm, dm);
      tableManager, cacheManager, decodeManager, prefillManager := tm, cm, dm, pm;
      this.maxSeqLen, this.prefillBudget, this.eosTokenId := maxSeqLen, prefillBudget, eosTokenId;
      finishedReqs, live, released, kv := {}, {}, [], map[];
      new;
      EmptyGround(cm, tm);
      EmptyRest();
      EmptyAccounts();
    }

    lemma EmptyRest()
      requires Ground(cacheManager, tableManager, {}, map[]) && live == {} && released == [] && finishedReqs == {} && kv == map[]
      requires prefillManager.pendingList == [] && decodeManager.runningReqs == {}
      ensures AtRest(None)
    {
      hide Standing;
    }

    lemma EmptyAccounts()
      requires live == {} && released == [] && prefillManager.pendingList == []
      ensures Accounts() == multiset{}
    {
      assert TicketMap(live) == map[];
    }

    /** Each live request has been released never, every other at most once. */
    ghost predicate LogOk()
      reads this`live, this`released, this`finishedReqs
    {
      && NoDup(released) && (forall r :: r in released ==> r !in live) && forall r :: r in finishedReqs ==> r in released
    }

    method FreeReqResources(req: Req)
      requires Standing(cacheManager, tableManager, live, kv) && LogOk()
      requires req in live && Done(req, cacheManager, tableManager) && cacheManager.HostKnows(req)
      modifies this`live, this`released, tableManager`freeSlots, req`cacheHandle
      modifies cacheManager`freeSlots, cacheManager`lazyList
      modifies cacheManager.prefixCache`nodes, cacheManager.prefixCache`view, cacheManager.prefixCache`locks
      modifies cacheManager.prefixCache`evictableSize, cacheManager.prefixCache`protectedSize
      modifies cacheManager.prefixCache.nodes`key, cacheManager.prefixCache.nodes`value, cacheManager.prefixCache.nodes`parent
      modifies cacheManager.prefixCache.nodes`children, cacheManager.prefixCache.nodes`timestamp, cacheManager.prefixCache.nodes`refCount
      ensures Standing(cacheManager, tableManager, live, kv) && LogOk()
      ensures live == old(live) - {req} && released == old(released) + [req]
      ensures tableManager.freeSlots == old(tableManager.freeSlots) + [req.tableIdx]
      ensures cacheManager.ViewGrows() && cacheManager.Keeps(req.tok, req.cachedLen)
      ensures fresh(cacheManager.prefixCache.nodes - old(cacheManager.prefixCache.nodes))
    {
      hide Standing, Done, CacheStep, Dropped, Tight, RadixPrefixCache.Valid, HoldingOk, CacheManager.Anchored;
      hide CacheManager.StoreOf, HoldingOf, CacheManager.Keeps;
      CacheableNow(cacheManager, tableManager, live, kv, req);
      tableManager.Free(req.tableIdx);
      var tic: int, now: int := *, *;
      ghost var n, base;
      n, base := cacheManager.CacheReq(req, true, tic, now, kv);
      DepartedStanding(cacheManager, tableManager, live, kv, req, n, base);
      live, released := live - {req}, released + [req];
    }

    twostate lemma StepLength(r: Req, new n: nat, new base: nat)
      requires r.tableIdx < cacheManager.pageTable.Length && r.cachedLen == old(r.cachedLen)
      requires old(CacheStep(cacheManager.StoreOf(kv), HoldingOf(r, cacheManager.pageTable), n, base))
      ensures cacheManager.pageSize > 0 && n == AlignDown(r.cachedLen, cacheManager.pageSize)
    {
    }

    /** A row stops sharing exactly when it goes on naming slots that have been given back. */
    twostate lemma SharesByFree(r: Req, new n: nat, new base: nat)
      requires old(Standing(cacheManager, tableManager, live, kv)) && r in old(live) && old(r.shares) && unchanged(cacheManager.pageTable)
      requires r.tableIdx < cacheManager.pageTable.Length && old(Tight(HoldingOf(r, cacheManager.pageTable), cacheManager.pageSize))
      requires old(CacheStep(cacheManager.StoreOf(kv), HoldingOf(r, cacheManager.pageTable), n, base))
      requires var h := old(HoldingOf(r, cacheManager.pageTable)); h.hl <= base && base <= |h.row|
      requires cacheManager.StoreOf(kv) == old(Kept(cacheManager.StoreOf(kv), HoldingOf(r, cacheManager.pageTable), n, base)) && kv == old(kv)
      ensures n <= |cacheManager.pageTable[r.tableIdx]|
      ensures base == old(r.cacheHandle.cachedLen) <==>
        forall i :: 0 <= i < n ==> cacheManager.pageTable[r.tableIdx][i] !in cacheManager.AllFree()
    {
      hide ViewOk, AllOk, Conserved, LocksMatch, RadixPrefixCache.Valid, Budgeted, Sharing.Shares, CacheStep, Kept, Tight;
      var m := old(Holdings(live, cacheManager.pageTable));
      assert old(RowShares(cacheManager, r));
      Sharing.KeptMapsFreed<Req>(old(cacheManager.StoreOf(kv)), m, r, n, base);
    }

    /** Every whole page that has been computed is stored, and locked by the request's handle. */
    ghost predicate StoredAndLocked(req: Req)
      reads cacheManager.prefixCache`view, cacheManager.prefixCache`nodes, cacheManager.prefixCache`locks
      reads cacheManager.prefixCache.nodes`prefix, req`cacheHandle, req`tok, req`cachedLen
    {
      && cacheManager.Keeps(req.tok, req.cachedLen) && cacheManager.Anchored(req)
      && req.cacheHandle.cachedLen == AlignDown(req.cachedLen, cacheManager.pageSize)
    }

    /** A prompt that has been computed is stored in the tree before its request goes on. */
    method CacheUnfinished(req: Req)
      requires Standing(cacheManager, tableManager, live, kv)
      requires req in live && Done(req, cacheManager, tableManager) && cacheManager.HostKnows(req)
      modifies req`cacheHandle, req`shares, cacheManager`freeSlots, cacheManager`lazyList
      modifies cacheManager.prefixCache`nodes, cacheManager.prefixCache`view, cacheManager.prefixCache`locks
      modifies cacheManager.prefixCache`evictableSize, cacheManager.prefixCache`protectedSize
      modifies cacheManager.prefixCache.nodes`key, cacheManager.prefixCache.nodes`value, cacheManager.prefixCache.nodes`parent
      modifies cacheManager.prefixCache.nodes`children, cacheManager.prefixCache.nodes`timestamp, cacheManager.prefixCache.nodes`refCount
      ensures Standing(cacheManager, tableManager, live, kv) && req.tableIdx < cacheManager.pageTable.Length
      ensures req.cacheHandle.cachedLen <= |cacheManager.pageTable[req.tableIdx]|
      ensures old(req.shares) ==> (req.shares <==>
        forall i :: 0 <= i < req.cacheHandle.cachedLen ==> cacheManager.pageTable[req.tableIdx][i] !in cacheManager.AllFree())
      ensures cacheManager.ViewGrows() && StoredAndLocked(req)
      ensures fresh(cacheManager.prefixCache.nodes - old(cacheManager.prefixCache.nodes))
    {
      hide Standing, Done, CacheStep, Kept, Tight, RadixPrefixCache.Valid, HoldingOk, CacheManager.Anchored, CacheManager.StoreOf;
      hide CacheManager.Keeps, CacheManager.ViewGrows;
      CacheableNow(cacheManager, tableManager, live, kv, req);
      var tic: int, now: int := *, *;
      ghost var n, base;
      n, base := cacheManager.CacheReq(req, false, tic, now, kv);
      req.shares := req.shares && base == old(req.cacheHandle.cachedLen);
      if old(req.shares) { SharesByFree(req, n, base); }
      StepLength(req, n, base);
      StayedStanding(cacheManager, tableManager, live, kv, req, n, base);
    }

    /** Everything but the tokens on their way: seats, pages, budgets, lengths, who runs and who waits. */
    ghost predicate Orderly()
      reads this, cacheManager, cacheManager.prefixCache, cacheManager.prefixCache.nodes, cacheManager.pageTable
      reads tableManager, tableManager.tokenPool, decodeManager, prefillManager, live
    {
      && Standing(cacheManager, tableManager, live, kv) && LogOk()
      && Statuses(live, [], cacheManager, tableManager) && RunningOk(decodeManager.runningReqs, live)
      && PendingOk(prefillManager.pendingList, live, maxSeqLen)
    }

    /** Entries before `i` of `data` have been processed, while `ongoing` may be in flight. */
    ghost predicate Speech(data: ForwardData, i: nat, ongoing: Option<ForwardData>)
      reads this`live, live`inputIds, live`tok, live`replies
    {
      forall r :: r in live ==> Spoken(r, DueFrom(data, i, r) + Due(ongoing, r), eosTokenId)
    }

    /** Whoever is in a batch is live or has been released since; whoever is at its goal is in a batch. */
    ghost predicate Flights(data: ForwardData, i: nat, ongoing: Option<ForwardData>, newFinished: set<Req>)
      reads this`live, this`finishedReqs, this`released, live`deviceLen
    {
      && NoDup(data.batch.reqs) && i <= |data.batch.reqs| == |data.nextTokens|
      && (forall j :: i <= j < |data.batch.reqs| && !data.batch.reqs[j].chunked ==> data.batch.reqs[j] in live || data.batch.reqs[j] in finishedReqs)
      && (data.batch.isPrefill ==> forall r :: r in data.batch.reqs ==> r !in finishedReqs)
      && (forall r :: r in newFinished ==> r in released && r in data.batch.reqs)
      && Flight(ongoing, live, newFinished)
      && (ongoing.Some? && ongoing.value.batch.isPrefill ==> forall r :: r in data.batch.reqs ==> r !in ongoing.value.batch.reqs)
      && forall r :: r in live && !r.chunked && r.RemainLen() == 0 ==> r in data.batch.reqs[i..] || InBatchOf(ongoing, r)
    }

    /** Sending the token that is due to a request, unless that was its last, keeps the books of all others. */
    twostate lemma SpeechStep(data: ForwardData, new i: nat, new ongoing: Option<ForwardData>)
      requires old(allocated(ongoing))
      requires old(Speech(data, i, ongoing)) && NoDup(data.batch.reqs) && i < |data.batch.reqs| == |data.nextTokens|
      requires live <= old(live)
      requires forall q :: q in live && q != data.batch.reqs[i] ==>
        q.inputIds == old(q.inputIds) && q.tok == old(q.tok) && q.replies == old(q.replies)
      requires var r := data.batch.reqs[i];
        r in live ==>
          && r.tok == old(r.tok)
          && (r.chunked ==> r.inputIds == old(r.inputIds) && r.replies == old(r.replies))
          && (!r.chunked ==> r.inputIds == old(r.inputIds) + [data.nextTokens[i]])
          && (!r.chunked ==> r.replies == old(r.replies) + [Reply(r.uid, data.nextTokens[i], false)])
          && (!r.chunked ==> r.ignoreEos || data.nextTokens[i] != eosTokenId)
      ensures Speech(data, i + 1, ongoing)
    {
      hide DueFrom, Due, NoDup;
      forall q | q in live ensures Spoken(q, DueFrom(data, i + 1, q) + Due(ongoing, q), eosTokenId) {
        assert old(Spoken(q, DueFrom(data, i, q) + Due(ongoing, q), eosTokenId));
        DueStep(data, i, q);
        if q == data.batch.reqs[i] && !q.chunked {
          SpokenMore(q, data.nextTokens[i], Due(ongoing, q));
          assert [] + Due(ongoing, q) == Due(ongoing, q);
        }
      }
    }

    /** Sending the first of the tokens due. */
    twostate lemma SpokenMore(r: Req, new token: int, new rest: seq<int>)
      requires old(Spoken(r, [token] + rest, eosTokenId)) && !r.chunked
      requires r.tok == old(r.tok) && r.inputIds == old(r.inputIds) + [token]
      requires r.replies == old(r.replies) + [Reply(r.uid, token, false)] && (r.ignoreEos || token != eosTokenId)
      ensures Spoken(r, rest, eosTokenId)
    {
      assert old(r.inputIds) + ([token] + rest) == r.inputIds + rest;
    }

    /** The host knows every token whose KV has been written, once it has got the token that was due. */
    lemma HostKnowsNow(r: Req, due: seq<int>, token: int, ids: seq<int>)
      requires Done(r, cacheManager, tableManager) && !r.chunked && |due| <= 1
      requires r.tok == ids + ([token] + due) && r.inputIds == ids + [token]
      ensures cacheManager.HostKnows(r)
    {
      hide Chained, DivCeil;
      assert r.tok == r.inputIds + due;
      assert r.inputIds[..r.cachedLen] == r.tok[..r.cachedLen];
    }

    lemma FinishedNow(r: Req, token: int, ids: seq<int>, replies: seq<Reply>)
      requires Done(r, cacheManager, tableManager) && !r.chunked && r.tok == r.inputIds == ids + [token]
      requires AnsweredBy(r, ids, replies)
      requires r.replies == replies + [Reply(r.uid, token, true)]
      requires !r.CanDecode() || (!r.ignoreEos && token == eosTokenId)
      ensures Finished(r, eosTokenId)
    {
      hide Chained, DivCeil;
    }

    /** What is known of a request when its entry comes up. */
    lemma EntryFacts(data: ForwardData, i: nat, req: Req, newFinished: set<Req>, ongoing: Option<ForwardData>)
      requires i < |data.batch.reqs| && req == data.batch.reqs[i] && !req.chunked
      requires Orderly() && Speech(data, i, ongoing) && Flights(data, i, ongoing, newFinished)
      ensures req in live || req in finishedReqs
      ensures req in live ==>
        && req !in finishedReqs && Done(req, cacheManager, tableManager) && Answered(req, eosTokenId)
        && req.tok == req.inputIds + ([data.nextTokens[i]] + Due(ongoing, req)) && |Due(ongoing, req)| <= 1
    {
      hide Standing, Done, PendingOk, NoDup, DueFrom;
      DueStep(data, i, req);
      DueShort(ongoing, req);
    }

    lemma OrderlyFacts()
      requires Orderly()
      ensures Standing(cacheManager, tableManager, live, kv) && LogOk()
    {
    }

    lemma FlightFacts(data: ForwardData, i: nat, ongoing: Option<ForwardData>, newFinished: set<Req>)
      requires Flights(data, i, ongoing, newFinished)
      ensures NoDup(data.batch.reqs) && |data.batch.reqs| == |data.nextTokens|
      ensures i < |data.batch.reqs| && data.batch.isPrefill ==> data.batch.reqs[i] !in finishedReqs
    {
    }

    ghost predicate AnsweredBy(r: Req, ids: seq<int>, replies: seq<Reply>)
    {
      && |ids| == r.promptLen + |replies|
      && forall j :: 0 <= j < |replies| ==>
        && replies[j] == Reply(r.uid, ids[r.promptLen + j], false)
        && (r.ignoreEos || ids[r.promptLen + j] != eosTokenId)
    }

    lemma AnsweredFacts(r: Req)
      requires Answered(r, eosTokenId)
      ensures AnsweredBy(r, r.inputIds, r.replies)
    {
    }

    lemma DueShort(ongoing: Option<ForwardData>, r: Req)
      ensures |Due(ongoing, r)| <= 1 && (ongoing.None? ==> Due(ongoing, r) == [])
    {
    }

    twostate lemma FlightsStep(data: ForwardData, new i: nat, new ongoing: Option<ForwardData>,
                               new newFinished: set<Req>, new newFinished': set<Req>)
      requires old(allocated(ongoing)) && old(allocated(newFinished)) && old(allocated(newFinished'))
      requires old(Flights(data, i, ongoing, newFinished)) && i < |data.batch.reqs|
      requires finishedReqs == old(finishedReqs) && forall q :: q in old(live) ==> q.deviceLen == old(q.deviceLen)
      requires var r := data.batch.reqs[i];
        if r in old(live) && r !in live then
          live == old(live) - {r} && released == old(released) + [r] && newFinished' == newFinished + {r}
        else
          && live == old(live) && released == old(released) && newFinished' == newFinished
          && (r in live && !r.chunked ==> r.RemainLen() != 0)
      ensures Flights(data, i + 1, ongoing, newFinished')
    {
      var reqs := data.batch.reqs;
      assert reqs[i..] == [reqs[i]] + reqs[i + 1..];
    }

    /** Apart from the handle and the host tokens of one request, nothing about the requests has changed. */
    twostate predicate SameLengths()
      reads this`live, live`tok, live`cachedLen, live`deviceLen, live`alloc, live`cuts, tableManager.tokenPool, prefillManager`pendingList
    {
      && live <= old(live) && unchanged(tableManager.tokenPool) && prefillManager.pendingList == old(prefillManager.pendingList)
      && forall q :: q in live ==>
        && q.tok == old(q.tok) && q.cachedLen == old(q.cachedLen) && q.deviceLen == old(q.deviceLen)
        && q.alloc == old(q.alloc) && q.cuts == old(q.cuts)
    }

    twostate lemma OrderlyStep(r: Req)
      requires old(Orderly()) && SameLengths() && !r.chunked
      requires Standing(cacheManager, tableManager, live, kv) && LogOk()
      requires
        || (live == old(live) - {r} && decodeManager.runningReqs == old(decodeManager.runningReqs) - {r})
        || (live == old(live) && decodeManager.runningReqs == old(decodeManager.runningReqs))
      ensures Orderly()
    {
      hide Standing, Plausible, DivCeil, Chained, LogOk;
      forall q | q in live ensures Done(q, cacheManager, tableManager) {
        assert old(Done(q, cacheManager, tableManager));
      }
    }

    /** A finished request gives back what it holds, once; a prompt that goes on is stored. */
    method Settle(req: Req, finished: bool, isPrefill: bool, newFinished: set<Req>) returns (newFinished': set<Req>)
      requires Orderly() && !req.chunked
      requires (req in live || req in finishedReqs) && (isPrefill ==> req !in finishedReqs)
      requires req in live ==> req !in finishedReqs && Done(req, cacheManager, tableManager) && cacheManager.HostKnows(req)
      modifies req`cacheHandle, req`shares
      modifies this`live, this`released, decodeManager`runningReqs, tableManager`freeSlots
      modifies cacheManager`freeSlots, cacheManager`lazyList
      modifies cacheManager.prefixCache`nodes, cacheManager.prefixCache`view, cacheManager.prefixCache`locks
      modifies cacheManager.prefixCache`evictableSize, cacheManager.prefixCache`protectedSize
      modifies cacheManager.prefixCache.nodes`key, cacheManager.prefixCache.nodes`value, cacheManager.prefixCache.nodes`parent
      modifies cacheManager.prefixCache.nodes`children, cacheManager.prefixCache.nodes`timestamp, cacheManager.prefixCache.nodes`refCount
      ensures Orderly()
      ensures fresh(cacheManager.prefixCache.nodes - old(cacheManager.prefixCache.nodes))
      ensures
        if finished && req in old(live) then
          && live == old(live) - {req} && released == old(released) + [req] && newFinished' == newFinished + {req}
          && decodeManager.runningReqs == old(decodeManager.runningReqs) - {req}
          && tableManager.freeSlots == old(tableManager.freeSlots) + [req.tableIdx]
        else
          && live == old(live) && released == old(released) && newFinished' == newFinished
          && decodeManager.runningReqs == old(decodeManager.runningReqs) && tableManager.freeSlots == old(tableManager.freeSlots)
      ensures cacheManager.ViewGrows()
      ensures finished && req in old(live) ==> cacheManager.Keeps(req.tok, req.cachedLen)
      ensures isPrefill && !(finished && req in old(live)) ==> StoredAndLocked(req)
      ensures !isPrefill && !(finished && req in old(live)) ==>
        cacheManager.StoreOf(kv) == old(cacheManager.StoreOf(kv)) && req.cacheHandle == old(req.cacheHandle)
    {
      hide Orderly, Standing, Done, CacheManager.HostKnows, LogOk, CacheManager.Keeps, StoredAndLocked, CacheManager.StoreOf;
      OrderlyFacts();
      newFinished' := newFinished;
      if finished && req !in finishedReqs {
        decodeManager.RemoveReq(req);
        FreeReqResources(req);
        newFinished' := newFinished + {req};
      } else if isPrefill {
        CacheUnfinished(req);
      }
      OrderlyStep(req);
    }

    /** Hands the host the next token and says whether it is the last. */
    method Answer(req: Req, nextToken: int) returns (finished: bool)
      requires !req.chunked
      modifies req`inputIds, req`replies
      ensures req.inputIds == old(req.inputIds) + [nextToken]
      ensures finished == (!req.CanDecode() || (!req.ignoreEos && nextToken == eosTokenId))
      ensures req.replies == old(req.replies) + [Reply(req.uid, nextToken, finished)]
    {
      req.AppendHost(nextToken);
      finished := !req.CanDecode();
      if !req.ignoreEos {
        finished := finished || nextToken == eosTokenId;
      }
      req.replies := req.replies + [Reply(req.uid, nextToken, finished)];
    }

    /** The answer to the request whose entry comes up: it leaves the host with all that has been computed. */
    method AnswerEntry(data: ForwardData, i: nat, req: Req, ghost newFinished: set<Req>, ghost ongoing: Option<ForwardData>)
      returns (finished: bool)
      requires i < |data.batch.reqs| && req == data.batch.reqs[i] && !req.chunked
      requires Orderly() && Speech(data, i, ongoing) && Flights(data, i, ongoing, newFinished)
      modifies req`inputIds, req`replies
      ensures |data.nextTokens| == |data.batch.reqs| && req.inputIds == old(req.inputIds) + [data.nextTokens[i]]
      ensures finished == (!req.CanDecode() || (!req.ignoreEos && data.nextTokens[i] == eosTokenId))
      ensures req.replies == old(req.replies) + [Reply(req.uid, data.nextTokens[i], finished)]
      ensures Orderly()
      ensures (req in live || req in finishedReqs) && (data.batch.isPrefill ==> req !in finishedReqs)
      ensures req in live ==> req !in finishedReqs && Done(req, cacheManager, tableManager) && cacheManager.HostKnows(req)
      ensures req in live && finished && ongoing.None? ==> Finished(req, eosTokenId)
    {
      hide Standing, Done, CacheManager.HostKnows, Due, Orderly, Flights, Speech, Answered, AnsweredBy, Finished, LogOk;
      OrderlyFacts();
      FlightFacts(data, i, ongoing, newFinished);
      EntryFacts(data, i, req, newFinished, ongoing);
      ghost var ids, replies, nextToken := req.inputIds, req.replies, data.nextTokens[i];
      if req in live { AnsweredFacts(req); }
      finished := Answer(req, data.nextTokens[i]);
      if req in live {
        HostKnowsNow(req, Due(ongoing, req), nextToken, ids);
        DueShort(ongoing, req);
        if finished && ongoing.None? {
          FinishedNow(req, nextToken, ids, replies);
        }
      }
      OrderlyStep(req);
    }

    /** The entry of a request that has a new token: it is answered, and settled when it is done. */
    method ProcessToken(data: ForwardData, i: nat, req: Req, newFinished: set<Req>, ghost ongoing: Option<ForwardData>)
      returns (reply: Reply, newFinished': set<Req>)
      requires i < |data.batch.reqs| && req == data.batch.reqs[i] && !req.chunked
      requires Orderly() && Speech(data, i, ongoing) && Flights(data, i, ongoing, newFinished)
      modifies req`inputIds, req`replies, req`cacheHandle, req`shares
      modifies this`live, this`released, decodeManager`runningReqs, tableManager`freeSlots
      modifies cacheManager`freeSlots, cacheManager`lazyList
      modifies cacheManager.prefixCache`nodes, cacheManager.prefixCache`view, cacheManager.prefixCache`locks
      modifies cacheManager.prefixCache`evictableSize, cacheManager.prefixCache`protectedSize
      modifies cacheManager.prefixCache.nodes`key, cacheManager.prefixCache.nodes`value, cacheManager.prefixCache.nodes`parent
      modifies cacheManager.prefixCache.nodes`children, cacheManager.prefixCache.nodes`timestamp, cacheManager.prefixCache.nodes`refCount
      ensures Orderly() && Speech(data, i + 1, ongoing) && Flights(data, i + 1, ongoing, newFinished')
      ensures fresh(cacheManager.prefixCache.nodes - old(cacheManager.prefixCache.nodes))
      ensures |data.nextTokens| == |data.batch.reqs| && reply == AnswerTo(req, data.nextTokens[i], eosTokenId)
      ensures req.replies == old(req.replies) + [reply]
      ensures decodeManager.runningReqs <= old(decodeManager.runningReqs)
      ensures
        if req in old(live) && req !in live then
          && live == old(live) - {req} && released == old(released) + [req] && newFinished' == newFinished + {req}
          && reply.finished && (ongoing.None? ==> Finished(req, eosTokenId))
          && tableManager.freeSlots == old(tableManager.freeSlots) + [req.tableIdx]
        else
          && live == old(live) && released == old(released) && newFinished' == newFinished
          && tableManager.freeSlots == old(tableManager.freeSlots)
      ensures cacheManager.ViewGrows()
      ensures data.batch.isPrefill || (req in old(live) && req !in live) ==> cacheManager.Keeps(req.tok, req.cachedLen)
      ensures data.batch.isPrefill && req in live ==> StoredAndLocked(req)
    {
      hide Standing, Done, CacheManager.HostKnows, NoDup, Orderly, Flights, Speech, Finished, LogOk;
      hide CacheManager.Keeps, CacheManager.Anchored, CacheManager.StoreOf;
      FlightFacts(data, i, ongoing, newFinished);
      var finished := AnswerEntry(data, i, req, newFinished, ongoing);
      reply := Reply(req.uid, data.nextTokens[i], finished);
      newFinished' := Settle(req, finished, data.batch.isPrefill, newFinished);
      SpeechStep(data, i, ongoing);
      FlightsStep(data, i, ongoing, newFinished, newFinished');
    }

    method ProcessEntry(data: ForwardData, i: nat, req: Req, newFinished: set<Req>, ghost ongoing: Option<ForwardData>)
      returns (reply: Option<Reply>, newFinished': set<Req>)
      requires i < |data.batch.reqs| && req == data.batch.reqs[i]
      requires Orderly() && Speech(data, i, ongoing) && Flights(data, i, ongoing, newFinished)
      modifies req`inputIds, req`replies, req`cacheHandle, req`shares
      modifies this`live, this`released, decodeManager`runningReqs, tableManager`freeSlots
      modifies cacheManager`freeSlots, cacheManager`lazyList
      modifies cacheManager.prefixCache`nodes, cacheManager.prefixCache`view, cacheManager.prefixCache`locks
      modifies cacheManager.prefixCache`evictableSize, cacheManager.prefixCache`protectedSize
      modifies cacheManager.prefixCache.nodes`key, cacheManager.prefixCache.nodes`value, cacheManager.prefixCache.nodes`parent
      modifies cacheManager.prefixCache.nodes`children, cacheManager.prefixCache.nodes`timestamp, cacheManager.prefixCache.nodes`refCount
      ensures Orderly() && Speech(data, i + 1, ongoing) && Flights(data, i + 1, ongoing, newFinished')
      ensures fresh(cacheManager.prefixCache.nodes - old(cacheManager.prefixCache.nodes))
      ensures |data.nextTokens| == |data.batch.reqs| && reply.None? == req.chunked
      ensures (if reply.None? then [] else [reply.value]) == AnswerOf(data, i, eosTokenId)
      ensures req.replies == old(req.replies) + AnswerOf(data, i, eosTokenId)
      ensures decodeManager.runningReqs <= old(decodeManager.runningReqs)
      ensures
        if req in old(live) && req !in live then
          && live == old(live) - {req} && released == old(released) + [req] && newFinished' == newFinished + {req}
          && reply.Some? && reply.value.finished && (ongoing.None? ==> Finished(req, eosTokenId))
          && tableManager.freeSlots == old(tableManager.freeSlots) + [req.tableIdx]
        else
          && live == old(live) && released == old(released) && newFinished' == newFinished
          && tableManager.freeSlots == old(tableManager.freeSlots)
      ensures cacheManager.ViewGrows()
      ensures !req.chunked && (data.batch.isPrefill || (req in old(live) && req !in live)) ==>
        cacheManager.Keeps(req.tok, req.cachedLen)
      ensures !req.chunked && data.batch.isPrefill && req in live ==> StoredAndLocked(req)
    {
      hide Standing, Done, PendingOk, CacheManager.HostKnows, NoDup, Due, DueFrom, Orderly, Flights, Statuses, RunningOk;
      hide Speech, Answered, AnsweredBy, Finished, LogOk, CacheManager.Keeps, StoredAndLocked;
      reply, newFinished' := None, newFinished;
      OrderlyFacts();
      FlightFacts(data, i, ongoing, newFinished);
      if req.chunked {
        SpeechStep(data, i, ongoing);
        FlightsStep(data, i, ongoing, newFinished, newFinished);
        return;
      }
      var answer;
      answer, newFinished' := ProcessToken(data, i, req, newFinished, ongoing);
      reply := Some(answer);
    }

    /** Between two calls of a loop: `last` is the batch that has been run and not yet processed. */
    ghost predicate AtRest(last: Option<ForwardData>)
      reads this, cacheManager, cacheManager.prefixCache, cacheManager.prefixCache.nodes, cacheManager.pageTable
      reads tableManager, tableManager.tokenPool, decodeManager, prefillManager, live
    {
      && Orderly() && !cacheManager.lazyRegion && Flight(last, live, finishedReqs)
      && (forall r :: r in live ==> Spoken(r, Due(last, r), eosTokenId))
      && forall r :: r in live && !r.chunked && r.RemainLen() == 0 ==> InBatchOf(last, r)
    }

    // ---- what holds at rest, for any page size ----

    /** Every page has exactly one holder, and live requests have slots of their own. */
    lemma PagesAtRest(last: Option<ForwardData>)
      requires AtRest(last)
      ensures forall r, q :: r in live && q in live && r != q ==> r.tableIdx != q.tableIdx
      ensures Seated(live, cacheManager.pageTable)
      ensures var s, m := cacheManager.StoreOf(kv), Holdings(live, cacheManager.pageTable);
        && NoDup(s.free)
        && (forall p :: p in s.view ==> Pages.Head(s.view, p, s.ps) !in s.free)
        && (forall r, x {:trigger OwnedPages(m[r], s.ps)[x]} :: r in m && x in OwnedPages(m[r], s.ps) ==>
             && x !in s.free && x !in Pages.TreePages(s.view, s.ps)
             && forall q :: q in m && q != r ==> x !in OwnedPages(m[q], s.ps))
        && forall x :: x in Pages.AllPages(s.numPages, s.ps) <==> Holds(s, m, x)
    {
      hide Orderly, Holds, NoDup, OwnedPages, Pages.Head, Pages.TreePages, Pages.AllPages;
      WorldAtRest(last);
      PagesPartitioned<Req>(cacheManager.StoreOf(kv), Holdings(live, cacheManager.pageTable));
    }

    lemma WorldAtRest(last: Option<ForwardData>)
      requires AtRest(last)
      ensures Seated(live, cacheManager.pageTable) && WorldOk(cacheManager.StoreOf(kv), Holdings(live, cacheManager.pageTable), multiset{})
      ensures cacheManager.Valid() && Afford(cacheManager, live)
    {
      hide WorldOk, RadixPrefixCache.Valid, Budgeted, Due, Spoken, Flight, PendingOk;
    }

    /** Every slot that is stored, or owned by a live request, was last written for the prefix it stands for. */
    lemma LabelsAtRest(last: Option<ForwardData>)
      requires AtRest(last)
      ensures forall p :: p in cacheManager.prefixCache.view ==> Labelled(cacheManager.prefixCache.view[p], p, 0, |p|, kv)
      ensures forall r :: r in live ==>
        && r.tableIdx < cacheManager.pageTable.Length
        && Labelled(cacheManager.pageTable[r.tableIdx], r.tok, r.cacheHandle.cachedLen, r.cachedLen, kv)
    {
      hide AtRest, RadixPrefixCache.Valid, Labelled, Shaped, Conserved, LocksMatch, ValidView, Pages.Blocked, Afford;
      WorldAtRest(last);
      forall r | r in live ensures Labelled(cacheManager.pageTable[r.tableIdx], r.tok, r.cacheHandle.cachedLen, r.cachedLen, kv) {
        assert HoldingOk(Holdings(live, cacheManager.pageTable)[r], cacheManager.StoreOf(kv));
      }
    }

    /** And so is the whole row of a request that shares. */
    lemma RowAtRest(last: Option<ForwardData>, r: Req)
      requires AtRest(last) && r in live && r.shares
      ensures r.tableIdx < cacheManager.pageTable.Length
      ensures Labelled(cacheManager.pageTable[r.tableIdx], r.tok, 0, r.cachedLen, kv)
    {
      hide Standing, Flight, Due, Spoken, Statuses, PendingOk, Labelled;
      StandingRow(cacheManager, tableManager, live, kv, r);
    }

    /** Every mapped page of a row is one aligned block of consecutive slots. */
    lemma BlocksAtRest(last: Option<ForwardData>, r: Req)
      requires AtRest(last) && r in live
      ensures r.tableIdx < cacheManager.pageTable.Length && cacheManager.pageSize > 0
      ensures r.cachedLen <= r.alloc <= |cacheManager.pageTable[r.tableIdx]|
      ensures Pages.Blocked(cacheManager.pageTable[r.tableIdx][..r.alloc], cacheManager.pageSize)
    {
      hide AtRest, RadixPrefixCache.Valid, Labelled, Conserved, LocksMatch, ViewOk, Pages.Blocked, Afford;
      WorldAtRest(last);
      assert HoldingOk(Holdings(live, cacheManager.pageTable)[r], cacheManager.StoreOf(kv));
    }

    /** A node is referenced once for each live request whose locked prefix it lies on. */
    lemma LocksAtRest(last: Option<ForwardData>, n: RadixTreeNode)
      requires AtRest(last) && n in cacheManager.prefixCache.nodes && n != cacheManager.prefixCache.root
      ensures Seated(live, cacheManager.pageTable)
      ensures n.refCount == LockCount(Bag(HandleMap(Holdings(live, cacheManager.pageTable))), n.prefix)
    {
      hide AtRest, LockCount, ViewOk, AllOk, Conserved, Afford;
      WorldAtRest(last);
    }

    /** Where the estimate covers the pages, all that the live requests may still need is free or can be evicted. */
    lemma NeedsAtRest(last: Option<ForwardData>)
      requires AtRest(last) && EstimateCovers(cacheManager.pageSize)
      ensures Seated(live, cacheManager.pageTable)
      ensures Total(NeedMap(Holdings(live, cacheManager.pageTable), cacheManager.pageSize)) * cacheManager.pageSize <= cacheManager.AvailableSize()
      ensures forall r :: r in live ==> Need(HoldingOf(r, cacheManager.pageTable), cacheManager.pageSize) >= 0
    {
      hide RadixPrefixCache.Valid, Total, Available, WorldOk, Due, Spoken, Flight, PendingOk;
      cacheManager.AvailableIs(map[]);
      forall r | r in live ensures Need(HoldingOf(r, cacheManager.pageTable), cacheManager.pageSize) >= 0 {
        assert Need(Holdings(live, cacheManager.pageTable)[r], cacheManager.pageSize) >= 0;
      }
    }

    /** Collecting freed pages, or handing them over at the end, moves no page. */
    twostate lemma SamePages()
      requires old(Orderly()) && unchanged(this) && unchanged(live) && unchanged(tableManager) && unchanged(tableManager.tokenPool)
      requires unchanged(decodeManager) && unchanged(prefillManager) && unchanged(cacheManager.pageTable)
      requires unchanged(cacheManager.prefixCache) && unchanged(cacheManager.prefixCache.nodes)
      requires cacheManager.Valid() && cacheManager.AllFree() == old(cacheManager.AllFree())
      ensures Orderly()
    {
      hide WorldOk, Budgeted, RadixPrefixCache.Valid, Plausible, Fit, ChunkOf, NoDup, Rect;
      SamePagesInOrder();
      forall q | q in live ensures Done(q, cacheManager, tableManager) {
        assert old(Done(q, cacheManager, tableManager));
      }
    }

    twostate lemma SamePagesInOrder()
      requires old(InOrder(cacheManager, live, kv)) && old(Afford(cacheManager, live)) && unchanged(this`live) && unchanged(this`kv)
      requires unchanged(live) && unchanged(cacheManager.pageTable)
      requires unchanged(cacheManager.prefixCache) && unchanged(cacheManager.prefixCache.nodes)
      requires cacheManager.Valid() && cacheManager.AllFree() == old(cacheManager.AllFree())
      ensures InOrder(cacheManager, live, kv) && Afford(cacheManager, live)
    {
      hide WorldOk, Budgeted, RadixPrefixCache.Valid;
      forall r | r in live ensures cacheManager.Anchored(r) {
        assert old(cacheManager.Anchored(r));
      }
    }

    lemma OrderlyManager()
      requires Orderly()
      ensures cacheManager.Valid()
    {
    }

    twostate lemma NewFinished(last: Option<ForwardData>)
      requires old(Orderly()) && unchanged(this`live) && unchanged(this`released) && unchanged(this`kv)
      requires unchanged(live) && unchanged(tableManager) && unchanged(tableManager.tokenPool)
      requires unchanged(decodeManager) && unchanged(prefillManager) && unchanged(cacheManager) && unchanged(cacheManager.pageTable)
      requires unchanged(cacheManager.prefixCache) && unchanged(cacheManager.prefixCache.nodes)
      requires !cacheManager.lazyRegion && Flight(last, live, finishedReqs) && forall r :: r in finishedReqs ==> r in released
      requires forall r :: r in live ==> Spoken(r, Due(last, r), eosTokenId)
      requires forall r :: r in live && !r.chunked && r.RemainLen() == 0 ==> InBatchOf(last, r)
      ensures AtRest(last)
    {
      hide Standing, Statuses, RunningOk, PendingOk, Flight, Due, Spoken, NoDup;
    }

    lemma RestAfter(data: ForwardData, ongoing: Option<ForwardData>, newFinished: set<Req>)
      requires Orderly() && Speech(data, |data.batch.reqs|, ongoing) && Flights(data, |data.batch.reqs|, ongoing, newFinished)
      ensures Flight(ongoing, live, newFinished) && (forall r :: r in newFinished ==> r in released)
      ensures forall r :: r in live ==> Spoken(r, Due(ongoing, r), eosTokenId)
      ensures forall r :: r in live && !r.chunked && r.RemainLen() == 0 ==> InBatchOf(ongoing, r)
    {
      hide Orderly, Due, Flight;
      assert data.batch.reqs[|data.batch.reqs|..] == [];
      forall r | r in live ensures Spoken(r, Due(ongoing, r), eosTokenId) {
        assert Spoken(r, DueFrom(data, |data.batch.reqs|, r) + Due(ongoing, r), eosTokenId);
        DueDone(data, r);
        assert [] + Due(ongoing, r) == Due(ongoing, r);
      }
    }

    ghost predicate AllFinished(newFinished: set<Req>)
      reads newFinished`inputIds, newFinished`replies
    {
      forall r :: r in newFinished ==> Finished(r, eosTokenId)
    }

    /** One entry: what has been answered, released and stored so far grows by its part. */
    method ProcessNext(data: ForwardData, i: nat, req: Req, newFinished: set<Req>, replies: seq<Reply>,
                       ghost ongoing: Option<ForwardData>, ghost gone: seq<Req>, ghost logs: seq<seq<Reply>>,
                       ghost live0: set<Req>, ghost released0: seq<Req>, ghost slots0: seq<nat>)
      returns (replies': seq<Reply>, newFinished': set<Req>, ghost gone': seq<Req>)
      requires i < |data.batch.reqs| && req == data.batch.reqs[i]
      requires Orderly() && Speech(data, i, ongoing) && Flights(data, i, ongoing, newFinished)
      requires Leaving(data, i, newFinished, gone, live0, released0, slots0) && KeptBehind(data, i, newFinished)
      requires Logged(data, i, logs, replies, eosTokenId) && (ongoing.None? ==> AllFinished(newFinished))
      modifies req`inputIds, req`replies, req`cacheHandle, req`shares
      modifies this`live, this`released, decodeManager`runningReqs, tableManager`freeSlots
      modifies cacheManager`freeSlots, cacheManager`lazyList
      modifies cacheManager.prefixCache`nodes, cacheManager.prefixCache`view, cacheManager.prefixCache`locks
      modifies cacheManager.prefixCache`evictableSize, cacheManager.prefixCache`protectedSize
      modifies cacheManager.prefixCache.nodes`key, cacheManager.prefixCache.nodes`value, cacheManager.prefixCache.nodes`parent
      modifies cacheManager.prefixCache.nodes`children, cacheManager.prefixCache.nodes`timestamp, cacheManager.prefixCache.nodes`refCount
      ensures Orderly() && Speech(data, i + 1, ongoing) && Flights(data, i + 1, ongoing, newFinished')
      ensures Leaving(data, i + 1, newFinished', gone', live0, released0, slots0) && KeptBehind(data, i + 1, newFinished')
      ensures Logged(data, i + 1, logs, replies', eosTokenId) && (ongoing.None? ==> AllFinished(newFinished'))
      ensures fresh(cacheManager.prefixCache.nodes - old(cacheManager.prefixCache.nodes))
      ensures decodeManager.runningReqs <= old(decodeManager.runningReqs)
    {
      hide NoDup, Orderly, Flights, Speech, Finished, Elements, Logged, AnswerTo, Answers, AnswerOf, Leaving;
      hide KeptBehind, CacheManager.Keeps, CacheManager.ViewGrows, StoredAndLocked;
      FlightFacts(data, i, ongoing, newFinished);
      var reply;
      reply, newFinished' := ProcessEntry(data, i, req, newFinished, ongoing);
      ghost var left := if req in old(live) && req !in live then [req] else [];
      gone' := gone + left;
      LeavingMore(data, i, newFinished, newFinished', gone, left, live0, released0, slots0);
      KeptMore(data, i, newFinished, newFinished');
      LoggedMore(data, i, logs, replies, eosTokenId);
      assert replies + [] == replies;
      replies' := replies;
      if reply.Some? {
        replies' := replies + [reply.value];
      }
    }

    /** Answers everybody in the batch, and takes out who is done. */
    method ProcessEntries(data: ForwardData, ghost ongoing: Option<ForwardData>)
      returns (replies: seq<Reply>, newFinished: set<Req>, ghost gone: seq<Req>)
      requires Orderly() && cacheManager.lazyRegion && Speech(data, 0, ongoing) && Flights(data, 0, ongoing, {})
      modifies Elements(data.batch.reqs)`inputIds, Elements(data.batch.reqs)`replies, Elements(data.batch.reqs)`cacheHandle
      modifies Elements(data.batch.reqs)`shares
      modifies this`live, this`released, decodeManager`runningReqs, tableManager`freeSlots
      modifies cacheManager`freeSlots, cacheManager`lazyList
      modifies cacheManager.prefixCache`nodes, cacheManager.prefixCache`view, cacheManager.prefixCache`locks
      modifies cacheManager.prefixCache`evictableSize, cacheManager.prefixCache`protectedSize
      modifies cacheManager.prefixCache.nodes`key, cacheManager.prefixCache.nodes`value, cacheManager.prefixCache.nodes`parent
      modifies cacheManager.prefixCache.nodes`children, cacheManager.prefixCache.nodes`timestamp, cacheManager.prefixCache.nodes`refCount
      ensures Orderly() && Speech(data, |data.batch.reqs|, ongoing) && Flights(data, |data.batch.reqs|, ongoing, newFinished)
      ensures fresh(cacheManager.prefixCache.nodes - old(cacheManager.prefixCache.nodes))
      ensures Leaving(data, |data.batch.reqs|, newFinished, gone, old(live), old(released), old(tableManager.freeSlots))
      ensures ongoing.None? ==> AllFinished(newFinished)
      ensures decodeManager.runningReqs <= old(decodeManager.runningReqs)
      ensures Logged(data, |data.batch.reqs|, old(LogsOf(data.batch.reqs)), replies, eosTokenId)
      ensures KeptBehind(data, |data.batch.reqs|, newFinished)
    {
      hide NoDup, Orderly, Flights, Speech, Finished, Elements, Logged, LogsOf, Leaving, KeptBehind, SlotsOf;
      FlightFacts(data, 0, ongoing, {});
      ghost var logs := LogsOf(data.batch.reqs);
      LoggedNone(data);
      replies, newFinished, gone := [], {}, [];
      LeavingNone(data);
      var i := 0;
      while i < |data.batch.reqs|
        invariant 0 <= i <= |data.batch.reqs| && cacheManager.lazyRegion
        invariant Orderly() && Speech(data, i, ongoing) && Flights(data, i, ongoing, newFinished)
        invariant fresh(cacheManager.prefixCache.nodes - old(cacheManager.prefixCache.nodes))
        invariant Leaving(data, i, newFinished, gone, old(live), old(released), old(tableManager.freeSlots))
        invariant KeptBehind(data, i, newFinished)
        invariant ongoing.None? ==> AllFinished(newFinished)
        invariant decodeManager.runningReqs <= old(decodeManager.runningReqs)
        invariant Logged(data, i, logs, replies, eosTokenId)
      {
        ElementsFront(data.batch.reqs, i);
        replies, newFinished, gone := ProcessNext(data, i, data.batch.reqs[i], newFinished, replies, ongoing, gone, logs,
                                                  old(live), old(released), old(tableManager.freeSlots));
        i := i + 1;
      }
    }

    /** Pages that are freed on the way are handed over together at the end. */
    method ProcessLazily(data: ForwardData, ghost ongoing: Option<ForwardData>)
      returns (replies: seq<Reply>, newFinished: set<Req>, ghost gone: seq<Req>)
      requires Orderly() && !cacheManager.lazyRegion && Speech(data, 0, ongoing) && Flights(data, 0, ongoing, {})
      modifies Elements(data.batch.reqs)`inputIds, Elements(data.batch.reqs)`replies, Elements(data.batch.reqs)`cacheHandle
      modifies Elements(data.batch.reqs)`shares
      modifies this`live, this`released, decodeManager`runningReqs, tableManager`freeSlots
      modifies cacheManager`freeSlots, cacheManager`lazyList, cacheManager`lazyRegion
      modifies cacheManager.prefixCache`nodes, cacheManager.prefixCache`view, cacheManager.prefixCache`locks
      modifies cacheManager.prefixCache`evictableSize, cacheManager.prefixCache`protectedSize
      modifies cacheManager.prefixCache.nodes`key, cacheManager.prefixCache.nodes`value, cacheManager.prefixCache.nodes`parent
      modifies cacheManager.prefixCache.nodes`children, cacheManager.prefixCache.nodes`timestamp, cacheManager.prefixCache.nodes`refCount
      ensures Orderly() && !cacheManager.lazyRegion
      ensures Speech(data, |data.batch.reqs|, ongoing) && Flights(data, |data.batch.reqs|, ongoing, newFinished)
      ensures fresh(cacheManager.prefixCache.nodes - old(cacheManager.prefixCache.nodes))
      ensures Leaving(data, |data.batch.reqs|, newFinished, gone, old(live), old(released), old(tableManager.freeSlots))
      ensures ongoing.None? ==> AllFinished(newFinished)
      ensures decodeManager.runningReqs <= old(decodeManager.runningReqs)
      ensures Logged(data, |data.batch.reqs|, old(LogsOf(data.batch.reqs)), replies, eosTokenId)
      ensures KeptBehind(data, |data.batch.reqs|, newFinished)
    {
      hide Orderly, Flights, Speech, Finished, CacheManager.Valid, Elements, AnswerTo, AnswerOf, Logged, LogsOf, Answers;
      hide KeptBehind, SlotsOf, Leaving;
      ghost var logs := LogsOf(data.batch.reqs);
      OrderlyManager();
      cacheManager.EnterLazyFree();
      SamePages();
      assert logs == LogsOf(data.batch.reqs);
      replies, newFinished, gone := ProcessEntries(data, ongoing);
      OrderlyManager();
      label leaving:
      cacheManager.LeaveLazyFree();
      SamePages@leaving();
      LoggedStays@leaving(data, logs, replies, eosTokenId);
      KeptStays@leaving(data, newFinished);
    }

    /** Of the first `i` requests, those in `gone` have been released, in this order. */
    ghost predicate Leaving(data: ForwardData, i: nat, newFinished: set<Req>, gone: seq<Req>, live0: set<Req>, released0: seq<Req>,
                            slots0: seq<nat>)
      reads this`live, this`released, tableManager`freeSlots
    {
      && i <= |data.batch.reqs| && newFinished <= Elements(data.batch.reqs[..i]) && newFinished <= live0 && live == live0 - newFinished
      && released == released0 + gone && Elements(gone) == newFinished
      && tableManager.freeSlots == slots0 + SlotsOf(gone)
    }

    lemma LeavingNone(data: ForwardData)
      ensures Leaving(data, 0, {}, [], live, released, tableManager.freeSlots) && KeptBehind(data, 0, {})
    {
    }

    twostate lemma LeavingMore(data: ForwardData, new i: nat, new newFinished: set<Req>, new newFinished': set<Req>,
                               new gone: seq<Req>, new left: seq<Req>, new live0: set<Req>, new released0: seq<Req>, new slots0: seq<nat>)
      requires i < |data.batch.reqs| && NoDup(data.batch.reqs)
      requires old(allocated(newFinished)) && old(allocated(gone)) && old(allocated(live0)) && old(allocated(released0))
      requires old(Leaving(data, i, newFinished, gone, live0, released0, slots0))
      requires var req := data.batch.reqs[i];
        if req in old(live) && req !in live then
          && left == [req] && live == old(live) - {req} && released == old(released) + [req] && newFinished' == newFinished + {req}
          && tableManager.freeSlots == old(tableManager.freeSlots) + [req.tableIdx]
        else
          && left == [] && live == old(live) && released == old(released) && newFinished' == newFinished
          && tableManager.freeSlots == old(tableManager.freeSlots)
      ensures Leaving(data, i + 1, newFinished', gone + left, live0, released0, slots0) && data.batch.reqs[i] !in newFinished
    {
      NotBefore(data.batch.reqs, i);
      ElementsFront(data.batch.reqs, i);
      if left != [] {
        ElementsMore(gone, data.batch.reqs[i]);
        assert SlotsOf(gone + left) == SlotsOf(gone) + [data.batch.reqs[i].tableIdx];
      } else {
        assert gone + left == gone;
      }
    }

    lemma LeavingAll(data: ForwardData, newFinished: set<Req>, gone: seq<Req>, live0: set<Req>, released0: seq<Req>, slots0: seq<nat>)
      requires Leaving(data, |data.batch.reqs|, newFinished, gone, live0, released0, slots0)
      ensures newFinished <= Elements(data.batch.reqs) && newFinished <= live0 && live == live0 - newFinished
      ensures released == released0 + gone && Elements(gone) == newFinished && tableManager.freeSlots == slots0 + SlotsOf(gone)
    {
      assert data.batch.reqs[..|data.batch.reqs|] == data.batch.reqs;
    }

    /** Of the first `i` requests, those released have left all they computed in the tree, and so have the prompts that go on. */
    ghost predicate KeptBehind(data: ForwardData, i: nat, newFinished: set<Req>)
      reads this`live, cacheManager.prefixCache`view
      reads Elements(data.batch.reqs)`cacheHandle, Elements(data.batch.reqs)`tok, Elements(data.batch.reqs)`cachedLen
    {
      && i <= |data.batch.reqs|
      && forall j :: 0 <= j < i && !data.batch.reqs[j].chunked ==>
        var r := data.batch.reqs[j];
        && (data.batch.isPrefill || r in newFinished ==> cacheManager.Keeps(r.tok, r.cachedLen))
        && (data.batch.isPrefill && r in live ==>
              cacheManager.pageSize > 0 && r.cacheHandle.cachedLen == AlignDown(r.cachedLen, cacheManager.pageSize))
    }

    twostate lemma KeptStays(data: ForwardData, new newFinished: set<Req>)
      requires old(allocated(newFinished)) && old(KeptBehind(data, |data.batch.reqs|, newFinished))
      requires live == old(live) && cacheManager.prefixCache.view == old(cacheManager.prefixCache.view)
      requires forall r :: r in data.batch.reqs ==> r.tok == old(r.tok) && r.cachedLen == old(r.cachedLen) && r.cacheHandle == old(r.cacheHandle)
      ensures KeptBehind(data, |data.batch.reqs|, newFinished)
    {
      forall j | 0 <= j < |data.batch.reqs| && !data.batch.reqs[j].chunked && (data.batch.isPrefill || data.batch.reqs[j] in newFinished)
        ensures cacheManager.Keeps(data.batch.reqs[j].tok, data.batch.reqs[j].cachedLen)
      {
        assert data.batch.reqs[j] in data.batch.reqs;
        assert old(cacheManager.Keeps(data.batch.reqs[j].tok, data.batch.reqs[j].cachedLen));
      }
    }

    twostate lemma KeptMore(data: ForwardData, new i: nat, new newFinished: set<Req>, new newFinished': set<Req>)
      requires i < |data.batch.reqs| && NoDup(data.batch.reqs) && old(allocated(newFinished))
      requires old(KeptBehind(data, i, newFinished)) && cacheManager.ViewGrows() && live <= old(live)
      requires forall r :: r in data.batch.reqs ==> r.tok == old(r.tok) && r.cachedLen == old(r.cachedLen)
      requires forall r :: r in data.batch.reqs && r != data.batch.reqs[i] ==> r.cacheHandle == old(r.cacheHandle)
      requires newFinished' == newFinished || newFinished' == newFinished + {data.batch.reqs[i]}
      requires var req := data.batch.reqs[i];
        && (!req.chunked && (data.batch.isPrefill || (req in old(live) && req !in live)) ==> cacheManager.Keeps(req.tok, req.cachedLen))
        && (!req.chunked && data.batch.isPrefill && req in live ==> StoredAndLocked(req))
        && (req in newFinished' ==> req in old(live) && req !in live)
      ensures KeptBehind(data, i + 1, newFinished')
    {
      forall j | 0 <= j < i && !data.batch.reqs[j].chunked && (data.batch.isPrefill || data.batch.reqs[j] in newFinished)
        ensures cacheManager.Keeps(data.batch.reqs[j].tok, data.batch.reqs[j].cachedLen)
      {
        assert data.batch.reqs[j] in data.batch.reqs;
        assert old(cacheManager.Keeps(data.batch.reqs[j].tok, data.batch.reqs[j].cachedLen));
      }
    }

    lemma LoggedNone(data: ForwardData)
      requires |data.batch.reqs| == |data.nextTokens|
      ensures Logged(data, 0, LogsOf(data.batch.reqs), [], eosTokenId)
    {
    }

    twostate lemma LoggedAll(data: ForwardData, new logs: seq<seq<Reply>>, new replies: seq<Reply>)
      requires logs == old(LogsOf(data.batch.reqs))
      requires Logged(data, |data.batch.reqs|, logs, replies, eosTokenId)
      ensures Replied(data, eosTokenId) && replies == Answers(data, |data.batch.reqs|, eosTokenId)
    {
    }

    method ProcessLastData(data: ForwardData, ghost ongoing: Option<ForwardData>) returns (replies: seq<Reply>)
      requires Orderly() && !cacheManager.lazyRegion && Speech(data, 0, ongoing) && Flights(data, 0, ongoing, {})
      modifies Elements(data.batch.reqs)`inputIds, Elements(data.batch.reqs)`replies, Elements(data.batch.reqs)`cacheHandle
      modifies Elements(data.batch.reqs)`shares
      modifies this`live, this`released, this`finishedReqs, decodeManager`runningReqs, tableManager`freeSlots
      modifies cacheManager`freeSlots, cacheManager`lazyList, cacheManager`lazyRegion
      modifies cacheManager.prefixCache`nodes, cacheManager.prefixCache`view, cacheManager.prefixCache`locks
      modifies cacheManager.prefixCache`evictableSize, cacheManager.prefixCache`protectedSize
      modifies cacheManager.prefixCache.nodes`key, cacheManager.prefixCache.nodes`value, cacheManager.prefixCache.nodes`parent
      modifies cacheManager.prefixCache.nodes`children, cacheManager.prefixCache.nodes`timestamp, cacheManager.prefixCache.nodes`refCount
      ensures AtRest(ongoing)
      ensures fresh(cacheManager.prefixCache.nodes - old(cacheManager.prefixCache.nodes))
      ensures finishedReqs <= Elements(data.batch.reqs) && finishedReqs <= old(live) && live == old(live) - finishedReqs
      ensures old(released) <= released && Elements(released[|old(released)|..]) == finishedReqs
      ensures ongoing.None? ==> forall r :: r in finishedReqs ==> Finished(r, eosTokenId)
      ensures decodeManager.runningReqs <= old(decodeManager.runningReqs)
      ensures Replied(data, eosTokenId) && replies == Answers(data, |data.batch.reqs|, eosTokenId)
      ensures Logged(data, |data.batch.reqs|, old(LogsOf(data.batch.reqs)), replies, eosTokenId)
      ensures KeptBehind(data, |data.batch.reqs|, finishedReqs)
      ensures tableManager.freeSlots == old(tableManager.freeSlots) + SlotsOf(released[|old(released)|..])
    {
      hide Orderly, Flights, Speech, Finished, CacheManager.Valid, AtRest, AnswerTo, AnswerOf, Logged, LogsOf, Elements;
      hide Replied, Answers, KeptBehind, SlotsOf, Leaving;
      ghost var logs := LogsOf(data.batch.reqs);
      var newFinished;
      ghost var gone;
      replies, newFinished, gone := ProcessLazily(data, ongoing);
      LeavingAll(data, newFinished, gone, old(live), old(released), old(tableManager.freeSlots));
      RestAfter(data, ongoing, newFinished);
      LoggedAll(data, logs, replies);
      label settled:
      finishedReqs := newFinished;
      NewFinished@settled(ongoing);
    }

    // ---- choosing a batch ----

    /** How the scheduler has been set up. */
    ghost predicate Wires()
    {
      && prefillManager.cacheManager == cacheManager && prefillManager.tableManager == tableManager
      && prefillManager.decodeManager == decodeManager && decodeManager.pageSize == cacheManager.pageSize
      && 0 < maxSeqLen <= tableManager.width && maxSeqLen <= cacheManager.numPages * cacheManager.pageSize
      && 0 < prefillBudget && 0 < tableManager.maxRunningReqs
    }

    /** A batch has been chosen: its requests are live, and everything else is in order. */
    ghost predicate Manned(reqs: seq<Req>, last: Option<ForwardData>)
      reads this, cacheManager, cacheManager.prefixCache, cacheManager.prefixCache.nodes, cacheManager.pageTable
      reads tableManager, tableManager.tokenPool, decodeManager, prefillManager, live
    {
      && Ground(cacheManager, tableManager, live, kv) && LogOk() && PendingOk(prefillManager.pendingList, live, maxSeqLen)
      && NoDup(reqs) && (forall r :: r in reqs ==> r in live && (!r.chunked ==> r.RemainLen() > 0))
      && (forall r :: r in decodeManager.runningReqs ==> r in live && !r.chunked && r.RemainLen() > 0)
      && (forall r :: r in live && !r.chunked ==> r in decodeManager.runningReqs || r.RemainLen() == 0 || r in reqs)
      && Flight(last, live, finishedReqs) && (forall r :: r in live ==> Spoken(r, Due(last, r), eosTokenId))
      && forall r :: r in live && !r.chunked && r.RemainLen() == 0 ==> InBatchOf(last, r)
    }

    /** All running requests are ready to be decoded. */
    lemma DecodeManned(reqs: seq<Req>, last: Option<ForwardData>)
      requires AtRest(last) && NoDup(reqs) && Elements(reqs) == decodeManager.runningReqs
      ensures Manned(reqs, last) && Statuses(live, reqs, cacheManager, tableManager)
    {
      hide Standing, PendingOk, NoDup, Flight, Due, Spoken, LogOk, Done, Ready;
      forall r | r in reqs ensures r in live && Ready(r, cacheManager, tableManager) && !r.chunked && r.RemainLen() > 0 {
        assert r in Elements(reqs) && Done(r, cacheManager, tableManager);
        DoneReady(r, cacheManager, tableManager);
      }
    }

    /** Prompts that have just been admitted have said nothing yet, and nothing is due to them. */
    lemma NewcomerSpoken(r: Req, p: PendingReq, lo: nat, budget: int, last: Option<ForwardData>)
      requires NextPart(r, p, lo, budget) && !InBatchOf(last, r) && Plausible(p, maxSeqLen)
      ensures Spoken(r, Due(last, r), eosTokenId) && (!r.chunked ==> r.RemainLen() > 0)
    {
      if last.Some? { assert r !in last.value.batch.reqs[0..]; }
    }

    twostate lemma PrefillManned(new reqs: seq<Req>, last: Option<ForwardData>, new los: seq<nat>)
      requires old(AtRest(last)) && Ground(cacheManager, tableManager, live, kv) && PendingOk(prefillManager.pendingList, live, maxSeqLen)
      requires prefillManager.Scheduled(old(prefillManager.pendingList), reqs, old(live), live, los, prefillBudget)
      requires forall r :: r in reqs ==> r !in old(live) && !InBatchOf(last, r) && r !in old(finishedReqs) && r !in old(released)
      requires unchanged(old(live)) && unchanged(decodeManager)
      requires released == old(released) && finishedReqs == old(finishedReqs)
      ensures Manned(reqs, last)
    {
      hide Ground, Standing, NextPart, Due, Spoken, Plausible, Done, Ready, ChunkOf, Extends, Dealt;
      DealtFacts(old(prefillManager.pendingList), reqs, los, prefillBudget);
      var pending := old(prefillManager.pendingList);
      forall r | r in reqs ensures Spoken(r, Due(last, r), eosTokenId) && (!r.chunked ==> r.RemainLen() > 0) {
        var j :| 0 <= j < |reqs| && reqs[j] == r;
        assert pending[j] in pending;
        NewcomerSpoken(r, pending[j], los[j], prefillBudget - Extends(reqs[..j]), last);
      }
      CarriedChunk(pending);
    }

    twostate lemma CarriedChunk(pending: seq<PendingReq>)
      requires old(PendingOk(pending, live, maxSeqLen))
      ensures forall r :: r in CarriedFirst(pending) ==> r in old(live) && r.chunked
    {
    }

    /** When nothing runs, the prompt at the head is not turned away, whatever the page size. */
    lemma HeadGetsIn(pending: seq<PendingReq>)
      requires Wires() && AtRest(None) && decodeManager.runningReqs == {} && pending == prefillManager.pendingList != []
      ensures !Refused(cacheManager.StoreOf(map[]), |tableManager.freeSlots|, pending[0], decodeManager.Inflight())
    {
      hide Refused, Done, ChunkOf, Due, Spoken, WorldOk, RadixPrefixCache.Valid, Budgeted, NoDup, Rect;
      hide CacheManager.StoreOf, Plausible;
      if pending[0].chunkedReq == null {
        assert live == {};
        assert pending[0] in pending;
        HeadPlausible(pending[0]);
        assert Remains(decodeManager.runningReqs) == map[];
        NothingInflight();
        assert Holdings(live, cacheManager.pageTable) == map[];
        StoreWithLabels(cacheManager, kv);
        StoreNumbers();
        HeadAdmitted(cacheManager.StoreOf(kv), |tableManager.freeSlots|, pending[0], map[]);
        RefusedLabels(cacheManager.StoreOf(map[]), kv, |tableManager.freeSlots|, pending[0], decodeManager.Inflight());
      } else {
        RefusedNew(cacheManager.StoreOf(map[]), |tableManager.freeSlots|, pending[0], decodeManager.Inflight());
      }
    }

    lemma StoreNumbers()
      ensures cacheManager.StoreOf(kv).numPages == cacheManager.numPages && cacheManager.StoreOf(kv).ps == cacheManager.pageSize
    {
    }

    lemma HeadPlausible(p: PendingReq)
      requires Wires() && Plausible(p, maxSeqLen)
      ensures 0 < |p.inputIds| && |p.inputIds| + p.maxTokens <= cacheManager.numPages * cacheManager.pageSize
    {
    }

    lemma NothingInflight()
      requires decodeManager.runningReqs == {}
      ensures decodeManager.Inflight() == 0
    {
      assert Remains({}) == map[];
    }

    /** A batch is made of the first prompts of `pending`, or of all the requests that are running. */
    ghost predicate Chosen(batch: Batch, los: seq<nat>, pending: seq<PendingReq>, live0: set<Req>, view0: View)
      reads this`live, prefillManager`pendingList, decodeManager`runningReqs
      reads Elements(batch.reqs)`cachedLen, Elements(batch.reqs)`deviceLen, Elements(batch.reqs)`inputIds
      reads Elements(batch.reqs)`tok, Elements(batch.reqs)`replies
      reads set p | p in pending && p.chunkedReq != null :: p.chunkedReq`cachedLen
    {
      if batch.isPrefill then
        && prefillManager.Scheduled(pending, batch.reqs, live0, live, los, prefillBudget)
        && StartsAt(pending, los, view0, cacheManager.pageSize)
      else
        && Elements(batch.reqs) == decodeManager.runningReqs != {} && SortedByUid(batch.reqs)
        && live == live0 && prefillManager.pendingList == pending
    }

    lemma ChosenPrompts(batch: Batch, los: seq<nat>, pending: seq<PendingReq>, live0: set<Req>, view0: View)
      requires batch.isPrefill && prefillManager.Scheduled(pending, batch.reqs, live0, live, los, prefillBudget)
      requires StartsAt(pending, los, view0, cacheManager.pageSize)
      ensures Chosen(batch, los, pending, live0, view0) && Elements(batch.reqs) <= live
      ensures forall r :: r in live ==> r in live0 || r in Elements(batch.reqs)
    {
    }

    lemma ChosenRunning(batch: Batch, los: seq<nat>, view0: View)
      requires !batch.isPrefill && Elements(batch.reqs) == decodeManager.runningReqs != {} && SortedByUid(batch.reqs)
      ensures Chosen(batch, los, prefillManager.pendingList, live, view0) && batch.reqs != []
    {
    }

    lemma ChosenDealt(batch: Batch, los: seq<nat>, pending: seq<PendingReq>, live0: set<Req>, view0: View)
      requires Chosen(batch, los, pending, live0, view0) && decodeManager.runningReqs == {}
      ensures batch.isPrefill && Dealt(pending, batch.reqs, los, prefillBudget) && StartsAt(pending, los, view0, cacheManager.pageSize)
      ensures live == live0 - CarriedFirst(pending) + Elements(batch.reqs)
    {
    }

    /** Nothing that the choice depends on has changed. */
    twostate lemma ChosenStays(batch: Batch, new los: seq<nat>, new pending: seq<PendingReq>, new live0: set<Req>, new view0: View)
      requires old(allocated(pending)) && old(allocated(live0)) && old(Chosen(batch, los, pending, live0, view0))
      requires unchanged(this`live) && unchanged(prefillManager`pendingList) && unchanged(decodeManager`runningReqs)
      requires forall r :: r in batch.reqs ==>
        && r.cachedLen == old(r.cachedLen) && r.deviceLen == old(r.deviceLen) && r.inputIds == old(r.inputIds)
        && r.tok == old(r.tok) && r.replies == old(r.replies)
      requires forall p :: p in pending && p.chunkedReq != null ==> p.chunkedReq.cachedLen == old(p.chunkedReq.cachedLen)
      ensures Chosen(batch, los, pending, live0, view0)
    {
      hide SortedByUid, StartsAt;
      assert StartsAt(pending, los, view0, cacheManager.pageSize) == old(StartsAt(pending, los, view0, cacheManager.pageSize));
    }

    twostate lemma PromptsPicked(last: Option<ForwardData>, new batch: Batch, new los: seq<nat>)
      requires old(AtRest(last)) && Ground(cacheManager, tableManager, live, kv) && PendingOk(prefillManager.pendingList, live, maxSeqLen)
      requires batch.isPrefill && fresh(Elements(batch.reqs))
      requires prefillManager.Scheduled(old(prefillManager.pendingList), batch.reqs, old(live), live, los, prefillBudget)
      requires StartsAt(old(prefillManager.pendingList), los, old(cacheManager.prefixCache.view), cacheManager.pageSize)
      requires unchanged(old(live)) && unchanged(decodeManager)
      requires released == old(released) && finishedReqs == old(finishedReqs)
      ensures Manned(batch.reqs, last) && Elements(batch.reqs) <= live && fresh(live - old(live))
      ensures Chosen(batch, los, old(prefillManager.pendingList), old(live), old(cacheManager.prefixCache.view))
    {
      hide AtRest, Manned, Chosen, Ground, PendingOk, StartsAt, PrefillManager.Scheduled;
      forall r | r in batch.reqs
        ensures r !in old(live) && !InBatchOf(last, r) && r !in old(finishedReqs) && r !in old(released)
      {
        assert r in Elements(batch.reqs);
      }
      PrefillManned(batch.reqs, last, los);
      ChosenPrompts(batch, los, old(prefillManager.pendingList), old(live), old(cacheManager.prefixCache.view));
    }

    /** No slot is free for the first of those who wait, or its estimate does not fit. */
    twostate predicate HeadTurnedAway(new waiting: seq<PendingReq>)
    {
      waiting != [] ==>
        Refused(old(cacheManager.StoreOf(map[])), |old(tableManager.freeSlots)|, waiting[0], old(decodeManager.Inflight()))
    }

    /** The first prompts that wait, as many as get in. */
    method PickPrompts(ghost last: Option<ForwardData>) returns (batch: Option<Batch>, ghost los: seq<nat>)
      requires Wires() && AtRest(last)
      modifies this`live, prefillManager`pendingList
      modifies cacheManager.prefixCache`nodes, cacheManager.prefixCache`evictableSize, cacheManager.prefixCache`protectedSize
      modifies cacheManager.prefixCache`locks
      modifies cacheManager.prefixCache.nodes`key, cacheManager.prefixCache.nodes`value, cacheManager.prefixCache.nodes`parent
      modifies cacheManager.prefixCache.nodes`children, cacheManager.prefixCache.nodes`timestamp, cacheManager.prefixCache.nodes`refCount
      modifies tableManager`freeSlots, cacheManager.pageTable, tableManager.tokenPool
      ensures fresh(cacheManager.prefixCache.nodes - old(cacheManager.prefixCache.nodes)) && fresh(live - old(live))
      ensures batch.None? ==>
        && AtRest(last) && live == old(live) && prefillManager.pendingList == old(prefillManager.pendingList)
        && (last.None? && decodeManager.runningReqs == {} ==> prefillManager.pendingList == [])
      ensures batch.None? ==> HeadTurnedAway(old(prefillManager.pendingList))
      ensures batch.Some? ==> Manned(batch.value.reqs, last) && Statuses(live, batch.value.reqs, cacheManager, tableManager)
      ensures batch.Some? ==>
        && batch.value.isPrefill && batch.value.reqs != [] && Elements(batch.value.reqs) <= live && fresh(Elements(batch.value.reqs))
        && Chosen(batch.value, los, old(prefillManager.pendingList), old(live), old(cacheManager.prefixCache.view))
        && Stopped(cacheManager.StoreOf(map[]), |tableManager.freeSlots|, old(prefillManager.pendingList), los,
                   prefillBudget - Extends(batch.value.reqs), old(decodeManager.Inflight()))
    {
      hide AtRest, Manned, Statuses, Standing, Ground, Dealt, StartsAt, PendingOk, RunningOk, Due, Spoken, Refused, Rest;
      hide Extends, Flight, DecodeManager.Inflight, CacheManager.StoreOf, Stopped, Chosen, PrefillManager.Scheduled;
      ghost var pending := prefillManager.pendingList;
      RestFacts(last);
      if last.None? && decodeManager.runningReqs == {} && pending != [] {
        HeadGetsIn(pending);
      }
      ghost var live';
      batch, live', los := prefillManager.ScheduleNextBatch(prefillBudget, live, kv, maxSeqLen);
      live := live';
      if batch.Some? {
        PromptsPicked(last, batch.value, los);
      } else {
        StillAtRest(last);
      }
    }

    /** All requests that are running. */
    method PickRunning(ghost last: Option<ForwardData>, ghost los: seq<nat>, ghost view0: View) returns (batch: Option<Batch>)
      requires AtRest(last)
      ensures batch.None? ==> AtRest(last) && decodeManager.runningReqs == {}
      ensures batch.Some? ==> Manned(batch.value.reqs, last) && Statuses(live, batch.value.reqs, cacheManager, tableManager)
      ensures batch.Some? ==>
        && !batch.value.isPrefill && batch.value.reqs != [] && Elements(batch.value.reqs) <= live
        && Chosen(batch.value, los, prefillManager.pendingList, live, view0)
    {
      hide AtRest, Manned, Statuses, Chosen, SortedByUid, RunningOk;
      batch := decodeManager.ScheduleNextBatch();
      if batch.Some? {
        RestFacts(last);
        DecodeManned(batch.value.reqs, last);
        ChosenRunning(batch.value, los, view0);
      }
    }

    /** Prompts first; running requests when no prompt can be scheduled. */
    method PickBatch(ghost last: Option<ForwardData>) returns (batch: Option<Batch>, ghost los: seq<nat>)
      requires Wires() && AtRest(last)
      modifies this`live, prefillManager`pendingList
      modifies cacheManager.prefixCache`nodes, cacheManager.prefixCache`evictableSize, cacheManager.prefixCache`protectedSize
      modifies cacheManager.prefixCache`locks
      modifies cacheManager.prefixCache.nodes`key, cacheManager.prefixCache.nodes`value, cacheManager.prefixCache.nodes`parent
      modifies cacheManager.prefixCache.nodes`children, cacheManager.prefixCache.nodes`timestamp, cacheManager.prefixCache.nodes`refCount
      modifies tableManager`freeSlots, cacheManager.pageTable, tableManager.tokenPool
      ensures fresh(cacheManager.prefixCache.nodes - old(cacheManager.prefixCache.nodes)) && fresh(live - old(live))
      ensures batch.None? ==>
        && AtRest(last) && decodeManager.runningReqs == {} && live == old(live) && prefillManager.pendingList == old(prefillManager.pendingList)
        && (last.None? ==> prefillManager.pendingList == [])
      ensures !(batch.Some? && batch.value.isPrefill) ==> HeadTurnedAway(old(prefillManager.pendingList))
      ensures batch.Some? ==> Manned(batch.value.reqs, last) && Statuses(live, batch.value.reqs, cacheManager, tableManager)
      ensures batch.Some? ==>
        && batch.value.reqs != [] && Elements(batch.value.reqs) <= live && (batch.value.isPrefill ==> fresh(Elements(batch.value.reqs)))
        && Chosen(batch.value, los, old(prefillManager.pendingList), old(live), old(cacheManager.prefixCache.view))
      ensures batch.Some? && batch.value.isPrefill ==>
        Stopped(cacheManager.StoreOf(map[]), |tableManager.freeSlots|, old(prefillManager.pendingList), los,
                prefillBudget - Extends(batch.value.reqs), old(decodeManager.Inflight()))
    {
      hide AtRest, Manned, Statuses, Wires, Chosen, Stopped, Extends, DecodeManager.Inflight, CacheManager.StoreOf, SortedByUid;
      hide HeadTurnedAway;
      batch, los := PickPrompts(last);
      if batch.None? {
        batch := PickRunning(last, los, old(cacheManager.prefixCache.view));
      }
    }

    lemma RestFacts(last: Option<ForwardData>)
      requires AtRest(last)
      ensures Ground(cacheManager, tableManager, live, kv) && PendingOk(prefillManager.pendingList, live, maxSeqLen)
      ensures Statuses(live, [], cacheManager, tableManager) && RunningOk(decodeManager.runningReqs, live)
      ensures forall r :: r in decodeManager.runningReqs ==> r in live
    {
    }

    /** Nothing but the shape of the tree has changed. */
    twostate lemma StillAtRest(last: Option<ForwardData>)
      requires old(AtRest(last)) && Ground(cacheManager, tableManager, live, kv)
      requires unchanged(this) && unchanged(live) && unchanged(decodeManager) && unchanged(prefillManager)
      requires Statuses(live, [], cacheManager, tableManager)
      ensures AtRest(last)
    {
      hide Standing, Flight, Due, Spoken, NoDup, Done, Plausible, ChunkOf;
    }

    /** Every slot of the table is free or taken by one live request. */
    lemma SlotsAtRest(last: Option<ForwardData>)
      requires AtRest(last)
      ensures |tableManager.freeSlots| + |live| == tableManager.maxRunningReqs
      ensures live == {} ==> decodeManager.runningReqs == {} && decodeManager.Inflight() == 0
    {
      hide Flight, Due, Spoken, Statuses, PendingOk, InOrder;
      if live == {} { NothingInflight(); }
    }

    lemma SlotsManned(reqs: seq<Req>, last: Option<ForwardData>)
      requires Manned(reqs, last)
      ensures |tableManager.freeSlots| + |live| == tableManager.maxRunningReqs && |Elements(reqs)| == |reqs|
    {
      hide Flight, Due, Spoken, PendingOk, InOrder;
      ElementsSize(reqs);
    }

    // ---- preparing a batch ----

    /** Every request of the batch has pages for what it will compute. */
    ghost predicate Laden(reqs: seq<Req>)
      reads this`live, live`tok, live`cachedLen, live`deviceLen, live`alloc, live`cuts, tableManager.tokenPool
    {
      && (forall r :: r in reqs ==> r in live)
      && forall r :: r in live ==> if r in reqs then Backed(r, cacheManager, tableManager) else Done(r, cacheManager, tableManager)
    }

    lemma BatchPreparable(reqs: seq<Req>, last: Option<ForwardData>)
      requires Manned(reqs, last) && Statuses(live, reqs, cacheManager, tableManager)
      ensures cacheManager.Preparable(reqs, live)
    {
      hide WorldOk, Budgeted, RadixPrefixCache.Valid, PendingOk, Flight, Due, Spoken, DivCeil, Chained, Aligned;
      forall r | r in reqs
        ensures r in live && r.cachedLen <= r.deviceLen && r.alloc == DivCeil(r.cachedLen, cacheManager.pageSize) * cacheManager.pageSize
        ensures DivCeil(r.deviceLen, cacheManager.pageSize) * cacheManager.pageSize <= |cacheManager.pageTable[r.tableIdx]|
      {
        assert Ready(r, cacheManager, tableManager);
        WholeRow(r.deviceLen, tableManager.width, cacheManager.pageSize);
      }
    }

    /** How many more pages each request of the batch needs. */
    ghost predicate CountsFor(reqs: seq<Req>, counts: seq<nat>)
      reads Elements(reqs)`cachedLen, Elements(reqs)`deviceLen
    {
      && |counts| == |reqs| && cacheManager.pageSize > 0
      && forall i :: 0 <= i < |reqs| ==>
        DivCeil(reqs[i].deviceLen, cacheManager.pageSize) == DivCeil(reqs[i].cachedLen, cacheManager.pageSize) + counts[i]
    }

    /** The requests of the batch take what they were promised at most. */
    lemma BatchNeeds(reqs: seq<Req>, counts: seq<nat>)
      requires Statuses(live, reqs, cacheManager, tableManager) && Seated(live, cacheManager.pageTable) && CountsFor(reqs, counts)
      requires cacheManager.pageSize > 0
      ensures WithinNeed(Holdings(live, cacheManager.pageTable), reqs, counts, cacheManager.pageSize)
    {
      forall i | 0 <= i < |reqs|
        ensures reqs[i] in live && counts[i] <= Need(Holdings(live, cacheManager.pageTable)[reqs[i]], cacheManager.pageSize)
      {
        var r, ps := reqs[i], cacheManager.pageSize;
        assert r in reqs && Ready(r, cacheManager, tableManager);
        DivCeilMonotone(r.deviceLen, r.goal - 1, ps);
        MultipleAligned(DivCeil(r.cachedLen, ps), ps);
      }
    }

    /** What is known before pages are taken, for whatever numbers describe the need. */
    lemma BeforeBacking(reqs: seq<Req>, last: Option<ForwardData>, m: map<Req, Holding>)
      requires Manned(reqs, last) && Statuses(live, reqs, cacheManager, tableManager)
      requires Seated(live, cacheManager.pageTable) && m == Holdings(live, cacheManager.pageTable)
      ensures forall counts: seq<nat> {:trigger CountsFor(reqs, counts)} :: CountsFor(reqs, counts) ==>
        && Roomy(m, reqs, counts, cacheManager.pageSize)
        && (EstimateCovers(cacheManager.pageSize) ==>
              Sum(counts) <= Available(cacheManager.StoreOf(map[])) && WithinNeed(m, reqs, counts, cacheManager.pageSize))
    {
      hide Statuses, CacheManager.Preparable, Need, Available, Roomy, WithinNeed, WorldOk, RadixPrefixCache.Valid;
      hide PendingOk, Flight, Due, Spoken, Total, NeedMap;
      forall counts: seq<nat> | CountsFor(reqs, counts)
        ensures Roomy(m, reqs, counts, cacheManager.pageSize)
        ensures EstimateCovers(cacheManager.pageSize) ==>
          Sum(counts) <= Available(cacheManager.StoreOf(map[])) && WithinNeed(m, reqs, counts, cacheManager.pageSize)
      {
        BatchPreparable(reqs, last);
        BatchIsRoomy(cacheManager, reqs, live, counts);
        if EstimateCovers(cacheManager.pageSize) {
          BatchNeeds(reqs, counts);
          BatchHasPages(cacheManager.StoreOf(map[]), m, reqs, counts);
        }
      }
    }

    twostate lemma LadenNow(reqs: seq<Req>)
      requires old(Statuses(live, reqs, cacheManager, tableManager)) && unchanged(this`live) && unchanged(tableManager.tokenPool)
      requires forall r :: r in live ==>
        r.tok == old(r.tok) && r.cachedLen == old(r.cachedLen) && r.deviceLen == old(r.deviceLen) && r.cuts == old(r.cuts)
      requires forall r :: r in live && r !in reqs ==> r.alloc == old(r.alloc)
      requires cacheManager.pageSize > 0
      requires forall r :: r in reqs ==> r.alloc == DivCeil(r.deviceLen, cacheManager.pageSize) * cacheManager.pageSize
      ensures Laden(reqs)
    {
      hide DivCeil, Chained;
      forall r | r in live ensures if r in reqs then Backed(r, cacheManager, tableManager) else Done(r, cacheManager, tableManager) {
        assert if r in reqs then old(Ready(r, cacheManager, tableManager)) else old(Done(r, cacheManager, tableManager));
      }
    }

    lemma MannedFacts(reqs: seq<Req>, last: Option<ForwardData>)
      requires Manned(reqs, last)
      ensures Standing(cacheManager, tableManager, live, kv) && !cacheManager.lazyRegion && NoDup(reqs)
      ensures cacheManager.Valid() && cacheManager.pageSize > 0 && Seated(live, cacheManager.pageTable)
      ensures tableManager.tokenPool != cacheManager.pageTable
      ensures ValidView(cacheManager.prefixCache.view, cacheManager.pageSize)
    {
      hide ValidView, RadixPrefixCache.Valid, Labelled, Pages.Blocked, AllOk, Conserved, LocksMatch, Budgeted, Due, Spoken;
      hide Flight, PendingOk;
    }

    /** The pages have been handed out. */
    twostate lemma BackedStanding(reqs: seq<Req>, new order: seq<Prefix>, new counts: seq<nat>, new taken: seq<int>)
      requires unchanged(this) && unchanged(tableManager) && unchanged(tableManager.tokenPool)
      requires Seated(live, cacheManager.pageTable) && PagesDealt(cacheManager, live, reqs, order, counts, taken)
      requires Roomy(old(Holdings(live, cacheManager.pageTable)), reqs, counts, cacheManager.pageSize)
      requires EstimateCovers(cacheManager.pageSize) ==>
        WithinNeed(old(Holdings(live, cacheManager.pageTable)), reqs, counts, cacheManager.pageSize)
      requires SameShape(cacheManager.pageTable[..], old(cacheManager.pageTable[..]))
      requires cacheManager.prefixCache.locks == old(cacheManager.prefixCache.locks)
      requires cacheManager.prefixCache.nodes <= old(cacheManager.prefixCache.nodes)
      requires forall n :: n in old(cacheManager.prefixCache.nodes) && Locked(cacheManager.prefixCache.locks, n.prefix) ==>
        n in cacheManager.prefixCache.nodes
      requires forall n :: n in old(cacheManager.prefixCache.nodes) ==> n.prefix == old(n.prefix)
      requires forall r :: r in live ==> r.tok == old(r.tok) && r.cacheHandle == old(r.cacheHandle) && r.shares == old(r.shares)
      requires old(ValidView(cacheManager.prefixCache.view, cacheManager.pageSize)) && NoDup(reqs) && cacheManager.Valid()
      requires old(Standing(cacheManager, tableManager, live, kv))
      ensures Standing(cacheManager, tableManager, live, kv)
    {
      hide InOrder, Afford, PagesDealt, Roomy, WithinNeed, Holdings, RadixPrefixCache.Valid, ValidView, Locked, SameShape, Rect;
      RectStays(cacheManager.pageTable, tableManager.width);
      ViewNow();
      BackedInOrder(cacheManager, live, kv, reqs, order, counts, taken);
      BackedAfford(cacheManager, live, reqs, order, counts, taken);
    }

    lemma ViewNow()
      requires cacheManager.Valid()
      ensures ValidView(cacheManager.prefixCache.view, cacheManager.pageSize)
    {
      hide RadixPrefixCache.Valid, ValidView;
      cacheManager.prefixCache.Sizes();
    }

    twostate lemma StillManned(reqs: seq<Req>, new last: Option<ForwardData>)
      requires old(allocated(last))
      requires old(Manned(reqs, last)) && Standing(cacheManager, tableManager, live, kv) && !cacheManager.lazyRegion
      requires unchanged(this) && unchanged(decodeManager) && unchanged(prefillManager)
      requires forall r :: r in live ==>
        && r.tok == old(r.tok) && r.deviceLen == old(r.deviceLen) && r.inputIds == old(r.inputIds) && r.replies == old(r.replies)
      ensures Manned(reqs, last)
    {
      hide Standing, Due, NoDup, Plausible;
    }

    /** The pages that a batch is about to take. */
    ghost function PagesNeeded(reqs: seq<Req>): int
      requires cacheManager.pageSize > 0
      reads Elements(reqs)`cachedLen, Elements(reqs)`deviceLen
    {
      if reqs == [] then 0
      else
        var r := reqs[|reqs| - 1];
        PagesNeeded(reqs[..|reqs| - 1]) + DivCeil(r.deviceLen, cacheManager.pageSize) - DivCeil(r.cachedLen, cacheManager.pageSize)
    }

    lemma {:induction false} CountsAdd(reqs: seq<Req>, counts: seq<nat>)
      requires CountsFor(reqs, counts)
      ensures Sum(counts) == PagesNeeded(reqs)
      decreases |reqs|
    {
      if reqs != [] {
        var n := |reqs| - 1;
        CountsAdd(reqs[..n], counts[..n]);
        SumAppend(counts[..n], counts[n]);
        assert counts == counts[..n] + [counts[n]];
      }
    }

    /** Nothing that is stored goes while there are free pages enough. */
    twostate lemma DealtKept(reqs: seq<Req>, new order: seq<Prefix>, new counts: seq<nat>, new taken: seq<int>)
      requires live == old(live)
      requires PagesDealt(cacheManager, live, reqs, order, counts, taken) && Sum(counts) <= old(|cacheManager.AllFree()|)
      ensures cacheManager.prefixCache.view == old(cacheManager.prefixCache.view)
    {
    }

    /** Gives the batch its pages, if there are enough; where the estimate covers the pages, there are. */
    method AllocateBatch(reqs: seq<Req>, ghost last: Option<ForwardData>) returns (ok: bool)
      requires Manned(reqs, last) && Statuses(live, reqs, cacheManager, tableManager)
      modifies cacheManager`freeSlots, cacheManager.prefixCache`nodes, cacheManager.prefixCache`view, cacheManager.prefixCache`evictableSize
      modifies cacheManager.prefixCache.nodes`children, cacheManager.pageTable, Elements(reqs)`alloc
      ensures cacheManager.pageSize > 0 && (ok <==> old(PagesNeeded(reqs)) <= old(Available(cacheManager.StoreOf(map[]))))
      ensures EstimateCovers(cacheManager.pageSize) ==> ok
      ensures ok ==> Manned(reqs, last) && Laden(reqs)
      ensures ok && old(PagesNeeded(reqs)) <= old(|cacheManager.AllFree()|) ==>
        cacheManager.prefixCache.view == old(cacheManager.prefixCache.view)
      ensures cacheManager.prefixCache.nodes <= old(cacheManager.prefixCache.nodes)
    {
      hide Standing, Manned, Statuses, CacheManager.Preparable, PagesDealt, Laden, CacheManager.Valid, Roomy, WithinNeed;
      hide Available, ValidView, Seated, Holdings, SameShape, Rect, PagesNeeded, Sum, CacheManager.StoreOf;
      MannedFacts(reqs, last);
      BatchPreparable(reqs, last);
      BeforeBacking(reqs, last, Holdings(live, cacheManager.pageTable));
      ghost var order, counts, taken, victims;
      ok, order, counts, taken, victims := cacheManager.AllocatePaged(reqs, live);
      assert old(CountsFor(reqs, counts));
      CountsAdd(reqs, counts);
      if ok {
        if Sum(counts) <= old(|cacheManager.AllFree()|) { DealtKept(reqs, order, counts, taken); }
        BackedStanding(reqs, order, counts, taken);
        StillManned(reqs, last);
        LadenNow(reqs);
      }
    }

    /** The index lists of a batch are those of its spans, and its slots those of its rows. */
    ghost predicate InputOk(input: ForwardInput)
      reads Elements(input.batch.reqs)`cachedLen, Elements(input.batch.reqs)`deviceLen, Elements(input.batch.reqs)`tok, cacheManager.pageTable
    {
      var reqs := input.batch.reqs;
      && Forwards(Spans(reqs)) && input.positions == PositionsOf(Spans(reqs)) && input.inputRows == RowsOfSpans(Spans(reqs))
      && Addressed(reqs, cacheManager.pageTable, input.outLoc, BatchLabels(reqs)) && LooksUp(input.attnMetadata, reqs)
      && |input.writeRows| == |input.writeColumns| == |reqs|
      && forall i :: 0 <= i < |reqs| ==>
        input.writeRows[i] == reqs[i].tableIdx && input.writeColumns[i] == if reqs[i].chunked then -1 else |reqs[i].tok|
    }

    lemma LadenFacts(reqs: seq<Req>, last: Option<ForwardData>)
      requires Manned(reqs, last) && Laden(reqs)
      ensures Standing(cacheManager, tableManager, live, kv) && NoDup(reqs)
      ensures forall r :: r in reqs ==> r in live && Backed(r, cacheManager, tableManager)
      ensures forall r :: r in reqs ==> |r.tok| == r.deviceLen && (r.chunked <==> !r.CanDecode())
    {
      hide Standing, Due, Spoken, Flight, PendingOk;
    }

    /** For a prepared batch, the compressed table of the attention backend names the slot of every position it may look at. */
    lemma CompressedNamesSlots(reqs: seq<Req>, last: Option<ForwardData>, r: Req, pages: seq<int>, length: nat, p: nat)
      requires r in reqs && r.tableIdx < cacheManager.pageTable.Length && p < r.deviceLen <= length
      requires cacheManager.pageSize > 0 && Compressed(pages, cacheManager.pageTable[r.tableIdx], length, cacheManager.pageSize)
      requires Manned(reqs, last) && Laden(reqs)
      ensures NamesSlot(pages, cacheManager.pageTable[r.tableIdx], p, cacheManager.pageSize)
    {
      hide Manned, Laden, Compressed, Pages.Blocked, Labelled, Conserved, LocksMatch, ViewOk, Afford, RadixPrefixCache.Valid;
      LadenFacts(reqs, last);
      BackedBounds(cacheManager, tableManager, live, kv, r);
      assert HoldingOk(Holdings(live, cacheManager.pageTable)[r], cacheManager.StoreOf(kv));
      CompressedSlot(pages, cacheManager.pageTable[r.tableIdx], length, cacheManager.pageSize, r.alloc, p);
    }

    /** The metadata describes the batch, and its tables name the slot of every position that attention may look at. */
    ghost predicate LooksUp(m: Metadata, reqs: seq<Req>)
      reads Elements(reqs)`cachedLen, Elements(reqs)`deviceLen, cacheManager.pageTable
    {
      && cacheManager.pageSize > 0 && Describes(m, reqs, cacheManager.pageTable, cacheManager.pageSize)
      && forall i, p :: 0 <= i < |reqs| && 0 <= p < reqs[i].deviceLen ==>
        NamesSlot(m.pageTable[i], cacheManager.pageTable[reqs[i].tableIdx], p, cacheManager.pageSize)
    }

    method BuildMetadata(reqs: seq<Req>, ghost last: Option<ForwardData>) returns (m: Metadata)
      requires Manned(reqs, last) && Laden(reqs) && reqs != []
      ensures LooksUp(m, reqs)
    {
      hide Manned, Laden, Backed, Spans, PrefixSums, ExtendLens, DeviceLens, Compressed, NamesSlot, Standing;
      LadenFacts(reqs, last);
      LadenRows(reqs, last);
      m := PrepareMetadata(reqs, cacheManager.pageTable, cacheManager.pageSize);
      forall i, p | 0 <= i < |reqs| && 0 <= p < reqs[i].deviceLen
        ensures NamesSlot(m.pageTable[i], cacheManager.pageTable[reqs[i].tableIdx], p, cacheManager.pageSize)
      {
        assert reqs[i] in reqs;
        CompressedNamesSlots(reqs, last, reqs[i], m.pageTable[i], m.maxSeqlenK, p);
      }
    }

    lemma LadenRows(reqs: seq<Req>, last: Option<ForwardData>)
      requires Manned(reqs, last) && Laden(reqs)
      ensures cacheManager.pageSize > 0
      ensures forall r :: r in reqs ==> r.cachedLen < r.deviceLen && r.tableIdx < cacheManager.pageTable.Length
      ensures forall r, q :: r in reqs && q in reqs ==> r.deviceLen <= |cacheManager.pageTable[q.tableIdx]|
    {
      hide Manned, Laden, InOrder, Afford, DivCeil, Chained;
      LadenFacts(reqs, last);
    }

    method BuildInput(batch: Batch, ghost last: Option<ForwardData>) returns (input: ForwardInput)
      requires Manned(batch.reqs, last) && Laden(batch.reqs) && batch.reqs != []
      ensures input.batch == batch && InputOk(input)
    {
      hide Standing, Manned, Statuses, Laden, Spans, Toks, Backed, Stretches, PositionsOf, RowsOfSpans, Addressed;
      hide BatchLabels, Reaching, InRange, Forwards, LooksUp, Elements, NoDup;
      LadenFacts(batch.reqs, last);
      BatchAddressed(cacheManager, tableManager, live, kv, batch.reqs);
      GatherStretches(Spans(batch.reqs), cacheManager.pageTable[..]);
      ghost var spans, table := Spans(batch.reqs), cacheManager.pageTable[..];
      var positions := MakePositions(batch.reqs);
      assert Spans(batch.reqs) == spans;
      var inputRows := MakeInputTuple(batch.reqs, positions);
      assert Spans(batch.reqs) == spans;
      var writeRows, writeColumns := MakeWriteTuple(batch.reqs);
      assert Spans(batch.reqs) == spans && cacheManager.pageTable[..] == table;
      var outLoc := Gather(cacheManager.pageTable, inputRows, positions);
      var attnMetadata := BuildMetadata(batch.reqs, last);
      assert Spans(batch.reqs) == spans && cacheManager.pageTable[..] == table;
      PicksAre(spans, table, outLoc);
      LadenFacts(batch.reqs, last);
      BatchAddressed(cacheManager, tableManager, live, kv, batch.reqs);
      input := ForwardInput(batch, positions, inputRows, outLoc, attnMetadata, writeRows, writeColumns);
    }

    method PrepareBatch(batch: Batch, ghost last: Option<ForwardData>) returns (ok: bool, input: ForwardInput)
      requires batch.reqs != []
      requires Manned(batch.reqs, last) && Statuses(live, batch.reqs, cacheManager, tableManager)
      modifies cacheManager`freeSlots, cacheManager.prefixCache`nodes, cacheManager.prefixCache`view, cacheManager.prefixCache`evictableSize
      modifies cacheManager.prefixCache.nodes`children, cacheManager.pageTable, Elements(batch.reqs)`alloc
      ensures cacheManager.pageSize > 0 && (ok <==> old(PagesNeeded(batch.reqs)) <= old(Available(cacheManager.StoreOf(map[]))))
      ensures EstimateCovers(cacheManager.pageSize) ==> ok
      ensures ok ==> Manned(batch.reqs, last) && Laden(batch.reqs) && input.batch == batch && InputOk(input)
      ensures ok && old(PagesNeeded(batch.reqs)) <= old(|cacheManager.AllFree()|) ==>
        cacheManager.prefixCache.view == old(cacheManager.prefixCache.view)
      ensures cacheManager.prefixCache.nodes <= old(cacheManager.prefixCache.nodes)
    {
      hide Manned, Statuses, Laden, InputOk, PagesNeeded, Available;
      input := ForwardInput(batch, [], [], [], Metadata([], [], [], 0, 0, []), [], []);
      ok := AllocateBatch(batch.reqs, last);
      if ok {
        input := BuildInput(batch, last);
      }
    }

    // ---- running a batch ----

    /** `data` has just been run, while `last` is still to be processed. */
    ghost predicate Flown(last: Option<ForwardData>, data: ForwardData)
      reads this, cacheManager, cacheManager.prefixCache, cacheManager.prefixCache.nodes, cacheManager.pageTable
      reads tableManager, tableManager.tokenPool, decodeManager, prefillManager, live
    {
      && Orderly() && !cacheManager.lazyRegion && Flight(last, live, finishedReqs)
      && NoDup(data.batch.reqs) && |data.nextTokens| == |data.batch.reqs| && (forall r :: r in data.batch.reqs ==> r in live)
      && (forall r :: r in live ==> Spoken(r, Due(last, r) + DueFrom(data, 0, r), eosTokenId))
      && forall r :: r in live && !r.chunked && r.RemainLen() == 0 ==> InBatchOf(last, r) || r in data.batch.reqs
    }

    /** What a forward pass and its token writes have done to the requests. */
    twostate predicate Advanced(reqs: seq<Req>, new nextTokens: seq<int>)
      requires |nextTokens| == |reqs|
      reads live`tok, this`live, live`cachedLen, live`deviceLen, live`alloc, live`cuts, live`inputIds, live`replies
    {
      && live == old(live)
      && (forall i :: 0 <= i < |reqs| ==>
        && reqs[i] in live && reqs[i].tok == old(reqs[i].tok) + if reqs[i].chunked then [] else [nextTokens[i]])
      && (forall r :: r in live && r !in reqs ==>
        && r.tok == old(r.tok) && r.cachedLen == old(r.cachedLen) && r.deviceLen == old(r.deviceLen)
        && r.alloc == old(r.alloc) && r.cuts == old(r.cuts))
      && forall r :: r in live ==> r.inputIds == old(r.inputIds) && r.replies == old(r.replies)
    }

    twostate lemma AdvancedNow(reqs: seq<Req>, new nextTokens: seq<int>)
      requires |nextTokens| == |reqs| && live == old(live) && forall r :: r in reqs ==> r in live
      requires forall i :: 0 <= i < |reqs| ==> reqs[i].tok == old(reqs[i].tok) + if reqs[i].chunked then [] else [nextTokens[i]]
      requires forall r :: r in live - Elements(reqs) ==>
        && r.tok == old(r.tok) && r.cachedLen == old(r.cachedLen) && r.deviceLen == old(r.deviceLen)
        && r.alloc == old(r.alloc) && r.cuts == old(r.cuts)
      requires forall r :: r in live ==> r.inputIds == old(r.inputIds) && r.replies == old(r.replies)
      ensures Advanced(reqs, nextTokens)
    {
    }

    lemma DueOfBatch(data: ForwardData, r: Req)
      requires NoDup(data.batch.reqs) && |data.nextTokens| == |data.batch.reqs|
      ensures r !in data.batch.reqs ==> DueFrom(data, 0, r) == []
      ensures r in data.batch.reqs ==>
        DueFrom(data, 0, r) == if r.chunked then [] else [data.nextTokens[IndexOf(data.batch.reqs, r)]]
    {
      assert data.batch.reqs[0..] == data.batch.reqs;
    }

    twostate lemma FlownSpoken(last: Option<ForwardData>, new data: ForwardData, new r: Req)
      requires old(allocated(data)) && old(allocated(r))
      requires NoDup(data.batch.reqs) && |data.nextTokens| == |data.batch.reqs| && Advanced(data.batch.reqs, data.nextTokens)
      requires r in live && old(Spoken(r, Due(last, r), eosTokenId))
      ensures Spoken(r, Due(last, r) + DueFrom(data, 0, r), eosTokenId)
    {
      hide Due, DueFrom, NoDup, Answered;
      DueOfBatch(data, r);
      if r in data.batch.reqs {
        var i := IndexOf(data.batch.reqs, r);
        assert data.batch.reqs[i] == r;
        if r.chunked {
          assert Due(last, r) + [] == Due(last, r);
        } else {
          assert (r.inputIds + Due(last, r)) + [data.nextTokens[i]] == r.inputIds + (Due(last, r) + [data.nextTokens[i]]);
        }
      } else {
        assert Due(last, r) + [] == Due(last, r);
      }
      assert Answered(r, eosTokenId) == old(Answered(r, eosTokenId));
    }

    twostate lemma FlownNow(last: Option<ForwardData>, new data: ForwardData)
      requires old(allocated(data))
      requires old(Manned(data.batch.reqs, last)) && old(Laden(data.batch.reqs)) && unchanged(this`live) && unchanged(this`released)
      requires unchanged(this`finishedReqs) && unchanged(prefillManager) && unchanged(cacheManager)
      requires |data.nextTokens| == |data.batch.reqs| && Advanced(data.batch.reqs, data.nextTokens)
      requires Standing(cacheManager, tableManager, live, kv)
      requires forall r :: r in data.batch.reqs ==> Done(r, cacheManager, tableManager)
      requires RowsStay(tableManager.tokenPool, live - Elements(data.batch.reqs))
      requires forall r :: r in decodeManager.runningReqs <==> r in old(decodeManager.runningReqs) + Elements(data.batch.reqs) && r.CanDecode()
      ensures Flown(last, data)
    {
      hide Standing, DivCeil, Chained, Flight, Plausible, Due, DueFrom, Spoken, NoDup;
      var reqs := data.batch.reqs;
      forall r | r in live ensures Done(r, cacheManager, tableManager) && (r.RemainLen() >= 0 || r.chunked) {
        if r !in reqs {
          assert old(Done(r, cacheManager, tableManager));
          assert r in live - Elements(reqs);
        }
      }
      forall r | r in live ensures Spoken(r, Due(last, r) + DueFrom(data, 0, r), eosTokenId) {
        FlownSpoken(last, data, r);
      }
    }

    /** The last column of the pool, where the tokens of chunks go, is never read. */
    lemma LastColumnUnread(reqs: seq<Req>, last: Option<ForwardData>)
      requires Manned(reqs, last) && Laden(reqs) && Forwards(Spans(reqs))
      ensures forall x :: x in PositionsOf(Spans(reqs)) ==> 0 <= x < tableManager.width - 1
    {
      hide Manned, Laden, Spans;
      LadenFacts(reqs, last);
      forall i | 0 <= i < |Spans(reqs)| ensures Spans(reqs)[i].hi < tableManager.width {
        assert reqs[i] in reqs && Backed(reqs[i], cacheManager, tableManager);
      }
      PositionsBelow(Spans(reqs), tableManager.width - 1);
    }

    lemma FlownFacts(last: Option<ForwardData>, data: ForwardData)
      requires Flown(last, data)
      ensures forall r :: r in decodeManager.runningReqs ==> r in live && !r.chunked && r.RemainLen() > 0
      ensures forall r :: r in data.batch.reqs ==> r.cachedLen == r.deviceLen - 1
    {
      hide Standing, Due, DueFrom, Spoken, Flight, NoDup;
    }

    lemma InputFacts(input: ForwardInput)
      requires InputOk(input)
      ensures Forwards(Spans(input.batch.reqs)) && input.positions == PositionsOf(Spans(input.batch.reqs))
      ensures input.inputRows == RowsOfSpans(Spans(input.batch.reqs))
    {
    }

    /** The pool has, where the batch reads it, the tokens its requests have not computed yet. */
    lemma GatherReady(input: ForwardInput, last: Option<ForwardData>)
      requires Manned(input.batch.reqs, last) && Laden(input.batch.reqs) && InputOk(input)
      ensures InRange(tableManager.tokenPool[..], input.inputRows, input.positions)
    {
      hide Manned, Laden, InputOk, Spans, Toks, Stretches, Uncomputed, PositionsOf, RowsOfSpans, Addressed, Backed;
      InputFacts(input);
      LadenFacts(input.batch.reqs, last);
      GatheredTokens(input.batch.reqs, cacheManager, tableManager);
      GatherStretches(Spans(input.batch.reqs), tableManager.tokenPool[..]);
    }

    lemma GatherRight(input: ForwardInput, last: Option<ForwardData>, s: seq<int>)
      requires Manned(input.batch.reqs, last) && Laden(input.batch.reqs) && InputOk(input)
      requires Picks(tableManager.tokenPool[..], input.inputRows, input.positions, s)
      ensures s == BatchTokens(input.batch.reqs)
    {
      hide Manned, Laden, InputOk, Spans, Toks, Stretches, Uncomputed, PositionsOf, RowsOfSpans, Addressed, Backed, Picks;
      hide Reaching, Forwards, InRange, BatchTokens, BatchLabels;
      BatchTokensAre(input.batch.reqs);
      InputFacts(input);
      LadenFacts(input.batch.reqs, last);
      GatheredTokens(input.batch.reqs, cacheManager, tableManager);
      PicksAre(Spans(input.batch.reqs), tableManager.tokenPool[..], s);
    }

    method ReadTokens(input: ForwardInput, ghost last: Option<ForwardData>) returns (inputIds: seq<int>)
      requires Manned(input.batch.reqs, last) && Laden(input.batch.reqs) && InputOk(input)
      ensures inputIds == BatchTokens(input.batch.reqs)
    {
      hide Manned, Laden, BatchTokens, Picks, InRange, Spans, Toks, PositionsOf, RowsOfSpans, LabelsOf, Stretches, Reaching;
      hide Forwards;
      GatherReady(input, last);
      ghost var spans, toks := Spans(input.batch.reqs), Toks(input.batch.reqs);
      inputIds := Gather(tableManager.tokenPool, input.inputRows, input.positions);
      assert Spans(input.batch.reqs) == spans && Toks(input.batch.reqs) == toks;
      GatherRight(input, last, inputIds);
    }

    /** All that the rows of sharing requests map so far was last written for their own tokens: attention reads what it should. */
    ghost predicate RowsRight(reqs: seq<Req>)
      reads this`kv, cacheManager.pageTable, Elements(reqs)`tok, Elements(reqs)`cachedLen, Elements(reqs)`shares
    {
      forall r :: r in reqs && r.shares ==>
        && r.tableIdx < cacheManager.pageTable.Length
        && Labelled(cacheManager.pageTable[r.tableIdx], r.tok, 0, r.cachedLen, kv)
    }

    lemma SharedRows(reqs: seq<Req>)
      requires Standing(cacheManager, tableManager, live, kv) && forall r :: r in reqs ==> r in live
      ensures RowsRight(reqs)
    {
      hide Standing, Labelled;
      forall r | r in reqs && r.shares
        ensures r.tableIdx < cacheManager.pageTable.Length
        ensures Labelled(cacheManager.pageTable[r.tableIdx], r.tok, 0, r.cachedLen, kv)
      {
        StandingRow(cacheManager, tableManager, live, kv, r);
      }
    }

    /** The model's forward pass, and the writing of the tokens it samples. */
    method Compute(input: ForwardInput, ghost last: Option<ForwardData>) returns (nextTokens: seq<int>)
      requires Manned(input.batch.reqs, last) && Laden(input.batch.reqs) && InputOk(input)
      modifies this`kv, tableManager.tokenPool
      modifies Elements(input.batch.reqs)`cachedLen, Elements(input.batch.reqs)`deviceLen
      modifies Elements(input.batch.reqs)`cuts, Elements(input.batch.reqs)`tok
      ensures |nextTokens| == |input.batch.reqs| && Advanced(input.batch.reqs, nextTokens)
      ensures kv == StoredAt(old(kv), input.outLoc, old(BatchLabels(input.batch.reqs)))
      ensures Standing(cacheManager, tableManager, live, kv)
      ensures forall r :: r in input.batch.reqs ==> Done(r, cacheManager, tableManager) && r.cachedLen == old(r.deviceLen)
      ensures RowsStay(tableManager.tokenPool, live - Elements(input.batch.reqs)) && RowsRight(input.batch.reqs)
    {
      hide Advanced, RowsRight, LooksUp, Standing, Manned, Laden, Done, Backed, Completed, Spans, Toks, PositionsOf;
      hide RowsOfSpans, Addressed, BatchLabels, StoredAt, NoDup, InRange;
      var reqs := input.batch.reqs;
      LadenFacts(reqs, last);
      ghost var labels := BatchLabels(reqs);
      ghost var kv';
      nextTokens, kv' := ForwardBatch(reqs, input.outLoc, cacheManager, tableManager, labels, live, kv);
      kv := kv';
      WriteTokens(input.writeRows, input.writeColumns, nextTokens, cacheManager, tableManager, reqs, live, kv);
      AdvancedNow(reqs, nextTokens);
      SharedRows(reqs);
    }

    /** The model's forward pass, the writing of the tokens it samples, and the choice of who is decoded next. */
    method Advance(input: ForwardInput, ghost last: Option<ForwardData>) returns (nextTokens: seq<int>)
      requires Manned(input.batch.reqs, last) && Laden(input.batch.reqs) && InputOk(input)
      modifies this`kv, tableManager.tokenPool, decodeManager`runningReqs
      modifies Elements(input.batch.reqs)`cachedLen, Elements(input.batch.reqs)`deviceLen
      modifies Elements(input.batch.reqs)`cuts, Elements(input.batch.reqs)`tok
      ensures |nextTokens| == |input.batch.reqs| && Advanced(input.batch.reqs, nextTokens)
      ensures kv == StoredAt(old(kv), input.outLoc, old(BatchLabels(input.batch.reqs)))
      ensures Standing(cacheManager, tableManager, live, kv)
      ensures forall r :: r in input.batch.reqs ==> Done(r, cacheManager, tableManager) && r.cachedLen == old(r.deviceLen)
      ensures RowsStay(tableManager.tokenPool, live - Elements(input.batch.reqs)) && RowsRight(input.batch.reqs)
      ensures forall r :: r in decodeManager.runningReqs <==> r in old(decodeManager.runningReqs) + Elements(input.batch.reqs) && r.CanDecode()
    {
      hide RowsRight, Standing, Manned, Laden, Done, BatchLabels, StoredAt, RowsStay, InputOk;
      nextTokens := Compute(input, last);
      decodeManager.FilterReqs(input.batch.reqs);
    }

    /** Runs a batch on the tokens in the pool, and writes the sampled ones behind them. */
    method Forward(input: ForwardInput, ghost last: Option<ForwardData>) returns (data: ForwardData, inputIds: seq<int>)
      requires Manned(input.batch.reqs, last) && Laden(input.batch.reqs) && InputOk(input)
      modifies this`kv, tableManager.tokenPool, decodeManager`runningReqs
      modifies Elements(input.batch.reqs)`cachedLen, Elements(input.batch.reqs)`deviceLen
      modifies Elements(input.batch.reqs)`cuts, Elements(input.batch.reqs)`tok
      ensures Flown(last, data) && data.batch == input.batch
      ensures inputIds == old(BatchTokens(input.batch.reqs))
      ensures old(RowsRight(input.batch.reqs)) && RowsRight(input.batch.reqs)
      ensures kv == StoredAt(old(kv), input.outLoc, old(BatchLabels(input.batch.reqs)))
      ensures forall r :: r in input.batch.reqs ==> r.cachedLen == old(r.deviceLen) && r.deviceLen == old(r.deviceLen) + 1
      ensures forall r :: r in decodeManager.runningReqs ==>
        r in live && !r.chunked && r.RemainLen() > 0 && (r in old(decodeManager.runningReqs) || r in input.batch.reqs)
    {
      hide Standing, Manned, Laden, Flown, Done, Backed, Spans, BatchTokens, BatchLabels, StoredAt, NoDup, InputOk;
      hide RowsRight, Advanced;
      LadenFacts(input.batch.reqs, last);
      MannedFacts(input.batch.reqs, last);
      SharedRows(input.batch.reqs);
      inputIds := ReadTokens(input, last);
      label computing:
      var nextTokens := Advance(input, last);
      data := ForwardData(input.batch, nextTokens);
      FlownNow@computing(last, data);
      FlownFacts(last, data);
    }

    // ---- messages ----

    /** What a client may ask: a prompt that is not empty, and at least one token in return. */
    ghost predicate Proper(msg: Msg)
    {
      match msg
      case BatchMsg(data) => forall m :: m in data ==> Proper(m)
      case UserMsg(_, inputIds, maxTokens, _) => 0 < |inputIds| && 0 < maxTokens
      case AbortMsg(_) => true
    }

    ghost predicate NoAbort(msg: Msg)
    {
      match msg
      case BatchMsg(data) => forall m :: m in data ==> NoAbort(m)
      case UserMsg(_, _, _, _) => true
      case AbortMsg(_) => false
    }

    /** What the waiting list becomes: a prompt that leaves no room for output is dropped, and the output is cut to the room there is. */
    ghost function Accepted(pending: seq<PendingReq>, msg: Msg): seq<PendingReq>
      requires msg.UserMsg?
    {
      var room := maxSeqLen - |msg.inputIds|;
      if room <= 0 then pending
      else pending + [PendingReq(msg.uid, msg.inputIds, if msg.maxTokens > room then room else msg.maxTokens, msg.ignoreEos, null)]
    }

    /** What a message that aborts nothing makes of the waiting list; the parts of a nested one count in their order. */
    ghost function AcceptedAll(pending: seq<PendingReq>, msg: Msg): seq<PendingReq>
      decreases msg, if msg.BatchMsg? then |msg.data| + 1 else 0
    {
      match msg
      case BatchMsg(data) => AcceptedFirst(pending, msg, |data|)
      case UserMsg(_, _, _, _) => Accepted(pending, msg)
      case AbortMsg(_) => pending
    }

    ghost function AcceptedFirst(pending: seq<PendingReq>, msg: Msg, n: nat): seq<PendingReq>
      requires msg.BatchMsg? && n <= |msg.data|
      decreases msg, n
    {
      if n == 0 then pending else AcceptedAll(AcceptedFirst(pending, msg, n - 1), msg.data[n - 1])
    }

    /** Apart from the prompts that wait, nothing that the choice of a batch depends on has changed. */
    twostate predicate OnlyPrompts()
      reads this`live, this`released, cacheManager`freeSlots, cacheManager`lazyList, tableManager`freeSlots
      reads cacheManager.prefixCache`view, cacheManager.prefixCache`locks, decodeManager`runningReqs
      reads decodeManager.runningReqs`deviceLen
    {
      && live == old(live) && released == old(released) && tableManager.freeSlots == old(tableManager.freeSlots)
      && cacheManager.StoreOf(map[]) == old(cacheManager.StoreOf(map[])) && decodeManager.runningReqs == old(decodeManager.runningReqs)
      && decodeManager.Inflight() == old(decodeManager.Inflight())
    }

    /** Where the first prompt with this number waits; behind the last one if there is none. */
    ghost function FirstWith(pending: seq<PendingReq>, uid: int): (at: nat)
      ensures at <= |pending| && (at < |pending| ==> pending[at].uid == uid)
      ensures forall j :: 0 <= j < at ==> pending[j].uid != uid
    {
      if pending == [] || pending[0].uid == uid then 0 else 1 + FirstWith(pending[1..], uid)
    }

    lemma OneFirst(pending: seq<PendingReq>, uid: int, at: nat)
      requires at <= |pending| && (at < |pending| ==> pending[at].uid == uid) && forall j :: 0 <= j < at ==> pending[j].uid != uid
      ensures at == FirstWith(pending, uid)
    {
    }

    ghost function Without(pending: seq<PendingReq>, at: nat): seq<PendingReq>
    {
      if at < |pending| then pending[..at] + pending[at + 1..] else pending
    }

    /** Who is aborted: the part already computed of the prompt, if there is one, or else a running request. */
    twostate predicate Aborted(uid: int, new gone: set<Req>)
      reads prefillManager`pendingList, decodeManager`runningReqs
    {
      var pending, at := old(prefillManager.pendingList), FirstWith(old(prefillManager.pendingList), uid);
      && prefillManager.pendingList == Without(pending, at) && decodeManager.runningReqs == old(decodeManager.runningReqs) - gone
      && if at < |pending| && pending[at].chunkedReq != null then gone == {pending[at].chunkedReq}
      else gone <= old(decodeManager.runningReqs) && (gone == {} <==> forall r :: r in old(decodeManager.runningReqs) ==> r.uid != uid)
    }

    method AcceptPrompt(msg: Msg, ghost last: Option<ForwardData>)
      requires AtRest(last) && msg.UserMsg? && Proper(msg)
      modifies prefillManager`pendingList
      ensures AtRest(last) && prefillManager.pendingList == Accepted(old(prefillManager.pendingList), msg) && OnlyPrompts()
    {
      hide Standing, Statuses, RunningOk, Flight, Due, Spoken, NoDup, ChunkOf;
      var maxOutputLen := maxSeqLen - |msg.inputIds|;
      if maxOutputLen <= 0 {
        return;
      }
      var maxTokens := msg.maxTokens;
      if maxTokens > maxOutputLen {
        maxTokens := maxOutputLen;
      }
      prefillManager.AddOneReq(PendingReq(msg.uid, msg.inputIds, maxTokens, msg.ignoreEos, null));
    }

    lemma AbortFacts()
      requires AtRest(None)
      ensures Standing(cacheManager, tableManager, live, kv) && LogOk() && !cacheManager.lazyRegion
      ensures forall r :: r in live ==> Done(r, cacheManager, tableManager) && cacheManager.HostKnows(r)
      ensures forall r :: r in decodeManager.runningReqs ==> r in live && !r.chunked
      ensures forall i :: 0 < i < |prefillManager.pendingList| ==> prefillManager.pendingList[i].chunkedReq == null
      ensures forall r :: r in CarriedFirst(prefillManager.pendingList) ==>
        r in live && r.chunked && r.uid == prefillManager.pendingList[0].uid
    {
      hide Standing, NoDup, Chained, DivCeil;
      forall r | r in live ensures cacheManager.HostKnows(r) {
        assert Done(r, cacheManager, tableManager) && Spoken(r, Due(None, r), eosTokenId);
        assert r.inputIds + [] == r.inputIds;
      }
    }

    /** A request has gone, together with the prompt it belongs to or from among the running ones. */
    twostate lemma AbortStep(gone: set<Req>, new at: nat)
      requires old(AtRest(None)) && Standing(cacheManager, tableManager, live, kv) && LogOk() && !cacheManager.lazyRegion
      requires unchanged(tableManager.tokenPool) && unchanged(this`finishedReqs) && live == old(live) - gone
      requires forall q :: q in live ==>
        && q.tok == old(q.tok) && q.cachedLen == old(q.cachedLen) && q.deviceLen == old(q.deviceLen)
        && q.alloc == old(q.alloc) && q.cuts == old(q.cuts) && q.inputIds == old(q.inputIds) && q.replies == old(q.replies)
      requires at <= |old(prefillManager.pendingList)|
      requires prefillManager.pendingList ==
        if at < |old(prefillManager.pendingList)| then old(prefillManager.pendingList)[..at] + old(prefillManager.pendingList)[at + 1..]
        else old(prefillManager.pendingList)
      requires decodeManager.runningReqs == old(decodeManager.runningReqs) - gone
      requires forall r :: r in gone && r.chunked ==> at == 0 && old(prefillManager.pendingList) != []
      requires at < |old(prefillManager.pendingList)| ==> Carried(old(prefillManager.pendingList)[at]) <= gone
      ensures AtRest(None)
    {
      hide Standing, Plausible, LogOk, Spoken, DivCeil, Chained, NoDup;
      forall q | q in live ensures Done(q, cacheManager, tableManager) {
        assert old(Done(q, cacheManager, tableManager));
      }
      AbortPending(gone, at);
    }

    twostate lemma AbortPending(gone: set<Req>, new at: nat)
      requires old(PendingOk(prefillManager.pendingList, live, maxSeqLen)) && live == old(live) - gone
      requires forall q :: q in live ==> q.tok == old(q.tok)
      requires at <= |old(prefillManager.pendingList)|
      requires prefillManager.pendingList ==
        if at < |old(prefillManager.pendingList)| then old(prefillManager.pendingList)[..at] + old(prefillManager.pendingList)[at + 1..]
        else old(prefillManager.pendingList)
      requires forall r :: r in gone && r.chunked ==> at == 0 && old(prefillManager.pendingList) != []
      requires at < |old(prefillManager.pendingList)| ==> Carried(old(prefillManager.pendingList)[at]) <= gone
      ensures PendingOk(prefillManager.pendingList, live, maxSeqLen)
    {
      hide Plausible;
      var before := old(prefillManager.pendingList);
      if before != [] && before[0].chunkedReq != null {
        assert old(ChunkOf(before[0], before[0].chunkedReq));
      }
    }

    /** Takes a request off the list of prompts, or else out of those that run. */
    method TakeOut(uid: int) returns (req: Req?, ghost gone: set<Req>, ghost at: nat)
      requires AtRest(None)
      modifies prefillManager`pendingList, decodeManager`runningReqs
      ensures Standing(cacheManager, tableManager, live, kv) && LogOk() && !cacheManager.lazyRegion
      ensures gone == (if req == null then {} else {req}) && decodeManager.runningReqs == old(decodeManager.runningReqs) - gone
      ensures req != null ==> req in live && req.uid == uid && Done(req, cacheManager, tableManager) && cacheManager.HostKnows(req)
      ensures at <= |old(prefillManager.pendingList)|
      ensures prefillManager.pendingList ==
        if at < |old(prefillManager.pendingList)| then old(prefillManager.pendingList)[..at] + old(prefillManager.pendingList)[at + 1..]
        else old(prefillManager.pendingList)
      ensures forall r :: r in gone && r.chunked ==> at == 0 && old(prefillManager.pendingList) != []
      ensures at < |old(prefillManager.pendingList)| ==> Carried(old(prefillManager.pendingList)[at]) <= gone
      ensures Aborted(uid, gone)
    {
      hide Standing, Done, CacheManager.HostKnows, LogOk, AtRest, NoDup, FirstWith;
      AbortFacts();
      req, at := prefillManager.AbortReq(uid);
      if req == null {
        req := decodeManager.AbortReq(uid);
      }
      OneFirst(old(prefillManager.pendingList), uid, at);
      gone := if req == null then {} else {req};
    }

    /** Only while no batch is in flight. */
    method Abort(uid: int) returns (ghost gone: set<Req>)
      requires AtRest(None)
      modifies this`live, this`released, prefillManager`pendingList, decodeManager`runningReqs, tableManager`freeSlots, live`cacheHandle
      modifies cacheManager`freeSlots, cacheManager`lazyList
      modifies cacheManager.prefixCache`nodes, cacheManager.prefixCache`view, cacheManager.prefixCache`locks
      modifies cacheManager.prefixCache`evictableSize, cacheManager.prefixCache`protectedSize
      modifies cacheManager.prefixCache.nodes`key, cacheManager.prefixCache.nodes`value, cacheManager.prefixCache.nodes`parent
      modifies cacheManager.prefixCache.nodes`children, cacheManager.prefixCache.nodes`timestamp, cacheManager.prefixCache.nodes`refCount
      ensures AtRest(None)
      ensures fresh(cacheManager.prefixCache.nodes - old(cacheManager.prefixCache.nodes))
      ensures live == old(live) - gone && (gone == {} ==> released == old(released))
      ensures forall r :: r in gone ==> gone == {r} && r in old(live) && r.uid == uid && released == old(released) + [r]
      ensures forall r :: r in gone ==> tableManager.freeSlots == old(tableManager.freeSlots) + [r.tableIdx]
      ensures Aborted(uid, gone)
    {
      hide Standing, Done, CacheManager.HostKnows, LogOk, AtRest, NoDup, Carried, Aborted;
      ghost var at;
      var reqToFree;
      reqToFree, gone, at := TakeOut(uid);
      if reqToFree != null {
        FreeReqResources(reqToFree);
      }
      AbortStep(gone, at);
    }

    // ---- the loops ----

    lemma FlownAlone(data: ForwardData)
      requires Flown(None, data)
      ensures Orderly() && !cacheManager.lazyRegion && Speech(data, 0, None) && Flights(data, 0, None, {})
    {
      hide Orderly, DueFrom, Spoken, NoDup, Standing;
      OrderlyFacts();
      assert data.batch.reqs[0..] == data.batch.reqs;
      forall r | r in live ensures Spoken(r, DueFrom(data, 0, r) + Due(None, r), eosTokenId) {
        assert Spoken(r, Due(None, r) + DueFrom(data, 0, r), eosTokenId);
        assert [] + DueFrom(data, 0, r) == DueFrom(data, 0, r) + [];
      }
    }

    lemma FlownBehind(last: ForwardData, data: ForwardData)
      requires Flown(Some(last), data)
      requires data.batch.isPrefill ==> forall r :: r in data.batch.reqs ==> r !in last.batch.reqs
      ensures Orderly() && !cacheManager.lazyRegion && Speech(last, 0, Some(data)) && Flights(last, 0, Some(data), {})
    {
      hide Orderly, DueFrom, Spoken, NoDup, Standing;
      OrderlyFacts();
      assert last.batch.reqs[0..] == last.batch.reqs;
      forall r | r in live ensures Spoken(r, DueFrom(last, 0, r) + Due(Some(data), r), eosTokenId) {
        assert Spoken(r, Due(Some(last), r) + DueFrom(data, 0, r), eosTokenId);
      }
    }

    lemma FlownFirst(data: ForwardData)
      requires Flown(None, data)
      ensures AtRest(Some(data))
    {
      hide Orderly, DueFrom, Spoken, NoDup, Standing;
      OrderlyFacts();
      forall r | r in live ensures Spoken(r, Due(Some(data), r), eosTokenId) {
        assert Spoken(r, Due(None, r) + DueFrom(data, 0, r), eosTokenId);
        assert [] + DueFrom(data, 0, r) == DueFrom(data, 0, r);
      }
    }

    lemma RestBehind(last: ForwardData)
      requires AtRest(Some(last))
      ensures Orderly() && !cacheManager.lazyRegion && Speech(last, 0, None) && Flights(last, 0, None, {})
    {
      hide Orderly, DueFrom, Spoken;
      assert last.batch.reqs[0..] == last.batch.reqs;
      forall r | r in live ensures Spoken(r, DueFrom(last, 0, r) + Due(None, r), eosTokenId) {
        assert Spoken(r, Due(Some(last), r), eosTokenId);
        assert DueFrom(last, 0, r) + [] == DueFrom(last, 0, r);
      }
    }

    /** Chooses a batch and gives it its pages. */
    method ScheduleNextBatch(ghost last: Option<ForwardData>) returns (ok: bool, input: Option<ForwardInput>, ghost los: seq<nat>)
      requires Wires() && AtRest(last)
      modifies this`live, prefillManager`pendingList, cacheManager`freeSlots
      modifies cacheManager.prefixCache`nodes, cacheManager.prefixCache`view, cacheManager.prefixCache`locks
      modifies cacheManager.prefixCache`evictableSize, cacheManager.prefixCache`protectedSize
      modifies cacheManager.prefixCache.nodes`key, cacheManager.prefixCache.nodes`value, cacheManager.prefixCache.nodes`parent
      modifies cacheManager.prefixCache.nodes`children, cacheManager.prefixCache.nodes`timestamp, cacheManager.prefixCache.nodes`refCount
      modifies tableManager`freeSlots, cacheManager.pageTable, tableManager.tokenPool, live`alloc
      ensures EstimateCovers(cacheManager.pageSize) ==> ok
      ensures fresh(cacheManager.prefixCache.nodes - old(cacheManager.prefixCache.nodes)) && fresh(live - old(live))
      ensures ok && input.None? ==>
        && AtRest(last) && decodeManager.runningReqs == {} && live == old(live) && prefillManager.pendingList == old(prefillManager.pendingList)
        && (last.None? ==> prefillManager.pendingList == [])
      ensures ok && !(input.Some? && input.value.batch.isPrefill) ==> HeadTurnedAway(old(prefillManager.pendingList))
      ensures ok && input.Some? ==>
        var batch := input.value.batch;
        && Manned(batch.reqs, last) && Laden(batch.reqs) && InputOk(input.value)
        && Elements(batch.reqs) <= live && (batch.isPrefill ==> fresh(Elements(batch.reqs)))
        && Chosen(batch, los, old(prefillManager.pendingList), old(live), old(cacheManager.prefixCache.view))
    {
      hide AtRest, Manned, Laden, Statuses, InputOk, Standing, Ground, StartsAt, Due, Spoken, Flight, PendingOk, LogOk;
      hide Plausible, RunningOk, Chosen, Stopped, Extends, Wires, PagesNeeded, Available, CacheManager.StoreOf;
      hide DecodeManager.Inflight, HeadTurnedAway;
      ghost var pending, view := prefillManager.pendingList, cacheManager.prefixCache.view;
      var batch;
      batch, los := PickBatch(last);
      ok, input := true, None;
      if batch.Some? {
        var prepared;
        assert forall r :: r in Elements(batch.value.reqs) ==> r in old(live) || fresh(r);
        label picked:
        ok, prepared := PrepareBatch(batch.value, last);
        ChosenStays@picked(batch.value, los, pending, old(live), view);
        input := Some(prepared);
      }
    }

    /** The tokens still to be computed or sampled. */
    ghost function Outstanding(): int
      reads prefillManager`pendingList, (set r | r in CarriedFirst(prefillManager.pendingList) :: r)`cachedLen
      reads decodeManager`runningReqs, decodeManager.runningReqs`deviceLen
    {
      PendingWork(prefillManager.pendingList) + Total(Remains(decodeManager.runningReqs))
    }

    ghost function AccountsWith(waiting: seq<PendingReq>, live: set<Req>, released: seq<Req>): multiset<Ticket>
    {
      Waiting(waiting) + Seats(live) + Gone(released)
    }

    /** Everybody who has been accepted, whatever has become of him. */
    ghost function Accounts(): multiset<Ticket>
      reads prefillManager`pendingList, this`live, this`released
    {
      Waiting(prefillManager.pendingList) + Seats(live) + Gone(released)
    }

    /** Runs a prepared batch and processes it at once. */
    method RunNow(input: ForwardInput) returns (replies: seq<Reply>, ghost data: ForwardData)
      requires Manned(input.batch.reqs, None) && Laden(input.batch.reqs) && InputOk(input)
      modifies this`kv, tableManager.tokenPool, decodeManager`runningReqs
      modifies Elements(input.batch.reqs)
      modifies this`live, this`released, this`finishedReqs, tableManager`freeSlots
      modifies cacheManager`freeSlots, cacheManager`lazyList, cacheManager`lazyRegion
      modifies cacheManager.prefixCache`nodes, cacheManager.prefixCache`view, cacheManager.prefixCache`locks
      modifies cacheManager.prefixCache`evictableSize, cacheManager.prefixCache`protectedSize
      modifies cacheManager.prefixCache.nodes`key, cacheManager.prefixCache.nodes`value, cacheManager.prefixCache.nodes`parent
      modifies cacheManager.prefixCache.nodes`children, cacheManager.prefixCache.nodes`timestamp, cacheManager.prefixCache.nodes`refCount
      ensures AtRest(None) && LeftSince(old(live), old(released)) && live <= old(live)
      ensures fresh(cacheManager.prefixCache.nodes - old(cacheManager.prefixCache.nodes))
      ensures forall r :: r in input.batch.reqs ==> r.cachedLen == old(r.deviceLen) && r.deviceLen == old(r.deviceLen) + 1
      ensures forall r :: r in decodeManager.runningReqs ==>
        !r.chunked && (r in old(decodeManager.runningReqs) || r in input.batch.reqs)
      ensures old(released) <= released && forall r :: r in released[|old(released)|..] ==> Finished(r, eosTokenId)
      ensures data.batch == input.batch && Grew(input.batch.reqs, old(LengthsOf(input.batch.reqs)))
      ensures Logged(data, |data.batch.reqs|, old(LogsOf(input.batch.reqs)), replies, eosTokenId)
    {
      hide AtRest, Manned, Laden, InputOk, Flown, Orderly, Speech, Flights, Finished, RowsRight, BatchTokens, BatchLabels;
      hide StoredAt, Replied, Logged, LogsOf, Grew, LengthsOf, KeptBehind, SlotsOf, Answers, AnswerOf;
      var computed, inputIds := Forward(input, None);
      data := computed;
      assert LogsOf(input.batch.reqs) == old(LogsOf(input.batch.reqs));
      FlownAlone(computed);
      replies := ProcessLastData(computed, None);
      assert forall r :: r in released[|old(released)|..] ==> r in Elements(released[|old(released)|..]);
      LogFacts(None);
      GrewNow(input.batch.reqs);
    }

    twostate lemma GrewNow(reqs: seq<Req>)
      requires forall r :: r in reqs ==> r.cachedLen == old(r.deviceLen) && r.deviceLen == old(r.deviceLen) + 1
      ensures Grew(reqs, old(LengthsOf(reqs)))
    {
      assert forall j :: 0 <= j < |reqs| ==> reqs[j] in reqs;
    }

    /** Who is no longer live has been entered in the log, once. */
    ghost predicate LeftSince(live0: set<Req>, released0: seq<Req>)
      reads this`live, this`released
    {
      && released0 <= released && NoDup(released) && (forall r :: r in released ==> r !in live)
      && live == live0 - Elements(released[|released0|..]) && Elements(released[|released0|..]) <= live0
    }

    lemma LeftWereLive(live0: set<Req>, released0: seq<Req>)
      requires LeftSince(live0, released0)
      ensures forall r :: r in released[|released0|..] ==> r in live0
    {
      assert forall r :: r in released[|released0|..] ==> r in Elements(released[|released0|..]);
    }

    lemma LogFacts(last: Option<ForwardData>)
      requires AtRest(last)
      ensures NoDup(released) && forall r :: r in released ==> r !in live
    {
      hide Standing, NoDup;
    }

    /** Choosing a batch loses no ticket. */
    twostate lemma ChosenAccounts(new batch: Batch, new los: seq<nat>, new view0: View)
      requires Chosen(batch, los, old(prefillManager.pendingList), old(live), view0)
      requires batch.isPrefill ==> forall r :: r in batch.reqs ==> r !in old(live)
      requires forall r :: r in CarriedFirst(old(prefillManager.pendingList)) ==> r.chunked
      ensures Waiting(prefillManager.pendingList) + Seats(live) == Waiting(old(prefillManager.pendingList)) + Seats(old(live))
    {
      hide Waiting, Seats, Named, NoDup, Dealt, Rest, Extends, StartsAt;
      if batch.isPrefill {
        var pending, reqs := old(prefillManager.pendingList), batch.reqs;
        DealtFacts(pending, reqs, los, prefillBudget);
        PartsNamed(pending, reqs, los, prefillBudget);
        OnlyLastChunked(pending, reqs, los, prefillBudget);
        BatchKeepsTickets(pending, reqs, old(live), live);
      }
    }

    lemma TicketsLeave(live0: set<Req>, released0: seq<Req>)
      requires LeftSince(live0, released0)
      ensures Seats(live0) + Gone(released0) == Seats(live) + Gone(released)
    {
      hide Seats, Gone;
      var gone := released[|released0|..];
      assert released == released0 + gone;
      NoDupTail(released, |released0|);
      SeatsLeft(live0, gone);
      GoneConcat(released0, gone);
      assert (Seats(live) + Gone(gone)) + Gone(released0) == Seats(live) + (Gone(released0) + Gone(gone));
    }

    twostate lemma HeadStartFirst(pending: seq<PendingReq>, new los: seq<nat>, new view: View, new ps: int)
      requires old(StartsAt(pending, los, view, ps)) && los != []
      ensures old(HeadStart(pending)) <= los[0]
    {
    }

    /** Running the batch that has been chosen from `pending` leaves less to do. */
    twostate lemma Progressed(new batch: Batch, new los: seq<nat>, new pending: seq<PendingReq>, new live0: set<Req>,
                              new view0: View)
      requires old(allocated(batch)) && old(allocated(pending)) && old(allocated(live0))
      requires old(Chosen(batch, los, pending, live0, view0)) && prefillManager.pendingList == old(prefillManager.pendingList)
      requires forall r :: r in batch.reqs ==> r.cachedLen == old(r.deviceLen) && r.deviceLen == old(r.deviceLen) + 1
      requires forall r :: r in old(decodeManager.runningReqs) ==> old(r.RemainLen()) > 0
      requires batch.isPrefill ==> forall r :: r in old(decodeManager.runningReqs) ==>
        r !in batch.reqs && r.deviceLen == old(r.deviceLen)
      requires !batch.isPrefill ==> forall r :: r in CarriedFirst(pending) ==> r.cachedLen == old(r.cachedLen)
      requires forall r :: r in decodeManager.runningReqs ==> !r.chunked && (r in old(decodeManager.runningReqs) || r in batch.reqs)
      ensures Outstanding() < old(PendingWork(pending) + Total(Remains(decodeManager.runningReqs)))
    {
      hide StartsAt, Dealt, Rest, Extends, WholeWork, Total, Remains, SortedByUid;
      var running := old(decodeManager.runningReqs);
      if batch.isPrefill {
        OldFacts(pending, batch.reqs, los, prefillBudget);
        HeadStartFirst(pending, los, view0, cacheManager.pageSize);
        PrefillProgress(pending, batch.reqs, los, prefillBudget, old(HeadStart(pending)), running, decodeManager.runningReqs);
      } else {
        assert forall r :: r in batch.reqs ==> r in Elements(batch.reqs);
        DecodeProgress(batch.reqs, running, decodeManager.runningReqs);
      }
    }

    lemma RunningFacts(last: Option<ForwardData>)
      requires AtRest(last)
      ensures forall r :: r in decodeManager.runningReqs ==> r in live && !r.chunked && r.RemainLen() > 0
      ensures forall r :: r in CarriedFirst(prefillManager.pendingList) ==> r.chunked && r in live
    {
      hide Standing, Due, Spoken, Flight, Done;
    }

    /** A batch has been chosen from `pending` and prepared. */
    ghost predicate Startable(input: ForwardInput, last: Option<ForwardData>, los: seq<nat>, pending: seq<PendingReq>,
                              live0: set<Req>, view0: View)
      reads this, cacheManager, cacheManager.prefixCache, cacheManager.prefixCache.nodes, cacheManager.pageTable
      reads tableManager, tableManager.tokenPool, decodeManager, prefillManager, live, Elements(input.batch.reqs)
      reads set p | p in pending && p.chunkedReq != null :: p.chunkedReq`cachedLen
    {
      && Manned(input.batch.reqs, last) && Laden(input.batch.reqs) && InputOk(input)
      && Chosen(input.batch, los, pending, live0, view0)
      && if input.batch.isPrefill then forall r :: r in decodeManager.runningReqs ==> r !in input.batch.reqs
      else forall r :: r in CarriedFirst(pending) ==> r !in input.batch.reqs
    }

    lemma StartFacts(input: ForwardInput, last: Option<ForwardData>, los: seq<nat>, pending: seq<PendingReq>, live0: set<Req>,
                     view0: View)
      requires Startable(input, last, los, pending, live0, view0)
      ensures Manned(input.batch.reqs, last) && Laden(input.batch.reqs) && InputOk(input)
    {
      hide Manned, Laden, InputOk, Chosen;
    }

    /** Runs the batch that has been chosen from `pending`, and processes it at once. */
    method RunChosen(input: ForwardInput, ghost los: seq<nat>, ghost pending: seq<PendingReq>, ghost live0: set<Req>,
                     ghost view0: View)
      returns (replies: seq<Reply>, ghost data: ForwardData)
      requires Startable(input, None, los, pending, live0, view0)
      modifies this`kv, tableManager.tokenPool, decodeManager`runningReqs
      modifies Elements(input.batch.reqs)
      modifies this`live, this`released, this`finishedReqs, tableManager`freeSlots
      modifies cacheManager`freeSlots, cacheManager`lazyList, cacheManager`lazyRegion
      modifies cacheManager.prefixCache`nodes, cacheManager.prefixCache`view, cacheManager.prefixCache`locks
      modifies cacheManager.prefixCache`evictableSize, cacheManager.prefixCache`protectedSize
      modifies cacheManager.prefixCache.nodes`key, cacheManager.prefixCache.nodes`value, cacheManager.prefixCache.nodes`parent
      modifies cacheManager.prefixCache.nodes`children, cacheManager.prefixCache.nodes`timestamp, cacheManager.prefixCache.nodes`refCount
      ensures AtRest(None) && Accounts() == old(Accounts())
      ensures Outstanding() < old(PendingWork(pending) + Total(Remains(decodeManager.runningReqs)))
      ensures fresh(cacheManager.prefixCache.nodes - old(cacheManager.prefixCache.nodes)) && live <= old(live)
      ensures old(released) <= released && forall r :: r in released[|old(released)|..] ==> Finished(r, eosTokenId)
      ensures data.batch == input.batch && Grew(input.batch.reqs, old(LengthsOf(input.batch.reqs)))
      ensures Logged(data, |data.batch.reqs|, old(LogsOf(input.batch.reqs)), replies, eosTokenId)
      ensures LeftSince(old(live), old(released))
    {
      hide AtRest, Manned, Laden, InputOk, Chosen, Finished, PendingWork, Total, Remains, Waiting, Seats, Gone, LeftSince;
      hide Logged, Grew, LogsOf, LengthsOf;
      MannedRunning(input.batch.reqs, None);
      replies, data := RunNow(input);
      TicketsLeave(old(live), old(released));
      SameSum(Waiting(prefillManager.pendingList), Seats(old(live)), Gone(old(released)), Seats(live), Gone(released));
      Progressed(input.batch, los, pending, live0, view0);
    }

    lemma MannedRunning(reqs: seq<Req>, last: Option<ForwardData>)
      requires Manned(reqs, last)
      ensures forall r :: r in decodeManager.runningReqs ==> r in live && !r.chunked && r.RemainLen() > 0
    {
      hide Ground, NoDup, Due, Spoken, Flight, PendingOk;
    }

    lemma ChosenSome(batch: Batch, los: seq<nat>, pending: seq<PendingReq>, live0: set<Req>, view0: View)
      requires Chosen(batch, los, pending, live0, view0)
      ensures pending != [] || decodeManager.runningReqs != {}
    {
    }

    lemma ChosenDistinct(batch: Batch, los: seq<nat>, pending: seq<PendingReq>, live0: set<Req>, view0: View)
      requires Chosen(batch, los, pending, live0, view0) && !batch.isPrefill
      requires forall r :: r in decodeManager.runningReqs ==> !r.chunked
      requires forall r :: r in CarriedFirst(pending) ==> r.chunked
      ensures forall r :: r in CarriedFirst(pending) ==> r !in batch.reqs
    {
      assert forall r :: r in batch.reqs ==> r in Elements(batch.reqs);
    }

    lemma ChosenFacts(batch: Batch, los: seq<nat>, pending: seq<PendingReq>, live0: set<Req>, view0: View)
      requires Chosen(batch, los, pending, live0, view0)
      ensures
        if batch.isPrefill then
          && |batch.reqs| <= |pending| && prefillManager.pendingList == Rest(pending, batch.reqs)
          && (forall r :: r in batch.reqs ==> r.replies == []) && live == live0 - CarriedFirst(pending) + Elements(batch.reqs)
        else
          && Elements(batch.reqs) == decodeManager.runningReqs && SortedByUid(batch.reqs) && prefillManager.pendingList == pending
          && live == live0
    {
    }

    /** Which batch has been run: the first prompts that waited, or else every running request by one token. */
    twostate predicate Ran(running: set<Req>, new waiting: seq<PendingReq>, new batch: Batch)
      reads prefillManager`pendingList, running`cachedLen, running`deviceLen
    {
      && NoDup(batch.reqs)
      && if batch.isPrefill then
        && (forall r :: r in batch.reqs ==> r !in old(live))
        && |batch.reqs| <= |waiting| && prefillManager.pendingList == Rest(waiting, batch.reqs)
        && forall r :: r in running ==> r.cachedLen == old(r.cachedLen) && r.deviceLen == old(r.deviceLen)
      else
        && Elements(batch.reqs) == running && SortedByUid(batch.reqs)
        && prefillManager.pendingList == waiting
        && forall r :: r in running ==> r.cachedLen == old(r.deviceLen) && r.deviceLen == old(r.deviceLen) + 1
    }

    /** The log of everybody who was live has grown by his answer in the batch, and nobody else's. */
    twostate predicate Told(new data: ForwardData)
      reads *
    {
      && |data.nextTokens| == |data.batch.reqs|
      && (forall r :: r in old(live) && r !in data.batch.reqs ==> r.replies == old(r.replies))
      && forall j :: 0 <= j < |data.batch.reqs| ==>
        var r := data.batch.reqs[j];
        r.replies == (if r in old(live) then old(r.replies) else []) + AnswerOf(data, j, eosTokenId)
    }

    /** Nobody comes but with the batch, and nobody goes but into the log; a chunk makes room for the next part of its prompt. */
    twostate predicate Crew(new reqs: seq<Req>)
      reads this`live, this`released
    {
      && old(released) <= released
      && (forall r :: r in live ==> r in old(live) || r in reqs)
      && (forall r :: r in released[|old(released)|..] ==> r in old(live) || r in reqs)
      && (forall r :: r in old(live) && !r.chunked ==> r in live || r in released[|old(released)|..])
      && forall r :: r in reqs && !r.chunked ==> r in live || r in released[|old(released)|..]
    }

    /** A batch has been picked; these are the logs and the lengths of its requests, and all who are live then. */
    twostate predicate Picked(new batch: Batch, new logs: seq<seq<Reply>>, new lengths: seq<nat>, new live1: set<Req>)
      reads prefillManager`pendingList
    {
      && |logs| == |lengths| == |batch.reqs| && NoDup(batch.reqs)
      && (forall r :: r in live1 ==> r in old(live) || r in batch.reqs)
      && (forall r :: r in batch.reqs ==> r in live1) && (forall r :: r in old(live) && !r.chunked ==> r in live1)
      && (forall j :: 0 <= j < |batch.reqs| ==>
            var r := batch.reqs[j];
            if r in old(live) then logs[j] == old(r.replies) && lengths[j] == old(r.deviceLen) else logs[j] == [])
      && if batch.isPrefill then
        && (forall r :: r in batch.reqs ==> r !in old(live))
        && |batch.reqs| <= |old(prefillManager.pendingList)|
        && prefillManager.pendingList == Rest(old(prefillManager.pendingList), batch.reqs)
      else
        && Elements(batch.reqs) == old(decodeManager.runningReqs) && SortedByUid(batch.reqs)
        && prefillManager.pendingList == old(prefillManager.pendingList)
    }

    twostate lemma PickedNow(new batch: Batch, new los: seq<nat>, new view0: View)
      requires Chosen(batch, los, old(prefillManager.pendingList), old(live), view0)
      requires batch.isPrefill ==> forall r :: r in batch.reqs ==> r !in old(live)
      requires NoDup(batch.reqs) && Elements(batch.reqs) <= live
      requires forall r :: r in CarriedFirst(old(prefillManager.pendingList)) ==> r.chunked
      requires decodeManager.runningReqs == old(decodeManager.runningReqs) && forall r :: r in decodeManager.runningReqs ==> r in old(live)
      requires forall r :: r in old(live) ==> r.replies == old(r.replies) && r.deviceLen == old(r.deviceLen)
      ensures Picked(batch, LogsOf(batch.reqs), LengthsOf(batch.reqs), live)
    {
      hide SortedByUid, Rest, NoDup, CarriedFirst;
      ChosenFacts(batch, los, old(prefillManager.pendingList), old(live), view0);
      forall j | 0 <= j < |batch.reqs| ensures batch.reqs[j] in batch.reqs && batch.reqs[j] in Elements(batch.reqs) {
      }
    }

    twostate lemma CrewNow(new reqs: seq<Req>, new live1: set<Req>)
      requires LeftSince(live1, old(released))
      requires forall r :: r in live1 ==> r in old(live) || r in reqs
      requires (forall r :: r in reqs ==> r in live1) && forall r :: r in old(live) && !r.chunked ==> r in live1
      ensures Crew(reqs)
    {
      LeftWereLive(live1, old(released));
    }

    twostate lemma RanNow(new batch: Batch, new logs: seq<seq<Reply>>, new lengths: seq<nat>, new live1: set<Req>)
      requires Picked(batch, logs, lengths, live1) && Grew(batch.reqs, lengths)
      requires forall r :: r in old(live) && r !in batch.reqs ==> r.cachedLen == old(r.cachedLen) && r.deviceLen == old(r.deviceLen)
      requires forall r :: r in old(decodeManager.runningReqs) ==> r in old(live)
      ensures Ran(old(decodeManager.runningReqs), old(prefillManager.pendingList), batch)
    {
      hide SortedByUid, Rest, NoDup;
      if !batch.isPrefill {
        forall r | r in old(decodeManager.runningReqs)
          ensures r.cachedLen == old(r.deviceLen) && r.deviceLen == old(r.deviceLen) + 1
        {
          assert r in Elements(batch.reqs);
          var j :| 0 <= j < |batch.reqs| && batch.reqs[j] == r;
        }
      }
    }

    twostate lemma TurnedNow(new data: ForwardData, new logs: seq<seq<Reply>>, new lengths: seq<nat>, new live1: set<Req>,
                             new replies: seq<Reply>)
      requires Picked(data.batch, logs, lengths, live1) && Grew(data.batch.reqs, lengths) && LeftSince(live1, old(released))
      requires Logged(data, |data.batch.reqs|, logs, replies, eosTokenId)
      requires forall r :: r in old(live) && r !in data.batch.reqs ==>
        r.replies == old(r.replies) && r.cachedLen == old(r.cachedLen) && r.deviceLen == old(r.deviceLen)
      requires forall r :: r in old(decodeManager.runningReqs) ==> r in old(live)
      ensures Turned(Some(data), replies)
    {
      hide SortedByUid, Rest, AnswerOf, Answers, LeftSince, Crew, NoDup, Ran;
      CrewNow(data.batch.reqs, live1);
      RanNow(data.batch, logs, lengths, live1);
    }

    /** What a turn of the plain loop does, and what it sends. */
    twostate predicate Turned(new run: Option<ForwardData>, new replies: seq<Reply>)
      reads *
    {
      if run.None? then replies == [] && live == old(live) && released == old(released)
      else
        && Ran(old(decodeManager.runningReqs), old(prefillManager.pendingList), run.value.batch)
        && Told(run.value) && Crew(run.value.batch.reqs)
        && replies == Answers(run.value, |run.value.batch.reqs|, eosTokenId)
    }

    twostate lemma NothingTurned()
      requires live == old(live) && released == old(released)
      ensures Turned(None, [])
    {
    }

    lemma MannedDistinct(reqs: seq<Req>, last: Option<ForwardData>)
      requires Manned(reqs, last)
      ensures NoDup(reqs)
    {
      hide Ground, NoDup, Due, Spoken, Flight, PendingOk;
    }

    /** Chooses and prepares the batch of a turn. */
    method StartTurn(ghost last: Option<ForwardData>) returns (ok: bool, input: Option<ForwardInput>, ghost los: seq<nat>)
      requires Wires() && AtRest(last)
      modifies this`live, prefillManager`pendingList, cacheManager`freeSlots
      modifies cacheManager.prefixCache`nodes, cacheManager.prefixCache`view, cacheManager.prefixCache`locks
      modifies cacheManager.prefixCache`evictableSize, cacheManager.prefixCache`protectedSize
      modifies cacheManager.prefixCache.nodes`key, cacheManager.prefixCache.nodes`value, cacheManager.prefixCache.nodes`parent
      modifies cacheManager.prefixCache.nodes`children, cacheManager.prefixCache.nodes`timestamp, cacheManager.prefixCache.nodes`refCount
      modifies tableManager`freeSlots, cacheManager.pageTable, tableManager.tokenPool, live`alloc
      ensures EstimateCovers(cacheManager.pageSize) ==> ok
      ensures fresh(cacheManager.prefixCache.nodes - old(cacheManager.prefixCache.nodes)) && fresh(live - old(live))
      ensures ok && input.None? ==>
        && AtRest(last) && live == old(live) && released == old(released) && old(prefillManager.pendingList) == prefillManager.pendingList
        && (last.None? ==> prefillManager.pendingList == []) && decodeManager.runningReqs == {}
      ensures ok && !(input.Some? && input.value.batch.isPrefill) ==> HeadTurnedAway(old(prefillManager.pendingList))
      ensures ok && input.Some? ==>
        && Startable(input.value, last, los, old(prefillManager.pendingList), old(live), old(cacheManager.prefixCache.view))
        && Picked(input.value.batch, LogsOf(input.value.batch.reqs), LengthsOf(input.value.batch.reqs), live)
      ensures ok && input.Some? ==>
        && (old(prefillManager.pendingList) != [] || decodeManager.runningReqs != {})
        && (forall r :: r in input.value.batch.reqs ==> r in old(live) || fresh(r))
        && (input.value.batch.isPrefill ==> fresh(Elements(input.value.batch.reqs)))
        && (forall r :: r in decodeManager.runningReqs ==> r in old(live))
      ensures ok ==> Accounts() == old(Accounts())
      ensures ok && input.Some? ==>
        old(Outstanding()) == PendingWork(old(prefillManager.pendingList)) + Total(Remains(decodeManager.runningReqs))
    {
      hide AtRest, Manned, Laden, InputOk, Total, Chosen, Remains, Waiting, Seats, Gone, WholeWork, HeadStart, Wires;
      hide HeadTurnedAway, Picked, LogsOf, LengthsOf, NoDup;
      ghost var pending, view := prefillManager.pendingList, cacheManager.prefixCache.view;
      RunningFacts(last);
      ok, input, los := ScheduleNextBatch(last);
      if ok && input.Some? {
        ghost var batch := input.value.batch;
        assert forall r :: r in batch.reqs ==> r in Elements(batch.reqs);
        ChosenAccounts(batch, los, view);
        ChosenSome(batch, los, pending, old(live), view);
        if !batch.isPrefill { ChosenDistinct(batch, los, pending, old(live), view); }
        assert old(Outstanding()) == PendingWork(pending) + Total(Remains(decodeManager.runningReqs));
        MannedDistinct(batch.reqs, last);
        PickedNow(batch, los, view);
      }
    }

    /** One turn of the plain loop, without the messages: choose, prepare, run, process. */
    method NormalStep() returns (ok: bool, ran: bool, replies: seq<Reply>, ghost run: Option<ForwardData>)
      requires Wires() && AtRest(None)
      modifies this`live, this`kv, this`released, this`finishedReqs, prefillManager`pendingList, decodeManager`runningReqs
      modifies tableManager`freeSlots, tableManager.tokenPool, cacheManager.pageTable, live
      modifies cacheManager`freeSlots, cacheManager`lazyList, cacheManager`lazyRegion
      modifies cacheManager.prefixCache`nodes, cacheManager.prefixCache`view, cacheManager.prefixCache`locks
      modifies cacheManager.prefixCache`evictableSize, cacheManager.prefixCache`protectedSize
      modifies cacheManager.prefixCache.nodes`key, cacheManager.prefixCache.nodes`value, cacheManager.prefixCache.nodes`parent
      modifies cacheManager.prefixCache.nodes`children, cacheManager.prefixCache.nodes`timestamp, cacheManager.prefixCache.nodes`refCount
      ensures EstimateCovers(cacheManager.pageSize) ==> ok
      ensures ok ==> AtRest(None)
      ensures ok ==> (ran <==> old(prefillManager.pendingList) != [] || old(decodeManager.runningReqs) != {})
      ensures ok && !(run.Some? && run.value.batch.isPrefill) ==> HeadTurnedAway(old(prefillManager.pendingList))
      ensures ok ==> ran == run.Some? && Turned(run, replies)
      ensures ok && ran ==> Outstanding() < old(Outstanding())
      ensures ok ==> Accounts() == old(Accounts())
      ensures ok ==> old(released) <= released && forall r :: r in released[|old(released)|..] ==> Finished(r, eosTokenId)
      ensures ok && ran ==> forall r :: r in run.value.batch.reqs ==> r in old(live) || fresh(r)
      ensures fresh(cacheManager.prefixCache.nodes - old(cacheManager.prefixCache.nodes)) && fresh(live - old(live))
    {
      hide AtRest, Finished, Total, Remains, WholeWork, HeadStart, Wires, Accounts, PendingWork, CarriedFirst;
      hide HeadTurnedAway, Turned, Picked, Grew, Logged, LogsOf, LengthsOf, Startable, LeftSince;
      replies, ran, run := [], false, None;
      ghost var pending, view, los := prefillManager.pendingList, cacheManager.prefixCache.view, [];
      var input;
      ok, input, los := StartTurn(None);
      if !ok || input.None? {
        if ok { NothingTurned(); }
        return;
      }
      ran := true;
      ghost var batch := input.value.batch;
      ghost var data, logs, lengths, live1 := ForwardData(batch, []), LogsOf(batch.reqs), LengthsOf(batch.reqs), live;
      replies, data := RunChosen(input.value, los, pending, old(live), view);
      run := Some(data);
      TurnedNow(data, logs, lengths, live1, replies);
    }

    /** Messages may come in nested batches; aborts only while no batch is in flight. */
    method ProcessOneMsg(msg: Msg, ghost last: Option<ForwardData>)
      requires AtRest(last) && Proper(msg) && (last.None? || NoAbort(msg))
      modifies this`live, this`released, prefillManager`pendingList, decodeManager`runningReqs, tableManager`freeSlots, live`cacheHandle
      modifies cacheManager`freeSlots, cacheManager`lazyList
      modifies cacheManager.prefixCache`nodes, cacheManager.prefixCache`view, cacheManager.prefixCache`locks
      modifies cacheManager.prefixCache`evictableSize, cacheManager.prefixCache`protectedSize
      modifies cacheManager.prefixCache.nodes`key, cacheManager.prefixCache.nodes`value, cacheManager.prefixCache.nodes`parent
      modifies cacheManager.prefixCache.nodes`children, cacheManager.prefixCache.nodes`timestamp, cacheManager.prefixCache.nodes`refCount
      ensures AtRest(last) && live <= old(live) && old(released) <= released
      ensures fresh(cacheManager.prefixCache.nodes - old(cacheManager.prefixCache.nodes))
      ensures NoAbort(msg) ==> OnlyPrompts() && prefillManager.pendingList == AcceptedAll(old(prefillManager.pendingList), msg)
      ensures msg.AbortMsg? ==> Aborted(msg.uid, old(live) - live)
      decreases msg
    {
      hide AtRest, Accepted, Aborted, CacheManager.StoreOf, DecodeManager.Inflight;
      match msg
      case BatchMsg(data) =>
        var i := 0;
        while i < |data|
          invariant 0 <= i <= |data| && AtRest(last) && live <= old(live) && old(released) <= released
          invariant fresh(cacheManager.prefixCache.nodes - old(cacheManager.prefixCache.nodes))
          invariant NoAbort(msg) ==> OnlyPrompts() && prefillManager.pendingList == AcceptedFirst(old(prefillManager.pendingList), msg, i)
        {
          assert data[i] in data;
          ProcessOneMsg(data[i], last);
          i := i + 1;
        }
      case UserMsg(_, _, _, _) =>
        AcceptPrompt(msg, last);
      case AbortMsg(uid) =>
        ghost var gone := Abort(uid);
        assert gone == old(live) - live;
    }

    method ProcessMsgs(msgs: seq<Msg>, ghost last: Option<ForwardData>)
      requires AtRest(last) && (forall m :: m in msgs ==> Proper(m)) && (last.None? || forall m :: m in msgs ==> NoAbort(m))
      modifies this`live, this`released, prefillManager`pendingList, decodeManager`runningReqs, tableManager`freeSlots, live`cacheHandle
      modifies cacheManager`freeSlots, cacheManager`lazyList
      modifies cacheManager.prefixCache`nodes, cacheManager.prefixCache`view, cacheManager.prefixCache`locks
      modifies cacheManager.prefixCache`evictableSize, cacheManager.prefixCache`protectedSize
      modifies cacheManager.prefixCache.nodes`key, cacheManager.prefixCache.nodes`value, cacheManager.prefixCache.nodes`parent
      modifies cacheManager.prefixCache.nodes`children, cacheManager.prefixCache.nodes`timestamp, cacheManager.prefixCache.nodes`refCount
      ensures AtRest(last) && live <= old(live) && old(released) <= released
      ensures fresh(cacheManager.prefixCache.nodes - old(cacheManager.prefixCache.nodes))
      ensures (forall m :: m in msgs ==> NoAbort(m)) ==>
        OnlyPrompts() && prefillManager.pendingList == AcceptedAll(old(prefillManager.pendingList), BatchMsg(msgs))
    {
      hide AtRest, Proper, NoAbort, CacheManager.StoreOf, Accepted, Aborted, DecodeManager.Inflight;
      ghost var all := BatchMsg(msgs);
      var i := 0;
      while i < |msgs|
        invariant 0 <= i <= |msgs| && AtRest(last) && live <= old(live) && old(released) <= released
        invariant fresh(cacheManager.prefixCache.nodes - old(cacheManager.prefixCache.nodes))
        invariant (forall m :: m in msgs ==> NoAbort(m)) ==>
          OnlyPrompts() && prefillManager.pendingList == AcceptedFirst(old(prefillManager.pendingList), all, i)
      {
        assert msgs[i] in msgs;
        ProcessOneMsg(msgs[i], last);
        i := i + 1;
      }
    }

    method NormalLoop(msgs: seq<Msg>) returns (ok: bool, replies: seq<Reply>, ghost run: Option<ForwardData>)
      requires Wires() && AtRest(None) && forall m :: m in msgs ==> Proper(m)
      modifies this`live, this`kv, this`released, this`finishedReqs, prefillManager`pendingList, decodeManager`runningReqs
      modifies tableManager`freeSlots, tableManager.tokenPool, cacheManager.pageTable, live
      modifies cacheManager`freeSlots, cacheManager`lazyList, cacheManager`lazyRegion
      modifies cacheManager.prefixCache`nodes, cacheManager.prefixCache`view, cacheManager.prefixCache`locks
      modifies cacheManager.prefixCache`evictableSize, cacheManager.prefixCache`protectedSize
      modifies cacheManager.prefixCache.nodes`key, cacheManager.prefixCache.nodes`value, cacheManager.prefixCache.nodes`parent
      modifies cacheManager.prefixCache.nodes`children, cacheManager.prefixCache.nodes`timestamp, cacheManager.prefixCache.nodes`refCount
      ensures EstimateCovers(cacheManager.pageSize) ==> ok
      ensures ok ==> AtRest(None) && old(released) <= released
      ensures fresh(cacheManager.prefixCache.nodes - old(cacheManager.prefixCache.nodes)) && fresh(live - old(live))
      ensures ok ==> if run.None? then replies == []
              else |run.value.nextTokens| == |run.value.batch.reqs| && replies == Answers(run.value, |run.value.batch.reqs|, eosTokenId)
      ensures ok && (forall m :: m in msgs ==> NoAbort(m)) ==>
        var waiting := AcceptedAll(old(prefillManager.pendingList), BatchMsg(msgs));
        && Accounts() == AccountsWith(waiting, old(live), old(released))
        && (run.None? || !run.value.batch.isPrefill ==> HeadTurnedAway(waiting))
        && if run.None? then waiting == [] && old(decodeManager.runningReqs) == {}
        else Ran(old(decodeManager.runningReqs), waiting, run.value.batch)
    {
      hide AtRest, Proper, NoAbort, Outstanding, Finished, AnswerOf, Answers, AcceptedAll, Waiting, Seats, Gone, Refused, Wires;
      hide CacheManager.StoreOf, DecodeManager.Inflight, SortedByUid, Rest, NoDup, Crew;
      ProcessMsgs(msgs, None);
      var ran;
      ok, ran, replies, run := NormalStep();
    }

    /** Free and stored pages make up the pool when nobody is live. */
    method RunWhenIdle() returns (ok: bool)
      requires AtRest(None) && live == {}
      ensures ok
    {
      hide RadixPrefixCache.Valid, ViewOk, AllOk, Conserved, LocksMatch, TableManager.Seats, Budgeted, Flight;
      assert Holdings(live, cacheManager.pageTable) == map[];
      IdleIntegrity<Req>(cacheManager.StoreOf(kv), map[]);
      ok := cacheManager.CheckIntegrity();
    }

    lemma WorkLeft()
      requires AtRest(None)
      ensures Outstanding() >= 0
      ensures prefillManager.pendingList == [] && decodeManager.runningReqs == {} ==> live == {}
    {
      hide Standing, Done, Due, Spoken, Flight, Total, WholeWork;
      var pending := prefillManager.pendingList;
      if pending != [] && pending[0].chunkedReq != null {
        assert pending[0].chunkedReq in live && Done(pending[0].chunkedReq, cacheManager, tableManager);
        HeadUnfinished(pending);
      }
      TotalNonnegative<Req>(Remains(decodeManager.runningReqs));
    }

    lemma HeadUnfinished(pending: seq<PendingReq>)
      requires pending != [] && pending[0].chunkedReq != null && ChunkOf(pending[0], pending[0].chunkedReq)
      requires Done(pending[0].chunkedReq, cacheManager, tableManager)
      ensures PendingWork(pending) >= 0
    {
    }

    lemma AllGone()
      requires prefillManager.pendingList == [] && live == {}
      ensures Accounts() == Gone(released)
    {
      hide Gone;
      assert TicketMap(live) == map[];
      assert multiset{} + multiset{} + Gone(released) == Gone(released);
    }

    /** Everybody in `all` has been sent what his log has grown by, in that order. */
    ghost predicate Delivered(all: set<Req>, logs: map<Req, seq<Reply>>, to: seq<Req>, replies: seq<Reply>)
      reads all`replies
    {
      && |to| == |replies| && logs.Keys <= all
      && (forall k :: 0 <= k < |to| ==> to[k] in all && !to[k].chunked && replies[k].uid == to[k].uid)
      && forall r :: r in all ==> r.replies == (if r in logs then logs[r] else []) + Sent(r, to, replies)
    }

    /** `all` are those who are live or have left since, and the chunks of their prompts. */
    ghost predicate Roster(all: set<Req>, released0: seq<Req>)
      reads this`live, this`released
    {
      && released0 <= released && live <= all && (forall r :: r in released[|released0|..] ==> r in all)
      && forall r :: r in all && !r.chunked ==> r in live || r in released[|released0|..]
    }

    lemma DeliveryStarts()
      ensures Delivered(live, map r | r in live :: r.replies, [], []) && Roster(live, released)
    {
    }

    twostate lemma RosterTurned(new reqs: seq<Req>, new all: set<Req>, new released0: seq<Req>)
      requires old(allocated(all)) && old(allocated(released0)) && old(Roster(all, released0)) && Crew(reqs)
      ensures Roster(all + Elements(reqs), released0)
    {
      var before, later := old(released), released[|old(released)|..];
      assert released == before + later;
      assert released[|released0|..] == before[|released0|..] + later;
    }

    /** A batch more: the answer in it comes behind what has been sent before. */
    lemma SentFurther(before: seq<Reply>, r: Req, to: seq<Req>, replies: seq<Reply>, data: ForwardData)
      requires |to| == |replies| && NoDup(data.batch.reqs) && |data.batch.reqs| == |data.nextTokens|
      ensures var n := |data.batch.reqs|;
        && |Askers(data, n)| == |Answers(data, n, eosTokenId)|
        && var sent := before + Sent(r, to + Askers(data, n), replies + Answers(data, n, eosTokenId));
        && (r !in data.batch.reqs ==> sent == before + Sent(r, to, replies))
        && forall j :: 0 <= j < n && data.batch.reqs[j] == r ==> sent == before + Sent(r, to, replies) + AnswerOf(data, j, eosTokenId)
    {
      hide AnswerOf, Sent, Askers, Answers, NoDup;
      var n := |data.batch.reqs|;
      SentOfBatch(data, n, eosTokenId, r);
      SentBoth(r, to, replies, Askers(data, n), Answers(data, n, eosTokenId));
    }

    twostate lemma DeliveredTurned(new data: ForwardData, new all: set<Req>, new logs: map<Req, seq<Reply>>, new to: seq<Req>,
                                   new replies: seq<Reply>)
      requires old(allocated(all)) && old(allocated(logs)) && old(allocated(to)) && old(live) <= all
      requires old(Delivered(all, logs, to, replies)) && Told(data) && NoDup(data.batch.reqs)
      requires forall r :: r in data.batch.reqs ==> r in old(live) || r !in all
      requires forall r :: r in all && r !in old(live) ==> r.replies == old(r.replies)
      ensures |Askers(data, |data.batch.reqs|)| == |Answers(data, |data.batch.reqs|, eosTokenId)|
      ensures Delivered(all + Elements(data.batch.reqs), logs, to + Askers(data, |data.batch.reqs|),
                        replies + Answers(data, |data.batch.reqs|, eosTokenId))
    {
      hide AnswerOf, Sent, Askers, Answers, NoDup;
      var n := |data.batch.reqs|;
      var more, answers := Askers(data, n), Answers(data, n, eosTokenId);
      AnswersToAskers(data, n, eosTokenId);
      assert data.batch.reqs[..n] == data.batch.reqs;
      forall r | r in all + Elements(data.batch.reqs)
        ensures r.replies == (if r in logs then logs[r] else []) + Sent(r, to + more, replies + answers)
      {
        var before := if r in logs then logs[r] else [];
        SentFurther(before, r, to, replies, data);
        if r in data.batch.reqs {
          var j :| 0 <= j < n && data.batch.reqs[j] == r;
        }
        if r !in all { SentNothing(r, to, replies); }
      }
    }

    lemma RosterFacts(all: set<Req>, released0: seq<Req>)
      requires Roster(all, released0)
      ensures live <= all
    {
    }

    /** Every reply has gone to somebody who has been released since, and each of these has been sent what his log has grown by. */
    twostate predicate AllSent(new to: seq<Req>, new replies: seq<Reply>)
      reads *
    {
      && old(released) <= released && |to| == |replies|
      && (forall k :: 0 <= k < |to| ==> to[k] in released[|old(released)|..] && replies[k].uid == to[k].uid)
      && forall r :: r in released[|old(released)|..] ==>
        r.replies == (if r in old(live) then old(r.replies) else []) + Sent(r, to, replies)
    }

    twostate lemma DeliveryEnds(new all: set<Req>, new logs: map<Req, seq<Reply>>, new to: seq<Req>, new replies: seq<Reply>)
      requires Delivered(all, logs, to, replies) && Roster(all, old(released)) && live == {}
      requires logs == old(map r | r in live :: r.replies)
      ensures AllSent(to, replies)
    {
    }

    /** Everybody released since has come to his end. */
    ghost predicate Ended(released0: seq<Req>)
      reads this`released, released`inputIds, released`replies
    {
      released0 <= released && forall r :: r in released[|released0|..] ==> Finished(r, eosTokenId)
    }

    twostate lemma EndedMore(new released0: seq<Req>)
      requires old(allocated(released0)) && old(Ended(released0)) && Ended(old(released))
      requires forall r :: r in old(released) ==> r.inputIds == old(r.inputIds) && r.replies == old(r.replies)
      ensures Ended(released0)
    {
      hide Finished;
      assert released == old(released) + released[|old(released)|..];
      forall r | r in released[|released0|..] ensures Finished(r, eosTokenId) {
        if r !in released[|old(released)|..] {
          assert r in old(released)[|released0|..];
          assert Finished(r, eosTokenId) == old(Finished(r, eosTokenId));
        }
      }
    }

    /** A turn, and what has been sent with it since the run began. */
    method NextTurn(ghost all: set<Req>, ghost logs: map<Req, seq<Reply>>, ghost to: seq<Req>, ghost replies: seq<Reply>,
                    ghost released0: seq<Req>)
      returns (ok: bool, more: seq<Reply>, ghost all': set<Req>, ghost to': seq<Req>)
      requires Wires() && AtRest(None) && (prefillManager.pendingList != [] || decodeManager.runningReqs != {})
      requires Delivered(all, logs, to, replies) && Roster(all, released0) && Ended(released0)
      modifies this`live, this`kv, this`released, this`finishedReqs, prefillManager`pendingList, decodeManager`runningReqs
      modifies tableManager`freeSlots, tableManager.tokenPool, cacheManager.pageTable, live
      modifies cacheManager`freeSlots, cacheManager`lazyList, cacheManager`lazyRegion
      modifies cacheManager.prefixCache`nodes, cacheManager.prefixCache`view, cacheManager.prefixCache`locks
      modifies cacheManager.prefixCache`evictableSize, cacheManager.prefixCache`protectedSize
      modifies cacheManager.prefixCache.nodes`key, cacheManager.prefixCache.nodes`value, cacheManager.prefixCache.nodes`parent
      modifies cacheManager.prefixCache.nodes`children, cacheManager.prefixCache.nodes`timestamp, cacheManager.prefixCache.nodes`refCount
      ensures EstimateCovers(cacheManager.pageSize) ==> ok
      ensures ok ==> AtRest(None) && Outstanding() < old(Outstanding()) && Accounts() == old(Accounts())
      ensures fresh(cacheManager.prefixCache.nodes - old(cacheManager.prefixCache.nodes)) && fresh(live - old(live))
      ensures ok ==> Delivered(all', logs, to', replies + more) && Roster(all', released0) && Ended(released0)
    {
      hide AtRest, Outstanding, Finished, LogOk, Accounts, Delivered, Roster, HeadTurnedAway, Crew, Told, Wires;
      hide Sent, Answers, Askers, NoDup, Rest, SortedByUid;
      LogFacts(None);
      all', to' := all, to;
      RosterFacts(all, released0);
      var ran;
      ghost var run;
      ok, ran, more, run := NormalStep();
      if ok {
        EndedMore(released0);
        ghost var data := run.value;
        RosterTurned(data.batch.reqs, all, released0);
        DeliveredTurned(data, all, logs, to, replies);
        all', to' := all + Elements(data.batch.reqs), to + Askers(data, |data.batch.reqs|);
      }
    }

    /**
     Without new arrivals the plain loop comes to an end. Then nobody waits, runs or holds a page,
     and everybody who had been accepted has been released, exactly once, and has been sent all his replies.
     */
    method RunUntilIdle() returns (ok: bool, replies: seq<Reply>, ghost to: seq<Req>)
      requires Wires() && AtRest(None)
      modifies this`live, this`kv, this`released, this`finishedReqs, prefillManager`pendingList, decodeManager`runningReqs
      modifies tableManager`freeSlots, tableManager.tokenPool, cacheManager.pageTable, live
      modifies cacheManager`freeSlots, cacheManager`lazyList, cacheManager`lazyRegion
      modifies cacheManager.prefixCache`nodes, cacheManager.prefixCache`view, cacheManager.prefixCache`locks
      modifies cacheManager.prefixCache`evictableSize, cacheManager.prefixCache`protectedSize
      modifies cacheManager.prefixCache.nodes`key, cacheManager.prefixCache.nodes`value, cacheManager.prefixCache.nodes`parent
      modifies cacheManager.prefixCache.nodes`children, cacheManager.prefixCache.nodes`timestamp, cacheManager.prefixCache.nodes`refCount
      ensures EstimateCovers(cacheManager.pageSize) ==> ok
      ensures ok ==> AtRest(None) && live == {} && prefillManager.pendingList == [] && decodeManager.runningReqs == {}
      ensures ok ==> Gone(released) == old(Accounts()) && NoDup(released)
      ensures ok ==> Ended(old(released))
      ensures ok ==> AllSent(to, replies)
    {
      hide AtRest, Outstanding, Finished, LogOk, Accounts, Gone, NoDup, Delivered, Roster, AllSent;
      ok, replies, to := true, [], [];
      ghost var all, logs := live, map r | r in live :: r.replies;
      DeliveryStarts();
      WorkLeft();
      while ok && (prefillManager.Runnable() || decodeManager.Runnable())
        invariant ok ==> AtRest(None) && Outstanding() >= 0 && Accounts() == old(Accounts())
        invariant ok ==> Delivered(all, logs, to, replies) && Roster(all, old(released)) && Ended(old(released))
        invariant EstimateCovers(cacheManager.pageSize) ==> ok
        invariant fresh(cacheManager.prefixCache.nodes - old(cacheManager.prefixCache.nodes)) && fresh(live - old(live))
        decreases ok, Outstanding()
      {
        var more;
        ok, more, all, to := NextTurn(all, logs, to, replies, old(released));
        if ok { WorkLeft(); }
        replies := replies + more;
      }
      if ok {
        WorkLeft();
        LogFacts(None);
        AllGone();
        DeliveryEnds(all, logs, to, replies);
      }
    }

    ghost function Flying(last: Option<ForwardData>): set<Req>
    {
      if last.None? then {} else Elements(last.value.batch.reqs)
    }

    /** Processes the last batch, if there is one, after the next one has been run. */
    method ProcessLast(last: Option<ForwardData>, ghost ongoing: Option<ForwardData>) returns (replies: seq<Reply>)
      requires if ongoing.Some? then Flown(last, ongoing.value) else AtRest(last)
      requires ongoing.Some? && ongoing.value.batch.isPrefill ==> Flying(ongoing) !! Flying(last)
      modifies Flying(last)`inputIds, Flying(last)`replies, Flying(last)`cacheHandle, Flying(last)`shares
      modifies this`live, this`released, this`finishedReqs, decodeManager`runningReqs, tableManager`freeSlots
      modifies cacheManager`freeSlots, cacheManager`lazyList, cacheManager`lazyRegion
      modifies cacheManager.prefixCache`nodes, cacheManager.prefixCache`view, cacheManager.prefixCache`locks
      modifies cacheManager.prefixCache`evictableSize, cacheManager.prefixCache`protectedSize
      modifies cacheManager.prefixCache.nodes`key, cacheManager.prefixCache.nodes`value, cacheManager.prefixCache.nodes`parent
      modifies cacheManager.prefixCache.nodes`children, cacheManager.prefixCache.nodes`timestamp, cacheManager.prefixCache.nodes`refCount
      ensures AtRest(ongoing) && LeftSince(old(live), old(released)) && old(released) <= released && Accounts() == old(Accounts())
      ensures forall r :: r in released[|old(released)|..] ==> r in Flying(last)
      ensures if last.None? then replies == []
              else Logged(last.value, |last.value.batch.reqs|, old(LogsOf(last.value.batch.reqs)), replies, eosTokenId)
      ensures decodeManager.runningReqs <= old(decodeManager.runningReqs)
    {
      hide AtRest, Flown, Orderly, Speech, Flights, Finished, NoDup, Logged, LogsOf, Replied, Answers, KeptBehind, SlotsOf;
      hide Waiting, Seats, Gone;
      replies := [];
      if last.Some? {
        if ongoing.Some? {
          assert forall r :: r in ongoing.value.batch.reqs ==> r in Flying(ongoing);
          assert forall r :: r in last.value.batch.reqs ==> r in Flying(last);
          FlownBehind(last.value, ongoing.value);
        } else {
          RestBehind(last.value);
        }
        replies := ProcessLastData(last.value, ongoing);
        assert forall r :: r in released[|old(released)|..] ==> r in Elements(released[|old(released)|..]);
      } else if ongoing.Some? {
        FlownFirst(ongoing.value);
      }
      LogFacts(ongoing);
      TicketsLeave(old(live), old(released));
      SameSum(Waiting(prefillManager.pendingList), Seats(old(live)), Gone(old(released)), Seats(live), Gone(released));
    }

    /** What is in flight next: a batch, or nothing when nobody runs. */
    twostate predicate Next(new waiting: seq<PendingReq>, new ongoing: Option<ForwardData>)
      reads *
    {
      if ongoing.Some? then Ran(old(decodeManager.runningReqs), waiting, ongoing.value.batch)
      else old(decodeManager.runningReqs) == decodeManager.runningReqs == {} && prefillManager.pendingList == waiting
    }

    /** Chooses the next batch and runs it, while `last` waits to be processed. */
    method RunNext(ghost last: Option<ForwardData>) returns (ok: bool, ongoing: Option<ForwardData>)
      requires Wires() && AtRest(last)
      modifies this`live, this`kv, prefillManager`pendingList, decodeManager`runningReqs, cacheManager`freeSlots
      modifies cacheManager.prefixCache`nodes, cacheManager.prefixCache`view, cacheManager.prefixCache`locks
      modifies cacheManager.prefixCache`evictableSize, cacheManager.prefixCache`protectedSize
      modifies cacheManager.prefixCache.nodes`key, cacheManager.prefixCache.nodes`value, cacheManager.prefixCache.nodes`parent
      modifies cacheManager.prefixCache.nodes`children, cacheManager.prefixCache.nodes`timestamp, cacheManager.prefixCache.nodes`refCount
      modifies tableManager`freeSlots, cacheManager.pageTable, tableManager.tokenPool
      modifies live`alloc, live`cachedLen, live`deviceLen, live`cuts, live`tok
      ensures EstimateCovers(cacheManager.pageSize) ==> ok
      ensures fresh(cacheManager.prefixCache.nodes - old(cacheManager.prefixCache.nodes))
      ensures ok ==> if ongoing.Some? then Flown(last, ongoing.value) else AtRest(last)
      ensures ok && ongoing.Some? ==> Flying(ongoing) <= live && (ongoing.value.batch.isPrefill ==> fresh(Flying(ongoing)))
      ensures ok && ongoing.Some? ==> forall r :: r in Flying(ongoing) ==> r !in released
      ensures ok && !(ongoing.Some? && ongoing.value.batch.isPrefill) ==> HeadTurnedAway(old(prefillManager.pendingList))
      ensures ok ==> Next(old(prefillManager.pendingList), ongoing)
      ensures ok ==> Accounts() == old(Accounts()) && released == old(released)
    {
      hide AtRest, Flown, Wires, Startable, Picked, LogsOf, LengthsOf, Accounts, Grew, Ran, HeadTurnedAway;
      hide Outstanding, PendingWork, Total, Remains, BatchTokens, BatchLabels, StoredAt, RowsRight, Manned, Laden, InputOk, Chosen;
      ongoing := None;
      ghost var los;
      var input;
      ok, input, los := StartTurn(last);
      if ok && input.Some? {
        var batch := input.value.batch;
        ghost var logs, lengths, live1 := LogsOf(batch.reqs), LengthsOf(batch.reqs), live;
        StartFacts(input.value, last, los, old(prefillManager.pendingList), old(live), old(cacheManager.prefixCache.view));
        label picked:
        var data, inputIds := Forward(input.value, last);
        FlownLog(last, data);
        GrewNow@picked(batch.reqs);
        RanNow(batch, logs, lengths, live1);
        ongoing := Some(data);
      }
    }

    lemma FlownLog(last: Option<ForwardData>, data: ForwardData)
      requires Flown(last, data)
      ensures forall r :: r in data.batch.reqs ==> r in live && r !in released
    {
      hide Standing, NoDup, Spoken;
    }

    /** Takes the messages, then chooses the next batch and runs it. */
    method TakeAndRun(msgs: seq<Msg>, ghost last: Option<ForwardData>) returns (ok: bool, ongoing: Option<ForwardData>)
      requires Wires() && AtRest(last) && forall m :: m in msgs ==> Proper(m) && NoAbort(m)
      modifies this`live, this`kv, this`released, prefillManager`pendingList, decodeManager`runningReqs, cacheManager`freeSlots, cacheManager`lazyList
      modifies cacheManager.prefixCache`nodes, cacheManager.prefixCache`view, cacheManager.prefixCache`locks
      modifies cacheManager.prefixCache`evictableSize, cacheManager.prefixCache`protectedSize
      modifies cacheManager.prefixCache.nodes`key, cacheManager.prefixCache.nodes`value, cacheManager.prefixCache.nodes`parent
      modifies cacheManager.prefixCache.nodes`children, cacheManager.prefixCache.nodes`timestamp, cacheManager.prefixCache.nodes`refCount
      modifies tableManager`freeSlots, cacheManager.pageTable, tableManager.tokenPool
      modifies live`alloc, live`cachedLen, live`deviceLen, live`cuts, live`tok, live`cacheHandle
      ensures EstimateCovers(cacheManager.pageSize) ==> ok
      ensures fresh(cacheManager.prefixCache.nodes - old(cacheManager.prefixCache.nodes))
      ensures ok ==> if ongoing.Some? then Flown(last, ongoing.value) else AtRest(last)
      ensures ok && ongoing.Some? ==> Flying(ongoing) <= live && (ongoing.value.batch.isPrefill ==> fresh(Flying(ongoing)))
      ensures ok && ongoing.Some? ==> forall r :: r in Flying(ongoing) ==> r !in released
      ensures ok && !(ongoing.Some? && ongoing.value.batch.isPrefill) ==>
        HeadTurnedAway(AcceptedAll(old(prefillManager.pendingList), BatchMsg(msgs)))
      ensures ok ==> Next(AcceptedAll(old(prefillManager.pendingList), BatchMsg(msgs)), ongoing)
      ensures ok ==> Accounts() == AccountsWith(AcceptedAll(old(prefillManager.pendingList), BatchMsg(msgs)), old(live), old(released))
      ensures ok ==> released == old(released)
    {
      hide AtRest, Flown, Proper, NoAbort, Waiting, Seats, Gone, Wires, AcceptedAll, Refused;
      hide CacheManager.StoreOf, DecodeManager.Inflight, SortedByUid, Rest, NoDup;
      ProcessMsgs(msgs, last);
      ok, ongoing := RunNext(last);
    }

    /**
     One turn of the overlapped loop: the next batch is chosen and run before the last one is processed.
     A request may be released while it is in the batch in flight; it is entered in the log once,
     and is in no batch chosen afterwards.
     */
    method OverlapLoop(msgs: seq<Msg>, last: Option<ForwardData>)
      returns (ok: bool, ongoing: Option<ForwardData>, replies: seq<Reply>)
      requires Wires() && AtRest(last) && forall m :: m in msgs ==> Proper(m) && NoAbort(m)
      modifies this`live, this`kv, this`released, this`finishedReqs, prefillManager`pendingList, decodeManager`runningReqs
      modifies tableManager`freeSlots, tableManager.tokenPool, cacheManager.pageTable, live
      modifies cacheManager`freeSlots, cacheManager`lazyList, cacheManager`lazyRegion
      modifies cacheManager.prefixCache`nodes, cacheManager.prefixCache`view, cacheManager.prefixCache`locks
      modifies cacheManager.prefixCache`evictableSize, cacheManager.prefixCache`protectedSize
      modifies cacheManager.prefixCache.nodes`key, cacheManager.prefixCache.nodes`value, cacheManager.prefixCache.nodes`parent
      modifies cacheManager.prefixCache.nodes`children, cacheManager.prefixCache.nodes`timestamp, cacheManager.prefixCache.nodes`refCount
      modifies Flying(last)
      ensures EstimateCovers(cacheManager.pageSize) ==> ok
      ensures ok ==> AtRest(ongoing) && old(released) <= released && NoDup(released)
      ensures ok ==> forall r :: r in released[|old(released)|..] ==> r in Flying(last)
      ensures ok ==> forall r :: r in Flying(ongoing) ==> r !in old(released)
      ensures ok ==> Accounts() == AccountsWith(AcceptedAll(old(prefillManager.pendingList), BatchMsg(msgs)), old(live), old(released))
      ensures ok && !(ongoing.Some? && ongoing.value.batch.isPrefill) ==>
        HeadTurnedAway(AcceptedAll(old(prefillManager.pendingList), BatchMsg(msgs)))
      ensures ok ==> Next(AcceptedAll(old(prefillManager.pendingList), BatchMsg(msgs)), ongoing)
      ensures ok ==> if last.None? then replies == []
              else Logged(last.value, |last.value.batch.reqs|, old(LogsOf(last.value.batch.reqs)), replies, eosTokenId)
      ensures ok ==> forall r :: r in old(live) && r !in Flying(last) ==> r.replies == old(r.replies)
    {
      hide AtRest, Flown, Proper, NoAbort, Accounts, AccountsWith, NoDup, LeftSince, Wires, AcceptedAll, HeadTurnedAway;
      hide Logged, LogsOf, Ran;
      replies, ongoing := [], None;
      ok, ongoing := TakeAndRun(msgs, last);
      if !ok {
        return;
      }
      assert last.Some? ==> LogsOf(last.value.batch.reqs) == old(LogsOf(last.value.batch.reqs));
      replies := ProcessLast(last, ongoing);
      LogFacts(ongoing);
    }
  }

  lemma SameSum(w: multiset<Ticket>, s: multiset<Ticket>, g: multiset<Ticket>, s': multiset<Ticket>, g': multiset<Ticket>)
    requires s + g == s' + g'
    ensures w + s + g == w + s' + g'
  {
    assert w + s + g == w + (s + g);
    assert w + s' + g' == w + (s' + g');
  }

  lemma {:induction false} PositionsBelow(spans: seq<Span>, bound: int)
    requires Forwards(spans) && forall i :: 0 <= i < |spans| ==> spans[i].hi <= bound
    ensures forall x :: x in PositionsOf(spans) ==> 0 <= x < bound
    decreases |spans|
  {
    if spans != [] {
      PositionsBelow(spans[1..], bound);
    }
  }

  lemma NoDupTail(reqs: seq<Req>, n: nat)
    requires NoDup(reqs) && n <= |reqs|
    ensures NoDup(reqs[n..])
  {
  }

  lemma WholeRow(n: nat, width: nat, ps: nat)
    requires ps > 0 && Aligned(width, ps) && n <= width
    ensures DivCeil(n, ps) * ps <= width
  {
    DivCeilCovers(n, ps);
    if DivCeil(n, ps) * ps > width { AlignedGap(width, DivCeil(n, ps) * ps, ps); }
  }

  lemma RefusedNew(s: Store, slots: nat, p: PendingReq, reserved: int)
    requires p.chunkedReq != null
    ensures !Refused(s, slots, p, reserved)
  {
  }

  lemma RefusedLabels(s: Store, kv: map<int, Prefix>, slots: nat, p: PendingReq, reserved: int)
    requires !Refused(s.(kv := kv), slots, p, reserved)
    ensures !Refused(s, slots, p, reserved)
  {
    hide IsLongest;
    if Refused(s, slots, p, reserved) && slots > 0 {
      var n: nat :| s.ps > 0 && |p.inputIds| > 0 && IsLongest(s.view, s.ps, p.inputIds[..|p.inputIds| - 1], n)
        && !Fits(s, p.inputIds, n, p.maxTokens, reserved);
      FitsLabels(s, kv, p.inputIds, n, p.maxTokens, reserved);
      RefusedWhy(s.(kv := kv), slots, p, reserved, n);
    }
  }

  lemma FitsLabels(s: Store, kv: map<int, Prefix>, ids: seq<int>, n: nat, outputLen: nat, reserved: int)
    ensures Fits(s, ids, n, outputLen, reserved) <==> Fits(s.(kv := kv), ids, n, outputLen, reserved)
  {
    if n <= |ids| {
      assert s.(kv := kv).(locks := s.locks + multiset{ids[..n]}) == s.(locks := s.locks + multiset{ids[..n]}).(kv := kv);
    }
  }

  lemma DealtFacts(pending: seq<PendingReq>, reqs: seq<Req>, los: seq<nat>, budget: int)
    requires Dealt(pending, reqs, los, budget)
    ensures |los| == |reqs| <= |pending| && NoDup(reqs)
    ensures forall j :: 0 <= j < |reqs| ==> NextPart(reqs[j], pending[j], los[j], budget - Extends(reqs[..j]))
  {
  }
}