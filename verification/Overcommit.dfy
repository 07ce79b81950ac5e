/**
 The page sizes at which the reservation estimate fails. The estimate is made in tokens, while pages are
 given out whole: from three tokens a page on, prompts that all fit by the estimate do not fit in the pages.
 */
module Overcommit {
  import opened Options
  import opened Alignment
  import opened PrefixStore
  import opened World
  import opened Core
  import TableManagement
  import Residency
  import opened Prefill
  import opened Scheduling

  /** The estimate for a new request covers the pages it will take, for all lengths, exactly at these page sizes. */
  lemma EstimateCoversExactly(ps: nat)
    requires ps > 0
    ensures Residency.EstimateCovers(ps) <==>
      forall h: Holding :: Aligned(h.alloc, ps) && h.alloc < h.goal ==> Need(h, ps) * ps <= h.goal - h.alloc
  {
    forall h: Holding | Residency.EstimateCovers(ps) && Aligned(h.alloc, ps) && h.alloc < h.goal ensures Need(h, ps) * ps <= h.goal - h.alloc {
      NewcomerNeed(h, ps, h.alloc);
    }
    var small := Holding([], [], 0, 0, 0, 2);
    DivCeilCovers(1, ps);
    assert Need(small, ps) == 1 && Aligned(small.alloc, ps) && small.alloc < small.goal;
  }

  /** One-token prompts that ask for one token each. */
  function Prompts(n: nat): (p: seq<PendingReq>)
    ensures |p| == n && forall i :: 0 <= i < n ==> p[i] == PendingReq(i, [0], 1, true, null)
  {
    seq(n, i => PendingReq(i, [0], 1, true, null))
  }

  lemma SmallPart(n: nat, r: Req, j: nat, lo: nat, budget: int, ps: nat)
    requires ps > 0 && j < n && NextPart(r, Prompts(n)[j], lo, budget)
    requires IsLongest(map[], ps, Prompts(n)[j].inputIds[..|Prompts(n)[j].inputIds| - 1], lo)
    ensures lo == 0 && r.cachedLen == 0 && r.deviceLen == 1
    ensures Estimated(Prompts(n)[j].inputIds, lo, Prompts(n)[j].maxTokens) == 2
  {
  }

  /** Each part of such a batch is a whole prompt, estimated at two tokens. */
  lemma {:induction false} SmallParts(n: nat, reqs: seq<Req>, los: seq<nat>, budget: int, ps: nat)
    requires ps > 0 && Dealt(Prompts(n), reqs, los, budget) && StartsAt(Prompts(n), los, map[], ps)
    ensures |los| == |reqs| <= n && Reserved(Prompts(n), los) == 2 * |reqs| && Extends(reqs) == |reqs|
    ensures forall j :: 0 <= j < |reqs| ==> reqs[j].cachedLen == 0 && reqs[j].deviceLen == 1
    decreases |reqs|
  {
    hide Dealt, StartsAt, NextPart, IsLongest, Estimated;
    DealtFront(n, reqs, los, budget, ps);
    if reqs != [] {
      var j := |reqs| - 1;
      var front := reqs[..j];
      SmallParts(n, front, los[..j], budget, ps);
      SmallPart(n, reqs[j], j, los[j], budget - Extends(front), ps);
    }
  }

  lemma DealtFront(n: nat, reqs: seq<Req>, los: seq<nat>, budget: int, ps: nat)
    requires Dealt(Prompts(n), reqs, los, budget) && StartsAt(Prompts(n), los, map[], ps)
    ensures |los| == |reqs| <= n
    ensures reqs != [] ==>
      var j := |reqs| - 1;
      && Dealt(Prompts(n), reqs[..j], los[..j], budget) && StartsAt(Prompts(n), los[..j], map[], ps)
      && NextPart(reqs[j], Prompts(n)[j], los[j], budget - Extends(reqs[..j]))
      && IsLongest(map[], ps, Prompts(n)[j].inputIds[..|Prompts(n)[j].inputIds| - 1], los[j])
  {
    hide NextPart, Extends, NoDup, IsLongest;
    if reqs != [] {
      var j := |reqs| - 1;
      NoDupFront(reqs);
      forall i | 0 <= i < j ensures NextPart(reqs[..j][i], Prompts(n)[i], los[..j][i], budget - Extends(reqs[..j][..i])) {
        assert reqs[..j][..i] == reqs[..i];
      }
    }
  }

  lemma NoDupFront(reqs: seq<Req>)
    requires NoDup(reqs) && reqs != []
    ensures NoDup(reqs[..|reqs| - 1])
  {
  }

  /** The next such prompt fits as long as no more have been taken than there are pages. */
  lemma NextFits(s: Store, slots: nat, p: PendingReq, taken: nat)
    requires s.view == map[] && s.ps >= 3 && |s.free| >= 2 && taken <= |s.free| && slots > 0
    requires p.inputIds == [0] && p.maxTokens == 1
    ensures !Refused(s, slots, p, 2 * taken)
  {
    forall n: nat | IsLongest(s.view, s.ps, p.inputIds[..0], n) ensures Fits(s, p.inputIds, n, 1, 2 * taken) {
      var t := s.(locks := s.locks + multiset{p.inputIds[..n]});
      assert Unlocked(t.view, t.locks) == {};
      Scaled(3, s.ps, |s.free|);
    }
    assert p.inputIds[..|p.inputIds| - 1] == p.inputIds[..0];
  }

  lemma {:induction false} OnePageEach(s: Scheduler, reqs: seq<Req>)
    requires s.cacheManager.pageSize > 1 && forall j :: 0 <= j < |reqs| ==> reqs[j].cachedLen == 0 && reqs[j].deviceLen == 1
    ensures s.PagesNeeded(reqs) == |reqs|
    decreases |reqs|
  {
    if reqs != [] {
      OnePageEach(s, reqs[..|reqs| - 1]);
      DivCeilCovers(1, s.cacheManager.pageSize);
    }
  }

  /** So all are taken, one more than there are pages. */
  lemma AllTaken(n: nat, reqs: seq<Req>, los: seq<nat>, budget: int, s: Store, slots: nat)
    requires s.view == map[] && s.ps >= 3 && |s.free| == n >= 2 && n < budget && n < slots + |reqs|
    requires Dealt(Prompts(n + 1), reqs, los, budget) && StartsAt(Prompts(n + 1), los, map[], s.ps)
    requires Stopped(s, slots, Prompts(n + 1), los, budget - Extends(reqs), 0)
    ensures |reqs| == n + 1 && forall j :: 0 <= j < |reqs| ==> reqs[j].cachedLen == 0 && reqs[j].deviceLen == 1
  {
    hide Dealt, StartsAt, Refused, Reserved, Extends;
    SmallParts(n + 1, reqs, los, budget, s.ps);
    if |reqs| <= n {
      NextFits(s, slots, Prompts(n + 1)[|reqs|], |reqs|);
    }
  }

  /** A scheduler at rest with nothing but such prompts to do, one more than there are pages. */
  ghost predicate Loaded(s: Scheduler, numPages: nat, taken: nat)
    reads s, s.cacheManager, s.cacheManager.prefixCache, s.tableManager, s.prefillManager
  {
    && s.prefillManager.pendingList == Prompts(taken) && s.live == {} && numPages < |s.tableManager.freeSlots|
    && s.cacheManager.pageSize >= 3 && s.cacheManager.prefixCache.view == map[] && |s.cacheManager.AllFree()| == numPages
    && numPages < s.prefillBudget && 2 <= s.maxSeqLen
  }

  method Load(s: Scheduler, numPages: nat)
    requires s.AtRest(None) && Loaded(s, numPages, 0)
    modifies s.prefillManager`pendingList
    ensures s.AtRest(None) && Loaded(s, numPages, numPages + 1)
  {
    hide Scheduler.AtRest;
    var i := 0;
    while i <= numPages
      invariant 0 <= i <= numPages + 1 && s.AtRest(None) && Loaded(s, numPages, i)
    {
      s.AcceptPrompt(UserMsg(i, [0], 1, true), None);
      assert s.prefillManager.pendingList == Prompts(i + 1);
      i := i + 1;
    }
  }

  /**
   * A scheduler with at least three tokens a page fails on its first batch: as many prompts as there are pages,
   * and one more, are admitted together, and then the pages do not suffice.
   */
  method FailingRun(maxRunningReqs: nat, numPages: nat, pageSize: nat, pageTable: Table, width: nat, maxSeqLen: nat,
                    prefillBudget: int, eosTokenId: int) returns (ok: bool)
    requires pageSize >= 3 && numPages >= 2
    requires Aligned(width, pageSize) && TableManagement.Rect(pageTable, width)
    requires 2 <= maxSeqLen <= width && maxSeqLen <= numPages * pageSize
    requires numPages < maxRunningReqs <= pageTable.Length && numPages < prefillBudget
    modifies pageTable
    ensures !ok
  {
    hide Scheduler.AtRest;
    var s := new Scheduler(maxRunningReqs, numPages, pageSize, pageTable, width, maxSeqLen, prefillBudget, eosTokenId);
    assert |Pages.AllPages(numPages, pageSize)| == numPages;
    Load(s, numPages);
    ok := RunLoaded(s, numPages);
  }

  /** What the scheduler does next: it picks a batch and prepares it. */
  method RunLoaded(s: Scheduler, numPages: nat) returns (ok: bool)
    requires s.Wires() && s.AtRest(None) && Loaded(s, numPages, numPages + 1) && numPages >= 2
    modifies s`live, s.prefillManager`pendingList, s.cacheManager`freeSlots
    modifies s.cacheManager.prefixCache`nodes, s.cacheManager.prefixCache`view, s.cacheManager.prefixCache`locks
    modifies s.cacheManager.prefixCache`evictableSize, s.cacheManager.prefixCache`protectedSize
    modifies s.cacheManager.prefixCache.nodes`key, s.cacheManager.prefixCache.nodes`value, s.cacheManager.prefixCache.nodes`parent
    modifies s.cacheManager.prefixCache.nodes`children, s.cacheManager.prefixCache.nodes`timestamp, s.cacheManager.prefixCache.nodes`refCount
    modifies s.tableManager`freeSlots, s.cacheManager.pageTable, s.tableManager.tokenPool
    ensures !ok
  {
    hide Scheduler.AtRest, Scheduler.Wires, Scheduler.Manned, Scheduler.Chosen, Statuses, Dealt, StartsAt, Stopped, Extends;
    hide Scheduler.PagesNeeded, Scheduler.HeadTurnedAway, Elements;
    s.SlotsAtRest(None);
    var batch;
    ghost var los;
    batch, los := s.PickBatch(None);
    s.ChosenDealt(batch.value, los, old(s.prefillManager.pendingList), old(s.live), old(s.cacheManager.prefixCache.view));
    var reqs := batch.value.reqs;
    s.SlotsManned(reqs, None);
    AllTaken(numPages, reqs, los, s.prefillBudget, s.cacheManager.StoreOf(map[]), |s.tableManager.freeSlots|);
    OnePageEach(s, reqs);
    var prepared;
    ok, prepared := s.PrepareBatch(batch.value, None);
  }
}
