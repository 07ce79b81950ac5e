/** How much is left to do, and why every batch leaves less. */
module Progress {
  import opened PrefixStore
  import opened Sums
  import opened Core
  import opened Decoding
  import opened Prefill

  /** The tokens of waiting prompts and of their outputs. */
  ghost function WholeWork(pending: seq<PendingReq>): nat
  {
    if pending == [] then 0 else |pending[0].inputIds| + pending[0].maxTokens + WholeWork(pending[1..])
  }

  /** What the prompt at the head has been computed of. */
  ghost function HeadStart(pending: seq<PendingReq>): nat
    reads set r | r in CarriedFirst(pending) :: r`cachedLen
  {
    if pending == [] || pending[0].chunkedReq == null then 0 else pending[0].chunkedReq.cachedLen
  }

  /** Tokens of prompts that wait to be computed, and of their outputs. */
  ghost function PendingWork(pending: seq<PendingReq>): int
    reads set r | r in CarriedFirst(pending) :: r`cachedLen
  {
    WholeWork(pending) - HeadStart(pending)
  }

  /** The output that the prompts completed by a batch still have to produce. */
  ghost function Handed(pending: seq<PendingReq>, reqs: seq<Req>): nat
    requires |reqs| <= |pending|
  {
    if reqs == [] then 0
    else
      var n := |reqs| - 1;
      Handed(pending, reqs[..n]) + if reqs[n].chunked then 0 else pending[n].maxTokens
  }

  lemma {:induction false} WholeWorkSplit(a: seq<PendingReq>, b: seq<PendingReq>)
    ensures WholeWork(a + b) == WholeWork(a) + WholeWork(b)
    decreases |a|
  {
    if a == [] {
      assert a + b == b;
    } else {
      assert (a + b)[1..] == a[1..] + b;
      WholeWorkSplit(a[1..], b);
    }
  }

  /** The prompts of a batch hold at least the output they hand on, and the tokens of the first of them. */
  lemma {:induction false} WholeWorkAtLeast(pending: seq<PendingReq>, reqs: seq<Req>)
    requires |reqs| <= |pending|
    ensures WholeWork(pending[..|reqs|]) >= Handed(pending, reqs) + if reqs == [] then 0 else |pending[0].inputIds|
    decreases |reqs|
  {
    if reqs != [] {
      var n := |reqs| - 1;
      WholeWorkAtLeast(pending, reqs[..n]);
      assert pending[..n + 1] == pending[..n] + [pending[n]];
      WholeWorkSplit(pending[..n], [pending[n]]);
      assert WholeWork([pending[n]]) == |pending[n].inputIds| + pending[n].maxTokens;
    }
  }

  lemma {:induction false} TotalWithin<K>(n: map<K, int>, m: map<K, int>)
    requires n.Keys <= m.Keys && (forall k :: k in m ==> m[k] >= 0) && forall k :: k in n ==> n[k] <= m[k]
    ensures Total(n) <= Total(m)
    decreases |m|
  {
    if m != map[] {
      var k :| k in m;
      TotalWithout(m, k);
      if k in n {
        TotalWithout(n, k);
        TotalWithin(n - {k}, m - {k});
      } else {
        TotalWithin(n, m - {k});
      }
    }
  }

  /** Everyone in `m` loses at least one, or leaves with what is left. */
  lemma {:induction false} TotalDrops<K>(n: map<K, int>, m: map<K, int>)
    requires n.Keys <= m.Keys && (forall k :: k in m ==> m[k] >= 1) && forall k :: k in n ==> n[k] <= m[k] - 1
    ensures Total(n) + |m| <= Total(m)
    decreases |m|
  {
    if m != map[] {
      var k :| k in m;
      TotalWithout(m, k);
      assert |m - {k}| == |m| - 1 by { assert (m - {k}).Keys == m.Keys - {k}; assert |m.Keys - {k}| == |m.Keys| - 1; }
      if k in n {
        TotalWithout(n, k);
        TotalDrops(n - {k}, m - {k});
      } else {
        TotalDrops(n, m - {k});
      }
    }
  }

  /** Who joins the running requests brings at most the output of its prompt. */
  lemma {:induction false} JoinersBring(pending: seq<PendingReq>, reqs: seq<Req>, m: map<Req, int>, n: map<Req, int>)
    requires |reqs| <= |pending| && NoDup(reqs) && (forall k :: k in m ==> m[k] >= 0)
    requires forall k :: k in n ==> k in m || (k in reqs && !k.chunked)
    requires forall k :: k in n && k in m ==> n[k] <= m[k]
    requires forall j :: 0 <= j < |reqs| && reqs[j] in n ==> reqs[j] !in m && n[reqs[j]] <= pending[j].maxTokens
    ensures Total(n) <= Total(m) + Handed(pending, reqs)
    decreases |reqs|
  {
    if reqs == [] {
      TotalWithin<Req>(n, m);
    } else {
      var r := reqs[|reqs| - 1];
      if r in n {
        TotalWithout<Req>(n, r);
        assert r in reqs && !r.chunked;
        JoinersBring(pending, reqs[..|reqs| - 1], m, n - {r});
      } else {
        JoinersBring(pending, reqs[..|reqs| - 1], m, n);
      }
    }
  }

  /** A batch of prompts leaves less to wait for, by more than it adds to what is running. */
  lemma PrefillShrinks(pending: seq<PendingReq>, reqs: seq<Req>, before: nat)
    requires 0 < |reqs| <= |pending| && before < |pending[0].inputIds|
    requires forall j :: 0 <= j < |reqs| - 1 ==> !reqs[j].chunked
    requires reqs[|reqs| - 1].chunked && |reqs| == 1 ==> before < reqs[0].cachedLen
    ensures PendingWork(Rest(pending, reqs)) + Handed(pending, reqs) < WholeWork(pending) - before
  {
    var n := |reqs|;
    WholeWorkSplit(pending[..n], pending[n..]);
    assert pending == pending[..n] + pending[n..];
    WholeWorkAtLeast(pending, reqs);
    if reqs[n - 1].chunked {
      var p := pending[n - 1].(chunkedReq := reqs[n - 1]);
      WholeWorkSplit([p], pending[n..]);
      assert WholeWork([p]) == |p.inputIds| + p.maxTokens;
      WholeWorkAtLeast(pending, reqs[..n - 1]);
      assert pending[..n] == pending[..n - 1] + [pending[n - 1]];
      WholeWorkSplit(pending[..n - 1], [pending[n - 1]]);
      assert WholeWork([pending[n - 1]]) == WholeWork([p]);
      assert Rest(pending, reqs) == [p] + pending[n..];
    } else {
      assert Rest(pending, reqs) == pending[n..];
    }
  }

  /** A chunk uses the budget up, so only the last request of a batch can be one. */
  lemma OnlyLastChunked(pending: seq<PendingReq>, reqs: seq<Req>, los: seq<nat>, budget: int)
    requires Dealt(pending, reqs, los, budget)
    ensures forall j :: 0 <= j < |reqs| - 1 ==> !reqs[j].chunked
  {
    hide NoDup;
    forall j | 0 <= j < |reqs| - 1 ensures !reqs[j].chunked {
      assert NextPart(reqs[j], pending[j], los[j], budget - Extends(reqs[..j]));
      assert NextPart(reqs[j + 1], pending[j + 1], los[j + 1], budget - Extends(reqs[..j + 1]));
      assert reqs[..j + 1] == reqs[..j] + [reqs[j]];
      ExtendsMore(reqs[..j], reqs[j]);
    }
  }

  /** What a batch of prompts leaves behind once it has run. */
  twostate lemma PrefillProgress(pending: seq<PendingReq>, new reqs: seq<Req>, new los: seq<nat>, new budget: int, new before: nat,
                                 new running0: set<Req>, new running: set<Req>)
    requires old(allocated(reqs)) && old(allocated(running0)) && old(allocated(running))
    requires reqs != [] && old(Dealt(pending, reqs, los, budget)) && before <= los[0]
    requires forall r :: r in reqs ==> r.cachedLen == old(r.deviceLen) && r.deviceLen == old(r.deviceLen) + 1
    requires forall r :: r in running0 ==> r !in reqs && r.deviceLen == old(r.deviceLen) && r.RemainLen() >= 0
    requires forall r :: r in running ==> r in running0 || (r in reqs && !r.chunked)
    ensures PendingWork(Rest(pending, reqs)) + Total(Remains(running)) < WholeWork(pending) - before + old(Total(Remains(running0)))
  {
    hide Rest, WholeWork, Handed, PendingWork, Total, NoDup, Extends;
    OldFacts(pending, reqs, los, budget);
    PrefillShrinks(pending, reqs, before);
    JoinersBring(pending, reqs, Remains(running0), Remains(running));
    assert Remains(running0) == old(Remains(running0));
  }

  twostate lemma OldFacts(pending: seq<PendingReq>, new reqs: seq<Req>, new los: seq<nat>, new budget: int)
    requires old(allocated(reqs))
    requires reqs != [] && old(Dealt(pending, reqs, los, budget))
    ensures |los| == |reqs| <= |pending| && NoDup(reqs) && forall j :: 0 <= j < |reqs| - 1 ==> !reqs[j].chunked
    ensures los[0] < |pending[0].inputIds| && los[0] < old(reqs[0].deviceLen)
    ensures forall j :: 0 <= j < |reqs| ==> reqs[j].maxDeviceLen == old(reqs[j].deviceLen) + pending[j].maxTokens
  {
    hide NoDup;
    OldOnlyLast(pending, reqs, los, budget);
    assert old(NextPart(reqs[0], pending[0], los[0], budget - Extends(reqs[..0])));
    forall j | 0 <= j < |reqs| ensures reqs[j].maxDeviceLen == old(reqs[j].deviceLen) + pending[j].maxTokens {
      assert old(NextPart(reqs[j], pending[j], los[j], budget - Extends(reqs[..j])));
    }
  }

  twostate lemma OldOnlyLast(pending: seq<PendingReq>, new reqs: seq<Req>, new los: seq<nat>, new budget: int)
    requires old(allocated(reqs))
    requires old(Dealt(pending, reqs, los, budget))
    ensures forall j :: 0 <= j < |reqs| - 1 ==> !reqs[j].chunked
  {
    hide NoDup;
    forall j | 0 <= j < |reqs| - 1 ensures !reqs[j].chunked {
      assert old(NextPart(reqs[j], pending[j], los[j], budget - Extends(reqs[..j])));
      assert old(NextPart(reqs[j + 1], pending[j + 1], los[j + 1], budget - Extends(reqs[..j + 1])));
      assert reqs[..j + 1][..j] == reqs[..j];
      assert old(Extends(reqs[..j + 1])) == old(Extends(reqs[..j])) + old(reqs[j].deviceLen - reqs[j].cachedLen);
    }
  }

  /** What a round of decoding leaves behind. */
  twostate lemma DecodeProgress(reqs: seq<Req>, new running0: set<Req>, new running: set<Req>)
    requires old(allocated(running0)) && old(allocated(running))
    requires Elements(reqs) == running0 != {} && forall r :: r in reqs ==>
      r.deviceLen == old(r.deviceLen) + 1 && old(r.RemainLen()) > 0
    requires running <= running0
    ensures Total(Remains(running)) < old(Total(Remains(running0)))
  {
    hide Total;
    var m, n := old(Remains(running0)), Remains(running);
    forall k | k in m ensures k in reqs { assert k in Elements(reqs); }
    TotalDrops<Req>(n, m);
    assert m.Keys == running0;
  }
}
