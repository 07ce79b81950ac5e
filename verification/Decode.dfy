/** The requests that are being decoded. */
module Decoding {
  import opened Options
  import opened PrefixStore
  import Sums
  import opened Core

  ghost function Remains(reqs: set<Req>): map<Req, int>
    reads reqs`deviceLen
  {
    map r | r in reqs :: r.RemainLen()
  }

  ghost predicate SortedByUid(reqs: seq<Req>)
  {
    forall i, j :: 0 <= i < j < |reqs| ==> reqs[i].uid <= reqs[j].uid
  }

  lemma LeastUid(reqs: set<Req>) returns (least: Req)
    requires reqs != {}
    ensures least in reqs && forall r :: r in reqs ==> least.uid <= r.uid
  {
    least :| least in reqs;
    var rest := reqs - {least};
    assert forall r :: r in reqs ==> r == least || r in rest;
    if rest != {} {
      var other := LeastUid(rest);
      if other.uid < least.uid { least := other; }
    }
  }

  class DecodeManager {
    const pageSize: nat
    var runningReqs: set<Req>

    constructor (pageSize: nat)
      ensures this.pageSize == pageSize && runningReqs == {}
    {
      this.pageSize, runningReqs := pageSize, {};
    }

    method FilterReqs(reqs: seq<Req>)
      modifies this`runningReqs
      ensures forall r :: r in runningReqs <==> r in old(runningReqs) + Elements(reqs) && r.CanDecode()
    {
      var all := runningReqs + set r | r in reqs;
      runningReqs := set r | r in all && r.CanDecode();
    }

    method RemoveReq(req: Req)
      modifies this`runningReqs
      ensures runningReqs == old(runningReqs) - {req}
    {
      runningReqs := runningReqs - {req};
    }

    method AbortReq(uid: int) returns (req: Req?)
      modifies this`runningReqs
      ensures req == null <==> forall r :: r in old(runningReqs) ==> r.uid != uid
      ensures req == null ==> runningReqs == old(runningReqs)
      ensures req != null ==> req in old(runningReqs) && req.uid == uid && runningReqs == old(runningReqs) - {req}
    {
      req := null;
      var rest := runningReqs;
      while rest != {}
        invariant rest <= runningReqs == old(runningReqs) && forall r :: r in runningReqs - rest ==> r.uid != uid
        decreases |rest|
      {
        var r :| r in rest;
        if r.uid == uid {
          runningReqs := runningReqs - {r};
          return r;
        }
        rest := rest - {r};
      }
    }

    /** The tokens still to come, and the unused part of a page for each running request. */
    ghost function Inflight(): int
      reads this`runningReqs, runningReqs`deviceLen
    {
      InflightOf(runningReqs)
    }

    ghost function InflightOf(reqs: set<Req>): int
      reads reqs`deviceLen
    {
      Sums.Total(Remains(reqs)) + (pageSize - 1) * |reqs|
    }

    /** Each running request counts for itself: what it still has to compute, and all but one token of a page. */
    lemma InflightJoins(reqs: set<Req>, r: Req)
      requires r !in reqs
      ensures InflightOf({}) == 0
      ensures InflightOf(reqs + {r}) == InflightOf(reqs) + (r.maxDeviceLen - r.deviceLen) + (pageSize - 1)
    {
      hide Sums.Total;
      NothingRemains();
      Sums.TotalWithout(Remains(reqs + {r}), r);
      assert Remains(reqs + {r}) - {r} == Remains(reqs);
      assert |reqs + {r}| == |reqs| + 1;
      assert (pageSize - 1) * (|reqs| + 1) == (pageSize - 1) * |reqs| + (pageSize - 1);
    }

    lemma NothingRemains()
      ensures Remains({}) == map[] && Sums.Total(Remains({})) == 0
    {
      assert Remains({}) == map[];
    }

    method InflightTokens() returns (tokens: int)
      ensures tokens == Inflight()
    {
      var sum, rest := 0, runningReqs;
      while rest != {}
        invariant rest <= runningReqs && sum + Sums.Total(Remains(rest)) == Sums.Total(Remains(runningReqs))
        decreases |rest|
      {
        var r :| r in rest;
        Sums.TotalWithout(Remains(rest), r);
        assert Remains(rest) - {r} == Remains(rest - {r});
        sum := sum + r.RemainLen();
        rest := rest - {r};
      }
      assert Remains({}) == map[];
      tokens := sum + (pageSize - 1) * |runningReqs|;
    }

    predicate Runnable()
      reads this`runningReqs
    {
      |runningReqs| > 0
    }

    /** All running requests, by number. */
    method ScheduleNextBatch() returns (batch: Option<Batch>)
      ensures batch.None? <==> runningReqs == {}
      ensures batch.Some? ==>
        && !batch.value.isPrefill && Elements(batch.value.reqs) == runningReqs
        && NoDup(batch.value.reqs) && SortedByUid(batch.value.reqs)
    {
      if !Runnable() {
        return None;
      }
      var reqs: seq<Req>, rest: set<Req> := [], runningReqs;
      while rest != {}
        invariant rest <= runningReqs && Elements(reqs) == runningReqs - rest && NoDup(reqs) && SortedByUid(reqs)
        invariant forall r, q :: r in reqs && q in rest ==> r.uid <= q.uid
        decreases |rest|
      {
        ghost var least := LeastUid(rest);
        var r :| r in rest && forall q :: q in rest ==> r.uid <= q.uid;
        assert r !in Elements(reqs);
        assert Elements(reqs + [r]) == Elements(reqs) + {r};
        reqs, rest := reqs + [r], rest - {r};
      }
      batch := Some(Batch(reqs, false));
    }
  }
}
