/** Who has been accepted: every prompt holds one ticket, as a waiting prompt, as a live request, or as one that has left. */
module Tickets {
  import opened PrefixStore
  import Sums
  import opened Core
  import opened Prefill

  datatype Ticket = Ticket(uid: int, prompt: seq<int>, outputLen: int, ignoreEos: bool)

  ghost function TicketOf(r: Req): Ticket
  {
    Ticket(r.uid, r.prompt, r.goal - r.promptLen, r.ignoreEos)
  }

  ghost function Waiting(pending: seq<PendingReq>): multiset<Ticket>
  {
    if pending == [] then multiset{}
    else
      var p := pending[|pending| - 1];
      Waiting(pending[..|pending| - 1]) + multiset{Ticket(p.uid, p.inputIds, p.maxTokens, p.ignoreEos)}
  }

  /** A chunk holds no ticket of its own: its prompt is still waiting. */
  ghost function TicketMap(live: set<Req>): map<Req, multiset<Ticket>>
  {
    map r | r in live && !r.chunked :: multiset{TicketOf(r)}
  }

  ghost function Seats(live: set<Req>): multiset<Ticket>
  {
    Sums.Bag(TicketMap(live))
  }

  ghost function Gone(released: seq<Req>): multiset<Ticket>
  {
    if released == [] then multiset{}
    else
      var r := released[|released| - 1];
      Gone(released[..|released| - 1]) + if r.chunked then multiset{} else multiset{TicketOf(r)}
  }

  lemma {:induction false} WaitingConcat(a: seq<PendingReq>, b: seq<PendingReq>)
    ensures Waiting(a + b) == Waiting(a) + Waiting(b)
    decreases |b|
  {
    if b == [] {
      assert a + b == a;
    } else {
      assert (a + b)[..|a + b| - 1] == a + b[..|b| - 1];
      WaitingConcat(a, b[..|b| - 1]);
    }
  }

  lemma {:induction false} GoneConcat(a: seq<Req>, b: seq<Req>)
    ensures Gone(a + b) == Gone(a) + Gone(b)
    decreases |b|
  {
    if b == [] {
      assert a + b == a;
    } else {
      assert (a + b)[..|a + b| - 1] == a + b[..|b| - 1];
      GoneConcat(a, b[..|b| - 1]);
    }
  }

  lemma TicketMapMore(live: set<Req>, r: Req)
    requires r !in live
    ensures r !in TicketMap(live)
    ensures r.chunked ==> TicketMap(live + {r}) == TicketMap(live)
    ensures !r.chunked ==> TicketMap(live + {r}) == TicketMap(live)[r := multiset{TicketOf(r)}]
  {
    hide TicketOf;
  }

  lemma SeatTaken(live: set<Req>, r: Req)
    requires r !in live
    ensures Seats(live + {r}) == Seats(live) + if r.chunked then multiset{} else multiset{TicketOf(r)}
  {
    hide Sums.Bag, TicketOf, TicketMap;
    TicketMapMore(live, r);
    if !r.chunked {
      Sums.BagSet<Req, Ticket>(TicketMap(live), r, multiset{TicketOf(r)});
    }
  }

  lemma Regroup3(a: multiset<Ticket>, b: multiset<Ticket>, c: multiset<Ticket>)
    ensures (a + b) + c == a + (c + b) == (a + c) + b && (a + b) + c == a + (b + c) && a + multiset{} == a
  {
  }

  /** Whoever leaves takes his ticket along. */
  lemma {:induction false} SeatsLeft(live: set<Req>, gone: seq<Req>)
    requires NoDup(gone) && Elements(gone) <= live
    ensures Seats(live) == Seats(live - Elements(gone)) + Gone(gone)
    decreases |gone|
  {
    hide Seats, TicketOf;
    if gone == [] {
      assert live - Elements(gone) == live;
    } else {
      var n := |gone| - 1;
      var r := gone[n];
      assert Elements(gone) == Elements(gone[..n]) + {r} && r !in Elements(gone[..n]) by {
        assert gone == gone[..n] + [r];
      }
      assert r in live;
      SeatsLeft(live, gone[..n]);
      assert live - Elements(gone[..n]) == (live - Elements(gone)) + {r};
      SeatTaken(live - Elements(gone), r);
      Regroup3(Seats(live - Elements(gone)), if r.chunked then multiset{} else multiset{TicketOf(r)}, Gone(gone[..n]));
    }
  }

  lemma NoneWaits()
    ensures Waiting([]) == multiset{}
  {
  }

  lemma WaitingOne(pending: seq<PendingReq>, n: nat)
    requires n < |pending|
    ensures var p := pending[n];
      Waiting(pending[..n + 1]) == Waiting(pending[..n]) + multiset{Ticket(p.uid, p.inputIds, p.maxTokens, p.ignoreEos)}
  {
    assert pending[..n + 1][..n] == pending[..n];
  }

  lemma NoDupShorter(reqs: seq<Req>)
    requires NoDup(reqs)
    ensures reqs != [] ==> NoDup(reqs[..|reqs| - 1]) && reqs[|reqs| - 1] !in reqs[..|reqs| - 1]
  {
  }

  /** What a request of a batch is called by is what its prompt is called by. */
  ghost predicate Named(pending: seq<PendingReq>, reqs: seq<Req>)
  {
    && |reqs| <= |pending|
    && forall j :: 0 <= j < |reqs| ==>
      TicketOf(reqs[j]) == Ticket(pending[j].uid, pending[j].inputIds, pending[j].maxTokens, pending[j].ignoreEos)
  }

  /** The prompts of a batch hand their tickets to its requests. */
  lemma {:induction false} SeatsJoined(live: set<Req>, pending: seq<PendingReq>, reqs: seq<Req>)
    requires NoDup(reqs) && Named(pending, reqs) && forall r :: r in reqs ==> r !in live
    requires forall j :: 0 <= j < |reqs| - 1 ==> !reqs[j].chunked
    ensures Seats(live + Elements(reqs)) + (if reqs != [] && reqs[|reqs| - 1].chunked then multiset{TicketOf(reqs[|reqs| - 1])} else multiset{})
         == Seats(live) + Waiting(pending[..|reqs|])
    decreases |reqs|
  {
    hide Seats, TicketOf, NoDup, Waiting;
    NoDupShorter(reqs);
    if reqs == [] {
      assert live + Elements(reqs) == live && pending[..|reqs|] == [];
      NoneWaits();
    } else {
      var n := |reqs| - 1;
      var r := reqs[n];
      assert Elements(reqs) == Elements(reqs[..n]) + {r} by { assert reqs == reqs[..n] + [r]; }
      SeatsJoined(live, pending, reqs[..n]);
      assert live + Elements(reqs) == (live + Elements(reqs[..n])) + {r};
      SeatTaken(live + Elements(reqs[..n]), r);
      WaitingOne(pending, n);
      assert reqs[..|reqs|] == reqs && TicketOf(reqs[n]) == Ticket(pending[n].uid, pending[n].inputIds, pending[n].maxTokens, pending[n].ignoreEos);
      if n > 0 { assert reqs[..n][n - 1] == reqs[n - 1]; }
      Regroup3(Seats(live + Elements(reqs[..n])), multiset{}, multiset{});
      assert Seats(live + Elements(reqs[..n])) == Seats(live) + Waiting(pending[..n]);
      var mine := multiset{TicketOf(r)};
      assert Waiting(pending[..|reqs|]) == Waiting(pending[..n]) + mine;
      Regroup3(Seats(live), Waiting(pending[..n]), mine);
      assert Seats(live + Elements(reqs)) + (if r.chunked then mine else multiset{}) == Seats(live + Elements(reqs[..n])) + mine;
    }
  }

  /** Scheduling a batch of prompts moves tickets from the waiting list to the seats, and loses none. */
  lemma BatchKeepsTickets(pending: seq<PendingReq>, reqs: seq<Req>, live: set<Req>, live': set<Req>)
    requires reqs != [] && NoDup(reqs) && Named(pending, reqs) && forall r :: r in reqs ==> r !in live
    requires forall j :: 0 <= j < |reqs| - 1 ==> !reqs[j].chunked
    requires forall r :: r in CarriedFirst(pending) ==> r.chunked
    requires live' == live - CarriedFirst(pending) + Elements(reqs)
    ensures Waiting(Rest(pending, reqs)) + Seats(live') == Waiting(pending) + Seats(live)
  {
    hide Seats, TicketOf, NoDup, Waiting, ChunkLeft;
    var rest := live - CarriedFirst(pending);
    ChunksHoldNone(live, CarriedFirst(pending));
    SeatsJoined(rest, pending, reqs);
    WaitingConcat(pending[..|reqs|], pending[|reqs|..]);
    assert pending == pending[..|reqs|] + pending[|reqs|..];
    WaitingConcat(ChunkLeft(pending, reqs), pending[|reqs|..]);
    ChunkWaits(pending, reqs);
    var chunk := if reqs[|reqs| - 1].chunked then multiset{TicketOf(reqs[|reqs| - 1])} else multiset{};
    MoveOver(Waiting(pending[..|reqs|]), Waiting(pending[|reqs|..]), chunk, Seats(live'), Seats(live));
  }

  lemma MoveOver(front: multiset<Ticket>, back: multiset<Ticket>, chunk: multiset<Ticket>, seats': multiset<Ticket>,
                 seats: multiset<Ticket>)
    requires seats' + chunk == seats + front
    ensures (chunk + back) + seats' == (front + back) + seats
  {
    assert (chunk + back) + seats' == (seats' + chunk) + back;
  }

  lemma ChunksHoldNone(live: set<Req>, chunks: set<Req>)
    requires forall r :: r in chunks ==> r.chunked
    ensures Seats(live - chunks) == Seats(live)
  {
    assert TicketMap(live - chunks) == TicketMap(live);
  }

  lemma ChunkWaits(pending: seq<PendingReq>, reqs: seq<Req>)
    requires reqs != [] && Named(pending, reqs)
    ensures Waiting(ChunkLeft(pending, reqs)) == if reqs[|reqs| - 1].chunked then multiset{TicketOf(reqs[|reqs| - 1])} else multiset{}
  {
    var n := |reqs| - 1;
    if reqs[n].chunked {
      var p := pending[n].(chunkedReq := reqs[n]);
      assert Waiting([p]) == Waiting([p][..0]) + multiset{Ticket(p.uid, p.inputIds, p.maxTokens, p.ignoreEos)};
    }
  }

  lemma PartsNamed(pending: seq<PendingReq>, reqs: seq<Req>, los: seq<nat>, budget: int)
    requires Dealt(pending, reqs, los, budget)
    ensures Named(pending, reqs)
  {
    hide NoDup;
    forall j | 0 <= j < |reqs|
      ensures TicketOf(reqs[j]) == Ticket(pending[j].uid, pending[j].inputIds, pending[j].maxTokens, pending[j].ignoreEos)
    {
      assert NextPart(reqs[j], pending[j], los[j], budget - Extends(reqs[..j]));
    }
  }
}
