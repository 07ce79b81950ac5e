/** The slots of the page table and of the token pool. */
module TableManagement {
  import PrefixStore
  import opened Core

  ghost predicate Rect(table: Table, width: nat)
    reads table
  {
    forall t :: 0 <= t < table.Length ==> |table[t]| == width
  }

  ghost function Overwritten(row: seq<int>, at: nat, part: seq<int>): seq<int>
  {
    if at + |part| <= |row| then row[..at] + part + row[at + |part|..] else row
  }

  lemma NothingOverwritten(rows: seq<seq<int>>, t: nat)
    requires t < |rows|
    ensures rows[t := Overwritten(rows[t], 0, [])] == rows
  {
    assert rows[t][..0] + [] + rows[t][0..] == rows[t];
  }

  /** One row of a table has a part overwritten, and nothing else has changed. */
  twostate predicate RowSet(table: Table, t: nat, at: nat, part: seq<int>)
    reads table
  {
    t < table.Length && table[..] == old(table[..])[t := Overwritten(old(table[t]), at, part)]
  }

  twostate predicate RowsStay(table: Table, live: set<Req>)
    reads table
  {
    forall r :: r in live && r.tableIdx < table.Length ==> table[r.tableIdx] == old(table[r.tableIdx])
  }

  /** The rows of other requests are as they were. */
  twostate lemma OtherRows(table: Table, new width: nat, new live: set<Req>, new t: nat, new at: nat, new part: seq<int>)
    requires old(allocated(live))
    requires old(Rect(table, width)) && RowSet(table, t, at, part)
    requires forall r :: r in live ==> r.tableIdx != t
    ensures Rect(table, width)
    ensures RowsStay(table, live)
  {
    var before, row := old(table[..]), Overwritten(old(table[t]), at, part);
    forall u | 0 <= u < table.Length ensures |table[u]| == width && (u != t ==> table[u] == old(table[u])) {
      assert table[u] == table[..][u] && before[u] == old(table[u]);
    }
  }

  twostate lemma RowSetHere(table: Table, new t: nat, new at: nat, new part: seq<int>)
    requires RowSet(table, t, at, part)
    ensures table[t] == Overwritten(old(table[t]), at, part)
  {
    assert table[t] == table[..][t];
  }

  lemma RectAt(table: Table, width: nat, t: nat)
    requires Rect(table, width) && t < table.Length
    ensures |table[t]| == width
  {
  }

  lemma OverwrittenPrefix(row: seq<int>, at: nat, part: seq<int>)
    requires at + |part| <= |row|
    ensures |Overwritten(row, at, part)| == |row|
    ensures Overwritten(row, at, part)[..at] == row[..at] && Overwritten(row, at, part)[at..at + |part|] == part
    ensures Overwritten(row, at, part)[..at + |part|] == row[..at] + part
  {
  }

  class TableManager {
    const maxRunningReqs: nat
    const pageTable: Table
    const tokenPool: Table
    const width: nat
    var freeSlots: seq<nat>

    constructor (maxRunningReqs: nat, pageTable: Table, width: nat)
      requires maxRunningReqs <= pageTable.Length && Rect(pageTable, width)
      ensures this.maxRunningReqs == maxRunningReqs && this.pageTable == pageTable && this.width == width
      ensures fresh(tokenPool) && tokenPool.Length == pageTable.Length && Rect(tokenPool, width)
      ensures Seats({})
    {
      this.maxRunningReqs, this.pageTable, this.width := maxRunningReqs, pageTable, width;
      freeSlots := seq(maxRunningReqs, i => i);
      var zeros := seq(width, _ => 0);
      tokenPool := new seq<int>[pageTable.Length](_ => zeros);
    }

    /** Every slot is either free, once, or the seat of exactly one live request. */
    ghost predicate Seats(live: set<Req>)
      reads this`freeSlots
    {
      && PrefixStore.NoDup(freeSlots) && |freeSlots| + |live| == maxRunningReqs
      && (forall s :: s in freeSlots ==> s < maxRunningReqs)
      && (forall r :: r in live ==> r.tableIdx < maxRunningReqs && r.tableIdx !in freeSlots)
      && (forall r, q :: r in live && q in live && r != q ==> r.tableIdx != q.tableIdx)
    }

    function AvailableSize(): nat
      reads this`freeSlots
    {
      |freeSlots|
    }

    method Allocate() returns (slot: nat)
      requires freeSlots != []
      modifies this`freeSlots
      ensures old(freeSlots) == freeSlots + [slot]
    {
      slot := freeSlots[|freeSlots| - 1];
      freeSlots := freeSlots[..|freeSlots| - 1];
    }

    method Free(slot: nat)
      modifies this`freeSlots
      ensures freeSlots == old(freeSlots) + [slot]
    {
      freeSlots := freeSlots + [slot];
    }

    /** A request that takes the slot just handed out is seated alone. */
    twostate lemma SeatTaken(live: set<Req>, new r: Req)
      requires old(Seats(live)) && r !in live && old(freeSlots) == freeSlots + [r.tableIdx]
      ensures Seats(live + {r})
    {
      assert r.tableIdx in old(freeSlots);
      forall s | s in freeSlots ensures s in old(freeSlots) && s != r.tableIdx {
        var i :| 0 <= i < |freeSlots| && freeSlots[i] == s;
        assert old(freeSlots)[i] == s && old(freeSlots)[|freeSlots|] == r.tableIdx;
      }
      forall i, j | 0 <= i < j < |freeSlots| ensures freeSlots[i] != freeSlots[j] {
        assert old(freeSlots)[i] == freeSlots[i] && old(freeSlots)[j] == freeSlots[j];
      }
    }

    twostate lemma SeatLeft(live: set<Req>, new r: Req)
      requires old(allocated(r))
      requires old(Seats(live)) && r in live && freeSlots == old(freeSlots) + [r.tableIdx]
      ensures Seats(live - {r})
    {
      forall i, j | 0 <= i < j < |freeSlots| ensures freeSlots[i] != freeSlots[j] {
        assert freeSlots[i] == old(freeSlots)[i];
        assert freeSlots[i] in old(freeSlots);
      }
    }

    /** The next chunk of a prompt sits where the last one did. */
    lemma SeatKept(live: set<Req>, q: Req, r: Req)
      requires Seats(live) && q in live && r !in live && r.tableIdx == q.tableIdx
      ensures Seats(live - {q} + {r})
    {
    }
  }
}
