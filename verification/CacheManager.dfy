/**
 The manager of KV pages: it hands pages to requests, writes their page-table
 rows, and gives pages back to the prefix tree or to the free list.
 */
module CacheManagement {
  import opened Alignment
  import opened PrefixStore
  import opened Pages
  import opened World
  import opened RadixCache
  import opened Core

  /** Pages `[firstPage, lastPage)` of one row are to be backed. */
  datatype AllocInfo = AllocInfo(tableIdx: nat, firstPage: nat, lastPage: nat)

  // ---- the scatter into the page table ----

  ghost function Spliced(row: seq<int>, at: nat, slots: seq<int>): seq<int>
  {
    if at + |slots| <= |row| then row[..at] + slots + row[at + |slots|..] else row
  }

  ghost function Repeat(t: nat, n: nat): seq<nat>
  {
    seq(n, _ => t)
  }

  ghost function RowIdxs(infos: seq<AllocInfo>, ps: nat): seq<nat>
  {
    if infos == [] then [] else Repeat(infos[0].tableIdx, Width(infos[0], ps)) + RowIdxs(infos[1..], ps)
  }

  ghost function Positions(infos: seq<AllocInfo>, ps: nat): seq<int>
  {
    if infos == [] then [] else Run(infos[0].firstPage * ps, Width(infos[0], ps)) + Positions(infos[1..], ps)
  }

  function Width(info: AllocInfo, ps: nat): nat
  {
    if info.firstPage <= info.lastPage then (info.lastPage - info.firstPage) * ps else 0
  }

  ghost function Widths(infos: seq<AllocInfo>, ps: nat): nat
  {
    if infos == [] then 0 else Width(infos[0], ps) + Widths(infos[1..], ps)
  }

  /** Indexed assignment, one element after the other. */
  ghost function Scatter(rows: seq<seq<int>>, idxs: seq<nat>, positions: seq<int>, slots: seq<int>): seq<seq<int>>
    requires |idxs| == |positions| == |slots|
    decreases |idxs|
  {
    if idxs == [] then rows else Scatter(Put(rows, idxs[0], positions[0], slots[0]), idxs[1..], positions[1..], slots[1..])
  }

  ghost function Put(rows: seq<seq<int>>, t: nat, p: int, x: int): seq<seq<int>>
  {
    if t < |rows| && 0 <= p < |rows[t]| then rows[t := rows[t][p := x]] else rows
  }

  /** What the scatter is for: each row gets its stretch of slots. */
  ghost function WrittenOne(rows: seq<seq<int>>, i: AllocInfo, slots: seq<int>, ps: nat): seq<seq<int>>
  {
    if i.tableIdx < |rows| then rows[i.tableIdx := Spliced(rows[i.tableIdx], i.firstPage * ps, slots)] else rows
  }

  ghost function WriteRows(rows: seq<seq<int>>, infos: seq<AllocInfo>, slots: seq<int>, ps: nat): seq<seq<int>>
    requires |slots| == Widths(infos, ps)
    decreases |infos|
  {
    if infos == [] then rows
    else
      var n := Width(infos[0], ps);
      WriteRows(WrittenOne(rows, infos[0], slots[..n], ps), infos[1..], slots[n..], ps)
  }

  ghost predicate InTable(rows: seq<seq<int>>, i: AllocInfo, ps: nat)
  {
    i.tableIdx < |rows| && i.firstPage * ps + Width(i, ps) <= |rows[i.tableIdx]|
  }

  lemma WriteNothing(rows: seq<seq<int>>, ps: nat)
    ensures PageToToken([], ps) == [] && WriteRows(rows, [], [], ps) == rows
  {
  }

  lemma RowIdxsLength(infos: seq<AllocInfo>, ps: nat)
    ensures |RowIdxs(infos, ps)| == |Positions(infos, ps)| == Widths(infos, ps)
  {
  }

  lemma SplicedStep(row: seq<int>, at: nat, slots: seq<int>)
    requires 0 < |slots| && at + |slots| <= |row|
    ensures Spliced(row[at := slots[0]], at + 1, slots[1..]) == Spliced(row, at, slots)
  {
    assert row[at := slots[0]][..at + 1] == row[..at] + [slots[0]];
    assert row[at := slots[0]][at + |slots|..] == row[at + |slots|..];
    assert slots == [slots[0]] + slots[1..];
  }

  lemma SplicedNothing(row: seq<int>, at: nat)
    ensures Spliced(row, at, []) == row
  {
    if at <= |row| { assert row[..at] + row[at..] == row; }
  }

  /** Consecutive positions of one row, written one by one, are one stretch. */
  lemma {:induction false} ScatterRun(rows: seq<seq<int>>, t: nat, at: nat, slots: seq<int>,
                                      idxs: seq<nat>, positions: seq<int>, rest: seq<int>)
    requires t < |rows| && at + |slots| <= |rows[t]| && |idxs| == |positions| == |rest|
    ensures Scatter(rows, Repeat(t, |slots|) + idxs, Run(at, |slots|) + positions, slots + rest)
         == Scatter(rows[t := Spliced(rows[t], at, slots)], idxs, positions, rest)
    decreases |slots|
  {
    hide Spliced, Scatter, Repeat, Run;
    var n := |slots|;
    if n == 0 {
      NoRun(t, at, idxs, positions);
      SplicedNothing(rows[t], at);
      assert slots == [] && [] + rest == rest;
      assert rows[t := rows[t]] == rows;
    } else {
      var next := rows[t := rows[t][at := slots[0]]];
      ScatterRun(next, t, at + 1, slots[1..], idxs, positions, rest);
      RunStep(t, at, n, idxs, positions);
      assert (slots + rest)[1..] == slots[1..] + rest;
      ScatterStep(rows, Repeat(t, n) + idxs, Run(at, n) + positions, slots + rest);
      SplicedStep(rows[t], at, slots);
      assert next[t := Spliced(next[t], at + 1, slots[1..])] == rows[t := Spliced(rows[t], at, slots)];
    }
  }

  lemma NoRun(t: nat, at: nat, idxs: seq<nat>, positions: seq<int>)
    ensures Repeat(t, 0) + idxs == idxs && Run(at, 0) + positions == positions
  {
  }

  lemma RunStep(t: nat, at: nat, n: nat, idxs: seq<nat>, positions: seq<int>)
    requires n > 0
    ensures |Repeat(t, n) + idxs| == n + |idxs| && |Run(at, n) + positions| == n + |positions|
    ensures (Repeat(t, n) + idxs)[0] == t && (Run(at, n) + positions)[0] == at
    ensures (Repeat(t, n) + idxs)[1..] == Repeat(t, n - 1) + idxs
    ensures (Run(at, n) + positions)[1..] == Run(at + 1, n - 1) + positions
  {
  }

  lemma PutHere(rows: seq<seq<int>>, t: nat, p: nat, x: int)
    requires t < |rows| && p < |rows[t]|
    ensures Put(rows, t, p, x) == rows[t := rows[t][p := x]]
  {
  }

  lemma NothingScattered(rows: seq<seq<int>>)
    ensures Scatter(rows, [], [], []) == rows
  {
  }

  lemma ScatterStep(rows: seq<seq<int>>, idxs: seq<nat>, positions: seq<int>, slots: seq<int>)
    requires |idxs| == |positions| == |slots| > 0
    ensures Scatter(rows, idxs, positions, slots)
         == Scatter(Put(rows, idxs[0], positions[0], slots[0]), idxs[1..], positions[1..], slots[1..])
  {
  }

  lemma {:induction false} ScatterIsWriteRows(rows: seq<seq<int>>, infos: seq<AllocInfo>, slots: seq<int>, ps: nat)
    requires |slots| == Widths(infos, ps) && forall i :: 0 <= i < |infos| ==> InTable(rows, infos[i], ps)
    ensures |RowIdxs(infos, ps)| == |Positions(infos, ps)| == |slots|
    ensures Scatter(rows, RowIdxs(infos, ps), Positions(infos, ps), slots) == WriteRows(rows, infos, slots, ps)
    decreases |infos|
  {
    RowIdxsLength(infos, ps);
    if infos != [] {
      var i, n := infos[0], Width(infos[0], ps);
      RowIdxsLength(infos[1..], ps);
      assert InTable(rows, i, ps);
      assert slots == slots[..n] + slots[n..];
      ScatterRun(rows, i.tableIdx, i.firstPage * ps, slots[..n], RowIdxs(infos[1..], ps), Positions(infos[1..], ps), slots[n..]);
      var next := rows[i.tableIdx := Spliced(rows[i.tableIdx], i.firstPage * ps, slots[..n])];
      forall j | 0 <= j < |infos[1..]| ensures InTable(next, infos[1..][j], ps) {
        assert InTable(rows, infos[j + 1], ps);
      }
      ScatterIsWriteRows(next, infos[1..], slots[n..], ps);
    }
  }

  /** Every listed position exists. */
  lemma {:induction false} IndexInTable(rows: seq<seq<int>>, infos: seq<AllocInfo>, ps: nat, k: nat)
    requires forall i :: 0 <= i < |infos| ==> InTable(rows, infos[i], ps)
    requires k < |RowIdxs(infos, ps)|
    ensures k < |Positions(infos, ps)|
    ensures RowIdxs(infos, ps)[k] < |rows| && 0 <= Positions(infos, ps)[k] < |rows[RowIdxs(infos, ps)[k]]|
    decreases |infos|
  {
    hide RowIdxs, Positions, Widths, Width, Repeat, Run;
    RowIdxsLength(infos, ps);
    NoIndices(infos, ps);
    NextIndices(infos, 0, ps);
    var n := Width(infos[0], ps);
    RunEntry(rows, infos[0], ps, k);
    if k >= n {
      RowIdxsLength(infos[1..], ps);
      IndexInTable(rows, infos[1..], ps, k - n);
    }
  }

  lemma RunEntry(rows: seq<seq<int>>, info: AllocInfo, ps: nat, k: nat)
    requires InTable(rows, info, ps)
    ensures var n := Width(info, ps);
      && |Repeat(info.tableIdx, n)| == |Run(info.firstPage * ps, n)| == n && info.tableIdx < |rows|
      && (k < n ==> Repeat(info.tableIdx, n)[k] == info.tableIdx && 0 <= Run(info.firstPage * ps, n)[k] < |rows[info.tableIdx]|)
  {
  }

  ghost predicate SameShape(a: seq<seq<int>>, b: seq<seq<int>>)
  {
    |a| == |b| && forall t :: 0 <= t < |a| ==> |a[t]| == |b[t]|
  }

  /** The entries of one request's new pages: its row, and their positions in it. */
  method FillIndices(tableIdxs: array<nat>, positions: array<int>, offset: nat, info: AllocInfo, ps: nat)
    requires offset + Width(info, ps) <= tableIdxs.Length == positions.Length && tableIdxs as object != positions
    modifies tableIdxs, positions
    ensures tableIdxs[..offset + Width(info, ps)] == old(tableIdxs[..offset]) + Repeat(info.tableIdx, Width(info, ps))
    ensures positions[..offset + Width(info, ps)] == old(positions[..offset]) + Run(info.firstPage * ps, Width(info, ps))
  {
    var firstPos, length := info.firstPage * ps, Width(info, ps);
    forall j | 0 <= j < length {
      tableIdxs[offset + j] := info.tableIdx;
    }
    forall j | 0 <= j < length {
      positions[offset + j] := firstPos + j;
    }
  }

  lemma NextIndices(infos: seq<AllocInfo>, i: nat, ps: nat)
    requires i < |infos|
    ensures Widths(infos[i..], ps) == Width(infos[i], ps) + Widths(infos[i + 1..], ps)
    ensures RowIdxs(infos[i..], ps) == Repeat(infos[i].tableIdx, Width(infos[i], ps)) + RowIdxs(infos[i + 1..], ps)
    ensures Positions(infos[i..], ps) == Run(infos[i].firstPage * ps, Width(infos[i], ps)) + Positions(infos[i + 1..], ps)
  {
    assert infos[i..][1..] == infos[i + 1..];
  }

  lemma NoIndices(infos: seq<AllocInfo>, ps: nat)
    ensures infos[0..] == infos && infos[|infos|..] == []
    ensures Widths([], ps) == 0 && RowIdxs([], ps) == [] && Positions([], ps) == []
  {
  }

  lemma AppendAssociates<T>(a: seq<T>, b: seq<T>, c: seq<T>)
    ensures (a + b) + c == a + (b + c)
  {
  }

  /** The row and the position of every slot to write, laid out for one indexed assignment. */
  method BuildIndices(infos: seq<AllocInfo>, needed: nat, ps: nat) returns (tableIdxs: array<nat>, positions: array<int>)
    requires needed == Widths(infos, ps)
    ensures tableIdxs.Length == positions.Length == needed
    ensures tableIdxs[..] == RowIdxs(infos, ps) && positions[..] == Positions(infos, ps)
    ensures fresh(tableIdxs) && fresh(positions)
  {
    hide RowIdxs, Positions, Widths, Width, Repeat;
    tableIdxs := new nat[needed];
    positions := new int[needed];
    var offset := 0;
    var i := 0;
    RowIdxsLength(infos, ps);
    NoIndices(infos, ps);
    while i < |infos|
      invariant 0 <= i <= |infos| && offset + Widths(infos[i..], ps) == needed && 0 <= offset
      invariant tableIdxs[..offset] + RowIdxs(infos[i..], ps) == RowIdxs(infos, ps)
      invariant positions[..offset] + Positions(infos[i..], ps) == Positions(infos, ps)
    {
      var info := infos[i];
      var length := Width(info, ps);
      NextIndices(infos, i, ps);
      ghost var idxs, poss := tableIdxs[..offset], positions[..offset];
      FillIndices(tableIdxs, positions, offset, info, ps);
      AppendAssociates(idxs, Repeat(info.tableIdx, length), RowIdxs(infos[i + 1..], ps));
      AppendAssociates(poss, Run(info.firstPage * ps, length), Positions(infos[i + 1..], ps));
      offset := offset + length;
      i := i + 1;
    }
    assert tableIdxs[..] == tableIdxs[..offset] && positions[..] == positions[..offset];
  }

  method WritePageTable(pageTable: Table, slots: seq<int>, infos: seq<AllocInfo>, ps: nat)
    requires |slots| == Widths(infos, ps)
    requires forall i :: 0 <= i < |infos| ==> InTable(pageTable[..], infos[i], ps)
    modifies pageTable
    ensures pageTable[..] == WriteRows(old(pageTable[..]), infos, slots, ps) && SameShape(pageTable[..], old(pageTable[..]))
  {
    hide Scatter, RowIdxs, Positions, Widths, WriteRows, InTable, Put;
    var needed := |slots|;
    var tableIdxs, positions := BuildIndices(infos, needed, ps);
    ScatterIsWriteRows(pageTable[..], infos, slots, ps);
    ghost var all := Scatter(pageTable[..], RowIdxs(infos, ps), Positions(infos, ps), slots);
    var k := 0;
    while k < needed
      invariant 0 <= k <= needed && tableIdxs[..] == RowIdxs(infos, ps) && positions[..] == Positions(infos, ps)
      invariant SameShape(pageTable[..], old(pageTable[..]))
      invariant Scatter(pageTable[..], tableIdxs[k..], positions[k..], slots[k..]) == all
    {
      ghost var before := pageTable[..];
      var t, p := tableIdxs[k], positions[k];
      IndexInTable(old(pageTable[..]), infos, ps, k);
      assert tableIdxs[..][k] == t && positions[..][k] == p;
      ScatterStep(before, tableIdxs[k..], positions[k..], slots[k..]);
      PutHere(before, t, p, slots[k]);
      pageTable[t] := pageTable[t][p := slots[k]];
      assert pageTable[..] == Put(before, t, p, slots[k]);
      assert tableIdxs[k..][1..] == tableIdxs[k + 1..] && positions[k..][1..] == positions[k + 1..];
      assert slots[k..][1..] == slots[k + 1..];
      k := k + 1;
    }
    NothingScattered(pageTable[..]);
  }

  /** Requests that need no page take no part in the scatter. */
  ghost function Nonempty(infos: seq<AllocInfo>): seq<AllocInfo>
  {
    if infos == [] then []
    else (if infos[0].lastPage > infos[0].firstPage then [infos[0]] else []) + Nonempty(infos[1..])
  }

  lemma {:induction false} NonemptyAppend(infos: seq<AllocInfo>, i: AllocInfo, ps: nat)
    ensures Nonempty(infos + [i]) == Nonempty(infos) + (if i.lastPage > i.firstPage then [i] else [])
    ensures Widths(infos + [i], ps) == Widths(infos, ps) + Width(i, ps)
    decreases |infos|
  {
    if infos == [] {
      assert infos + [i] == [i] && [i][1..] == [];
    } else {
      assert (infos + [i])[1..] == infos[1..] + [i];
      NonemptyAppend(infos[1..], i, ps);
    }
  }

  lemma {:induction false} NonemptyIn(infos: seq<AllocInfo>, x: AllocInfo)
    requires x in Nonempty(infos)
    ensures x in infos
    decreases |infos|
  {
    if x != infos[0] { NonemptyIn(infos[1..], x); }
  }

  lemma {:induction false} NonemptySame(rows: seq<seq<int>>, infos: seq<AllocInfo>, slots: seq<int>, ps: nat)
    requires |slots| == Widths(infos, ps)
    ensures Widths(Nonempty(infos), ps) == |slots|
    ensures WriteRows(rows, Nonempty(infos), slots, ps) == WriteRows(rows, infos, slots, ps)
    decreases |infos|
  {
    hide WrittenOne;
    if infos != [] {
      var i, n := infos[0], Width(infos[0], ps);
      var next := WrittenOne(rows, i, slots[..n], ps);
      NonemptySame(next, infos[1..], slots[n..], ps);
      if i.lastPage > i.firstPage {
        assert Nonempty(infos)[0] == i && Nonempty(infos)[1..] == Nonempty(infos[1..]);
      } else {
        assert slots[..n] == [] && slots[n..] == slots;
        NothingWritten(rows, i, ps);
        assert Nonempty(infos) == Nonempty(infos[1..]);
      }
    }
  }

  lemma NothingWritten(rows: seq<seq<int>>, i: AllocInfo, ps: nat)
    ensures WrittenOne(rows, i, [], ps) == rows
  {
    if i.tableIdx < |rows| { SplicedNothing(rows[i.tableIdx], i.firstPage * ps); }
  }

  ghost predicate InfoFor(i: AllocInfo, r: Req, h: Holding, count: nat, ps: nat)
  {
    && i.tableIdx == r.tableIdx && i.firstPage * ps == h.alloc && i.lastPage == i.firstPage + count
    && h.alloc + count * ps <= |h.row|
  }

  /** The rows of the page table that hold what the requests hold. */
  ghost predicate RowsOf(m: map<Req, Holding>, rows: seq<seq<int>>)
  {
    && (forall r :: r in m ==> r.tableIdx < |rows| && m[r].row == rows[r.tableIdx])
    && (forall r, q :: r in m && q in m && r != q ==> r.tableIdx != q.tableIdx)
  }

  lemma RowsFacts(m: map<Req, Holding>, rows: seq<seq<int>>)
    requires RowsOf(m, rows)
    ensures forall r :: r in m ==> r.tableIdx < |rows| && m[r].row == rows[r.tableIdx]
  {
  }

  lemma GrantRowStep(m: map<Req, Holding>, rows: seq<seq<int>>, r: Req, mine: seq<int>, at: nat, ps: nat)
    requires RowsOf(m, rows) && r in m && at == m[r].alloc && at + |PageToToken(mine, ps)| <= |m[r].row|
    ensures RowsOf(m[r := Granted(m[r], mine, ps)], rows[r.tableIdx := Spliced(rows[r.tableIdx], at, PageToToken(mine, ps))])
    ensures Granted(m[r], mine, ps).row == Spliced(rows[r.tableIdx], at, PageToToken(mine, ps))
  {
  }

  /** Writing the page table deals the pages out to the requests. */
  lemma {:induction false} GrantAllRows(m: map<Req, Holding>, rows: seq<seq<int>>, reqs: seq<Req>, infos: seq<AllocInfo>,
                                        counts: seq<nat>, pages: seq<int>, ps: nat)
    requires RowsOf(m, rows) && |reqs| == |infos| == |counts| && NoDup(reqs) && Sum(counts) == |pages|
    requires forall i :: 0 <= i < |reqs| ==> reqs[i] in m && InfoFor(infos[i], reqs[i], m[reqs[i]], counts[i], ps)
    ensures Widths(infos, ps) == |PageToToken(pages, ps)|
    ensures var g, rows' := GrantAll(m, reqs, counts, pages, ps), WriteRows(rows, infos, PageToToken(pages, ps), ps);
      && g.Keys == m.Keys && |rows'| == |rows|
      && (forall r :: r in m ==> r.tableIdx < |rows'| && g[r] == m[r].(row := rows'[r.tableIdx], alloc := g[r].alloc))
      && (forall i :: 0 <= i < |reqs| ==> g[reqs[i]].alloc == m[reqs[i]].alloc + counts[i] * ps)
      && (forall r :: r in m && r !in reqs ==> g[r].alloc == m[r].alloc)
    decreases |reqs|
  {
    hide PageToToken, RowsOf, Spliced, GrantAll, WriteRows, Widths, Granted, InfoFor;
    PageToTokenLength(pages, ps);
    if reqs == [] {
      RowsFacts(m, rows);
      assert pages == [] && infos == [];
      NoneGranted(m, rows, counts, ps);
    } else {
      var r, c := reqs[0], counts[0];
      var mine, rest := pages[..c], pages[c..];
      assert pages == mine + rest;
      PageToTokenConcat(mine, rest, ps);
      PageToTokenLength(mine, ps);
      assert InfoFor(infos[0], r, m[r], c, ps);
      RowsFacts(m, rows);
      GrantFacts(infos[0], r, m[r], mine, ps);
      var m' := m[r := Granted(m[r], mine, ps)];
      var rows'' := rows[r.tableIdx := Spliced(rows[r.tableIdx], infos[0].firstPage * ps, PageToToken(mine, ps))];
      assert PageToToken(pages, ps)[..c * ps] == PageToToken(mine, ps);
      assert PageToToken(pages, ps)[c * ps..] == PageToToken(rest, ps);
      GrantRowStep(m, rows, r, mine, infos[0].firstPage * ps, ps);
      forall i | 0 <= i < |reqs[1..]|
        ensures reqs[1..][i] in m' && InfoFor(infos[1..][i], reqs[1..][i], m'[reqs[1..][i]], counts[1..][i], ps)
      {
        assert reqs[1..][i] == reqs[i + 1] != r;
        assert InfoFor(infos[i + 1], reqs[i + 1], m[reqs[i + 1]], counts[i + 1], ps);
      }
      GrantAllRows(m', rows'', reqs[1..], infos[1..], counts[1..], rest, ps);
      GrantAllStep(m, reqs, counts, pages, ps);
      WriteRowsStep(rows, infos, PageToToken(pages, ps), ps);
    }
  }

  lemma NoneGranted(m: map<Req, Holding>, rows: seq<seq<int>>, counts: seq<nat>, ps: nat)
    requires counts == []
    ensures GrantAll(m, [], counts, [], ps) == m && Widths([], ps) == 0 == |PageToToken([], ps)| && WriteRows(rows, [], [], ps) == rows
  {
  }

  lemma GrantFacts(i: AllocInfo, r: Req, h: Holding, mine: seq<int>, ps: nat)
    requires InfoFor(i, r, h, |mine|, ps) && |PageToToken(mine, ps)| == |mine| * ps
    ensures i.tableIdx == r.tableIdx && i.firstPage * ps == h.alloc && h.alloc + |PageToToken(mine, ps)| <= |h.row|
    ensures Width(i, ps) == |mine| * ps
    ensures Granted(h, mine, ps) == h.(row := Granted(h, mine, ps).row, alloc := h.alloc + |mine| * ps)
  {
    hide PageToToken;
  }

  lemma GrantAllStep<K>(m: map<K, Holding>, reqs: seq<K>, counts: seq<nat>, pages: seq<int>, ps: nat)
    requires |counts| == |reqs| > 0 && CanGrant(m, reqs[0], counts[0], pages, ps)
    ensures GrantAll(m, reqs, counts, pages, ps)
         == GrantAll(m[reqs[0] := Granted(m[reqs[0]], pages[..counts[0]], ps)], reqs[1..], counts[1..], pages[counts[0]..], ps)
  {
    hide PageToToken, Granted;
  }

  lemma WriteRowsStep(rows: seq<seq<int>>, infos: seq<AllocInfo>, slots: seq<int>, ps: nat)
    requires infos != [] && |slots| == Width(infos[0], ps) + Widths(infos[1..], ps)
    ensures |slots| == Widths(infos, ps)
    ensures var n := Width(infos[0], ps);
      WriteRows(rows, infos, slots, ps) == WriteRows(WrittenOne(rows, infos[0], slots[..n], ps), infos[1..], slots[n..], ps)
  {
  }

  // ---- the manager ----

  function Flatten(lists: seq<seq<int>>): seq<int>
  {
    if lists == [] then [] else Flatten(lists[..|lists| - 1]) + lists[|lists| - 1]
  }

  lemma FactorOrder(a: int, b: int, c: int)
    requires c > 0
    ensures a * c <= b * c <==> a <= b
  {
    if a < b { SumTimes(b, a, b - a, c); assert (b - a) * c > 0; }
    if b < a { SumTimes(a, b, a - b, c); assert (a - b) * c > 0; }
  }

  class CacheManager {
    const numPages: nat
    const pageSize: nat
    const pageTable: Table
    const prefixCache: RadixPrefixCache
    var freeSlots: seq<int>
    var lazyRegion: bool
    var lazyList: seq<seq<int>>

    ghost predicate Valid()
      reads this, prefixCache, prefixCache.nodes
    {
      && prefixCache.Valid() && pageSize == prefixCache.pageSize && pageSize > 0
      && (!lazyRegion ==> lazyList == [])
    }

    /** The free pages, those waiting at the end of a lazy region included. */
    ghost function AllFree(): seq<int>
      reads this`freeSlots, this`lazyList
    {
      freeSlots + Flatten(lazyList)
    }

    ghost function StoreOf(kv: map<int, Prefix>): Store
      reads this`freeSlots, this`lazyList, prefixCache`view, prefixCache`locks
    {
      Store(pageSize, numPages, AllFree(), prefixCache.view, prefixCache.locks, kv)
    }

    constructor (numPages: nat, pageSize: nat, pageTable: Table)
      requires pageSize > 0
      ensures Valid() && fresh(prefixCache) && fresh(prefixCache.nodes) && !lazyRegion
      ensures this.numPages == numPages && this.pageSize == pageSize && this.pageTable == pageTable
      ensures StoreOf(map[]) == Store(pageSize, numPages, AllPages(numPages, pageSize), map[], multiset{}, map[])
    {
      this.numPages, this.pageSize, this.pageTable := numPages, pageSize, pageTable;
      freeSlots := AllPages(numPages, pageSize);
      lazyRegion, lazyList := false, [];
      prefixCache := new RadixPrefixCache(pageSize);
    }

    function AvailableSize(): int
      reads this`freeSlots, prefixCache`evictableSize
    {
      prefixCache.evictableSize + |freeSlots| * pageSize
    }

    /** The size the admission test looks at is that of the pages that can be had. */
    lemma AvailableIs(kv: map<int, Prefix>)
      requires Valid() && !lazyRegion
      ensures AvailableSize() == Available(StoreOf(kv)) * pageSize
    {
      assert AllFree() == freeSlots;
      SumTimes(Available(StoreOf(kv)), |Unlocked(prefixCache.view, prefixCache.locks)|, |freeSlots|, pageSize);
    }

    // ---- matching and locking ----

    /** The last token of a prompt is never matched, so that something is left to compute. */
    method MatchReq(inputIds: seq<int>, tic: int) returns (handle: RadixCacheHandle)
      requires Valid() && |inputIds| > 0
      modifies prefixCache`nodes, prefixCache.nodes`key, prefixCache.nodes`value, prefixCache.nodes`parent
      modifies prefixCache.nodes`children, prefixCache.nodes`timestamp
      ensures Valid() && old(prefixCache.nodes) <= prefixCache.nodes && fresh(prefixCache.nodes - old(prefixCache.nodes))
      ensures handle.node in prefixCache.nodes && handle.cachedLen < |inputIds| && handle.node.prefix == inputIds[..handle.cachedLen]
      ensures IsLongest(prefixCache.view, pageSize, inputIds[..|inputIds| - 1], handle.cachedLen)
      ensures prefixCache.Stamped(prefixCache.nodes, old(prefixCache.Stamps()), inputIds[..handle.cachedLen], tic)
    {
      hide RadixPrefixCache.Valid, IsLongest, RadixPrefixCache.LockedStay, RadixPrefixCache.Stamped, RadixPrefixCache.Stamps;
      prefixCache.Sizes();
      var ids := inputIds[..|inputIds| - 1];
      handle := prefixCache.MatchPrefix(ids, tic);
      assert ids[..handle.cachedLen] == inputIds[..handle.cachedLen];
    }

    lemma MatchedNode(node: RadixTreeNode)
      requires Valid() && node in prefixCache.nodes && node.prefix != []
      ensures node != prefixCache.root && node.prefix in prefixCache.view && prefixCache.view[node.prefix] == node.slots
      ensures |node.slots| == |node.prefix|
    {
      hide RadixPrefixCache.AccountingFor, ValidView;
      prefixCache.RootFacts();
      prefixCache.StoredNode(node);
      NodeSlots(node);
    }

    lemma NodeSlots(node: RadixTreeNode)
      requires Valid() && node.prefix in prefixCache.view
      ensures |prefixCache.view[node.prefix]| == |node.prefix|
    {
      hide RadixPrefixCache.Valid;
      prefixCache.Sizes();
    }

    method Lock(handle: RadixCacheHandle)
      requires Valid() && handle.node in prefixCache.nodes
      modifies prefixCache`evictableSize, prefixCache`protectedSize, prefixCache`locks, prefixCache.nodes`refCount
      ensures Valid() && prefixCache.locks == old(prefixCache.locks) + multiset{handle.node.prefix}
    {
      hide RadixPrefixCache.Valid, RadixPrefixCache.LockedStay;
      prefixCache.LockHandle(handle, false);
    }

    method Unlock(handle: RadixCacheHandle)
      requires Valid() && handle.node in prefixCache.nodes && handle.node.prefix in prefixCache.locks
      modifies prefixCache`evictableSize, prefixCache`protectedSize, prefixCache`locks, prefixCache.nodes`refCount
      ensures Valid() && prefixCache.locks == old(prefixCache.locks) - multiset{handle.node.prefix}
    {
      hide RadixPrefixCache.Valid, RadixPrefixCache.LockedStay;
      prefixCache.LockHandle(handle, true);
    }

    /** Free pages and stored pages make up the pool, and every free page starts at a page boundary. */
    method CheckIntegrity() returns (ok: bool)
      requires Valid() && !lazyRegion
      ensures ok <==> |AllFree()| + |prefixCache.view| == numPages && forall x :: x in AllFree() ==> Aligned(x, pageSize)
    {
      hide RadixPrefixCache.Valid, Locked, ValidView;
      assert AllFree() == freeSlots;
      prefixCache.Sizes();
      TotalSize();
      ok := |freeSlots| + (prefixCache.evictableSize + prefixCache.protectedSize) / pageSize == numPages;
      if pageSize > 1 {
        ok := ok && forall x :: x in freeSlots ==> Aligned(x, pageSize);
      }
    }

    lemma TotalSize()
      requires Valid()
      ensures (prefixCache.evictableSize + prefixCache.protectedSize) / pageSize == |prefixCache.view|
    {
      hide RadixPrefixCache.Valid, Locked, ValidView;
      prefixCache.Sizes();
      var view, locks := prefixCache.view, prefixCache.locks;
      assert view.Keys == Unlocked(view, locks) + Held(view, locks);
      assert Unlocked(view, locks) !! Held(view, locks);
      Distribute(|Unlocked(view, locks)|, |Held(view, locks)|, pageSize);
      MultipleAligned(|view|, pageSize);
    }

    lemma NothingRemoved()
      requires Valid()
      ensures Removed(prefixCache.view, [], prefixCache.view)
      ensures Refilled(StoreOf(map[]), Flat(prefixCache.view, [], pageSize)) == AllFree()
      ensures Withdrawn(StoreOf(map[]), [], prefixCache.view, 0) == StoreOf(map[])
    {
      assert prefixCache.view == prefixCache.view - Elements<Prefix>([]);
    }

    /** The eviction asked for frees enough pages. */
    lemma EnoughPages(view: View, order: seq<Prefix>, needed: nat, free: nat)
      requires pageSize > 0 && ValidView(view, pageSize) && NoDup(order) && forall p :: p in order ==> p in view
      requires free < needed && (needed - free) * pageSize <= |Flat(view, order, pageSize)|
      ensures needed <= free + |Stride(Flat(view, order, pageSize), pageSize)|
    {
      hide ValidView, Flat, Stride, Aligned, TreePages;
      TreePagesRemove(view, order, pageSize);
      StrideLength(Flat(view, order, pageSize), pageSize);
      FactorOrder(needed - free, |Stride(Flat(view, order, pageSize), pageSize)|, pageSize);
    }

    /** The eviction is refused exactly when too few pages are unlocked. */
    lemma EvictionRefused(needed: nat, free: nat)
      requires Valid() && free < needed
      ensures (needed - free) * pageSize > prefixCache.evictableSize <==> needed > free + |Unlocked(prefixCache.view, prefixCache.locks)|
    {
      prefixCache.Sizes();
      FactorOrder(needed - free, |Unlocked(prefixCache.view, prefixCache.locks)|, pageSize);
    }

    /** Nodes go only when free pages run short, and the last of them was still needed. */
    twostate predicate EvictedAsNeeded(neededPages: nat, order: seq<Prefix>, new victims: seq<RadixTreeNode>)
      reads this`freeSlots, this`lazyList, prefixCache, victims`key
    {
      && prefixCache.nodes == old(prefixCache.nodes) - Elements(victims)
      && (neededPages <= old(|AllFree()|) ==> order == [] && victims == [] && prefixCache.view == old(prefixCache.view))
      && (victims != [] ==>
            old(prefixCache.evictableSize) - prefixCache.evictableSize - |victims[|victims| - 1].key|
              < (neededPages - old(|AllFree()|)) * pageSize)
    }

    /** Makes up for the free pages that are missing. */
    method Reclaim(neededPages: nat) returns (ghost victims: seq<RadixTreeNode>, ghost order: seq<Prefix>)
      requires Valid() && !lazyRegion && |freeSlots| < neededPages
      requires (neededPages - |freeSlots|) * pageSize <= prefixCache.evictableSize
      modifies this`freeSlots, prefixCache`nodes, prefixCache`view, prefixCache`evictableSize, prefixCache.nodes`children
      ensures Valid() && prefixCache.nodes == old(prefixCache.nodes) - Elements(victims)
      ensures Removed(old(prefixCache.view), order, prefixCache.view) && forall p :: p in order ==> !Locked(prefixCache.locks, p)
      ensures freeSlots == old(freeSlots) + Stride(Flat(old(prefixCache.view), order, pageSize), pageSize)
      ensures neededPages <= |freeSlots|
      ensures EvictedAsNeeded(neededPages, order, victims) && prefixCache.EvictedInOrder(old(prefixCache.nodes), victims)
      ensures forall n :: n in old(prefixCache.nodes) && Locked(prefixCache.locks, n.prefix) ==> n in prefixCache.nodes
    {
      hide RadixPrefixCache.Valid, Removed, Unlocked, ValidView, Flat, Stride, Locked;
      hide RadixPrefixCache.LeastRecent, RadixPrefixCache.EvictedInOrder;
      assert AllFree() == freeSlots;
      prefixCache.Sizes();
      var evicted;
      evicted, victims, order := prefixCache.Evict((neededPages - |freeSlots|) * pageSize);
      RemovedFacts(old(prefixCache.view), order, prefixCache.view);
      EnoughPages(old(prefixCache.view), order, neededPages, |freeSlots|);
      freeSlots := freeSlots + Stride(evicted, pageSize);
    }

    /** Fails, as the assertion of the eviction does, when the pages cannot be had; nothing has changed then. */
    method Allocate(neededPages: nat)
      returns (ok: bool, allocated_: seq<int>, ghost victims: seq<RadixTreeNode>, ghost order: seq<Prefix>)
      requires Valid() && !lazyRegion
      modifies this`freeSlots, prefixCache`nodes, prefixCache`view, prefixCache`evictableSize, prefixCache.nodes`children
      ensures Valid()
      ensures ok <==> neededPages <= old(Available(StoreOf(map[])))
      ensures !ok ==> StoreOf(map[]) == old(StoreOf(map[])) && prefixCache.nodes == old(prefixCache.nodes)
      ensures ok ==>
        && Removed(old(prefixCache.view), order, prefixCache.view)
        && (forall p :: p in order ==> !Locked(prefixCache.locks, p))
        && neededPages <= |Refilled(old(StoreOf(map[])), Flat(old(prefixCache.view), order, pageSize))|
        && allocated_ == Refilled(old(StoreOf(map[])), Flat(old(prefixCache.view), order, pageSize))[..neededPages]
        && StoreOf(map[]) == Withdrawn(old(StoreOf(map[])), order, prefixCache.view, neededPages)
      ensures ok ==> EvictedAsNeeded(neededPages, order, victims) && prefixCache.EvictedInOrder(old(prefixCache.nodes), victims)
      ensures prefixCache.nodes <= old(prefixCache.nodes)
      ensures forall n :: n in old(prefixCache.nodes) && Locked(prefixCache.locks, n.prefix) ==> n in prefixCache.nodes
    {
      hide RadixPrefixCache.Valid, Removed, Unlocked, ValidView, Flat, Stride, Locked;
      hide RadixPrefixCache.LeastRecent;
      ok, allocated_, victims, order := true, [], [], [];
      var freePages := |freeSlots|;
      assert AllFree() == freeSlots;
      prefixCache.Sizes();
      NothingRemoved();
      if neededPages > freePages {
        EvictionRefused(neededPages, freePages);
        if (neededPages - freePages) * pageSize > prefixCache.evictableSize {
          ok := false;
          return;
        }
        victims, order := Reclaim(neededPages);
        assert AllFree() == freeSlots;
      }
      allocated_ := freeSlots[..neededPages];
      freeSlots := freeSlots[neededPages..];
      assert AllFree() == freeSlots;
    }

    // ---- giving pages back ----

    method EnterLazyFree()
      requires Valid() && !lazyRegion
      modifies this`lazyRegion
      ensures Valid() && lazyRegion && AllFree() == old(AllFree())
    {
      lazyRegion := true;
    }

    method LeaveLazyFree()
      requires Valid() && lazyRegion
      modifies this`lazyRegion, this`freeSlots, this`lazyList
      ensures Valid() && !lazyRegion && AllFree() == old(AllFree())
    {
      freeSlots := freeSlots + Flatten(lazyList);
      lazyRegion, lazyList := false, [];
    }

    method Free(indices: seq<int>)
      requires pageSize > 0 && (!lazyRegion ==> lazyList == [])
      modifies this`freeSlots, this`lazyList
      ensures AllFree() == old(AllFree()) + Stride(indices, pageSize)
      ensures !lazyRegion ==> lazyList == []
    {
      if lazyRegion {
        ghost var before := lazyList;
        lazyList := lazyList + [Stride(indices, pageSize)];
        assert lazyList[..|lazyList| - 1] == before;
      } else if |indices| > 0 {
        freeSlots := freeSlots + Stride(indices, pageSize);
      }
    }

    /** The request's locked prefix is the node its handle names. */
    ghost predicate Anchored(req: Req)
      reads prefixCache`nodes, prefixCache.nodes`prefix, prefixCache`locks, req`cacheHandle, req`tok
    {
      && req.cacheHandle.node in prefixCache.nodes && req.cacheHandle.cachedLen <= |req.tok|
      && req.cacheHandle.node.prefix == req.tok[..req.cacheHandle.cachedLen]
      && req.cacheHandle.node.prefix in prefixCache.locks
    }

    /** The host knows at least the tokens whose KV has been written. */
    ghost predicate HostKnows(req: Req)
      reads req`inputIds, req`tok, req`cachedLen
    {
      req.cachedLen <= |req.inputIds| && req.cachedLen <= |req.tok| && req.inputIds[..req.cachedLen] == req.tok[..req.cachedLen]
    }

    ghost predicate Cacheable(req: Req, kv: map<int, Prefix>)
      reads this, prefixCache, prefixCache.nodes, req, pageTable
    {
      && Valid() && Anchored(req) && HostKnows(req) && req.tableIdx < pageTable.Length
      && HoldingOk(HoldingOf(req, pageTable), StoreOf(kv)) && Tight(HoldingOf(req, pageTable), pageSize)
    }

    /** Every whole page of the first `n` tokens is stored. */
    ghost predicate Keeps(ids: seq<int>, n: nat)
      reads prefixCache`view
    {
      && pageSize > 0 && n <= |ids|
      && forall k {:trigger ids[..k]} :: 0 < k <= n && Aligned(k, pageSize) ==> ids[..k] in prefixCache.view
    }

    /** All that was stored is stored at the same slots. */
    twostate predicate ViewGrows()
      reads prefixCache`view
    {
      forall p :: p in old(prefixCache.view) ==> p in prefixCache.view && prefixCache.view[p] == old(prefixCache.view)[p]
    }

    /** Stores what a request has computed, lets go of its old lock, and frees the pages that were stored already. */
    method StoreReq(req: Req, tic: int, now: int, ghost kv: map<int, Prefix>)
      returns (newHandle: RadixCacheHandle, cachedLen: nat, pageIndices: seq<int>, ghost n: nat)
      requires Cacheable(req, kv)
      modifies this`freeSlots, this`lazyList
      modifies prefixCache`nodes, prefixCache`view, prefixCache`locks, prefixCache`evictableSize, prefixCache`protectedSize
      modifies prefixCache.nodes`key, prefixCache.nodes`value, prefixCache.nodes`parent, prefixCache.nodes`children
      modifies prefixCache.nodes`timestamp, prefixCache.nodes`refCount
      ensures Valid()
      ensures old(prefixCache.nodes) <= prefixCache.nodes && fresh(prefixCache.nodes - old(prefixCache.nodes))
      ensures n == newHandle.cachedLen && old(CacheStep(StoreOf(kv), HoldingOf(req, pageTable), n, cachedLen))
      ensures var r := old(HoldingOf(req, pageTable));
        && r.hl <= cachedLen <= n <= r.cachedLen <= |r.row| && pageIndices == r.row[..r.cachedLen]
        && r.cachedLen <= |r.tok| && newHandle.node in prefixCache.nodes && newHandle.node.prefix == r.tok[..n]
      ensures StoreOf(kv) == old(Unheld(StoreOf(kv), HoldingOf(req, pageTable), n, cachedLen))
      ensures ViewGrows() && Keeps(req.tok, req.cachedLen)
    {
      hide RadixPrefixCache.Valid, HoldingOk, CacheStep, Cached, IsLongest, Inserted, Stride, Tight, Aligned, AlignDown;
      hide Labelled, Blocked, Flatten, Slots, Part, Cells, RadixPrefixCache.LockedStay;
      ghost var s, r := StoreOf(kv), HoldingOf(req, pageTable);
      prefixCache.Sizes();
      HoldingBounds(r, s);
      var insertIds := req.inputIds[..req.cachedLen];
      pageIndices := pageTable[req.tableIdx][..req.cachedLen];
      var oldHandle := req.cacheHandle;
      cachedLen, newHandle := prefixCache.InsertPrefix(insertIds, pageIndices, tic, now);
      n := newHandle.cachedLen;
      InsertMeans(s, r, n, cachedLen);
      CachedKeeps(s, r, n, cachedLen);
      Unlock(oldHandle);
      Free(pageIndices[oldHandle.cachedLen..cachedLen]);
    }

    /** Stores what a request has computed: at its end its remaining pages are freed, before that its row stays locked. */
    method CacheReq(req: Req, finished: bool, tic: int, now: int, ghost kv: map<int, Prefix>)
      returns (ghost n: nat, ghost base: nat)
      requires Cacheable(req, kv)
      modifies this`freeSlots, this`lazyList, req`cacheHandle
      modifies prefixCache`nodes, prefixCache`view, prefixCache`locks, prefixCache`evictableSize, prefixCache`protectedSize
      modifies prefixCache.nodes`key, prefixCache.nodes`value, prefixCache.nodes`parent, prefixCache.nodes`children
      modifies prefixCache.nodes`timestamp, prefixCache.nodes`refCount
      ensures Valid()
      ensures old(prefixCache.nodes) <= prefixCache.nodes && fresh(prefixCache.nodes - old(prefixCache.nodes))
      ensures old(CacheStep(StoreOf(kv), HoldingOf(req, pageTable), n, base))
      ensures var r := old(HoldingOf(req, pageTable)); r.hl <= base && base <= n <= r.cachedLen <= |r.row|
      ensures finished ==> StoreOf(kv) == old(Dropped(StoreOf(kv), HoldingOf(req, pageTable), n, base))
      ensures finished ==> req.cacheHandle == old(req.cacheHandle)
      ensures ViewGrows() && Keeps(req.tok, req.cachedLen)
      ensures !finished ==> StoreOf(kv) == old(Kept(StoreOf(kv), HoldingOf(req, pageTable), n, base))
      ensures !finished ==> req.cacheHandle.cachedLen == n && Anchored(req)
    {
      hide RadixPrefixCache.Valid, Cacheable, CacheStep, Unheld, Stride, Flatten, Keeps, ViewGrows;
      var newHandle, cachedLen, pageIndices;
      newHandle, cachedLen, pageIndices, n := StoreReq(req, tic, now, kv);
      base := cachedLen;
      if finished {
        Free(pageIndices[newHandle.cachedLen..]);
      } else {
        req.cacheHandle := newHandle;
        Lock(newHandle);
      }
    }

    lemma HoldingBounds(r: Holding, s: Store)
      requires HoldingOk(r, s)
      ensures r.hl <= r.cachedLen <= r.alloc <= |r.row| && r.cachedLen <= |r.tok|
    {
    }

    // ---- taking pages ----

    /** A batch whose rows are backed up to what is cached, with room for what comes. */
    ghost predicate Preparable(reqs: seq<Req>, live: set<Req>)
      reads live, Elements(reqs), pageTable
    {
      && pageSize > 0 && Seated(live, pageTable) && NoDup(reqs)
      && forall r :: r in reqs ==>
        && r in live && r.cachedLen <= r.deviceLen && r.alloc == DivCeil(r.cachedLen, pageSize) * pageSize
        && DivCeil(r.deviceLen, pageSize) * pageSize <= |pageTable[r.tableIdx]|
    }

    /** `infos` and `counts` describe what the batch needs. */
    ghost predicate Describes(reqs: seq<Req>, all: seq<AllocInfo>, counts: seq<nat>)
      requires pageSize > 0
      reads Elements(reqs)
    {
      && |all| == |counts| == |reqs|
      && forall i :: 0 <= i < |reqs| ==>
        && all[i] == AllocInfo(reqs[i].tableIdx, DivCeil(reqs[i].cachedLen, pageSize), DivCeil(reqs[i].deviceLen, pageSize))
        && all[i].lastPage == all[i].firstPage + counts[i]
    }

    /** The pages a batch must be given before its forward pass, request by request. */
    method CountPages(reqs: seq<Req>, ghost live: set<Req>)
      returns (needed: nat, infos: seq<AllocInfo>, ghost all: seq<AllocInfo>, ghost counts: seq<nat>)
      requires Preparable(reqs, live)
      ensures pageSize > 0 && Describes(reqs, all, counts)
      ensures needed == Sum(counts) && infos == Nonempty(all) && (needed == 0 ==> infos == [])
    {
      needed, infos, all, counts := 0, [], [], [];
      var i := 0;
      while i < |reqs|
        invariant 0 <= i <= |reqs| && |all| == |counts| == i && needed == Sum(counts)
        invariant infos == Nonempty(all) && (needed == 0 ==> infos == [])
        invariant forall j :: 0 <= j < i ==>
          && all[j] == AllocInfo(reqs[j].tableIdx, DivCeil(reqs[j].cachedLen, pageSize), DivCeil(reqs[j].deviceLen, pageSize))
          && all[j].lastPage == all[j].firstPage + counts[j]
      {
        var req := reqs[i];
        assert req in reqs;
        var firstPage, lastPage := DivCeil(req.cachedLen, pageSize), DivCeil(req.deviceLen, pageSize);
        DivCeilMonotone(req.cachedLen, req.deviceLen, pageSize);
        var info := AllocInfo(req.tableIdx, firstPage, lastPage);
        NonemptyAppend(all, info, pageSize);
        SumAppend(counts, lastPage - firstPage);
        if lastPage > firstPage {
          needed := needed + (lastPage - firstPage);
          infos := infos + [info];
        }
        all, counts := all + [info], counts + [lastPage - firstPage];
        i := i + 1;
      }
    }

    lemma InfosFit(reqs: seq<Req>, live: set<Req>, all: seq<AllocInfo>, counts: seq<nat>)
      requires Preparable(reqs, live) && Describes(reqs, all, counts)
      ensures RowsOf(Holdings(live, pageTable), pageTable[..])
      ensures forall i :: 0 <= i < |reqs| ==>
        reqs[i] in live && InfoFor(all[i], reqs[i], HoldingOf(reqs[i], pageTable), counts[i], pageSize)
      ensures forall x :: x in Nonempty(all) ==> InTable(pageTable[..], x, pageSize)
    {
      hide DivCeil;
      forall i | 0 <= i < |reqs|
        ensures reqs[i] in live && InfoFor(all[i], reqs[i], HoldingOf(reqs[i], pageTable), counts[i], pageSize)
      {
        assert reqs[i] in reqs;
        SumTimes(all[i].lastPage, all[i].firstPage, counts[i], pageSize);
      }
      forall x | x in Nonempty(all) ensures InTable(pageTable[..], x, pageSize) {
        NonemptyIn(all, x);
        var i :| 0 <= i < |all| && all[i] == x;
        assert reqs[i] in reqs;
        SumTimes(all[i].lastPage, all[i].firstPage, counts[i], pageSize);
      }
    }

    /** What the page table will hold once the pages are written is what dealing them out gives. */
    lemma BatchWrites(reqs: seq<Req>, live: set<Req>, all: seq<AllocInfo>, counts: seq<nat>, pages: seq<int>)
      requires Preparable(reqs, live) && Describes(reqs, all, counts) && Sum(counts) == |pages|
      ensures Widths(Nonempty(all), pageSize) == |PageToToken(pages, pageSize)|
      ensures forall i :: 0 <= i < |Nonempty(all)| ==> InTable(pageTable[..], Nonempty(all)[i], pageSize)
      ensures var g := GrantAll(Holdings(live, pageTable), reqs, counts, pages, pageSize);
              var rows := WriteRows(pageTable[..], Nonempty(all), PageToToken(pages, pageSize), pageSize);
        && g.Keys == live && |rows| == pageTable.Length
        && (forall r :: r in live ==> g[r] == HoldingOf(r, pageTable).(row := rows[r.tableIdx], alloc := g[r].alloc))
        && (forall r :: r in live && r !in reqs ==> g[r].alloc == r.alloc)
        && (forall r :: r in reqs ==> g[r].alloc == DivCeil(r.deviceLen, pageSize) * pageSize)
    {
      hide DivCeil, GrantAll, WriteRows, Nonempty, RowsOf, InTable;
      var m := Holdings(live, pageTable);
      InfosFit(reqs, live, all, counts);
      GrantAllRows(m, pageTable[..], reqs, all, counts, pages, pageSize);
      NonemptySame(pageTable[..], all, PageToToken(pages, pageSize), pageSize);
      var g := GrantAll(m, reqs, counts, pages, pageSize);
      forall r | r in reqs ensures g[r].alloc == DivCeil(r.deviceLen, pageSize) * pageSize {
        var i :| 0 <= i < |reqs| && reqs[i] == r;
        SumTimes(all[i].lastPage, all[i].firstPage, counts[i], pageSize);
      }
    }

    lemma SeatedBatch(reqs: seq<Req>, live: set<Req>)
      requires Preparable(reqs, live)
      ensures Seated(live, pageTable)
    {
    }

    /** Takes the pages a batch needs, and writes them into its rows. */
    method BackPages(reqs: seq<Req>, ghost live: set<Req>, needed: nat, infos: seq<AllocInfo>,
                     ghost all: seq<AllocInfo>, ghost counts: seq<nat>)
      returns (ok: bool, ghost order: seq<Prefix>, ghost taken: seq<int>, ghost victims: seq<RadixTreeNode>)
      requires Valid() && !lazyRegion && Preparable(reqs, live) && Describes(reqs, all, counts)
      requires needed == Sum(counts) && infos == Nonempty(all)
      modifies this`freeSlots, prefixCache`nodes, prefixCache`view, prefixCache`evictableSize, prefixCache.nodes`children
      modifies pageTable, Elements(reqs)`alloc
      ensures Valid()
      ensures ok <==> Sum(counts) <= old(Available(StoreOf(map[])))
      ensures SameShape(pageTable[..], old(pageTable[..]))
      ensures prefixCache.nodes <= old(prefixCache.nodes)
      ensures forall n :: n in old(prefixCache.nodes) && Locked(prefixCache.locks, n.prefix) ==> n in prefixCache.nodes
      ensures ok ==> PagesDealt(this, live, reqs, order, counts, taken)
      ensures ok ==> EvictedAsNeeded(Sum(counts), order, victims) && prefixCache.EvictedInOrder(old(prefixCache.nodes), victims)
      ensures ok ==> forall i :: 0 <= i < |reqs| ==> reqs[i].alloc == DivCeil(reqs[i].deviceLen, pageSize) * pageSize
    {
      hide RadixPrefixCache.Valid, Removed, Unlocked, ValidView, Flat, Stride, Locked, GrantAll, Nonempty, DivCeil;
      hide Withdrawn, Refilled;
      hide Preparable, Seated, CacheManager.Anchored, CacheManager.StoreOf, HoldingOf, Available;
      hide RadixPrefixCache.EvictedInOrder;
      SeatedBatch(reqs, live);
      ghost var before := Holdings(live, pageTable);
      var pages;
      ok, pages, victims, order := Allocate(needed);
      taken := pages;
      if ok {
        assert Holdings(live, pageTable) == before;
        BackRows(reqs, live, all, counts, pages, infos);
      }
    }

    twostate lemma NothingEvicted()
      requires prefixCache.nodes == old(prefixCache.nodes) && prefixCache.view == old(prefixCache.view)
      ensures EvictedAsNeeded(0, [], []) && prefixCache.EvictedInOrder(prefixCache.nodes, [])
    {
      assert prefixCache.nodes == prefixCache.nodes - Elements<RadixTreeNode>([]);
    }

    method AllocatePaged(reqs: seq<Req>, ghost live: set<Req>)
      returns (ok: bool, ghost order: seq<Prefix>, ghost counts: seq<nat>, ghost taken: seq<int>,
               ghost victims: seq<RadixTreeNode>)
      requires Valid() && !lazyRegion && Preparable(reqs, live)
      modifies this`freeSlots, prefixCache`nodes, prefixCache`view, prefixCache`evictableSize, prefixCache.nodes`children
      modifies pageTable, Elements(reqs)`alloc
      ensures Valid()
      ensures |counts| == |reqs| && forall i :: 0 <= i < |reqs| ==>
        DivCeil(reqs[i].deviceLen, pageSize) == DivCeil(reqs[i].cachedLen, pageSize) + counts[i]
      ensures ok <==> Sum(counts) <= old(Available(StoreOf(map[])))
      ensures SameShape(pageTable[..], old(pageTable[..]))
      ensures prefixCache.nodes <= old(prefixCache.nodes)
      ensures forall n :: n in old(prefixCache.nodes) && Locked(prefixCache.locks, n.prefix) ==> n in prefixCache.nodes
      ensures ok ==> PagesDealt(this, live, reqs, order, counts, taken)
      ensures ok ==> EvictedAsNeeded(Sum(counts), order, victims) && prefixCache.EvictedInOrder(old(prefixCache.nodes), victims)
      ensures ok ==> forall i :: 0 <= i < |reqs| ==> reqs[i].alloc == DivCeil(reqs[i].deviceLen, pageSize) * pageSize
    {
      hide RadixPrefixCache.Valid, Removed, Unlocked, ValidView, Flat, Stride, Locked, GrantAll, Nonempty, DivCeil;
      hide Withdrawn, Refilled;
      hide Preparable, Seated, CacheManager.StoreOf, HoldingOf, Available;
      hide RadixPrefixCache.EvictedInOrder;
      var needed, infos;
      ghost var all;
      needed, infos, all, counts := CountPages(reqs, live);
      order, taken, victims, ok := [], [], [], true;
      SeatedBatch(reqs, live);
      if needed > 0 {
        ok, order, taken, victims := BackPages(reqs, live, needed, infos, all, counts);
      } else {
        NothingRemoved();
        BackNothing(reqs, live, all, counts);
        NothingEvicted();
      }
    }

    method BackRows(reqs: seq<Req>, ghost live: set<Req>, ghost all: seq<AllocInfo>, ghost counts: seq<nat>,
                    pages: seq<int>, infos: seq<AllocInfo>)
      requires Preparable(reqs, live) && Describes(reqs, all, counts) && Sum(counts) == |pages| && infos == Nonempty(all)
      modifies pageTable, Elements(reqs)`alloc
      ensures Seated(live, pageTable) && Holdings(live, pageTable) == GrantAll(old(Holdings(live, pageTable)), reqs, counts, pages, pageSize)
      ensures SameShape(pageTable[..], old(pageTable[..]))
      ensures forall i :: 0 <= i < |reqs| ==> reqs[i].alloc == DivCeil(reqs[i].deviceLen, pageSize) * pageSize
    {
      hide GrantAll, Nonempty, WriteRows, DivCeil, InTable;
      BatchWrites(reqs, live, all, counts, pages);
      WritePageTable(pageTable, PageToToken(pages, pageSize), infos, pageSize);
      MarkBacked(reqs, live, old(Holdings(live, pageTable)), GrantAll(old(Holdings(live, pageTable)), reqs, counts, pages, pageSize));
    }

    ghost method BackNothing(reqs: seq<Req>, live: set<Req>, all: seq<AllocInfo>, counts: seq<nat>)
      requires Preparable(reqs, live) && Describes(reqs, all, counts) && Sum(counts) == 0 && Nonempty(all) == []
      modifies Elements(reqs)`alloc
      ensures Seated(live, pageTable) && Holdings(live, pageTable) == GrantAll(old(Holdings(live, pageTable)), reqs, counts, [], pageSize)
      ensures forall i :: 0 <= i < |reqs| ==> reqs[i].alloc == DivCeil(reqs[i].deviceLen, pageSize) * pageSize
    {
      hide GrantAll, Nonempty, WriteRows, DivCeil, InTable;
      BatchWrites(reqs, live, all, counts, []);
      WriteNothing(pageTable[..], pageSize);
      MarkBacked(reqs, live, old(Holdings(live, pageTable)), GrantAll(old(Holdings(live, pageTable)), reqs, counts, [], pageSize));
    }

    /** Records in the requests how far their rows are backed now. */
    ghost method MarkBacked(reqs: seq<Req>, live: set<Req>, before: map<Req, Holding>, g: map<Req, Holding>)
      requires pageSize > 0 && Seated(live, pageTable) && before.Keys == live && g.Keys == live
      requires forall r :: r in reqs ==> r in live
      requires forall r :: r in live ==> before[r] == HoldingOf(r, pageTable).(row := before[r].row)
      requires forall r :: r in live ==> g[r] == before[r].(row := pageTable[r.tableIdx], alloc := g[r].alloc)
      requires forall r :: r in live && r !in reqs ==> g[r].alloc == r.alloc
      requires forall r :: r in reqs ==> g[r].alloc == DivCeil(r.deviceLen, pageSize) * pageSize
      modifies Elements(reqs)`alloc
      ensures Holdings(live, pageTable) == g
      ensures forall i :: 0 <= i < |reqs| ==> reqs[i].alloc == DivCeil(reqs[i].deviceLen, pageSize) * pageSize
    {
      hide DivCeil;
      forall r | r in reqs {
        r.alloc := DivCeil(r.deviceLen, pageSize) * pageSize;
      }
      forall r | r in live ensures HoldingOf(r, pageTable) == g[r] {
      }
    }
  }

  /** What handing out pages to a batch has done to the store and to what the requests hold. */
  twostate predicate PagesDealt(cm: CacheManager, live: set<Req>, reqs: seq<Req>, order: seq<Prefix>, counts: seq<nat>,
                                taken: seq<int>)
    reads cm, cm.prefixCache, cm.pageTable, live`tok, live`cacheHandle, live`cachedLen, live`alloc
  {
    && Seated(live, cm.pageTable) && |counts| == |reqs| && cm.pageSize > 0
    && Removed(old(cm.prefixCache.view), order, cm.prefixCache.view) && (forall p :: p in order ==> !Locked(cm.prefixCache.locks, p))
    && (Sum(counts) <= old(|cm.AllFree()|) ==> order == [] && cm.prefixCache.view == old(cm.prefixCache.view))
    && Sum(counts) <= |Refilled(old(cm.StoreOf(map[])), Flat(old(cm.prefixCache.view), order, cm.pageSize))|
    && taken == Refilled(old(cm.StoreOf(map[])), Flat(old(cm.prefixCache.view), order, cm.pageSize))[..Sum(counts)]
    && cm.StoreOf(map[]) == Withdrawn(old(cm.StoreOf(map[])), order, cm.prefixCache.view, Sum(counts))
    && Holdings(live, cm.pageTable) == GrantAll(old(Holdings(live, cm.pageTable)), reqs, counts, taken, cm.pageSize)
  }
}
