/** The index lists of a batch: which positions of which rows a forward pass reads and writes. */
module Batching {
  import opened PrefixStore
  import Pages
  import World
  import opened Core
  import TableManagement
  import opened CacheManagement
  import Residency

  /** Positions `[lo, hi)` of one row: what a request has to compute. */
  datatype Span = Span(row: nat, lo: nat, hi: nat)

  ghost function SpanOf(r: Req): Span
    reads r`cachedLen, r`deviceLen
  {
    Span(r.tableIdx, r.cachedLen, r.deviceLen)
  }

  ghost function Spans(reqs: seq<Req>): (s: seq<Span>)
    reads Elements(reqs)`cachedLen, Elements(reqs)`deviceLen
    ensures |s| == |reqs| && forall i :: 0 <= i < |reqs| ==> s[i] == SpanOf(reqs[i])
  {
    if reqs == [] then [] else Spans(reqs[..|reqs| - 1]) + [SpanOf(reqs[|reqs| - 1])]
  }

  ghost predicate Forwards(spans: seq<Span>)
  {
    forall i :: 0 <= i < |spans| ==> spans[i].lo <= spans[i].hi
  }

  ghost function Needed(spans: seq<Span>): nat
    requires Forwards(spans)
  {
    if spans == [] then 0 else spans[0].hi - spans[0].lo + Needed(spans[1..])
  }

  ghost function PositionsOf(spans: seq<Span>): (s: seq<int>)
    requires Forwards(spans)
    ensures |s| == Needed(spans)
  {
    if spans == [] then [] else Pages.Run(spans[0].lo, spans[0].hi - spans[0].lo) + PositionsOf(spans[1..])
  }

  ghost function RowsOfSpans(spans: seq<Span>): (s: seq<nat>)
    requires Forwards(spans)
    ensures |s| == Needed(spans)
  {
    if spans == [] then [] else Repeat(spans[0].row, spans[0].hi - spans[0].lo) + RowsOfSpans(spans[1..])
  }

  method NeededSize(reqs: seq<Req>) returns (needed: nat)
    requires Forwards(Spans(reqs))
    ensures needed == Needed(Spans(reqs))
  {
    hide Spans;
    ghost var spans := Spans(reqs);
    needed := 0;
    var k := 0;
    while k < |reqs|
      invariant 0 <= k <= |reqs| && needed + Needed(spans[k..]) == Needed(spans)
    {
      assert spans[k..][1..] == spans[k + 1..] && spans[k] == SpanOf(reqs[k]);
      needed := needed + reqs[k].ExtendLen();
      k := k + 1;
    }
  }

  /** The numbers from `first` on, put behind the first `offset` entries. */
  method PutRun(host: array<int>, offset: nat, first: int, length: nat)
    requires offset + length <= host.Length
    modifies host
    ensures host[..offset + length] == old(host[..offset]) + Pages.Run(first, length)
  {
    forall j | 0 <= j < length {
      host[offset + j] := first + j;
    }
  }

  method PutRow(host: array<nat>, offset: nat, row: nat, length: nat)
    requires offset + length <= host.Length
    modifies host
    ensures host[..offset + length] == old(host[..offset]) + Repeat(row, length)
  {
    forall j | 0 <= j < length {
      host[offset + j] := row;
    }
  }

  lemma NextSpan(spans: seq<Span>, i: nat)
    requires Forwards(spans) && i < |spans|
    ensures var s := spans[i];
      && s.lo <= s.hi && Forwards(spans[i..]) && Forwards(spans[i + 1..])
      && Needed(spans[i..]) == s.hi - s.lo + Needed(spans[i + 1..])
      && PositionsOf(spans[i..]) == Pages.Run(s.lo, s.hi - s.lo) + PositionsOf(spans[i + 1..])
      && RowsOfSpans(spans[i..]) == Repeat(s.row, s.hi - s.lo) + RowsOfSpans(spans[i + 1..])
  {
    assert spans[i..][1..] == spans[i + 1..];
  }

  lemma NoSpans(spans: seq<Span>)
    ensures spans[0..] == spans && spans[|spans|..] == []
    ensures Needed([]) == 0 && PositionsOf([]) == [] && RowsOfSpans([]) == []
  {
  }

  /** The positions to compute, request by request. */
  method MakePositions(reqs: seq<Req>) returns (positions: seq<int>)
    requires Forwards(Spans(reqs))
    ensures positions == PositionsOf(Spans(reqs))
  {
    hide Spans, Needed, PositionsOf, Forwards;
    ghost var spans := Spans(reqs);
    NoSpans(spans);
    var needed := NeededSize(reqs);
    assert Spans(reqs) == spans;
    var host := new int[needed];
    var offset, i := 0, 0;
    while i < |reqs|
      invariant 0 <= i <= |reqs| == |spans| && 0 <= offset && Forwards(spans[i..]) && offset + Needed(spans[i..]) == needed
      invariant host[..offset] + PositionsOf(spans[i..]) == PositionsOf(spans)
    {
      NextSpan(spans, i);
      assert spans[i] == SpanOf(reqs[i]);
      var req := reqs[i];
      ghost var before := host[..offset];
      PutRun(host, offset, req.cachedLen, req.ExtendLen());
      AppendAssociates(before, Pages.Run(req.cachedLen, req.ExtendLen()), PositionsOf(spans[i + 1..]));
      offset := offset + req.ExtendLen();
      i := i + 1;
    }
    positions := host[..];
    assert Spans(reqs) == spans;
  }

  /** The row of every position to compute. */
  method MakeInputTuple(reqs: seq<Req>, positions: seq<int>) returns (mapping: seq<nat>)
    requires Forwards(Spans(reqs)) && |positions| == Needed(Spans(reqs))
    ensures mapping == RowsOfSpans(Spans(reqs))
  {
    hide Spans, Needed, RowsOfSpans, Forwards;
    ghost var spans := Spans(reqs);
    NoSpans(spans);
    var host := new nat[|positions|];
    var offset, i := 0, 0;
    while i < |reqs|
      invariant 0 <= i <= |reqs| == |spans| && 0 <= offset && Forwards(spans[i..]) && offset + Needed(spans[i..]) == |positions|
      invariant host[..offset] + RowsOfSpans(spans[i..]) == RowsOfSpans(spans)
    {
      NextSpan(spans, i);
      assert spans[i] == SpanOf(reqs[i]);
      var req := reqs[i];
      ghost var before := host[..offset];
      PutRow(host, offset, req.tableIdx, req.ExtendLen());
      AppendAssociates(before, Repeat(req.tableIdx, req.ExtendLen()), RowsOfSpans(spans[i + 1..]));
      offset := offset + req.ExtendLen();
      i := i + 1;
    }
    mapping := host[..];
    assert Spans(reqs) == spans;
  }

  /** Where the next token of each request goes: behind its last one, or nowhere that is ever read. */
  method MakeWriteTuple(reqs: seq<Req>) returns (rows: seq<nat>, columns: seq<int>)
    ensures |rows| == |columns| == |reqs|
    ensures forall i :: 0 <= i < |reqs| ==> rows[i] == reqs[i].tableIdx
    ensures forall i :: 0 <= i < |reqs| ==> columns[i] == if reqs[i].CanDecode() then reqs[i].deviceLen else -1
  {
    rows, columns := [], [];
    var i := 0;
    while i < |reqs|
      invariant 0 <= i <= |reqs| && |rows| == |columns| == i
      invariant forall j :: 0 <= j < i ==> rows[j] == reqs[j].tableIdx
      invariant forall j :: 0 <= j < i ==> columns[j] == if reqs[j].CanDecode() then reqs[j].deviceLen else -1
    {
      rows := rows + [reqs[i].tableIdx];
      columns := columns + [if reqs[i].CanDecode() then reqs[i].deviceLen else -1];
      i := i + 1;
    }
  }

  // ---- what is gathered ----

  ghost predicate InRange(rows: seq<seq<int>>, idxs: seq<nat>, columns: seq<int>)
  {
    && |idxs| == |columns|
    && forall k :: 0 <= k < |idxs| ==> idxs[k] < |rows| && 0 <= columns[k] < |rows[idxs[k]]|
  }

  /** `s` lists the entries at the given rows and columns. */
  ghost predicate Picks(rows: seq<seq<int>>, idxs: seq<nat>, columns: seq<int>, s: seq<int>)
  {
    && InRange(rows, idxs, columns) && |s| == |idxs|
    && forall k :: 0 <= k < |idxs| ==> s[k] == rows[idxs[k]][columns[k]]
  }

  method Gather(table: Table, idxs: seq<nat>, columns: seq<int>) returns (s: seq<int>)
    requires InRange(table[..], idxs, columns)
    ensures Picks(table[..], idxs, columns, s)
  {
    s := [];
    var k := 0;
    while k < |idxs|
      invariant 0 <= k <= |idxs| && |s| == k && forall j :: 0 <= j < k ==> s[j] == table[idxs[j]][columns[j]]
    {
      s := s + [table[idxs[k]][columns[k]]];
      k := k + 1;
    }
  }

  /** The rows reach as far as the spans do. */
  ghost predicate Reaching(spans: seq<Span>, rows: seq<seq<int>>)
  {
    forall i :: 0 <= i < |spans| ==> spans[i].lo <= spans[i].hi && spans[i].row < |rows| && spans[i].hi <= |rows[spans[i].row]|
  }

  /** The stretches of the rows that a forward pass of the batch covers. */
  ghost function Stretches(spans: seq<Span>, rows: seq<seq<int>>): (s: seq<int>)
    requires Reaching(spans, rows)
  {
    if spans == [] then [] else rows[spans[0].row][spans[0].lo..spans[0].hi] + Stretches(spans[1..], rows)
  }

  lemma {:induction false} GatherStretches(spans: seq<Span>, rows: seq<seq<int>>)
    requires Reaching(spans, rows)
    ensures Forwards(spans) && InRange(rows, RowsOfSpans(spans), PositionsOf(spans)) && |Stretches(spans, rows)| == Needed(spans)
    ensures forall k :: 0 <= k < Needed(spans) ==> Stretches(spans, rows)[k] == rows[RowsOfSpans(spans)[k]][PositionsOf(spans)[k]]
    decreases |spans|
  {
    if spans != [] {
      GatherStretches(spans[1..], rows);
      var n := spans[0].hi - spans[0].lo;
      forall k | 0 <= k < Needed(spans)
        ensures RowsOfSpans(spans)[k] < |rows| && 0 <= PositionsOf(spans)[k] < |rows[RowsOfSpans(spans)[k]]|
        ensures Stretches(spans, rows)[k] == rows[RowsOfSpans(spans)[k]][PositionsOf(spans)[k]]
      {
        if k >= n {
          assert RowsOfSpans(spans)[k] == RowsOfSpans(spans[1..])[k - n] && PositionsOf(spans)[k] == PositionsOf(spans[1..])[k - n];
        }
      }
    }
  }

  /** Gathering at the positions of a batch gives its stretches, one after the other. */
  lemma PicksAre(spans: seq<Span>, rows: seq<seq<int>>, s: seq<int>)
    requires Reaching(spans, rows) && Forwards(spans) && Picks(rows, RowsOfSpans(spans), PositionsOf(spans), s)
    ensures s == Stretches(spans, rows)
  {
    hide RowsOfSpans, PositionsOf, Stretches;
    GatherStretches(spans, rows);
  }

  /** The tokens a forward pass should see: what each request has not computed yet. */
  ghost function Uncomputed(spans: seq<Span>, toks: seq<seq<int>>): seq<int>
    requires |spans| == |toks| && forall i :: 0 <= i < |spans| ==> spans[i].lo <= |toks[i]|
  {
    if spans == [] then [] else toks[0][spans[0].lo..] + Uncomputed(spans[1..], toks[1..])
  }

  lemma {:induction false} StretchesAre(spans: seq<Span>, rows: seq<seq<int>>, toks: seq<seq<int>>)
    requires Reaching(spans, rows) && |spans| == |toks|
    requires forall i :: 0 <= i < |spans| ==> |toks[i]| == spans[i].hi && rows[spans[i].row][..spans[i].hi] == toks[i]
    ensures Stretches(spans, rows) == Uncomputed(spans, toks)
  {
    if spans != [] {
      StretchesAre(spans[1..], rows, toks[1..]);
      var x := spans[0];
      assert rows[x.row][x.lo..x.hi] == rows[x.row][..x.hi][x.lo..];
    }
  }

  ghost function Toks(reqs: seq<Req>): (s: seq<seq<int>>)
    reads Elements(reqs)`tok
    ensures |s| == |reqs| && forall i :: 0 <= i < |reqs| ==> s[i] == reqs[i].tok
  {
    if reqs == [] then [] else Toks(reqs[..|reqs| - 1]) + [reqs[|reqs| - 1].tok]
  }

  /** The pool holds, for each request of the batch, the tokens of its prompt and those sampled since. */
  lemma GatheredTokens(reqs: seq<Req>, cm: CacheManager, tm: TableManagement.TableManager)
    requires forall r :: r in reqs ==> Residency.Backed(r, cm, tm)
    ensures Reaching(Spans(reqs), tm.tokenPool[..])
    ensures forall i :: 0 <= i < |reqs| ==> Spans(reqs)[i].lo <= |Toks(reqs)[i]|
    ensures Stretches(Spans(reqs), tm.tokenPool[..]) == Uncomputed(Spans(reqs), Toks(reqs))
  {
    hide Residency.Chained, Spans, Toks, Stretches, Uncomputed;
    forall i | 0 <= i < |reqs| ensures var x := Spans(reqs)[i];
      && x.lo <= x.hi && x.row < tm.tokenPool.Length && x.hi <= |tm.tokenPool[..][x.row]|
      && |Toks(reqs)[i]| == x.hi && tm.tokenPool[..][x.row][..x.hi] == Toks(reqs)[i]
    {
      assert reqs[i] in reqs && Residency.Backed(reqs[i], cm, tm);
    }
    StretchesAre(Spans(reqs), tm.tokenPool[..], Toks(reqs));
  }

  /** The tokens that the batch has not computed yet, request by request. */
  ghost function BatchTokens(reqs: seq<Req>): seq<int>
    reads Elements(reqs)`cachedLen, Elements(reqs)`deviceLen, Elements(reqs)`tok
  {
    if forall i :: 0 <= i < |reqs| ==> Spans(reqs)[i].lo <= |Toks(reqs)[i]| then Uncomputed(Spans(reqs), Toks(reqs)) else []
  }

  lemma BatchTokensAre(reqs: seq<Req>)
    ensures (forall i :: 0 <= i < |reqs| ==> Spans(reqs)[i].lo <= |Toks(reqs)[i]|) ==>
      BatchTokens(reqs) == Uncomputed(Spans(reqs), Toks(reqs))
  {
  }

  // ---- what is written ----

  /** Storing the KV of a batch: each slot in turn is labelled with the prefix it was computed for. */
  ghost function Stored(kv: map<int, Prefix>, slots: seq<int>, labels: seq<Prefix>): map<int, Prefix>
    requires |slots| == |labels|
    decreases |slots|
  {
    if slots == [] then kv else Stored(kv[slots[0] := labels[0]], slots[1..], labels[1..])
  }

  ghost function StoredAt(kv: map<int, Prefix>, slots: seq<int>, labels: seq<Prefix>): map<int, Prefix>
  {
    if |slots| == |labels| then Stored(kv, slots, labels) else kv
  }

  ghost function PrefixesFrom(tok: seq<int>, lo: nat): (s: seq<Prefix>)
    requires lo <= |tok|
    ensures |s| == |tok| - lo && forall i :: 0 <= i < |s| ==> s[i] == tok[..lo + i + 1]
    decreases |tok| - lo
  {
    if lo == |tok| then [] else [tok[..lo + 1]] + PrefixesFrom(tok, lo + 1)
  }

  /** The prefixes that the batch computes, in the order of its positions. */
  ghost function LabelsOf(spans: seq<Span>, toks: seq<seq<int>>): seq<Prefix>
    requires |spans| == |toks| && forall i :: 0 <= i < |spans| ==> spans[i].lo <= |toks[i]|
  {
    if spans == [] then [] else PrefixesFrom(toks[0], spans[0].lo) + LabelsOf(spans[1..], toks[1..])
  }

  /** The same, request by request. */
  ghost function ComputedAll(kv: map<int, Prefix>, spans: seq<Span>, rows: seq<seq<int>>, toks: seq<seq<int>>): map<int, Prefix>
    requires Reaching(spans, rows) && |spans| == |toks| && forall i :: 0 <= i < |spans| ==> |toks[i]| == spans[i].hi
  {
    if spans == [] then kv
    else
      var n := |spans| - 1;
      World.Computed(ComputedAll(kv, spans[..n], rows, toks[..n]), rows[spans[n].row], toks[n], spans[n].lo, spans[n].hi)
  }

  lemma {:induction false} StoredConcat(kv: map<int, Prefix>, a: seq<int>, b: seq<int>, la: seq<Prefix>, lb: seq<Prefix>)
    requires |a| == |la| && |b| == |lb|
    ensures Stored(kv, a + b, la + lb) == Stored(Stored(kv, a, la), b, lb)
    decreases |a|
  {
    if a == [] {
      assert a + b == b && la + lb == lb;
    } else {
      assert (a + b)[1..] == a[1..] + b && (la + lb)[1..] == la[1..] + lb;
      StoredConcat(kv[a[0] := la[0]], a[1..], b, la[1..], lb);
    }
  }

  lemma {:induction false} StoredRow(kv: map<int, Prefix>, row: seq<int>, tok: seq<int>, lo: nat, hi: nat)
    requires lo <= hi <= |row| && hi == |tok|
    ensures Stored(kv, row[lo..hi], PrefixesFrom(tok, lo)) == World.Computed(kv, row, tok, lo, hi)
    decreases hi
  {
    if lo < hi {
      var shorter := tok[..hi - 1];
      StoredRow(kv, row, shorter, lo, hi - 1);
      assert row[lo..hi] == row[lo..hi - 1] + [row[hi - 1]];
      assert PrefixesFrom(tok, lo) == PrefixesFrom(shorter, lo) + [tok[..hi]] by {
        forall i | 0 <= i < hi - 1 - lo ensures PrefixesFrom(shorter, lo)[i] == tok[..lo + i + 1] {
          assert shorter[..lo + i + 1] == tok[..lo + i + 1];
        }
      }
      StoredConcat(kv, row[lo..hi - 1], [row[hi - 1]], PrefixesFrom(shorter, lo), [tok[..hi]]);
      ComputedShorter(kv, row, tok, lo, hi - 1);
    }
  }

  lemma {:induction false} ComputedShorter(kv: map<int, Prefix>, row: seq<int>, tok: seq<int>, lo: nat, hi: nat)
    requires hi <= |row| && hi <= |tok|
    ensures World.Computed(kv, row, tok[..hi], lo, hi) == World.Computed(kv, row, tok, lo, hi)
    decreases hi
  {
    if lo < hi {
      ComputedShorter(kv, row, tok, lo, hi - 1);
      ComputedShorter(kv, row, tok[..hi], lo, hi - 1);
      assert tok[..hi][..hi - 1] == tok[..hi - 1];
      assert tok[..hi][..hi] == tok[..hi];
    }
  }

  lemma {:induction false} LabelsAppend(spans: seq<Span>, toks: seq<seq<int>>, x: Span, tok: seq<int>, rows: seq<seq<int>>)
    requires Reaching(spans + [x], rows) && |spans| == |toks| && (forall i :: 0 <= i < |spans| ==> spans[i].lo <= |toks[i]|)
    requires x.lo <= |tok| && x.lo <= x.hi && x.row < |rows| && x.hi <= |rows[x.row]|
    ensures Reaching(spans, rows)
    ensures LabelsOf(spans + [x], toks + [tok]) == LabelsOf(spans, toks) + PrefixesFrom(tok, x.lo)
    ensures Stretches(spans + [x], rows) == Stretches(spans, rows) + rows[x.row][x.lo..x.hi]
    decreases |spans|
  {
    assert forall i :: 0 <= i < |spans| ==> (spans + [x])[i] == spans[i];
    if spans == [] {
      assert spans + [x] == [x] && toks + [tok] == [tok];
      assert (spans + [x])[|spans|] == x;
    } else {
      assert (spans + [x])[1..] == spans[1..] + [x] && (toks + [tok])[1..] == toks[1..] + [tok];
      LabelsAppend(spans[1..], toks[1..], x, tok, rows);
    }
  }

  /** Writing the KV of all positions at the slots of the page table is computing request after request. */
  lemma {:induction false} StoredIsComputed(kv: map<int, Prefix>, spans: seq<Span>, rows: seq<seq<int>>, toks: seq<seq<int>>)
    requires Reaching(spans, rows) && |spans| == |toks| && forall i :: 0 <= i < |spans| ==> |toks[i]| == spans[i].hi
    ensures |Stretches(spans, rows)| == |LabelsOf(spans, toks)|
    ensures Stored(kv, Stretches(spans, rows), LabelsOf(spans, toks)) == ComputedAll(kv, spans, rows, toks)
    decreases |spans|
  {
    if spans != [] {
      var n := |spans| - 1;
      var x, tok := spans[n], toks[n];
      assert spans == spans[..n] + [x] && toks == toks[..n] + [tok];
      LabelsAppend(spans[..n], toks[..n], x, tok, rows);
      StoredIsComputed(kv, spans[..n], rows, toks[..n]);
      StoredConcat(kv, Stretches(spans[..n], rows), rows[x.row][x.lo..x.hi], LabelsOf(spans[..n], toks[..n]), PrefixesFrom(tok, x.lo));
      StoredRow(ComputedAll(kv, spans[..n], rows, toks[..n]), rows[x.row], tok, x.lo, x.hi);
    }
  }
}
