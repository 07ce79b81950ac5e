/** The attention metadata of a batch: prefix sums of lengths, and a page table with one entry a page. */
module Attention {
  import opened Alignment
  import Pages
  import opened Core
  import opened Batching

  datatype Metadata = Metadata(cuSeqlensK: seq<int>, cuSeqlensQ: seq<int>, cacheSeqlens: seq<int>,
                               maxSeqlenK: int, maxSeqlenQ: int, pageTable: seq<seq<int>>)

  ghost function SumOf(lens: seq<int>): int
  {
    if lens == [] then 0 else SumOf(lens[..|lens| - 1]) + lens[|lens| - 1]
  }

  /** `cu` gives, for each number of leading requests, how many entries they take together. */
  ghost predicate PrefixSums(cu: seq<int>, lens: seq<int>)
  {
    |cu| == |lens| + 1 && forall i :: 0 <= i <= |lens| ==> cu[i] == SumOf(lens[..i])
  }

  method CumulativeSum(lens: seq<int>) returns (cu: seq<int>)
    ensures PrefixSums(cu, lens)
  {
    cu := [0];
    var i := 0;
    while i < |lens|
      invariant 0 <= i <= |lens| && |cu| == i + 1 && forall j :: 0 <= j <= i ==> cu[j] == SumOf(lens[..j])
    {
      assert lens[..i + 1][..i] == lens[..i];
      cu := cu + [cu[i] + lens[i]];
      i := i + 1;
    }
  }

  method Largest(lens: seq<int>) returns (m: int)
    requires lens != []
    ensures m in lens && forall i :: 0 <= i < |lens| ==> lens[i] <= m
  {
    m := lens[0];
    var i := 1;
    while i < |lens|
      invariant 1 <= i <= |lens| && m in lens && forall j :: 0 <= j < i ==> lens[j] <= m
    {
      if lens[i] > m { m := lens[i]; }
      i := i + 1;
    }
  }

  /** A batch of one token each needs no summing up. */
  lemma {:induction false} SumOfOnes(lens: seq<int>)
    requires forall i :: 0 <= i < |lens| ==> lens[i] == 1
    ensures SumOf(lens) == |lens|
    decreases |lens|
  {
    if lens != [] { SumOfOnes(lens[..|lens| - 1]); }
  }

  /** Every `ps`-th entry of the row, as the number of a page. */
  ghost predicate Compressed(pages: seq<int>, row: seq<int>, length: nat, ps: nat)
    requires ps > 0
  {
    && |pages| == DivCeil(length, ps)
    && forall j :: 0 <= j < |pages| ==> j * ps < |row| && pages[j] == row[j * ps] / ps
  }

  method Compress(row: seq<int>, length: nat, ps: nat) returns (pages: seq<int>)
    requires ps > 0 && length <= |row|
    ensures Compressed(pages, row, length, ps)
  {
    pages := [];
    DivCeilCovers(length, ps);
    var n := DivCeil(length, ps);
    while |pages| < n
      invariant |pages| <= n
      invariant forall j :: 0 <= j < |pages| ==> j * ps < |row| && pages[j] == row[j * ps] / ps
    {
      PageStart(|pages|, length, ps);
      pages := pages + [row[|pages| * ps] / ps];
    }
  }

  lemma PageStart(j: nat, length: nat, ps: nat)
    requires ps > 0 && j < DivCeil(length, ps)
    ensures 0 <= j * ps < length
  {
    DivCeilCovers(length, ps);
    Scaled(j, DivCeil(length, ps) - 1, ps);
  }

  lemma QuotientBack(x: int, ps: nat)
    requires ps > 0 && Aligned(x, ps)
    ensures x / ps * ps == x
  {
  }

  lemma PageOf(p: nat, ps: nat)
    requires ps > 0
    ensures p == p / ps * ps + p % ps && 0 <= p % ps < ps && Aligned(p / ps * ps, ps)
  {
    MultipleAligned(p / ps, ps);
  }

  lemma PageInTable(p: nat, length: nat, ps: nat)
    requires ps > 0 && p < length
    ensures p / ps < DivCeil(length, ps)
  {
    DivCeilCovers(length, ps);
    PageOf(p, ps);
    Below(p / ps, DivCeil(length, ps), ps);
  }

  /** The table entry for the page of position `p` gives back its slot. */
  ghost predicate NamesSlot(pages: seq<int>, row: seq<int>, p: nat, ps: nat)
  {
    ps > 0 && p < |row| && p / ps < |pages| && pages[p / ps] * ps + p % ps == row[p]
  }

  /** The compressed table names the slot of every position of a row whose pages are whole blocks. */
  lemma CompressedSlot(pages: seq<int>, row: seq<int>, length: nat, ps: nat, alloc: nat, p: nat)
    requires ps > 0 && Compressed(pages, row, length, ps) && alloc <= |row| && Pages.Blocked(row[..alloc], ps) && p < length && p < alloc
    ensures NamesSlot(pages, row, p, ps)
  {
    hide Pages.Blocked, Aligned, DivCeil;
    MultipleAligned(0, ps);
    var j := Pages.InPage(row[..alloc], 0, p, ps);
    PageOf(p, ps);
    Pages.SamePage(p / ps * ps, p % ps, j, p - j, ps);
    PageInTable(p, length, ps);
    assert row[j] == row[..alloc][j] && row[p] == row[..alloc][p];
    QuotientBack(row[j], ps);
  }

  ghost function ExtendLens(spans: seq<Span>): seq<int>
  {
    seq(|spans|, i requires 0 <= i < |spans| => spans[i].hi - spans[i].lo)
  }

  ghost function DeviceLens(spans: seq<Span>): seq<int>
  {
    seq(|spans|, i requires 0 <= i < |spans| => spans[i].hi)
  }

  method Lengths(reqs: seq<Req>) returns (seqlensQ: seq<int>, seqlensK: seq<int>)
    ensures seqlensQ == ExtendLens(Spans(reqs)) && seqlensK == DeviceLens(Spans(reqs)) && |seqlensQ| == |seqlensK| == |reqs|
    ensures forall i :: 0 <= i < |reqs| ==> seqlensK[i] == reqs[i].deviceLen && seqlensQ[i] == reqs[i].deviceLen - reqs[i].cachedLen
  {
    hide Spans;
    seqlensQ, seqlensK := [], [];
    var i := 0;
    while i < |reqs|
      invariant 0 <= i <= |reqs| && |seqlensQ| == |seqlensK| == i
      invariant forall j :: 0 <= j < i ==> seqlensQ[j] == reqs[j].deviceLen - reqs[j].cachedLen && seqlensK[j] == reqs[j].deviceLen
    {
      seqlensQ, seqlensK := seqlensQ + [reqs[i].ExtendLen()], seqlensK + [reqs[i].deviceLen];
      i := i + 1;
    }
  }

  /** The rows of the batch, as tables of pages. */
  method CompressRows(reqs: seq<Req>, table: Table, seqlensK: seq<int>, maxSeqlenK: int, ps: nat) returns (pageTable: seq<seq<int>>)
    requires ps > 0 && reqs != [] && |seqlensK| == |reqs| && maxSeqlenK in seqlensK && maxSeqlenK >= 0
    requires forall i :: 0 <= i < |reqs| ==> seqlensK[i] == reqs[i].deviceLen
    requires forall r :: r in reqs ==> r.tableIdx < table.Length
    requires forall r, q :: r in reqs && q in reqs ==> r.deviceLen <= |table[q.tableIdx]|
    ensures |pageTable| == |reqs|
    ensures forall i :: 0 <= i < |reqs| ==> Compressed(pageTable[i], table[reqs[i].tableIdx], maxSeqlenK, ps)
  {
    hide Compressed;
    pageTable := [];
    var i := 0;
    while i < |reqs|
      invariant 0 <= i <= |reqs| && |pageTable| == i
      invariant forall j :: 0 <= j < i ==> Compressed(pageTable[j], table[reqs[j].tableIdx], maxSeqlenK, ps)
    {
      assert reqs[i] in reqs;
      LongestFits(reqs, table, seqlensK, maxSeqlenK, i);
      var pages := Compress(table[reqs[i].tableIdx], maxSeqlenK, ps);
      pageTable := pageTable + [pages];
      i := i + 1;
    }
  }

  ghost predicate SomeLength(reqs: seq<Req>, n: int)
    reads (set r | r in reqs)`deviceLen
  {
    exists i :: 0 <= i < |reqs| && reqs[i].deviceLen == n
  }

  ghost predicate SomeExtension(reqs: seq<Req>, n: int)
    reads (set r | r in reqs)`cachedLen, (set r | r in reqs)`deviceLen
  {
    exists i :: 0 <= i < |reqs| && reqs[i].deviceLen - reqs[i].cachedLen == n
  }

  /**
   Whichever way it is computed, the query metadata is the prefix sum of what each request extends by, and the key
   metadata that of how long each is. The row of each request is cut at the longest length, and compressed to pages.
   */
  ghost predicate Describes(m: Metadata, reqs: seq<Req>, table: Table, ps: nat)
    requires ps > 0
    reads table, (set r | r in reqs)`cachedLen, (set r | r in reqs)`deviceLen
  {
    && PrefixSums(m.cuSeqlensQ, ExtendLens(Spans(reqs))) && PrefixSums(m.cuSeqlensK, DeviceLens(Spans(reqs)))
    && m.cacheSeqlens == DeviceLens(Spans(reqs)) && |m.pageTable| == |reqs| && m.maxSeqlenK >= 0
    && (forall i :: 0 <= i < |reqs| ==> reqs[i].deviceLen <= m.maxSeqlenK && reqs[i].deviceLen - reqs[i].cachedLen <= m.maxSeqlenQ)
    && SomeLength(reqs, m.maxSeqlenK) && SomeExtension(reqs, m.maxSeqlenQ)
    && forall i :: 0 <= i < |reqs| ==>
      reqs[i].tableIdx < table.Length && Compressed(m.pageTable[i], table[reqs[i].tableIdx], m.maxSeqlenK, ps)
  }

  /** Where the queries of each request start: a batch of single tokens, or of whole prompts, needs no sums of its own. */
  method QueryOffsets(reqs: seq<Req>, seqlensQ: seq<int>, seqlensK: seq<int>, maxSeqlenQ: int, cuSeqlensK: seq<int>)
    returns (cuSeqlensQ: seq<int>)
    requires |seqlensQ| == |seqlensK| == |reqs| && PrefixSums(cuSeqlensK, seqlensK)
    requires forall i :: 0 <= i < |reqs| ==>
      seqlensK[i] == reqs[i].deviceLen && seqlensQ[i] == reqs[i].deviceLen - reqs[i].cachedLen && 0 < seqlensQ[i] <= maxSeqlenQ
    ensures PrefixSums(cuSeqlensQ, seqlensQ)
  {
    hide PrefixSums;
    if maxSeqlenQ == 1 {
      cuSeqlensQ := seq(|reqs| + 1, i => i);
      OnesSum(cuSeqlensQ, seqlensQ);
    } else if forall i :: 0 <= i < |reqs| ==> reqs[i].cachedLen == 0 {
      cuSeqlensQ := cuSeqlensK;
      assert seqlensQ == seqlensK;
    } else {
      cuSeqlensQ := CumulativeSum(seqlensQ);
    }
  }

  lemma DescribesNow(m: Metadata, reqs: seq<Req>, table: Table, ps: nat)
    requires ps > 0 && |m.pageTable| == |reqs| && m.maxSeqlenK >= 0
    requires PrefixSums(m.cuSeqlensQ, ExtendLens(Spans(reqs))) && PrefixSums(m.cuSeqlensK, DeviceLens(Spans(reqs)))
    requires m.cacheSeqlens == DeviceLens(Spans(reqs))
    requires forall i :: 0 <= i < |reqs| ==>
      && reqs[i].deviceLen <= m.maxSeqlenK && reqs[i].deviceLen - reqs[i].cachedLen <= m.maxSeqlenQ
      && reqs[i].tableIdx < table.Length && Compressed(m.pageTable[i], table[reqs[i].tableIdx], m.maxSeqlenK, ps)
    requires SomeLength(reqs, m.maxSeqlenK)
    requires SomeExtension(reqs, m.maxSeqlenQ)
    ensures Describes(m, reqs, table, ps)
  {
    hide Spans, PrefixSums, Compressed, ExtendLens, DeviceLens, DivCeil, SomeLength, SomeExtension;
  }

  method PrepareMetadata(reqs: seq<Req>, table: Table, ps: nat) returns (m: Metadata)
    requires ps > 0 && reqs != []
    requires forall r :: r in reqs ==> r.cachedLen < r.deviceLen && r.tableIdx < table.Length
    requires forall r, q :: r in reqs && q in reqs ==> r.deviceLen <= |table[q.tableIdx]|
    ensures Describes(m, reqs, table, ps)
  {
    hide Spans, PrefixSums, Compressed, ExtendLens, DeviceLens, DivCeil, Describes, SomeLength, SomeExtension;
    ghost var spans := Spans(reqs);
    var seqlensQ, seqlensK := Lengths(reqs);
    assert Spans(reqs) == spans;
    ghost var lensQ, lensK := ExtendLens(spans), DeviceLens(spans);
    assert forall i :: 0 <= i < |reqs| ==> seqlensK[i] == reqs[i].deviceLen && seqlensQ[i] == reqs[i].deviceLen - reqs[i].cachedLen;
    var maxSeqlenK := Largest(seqlensK);
    var maxSeqlenQ := Largest(seqlensQ);
    var cuSeqlensK := CumulativeSum(seqlensK);
    var cuSeqlensQ := QueryOffsets(reqs, seqlensQ, seqlensK, maxSeqlenQ, cuSeqlensK);
    assert PrefixSums(cuSeqlensQ, lensQ) && PrefixSums(cuSeqlensK, lensK);
    var pageTable := CompressRows(reqs, table, seqlensK, maxSeqlenK, ps);
    m := Metadata(cuSeqlensK, cuSeqlensQ, seqlensK, maxSeqlenK, maxSeqlenQ, pageTable);
    assert Spans(reqs) == spans;
    LongestReached(reqs, seqlensQ, seqlensK, maxSeqlenQ, maxSeqlenK);
    DescribesNow(m, reqs, table, ps);
  }

  lemma LongestReached(reqs: seq<Req>, seqlensQ: seq<int>, seqlensK: seq<int>, maxSeqlenQ: int, maxSeqlenK: int)
    requires |seqlensQ| == |seqlensK| == |reqs| && maxSeqlenQ in seqlensQ && maxSeqlenK in seqlensK
    requires forall i :: 0 <= i < |reqs| ==> seqlensK[i] == reqs[i].deviceLen && seqlensQ[i] == reqs[i].deviceLen - reqs[i].cachedLen
    ensures SomeLength(reqs, maxSeqlenK)
    ensures SomeExtension(reqs, maxSeqlenQ)
  {
    var i :| 0 <= i < |seqlensK| && seqlensK[i] == maxSeqlenK;
    var j :| 0 <= j < |seqlensQ| && seqlensQ[j] == maxSeqlenQ;
    assert reqs[i].deviceLen == maxSeqlenK && reqs[j].deviceLen - reqs[j].cachedLen == maxSeqlenQ;
  }

  lemma OnesSum(cu: seq<int>, lens: seq<int>)
    requires |cu| == |lens| + 1 && (forall i :: 0 <= i < |cu| ==> cu[i] == i) && forall i :: 0 <= i < |lens| ==> lens[i] == 1
    ensures PrefixSums(cu, lens)
  {
    forall i | 0 <= i <= |lens| ensures cu[i] == SumOf(lens[..i]) {
      SumOfOnes(lens[..i]);
    }
  }

  lemma LongestFits(reqs: seq<Req>, table: Table, lens: seq<int>, longest: int, i: nat)
    requires i < |reqs| == |lens| && longest in lens && forall j :: 0 <= j < |reqs| ==> lens[j] == reqs[j].deviceLen
    requires forall r :: r in reqs ==> r.tableIdx < table.Length
    requires forall r, q :: r in reqs && q in reqs ==> r.deviceLen <= |table[q.tableIdx]|
    ensures 0 <= longest <= |table[reqs[i].tableIdx]|
  {
    var j :| 0 <= j < |lens| && lens[j] == longest;
    assert reqs[j] in reqs && reqs[i] in reqs;
  }

  /** Where the logits of each request end. */
  function LastIndices(cuSeqlensQ: seq<int>, bs: nat): (r: seq<int>)
    requires bs < |cuSeqlensQ|
  {
    seq(bs, i requires 0 <= i < bs => cuSeqlensQ[1 + i] - 1)
  }

  /** The logits taken for a request are those of its last position, in its own row. */
  lemma LastIsLast(spans: seq<Span>, cu: seq<int>, bs: nat, i: nat)
    requires (forall j :: 0 <= j < |spans| ==> spans[j].lo < spans[j].hi) && PrefixSums(cu, ExtendLens(spans))
    requires i < bs <= |spans|
    ensures Forwards(spans)
    ensures var last := LastIndices(cu, bs)[i];
      && 0 <= last < |PositionsOf(spans)| && PositionsOf(spans)[last] == spans[i].hi - 1 && RowsOfSpans(spans)[last] == spans[i].row
  {
    SpanEnds(spans, i);
  }

  lemma {:induction false} SumFront(lens: seq<int>)
    requires lens != []
    ensures SumOf(lens) == lens[0] + SumOf(lens[1..])
    decreases |lens|
  {
    var n := |lens| - 1;
    if n > 0 {
      SumFront(lens[..n]);
      assert lens[..n][1..] == lens[1..][..n - 1];
    } else {
      assert lens[..0] == [] && lens[1..] == [];
    }
  }

  lemma {:induction false} SpanEnds(spans: seq<Span>, i: nat)
    requires i < |spans| && forall j :: 0 <= j < |spans| ==> spans[j].lo < spans[j].hi
    ensures Forwards(spans)
    ensures var last := SumOf(ExtendLens(spans)[..i + 1]) - 1;
      && 0 <= last < |PositionsOf(spans)| && PositionsOf(spans)[last] == spans[i].hi - 1 && RowsOfSpans(spans)[last] == spans[i].row
    decreases |spans|
  {
    var lens := ExtendLens(spans);
    SumFront(lens[..i + 1]);
    assert lens[..i + 1][1..] == ExtendLens(spans[1..])[..i];
    if i > 0 {
      SpanEnds(spans[1..], i - 1);
    }
  }
}
