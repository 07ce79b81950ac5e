/** Slots grouped in pages: a page is named by its first slot. */
module Pages {
  import opened Alignment
  import opened PrefixStore
  import Sums

  /** Every `ps`-th element, from the first on. */
  function Stride(s: seq<int>, ps: nat): (r: seq<int>)
    requires ps > 0
  {
    if s == [] then [] else if |s| <= ps then [s[0]] else [s[0]] + Stride(s[ps..], ps)
  }

  /** The `n` slots from `first` on. */
  function Run(first: int, n: nat): (r: seq<int>)
    ensures |r| == n && forall i :: 0 <= i < n ==> r[i] == first + i
  {
    seq(n, i => first + i)
  }

  /** The slots of the listed pages. */
  function PageToToken(pages: seq<int>, ps: nat): (r: seq<int>)
  {
    if pages == [] then [] else Run(pages[0], ps) + PageToToken(pages[1..], ps)
  }

  lemma {:induction false} PageToTokenLength(pages: seq<int>, ps: nat)
    ensures |PageToToken(pages, ps)| == |pages| * ps
  {
    if pages != [] {
      PageToTokenLength(pages[1..], ps);
      SumTimes(|pages|, 1, |pages| - 1, ps);
    }
  }

  lemma {:induction false} PageToTokenConcat(a: seq<int>, b: seq<int>, ps: nat)
    ensures PageToToken(a + b, ps) == PageToToken(a, ps) + PageToToken(b, ps)
    decreases |a|
  {
    if a == [] {
      assert a + b == b;
    } else {
      assert (a + b)[1..] == a[1..] + b;
      PageToTokenConcat(a[1..], b, ps);
    }
  }

  // ---- blocks ----

  ghost predicate BlockAt(s: seq<int>, j: nat, o: nat, ps: nat)
    requires ps > 0 && j + o < |s|
  {
    s[j + o] == s[j] + o && Aligned(s[j], ps)
  }

  /** The sequence maps each of its pages to one aligned block of consecutive slots. */
  ghost predicate Blocked(s: seq<int>, ps: nat)
    requires ps > 0
  {
    forall j: nat, o: nat {:trigger BlockAt(s, j, o, ps)} :: o < ps && j + o < |s| && Aligned(j, ps) ==> BlockAt(s, j, o, ps)
  }

  /** Every position lies in one page of its sequence, at an offset below the page size. */
  lemma InPage(s: seq<int>, lo: nat, i: nat, ps: nat) returns (j: nat)
    requires ps > 0 && Aligned(lo, ps) && lo <= i < |s| && Blocked(s, ps)
    ensures lo <= j <= i < j + ps && Aligned(j, ps) && s[i] == s[j] + (i - j) && Aligned(s[j], ps)
  {
    j := AlignDown(i, ps);
    AlignDownGreatest(i, ps);
    assert BlockAt(s, j, i - j, ps);
  }

  /** A slot determines its page. */
  lemma SamePage(h: int, o: int, h': int, o': int, ps: int)
    requires ps > 0 && Aligned(h, ps) && Aligned(h', ps) && 0 <= o < ps && 0 <= o' < ps && h + o == h' + o'
    ensures h == h' && o == o'
  {
    if h < h' { AlignedGap(h, h', ps); }
    if h' < h { AlignedGap(h', h, ps); }
  }

  lemma BlockedPrefix(s: seq<int>, n: nat, ps: nat)
    requires ps > 0 && n <= |s| && Blocked(s, ps)
    ensures Blocked(s[..n], ps)
  {
    forall j: nat, o: nat | o < ps && j + o < n && Aligned(j, ps) ensures BlockAt(s[..n], j, o, ps) {
      assert BlockAt(s, j, o, ps);
    }
  }

  lemma BlockedConcat(a: seq<int>, b: seq<int>, ps: nat)
    requires ps > 0 && Aligned(|a|, ps) && Blocked(a, ps) && Blocked(b, ps)
    ensures Blocked(a + b, ps)
  {
    forall j: nat, o: nat | o < ps && j + o < |a + b| && Aligned(j, ps) ensures BlockAt(a + b, j, o, ps) {
      if j < |a| {
        AlignedGap(j, |a|, ps);
        assert BlockAt(a, j, o, ps);
      } else {
        AlignedSum(j, |a|, ps);
        assert BlockAt(b, j - |a|, o, ps);
      }
    }
  }

  lemma BlockedSuffix(s: seq<int>, n: nat, ps: nat)
    requires ps > 0 && n <= |s| && Aligned(n, ps) && Blocked(s, ps)
    ensures Blocked(s[n..], ps)
  {
    forall j: nat, o: nat | o < ps && j + o < |s| - n && Aligned(j, ps) ensures BlockAt(s[n..], j, o, ps) {
      AlignedSum(j, n, ps);
      assert BlockAt(s, j + n, o, ps);
    }
  }

  lemma {:induction false} PageToTokenBlocked(pages: seq<int>, ps: nat)
    requires ps > 0 && forall x :: x in pages ==> Aligned(x, ps)
    ensures |PageToToken(pages, ps)| == |pages| * ps && Blocked(PageToToken(pages, ps), ps)
    ensures Stride(PageToToken(pages, ps), ps) == pages
  {
    if pages == [] {
    } else {
      var first, rest := Run(pages[0], ps), PageToToken(pages[1..], ps);
      PageToTokenBlocked(pages[1..], ps);
      SumTimes(|pages|, 1, |pages| - 1, ps);
      MultipleAligned(1, ps);
      forall j: nat, o: nat | o < ps && j + o < ps && Aligned(j, ps) ensures BlockAt(first, j, o, ps) {
        if j > 0 { AlignedGap(0, j, ps); }
      }
      BlockedConcat(first, rest, ps);
      assert (first + rest)[ps..] == rest;
    }
  }

  // ---- strides ----

  lemma StrideEmpty(ps: nat)
    requires ps > 0
    ensures Stride([], ps) == []
  {
  }

  lemma {:induction false} StrideConcat(a: seq<int>, b: seq<int>, ps: nat)
    requires ps > 0 && Aligned(|a|, ps)
    ensures Stride(a + b, ps) == Stride(a, ps) + Stride(b, ps)
    decreases |a|
  {
    if a == [] {
      assert a + b == b;
    } else {
      AlignedGap(0, |a|, ps);
      MultipleAligned(1, ps);
      AlignedSum(|a|, ps, ps);
      assert (a + b)[ps..] == a[ps..] + b;
      StrideConcat(a[ps..], b, ps);
      if |a| == ps {
        assert a[ps..] == [] && a[ps..] + b == b;
        if b == [] { assert a + b == a; }
      }
    }
  }

  /** Strides see only the first slot of a page, so a half page names the same page as the whole. */
  lemma {:induction false} StrideOfPart(s: seq<int>, n: nat, ps: nat)
    requires ps > 0 && n <= |s| && |s| < n + ps && (n == 0 ==> s == []) && Aligned(|s|, ps)
    ensures Stride(s[..n], ps) == Stride(s, ps)
    decreases |s|
  {
    if s != [] {
      AlignedGap(0, |s|, ps);
      MultipleAligned(1, ps);
      AlignedSum(|s|, ps, ps);
      if |s| > ps {
        AlignedGap(ps, |s|, ps);
        assert s[ps..][..n - ps] == s[..n][ps..];
        StrideOfPart(s[ps..], n - ps, ps);
        assert n > ps;
      }
    }
  }

  lemma {:induction false} StrideAt(s: seq<int>, j: nat, ps: nat)
    requires ps > 0 && j < |s| && Aligned(j, ps)
    ensures s[j] in Stride(s, ps)
    decreases |s|
  {
    if j > 0 {
      AlignedGap(0, j, ps);
      MultipleAligned(1, ps);
      AlignedSum(j, ps, ps);
      StrideAt(s[ps..], j - ps, ps);
      assert s[ps..][j - ps] == s[j];
    }
  }

  /** A page that occurs once in a stride occurs at one position. */
  lemma {:induction false} StrideOnce(s: seq<int>, i: nat, j: nat, ps: nat)
    requires ps > 0 && i < j < |s| && Aligned(i, ps) && Aligned(j, ps) && multiset(Stride(s, ps))[s[i]] <= 1
    ensures s[i] != s[j]
    decreases |s|
  {
    AlignedGap(i, j, ps);
    MultipleAligned(1, ps);
    AlignedSum(j, ps, ps);
    var rest := s[ps..];
    assert Stride(s, ps) == [s[0]] + Stride(rest, ps);
    assert rest[j - ps] == s[j];
    if i == 0 {
      StrideAt(rest, j - ps, ps);
      assert s[j] in multiset(Stride(rest, ps));
    } else {
      AlignedGap(0, i, ps);
      AlignedSum(i, ps, ps);
      assert rest[i - ps] == s[i];
      StrideOnce(rest, i - ps, j - ps, ps);
    }
  }

  lemma {:induction false} StrideLength(s: seq<int>, ps: nat)
    requires ps > 0 && Aligned(|s|, ps)
    ensures |Stride(s, ps)| * ps == |s|
    decreases |s|
  {
    if s != [] {
      AlignedGap(0, |s|, ps);
      MultipleAligned(1, ps);
      AlignedSum(|s|, ps, ps);
      if |s| > ps {
        StrideLength(s[ps..], ps);
        SumTimes(|Stride(s, ps)|, 1, |Stride(s[ps..], ps)|, ps);
      } else {
        SumTimes(1, 1, 0, ps);
      }
    }
  }

  // ---- the pages held by the tree ----

  /** The page that holds the last tokens of a stored prefix. */
  ghost function Head(view: View, p: Prefix, ps: int): int
    requires p in view
  {
    LastHead(view[p], ps)
  }

  ghost function LastHead(slots: seq<int>, ps: int): int
  {
    if 0 < ps <= |slots| then slots[|slots| - ps] else 0
  }

  ghost function HeadMap(view: View, ps: int): map<Prefix, multiset<int>>
  {
    map p | p in view :: multiset{Head(view, p, ps)}
  }

  ghost function TreePages(view: View, ps: int): multiset<int>
  {
    Sums.Bag(HeadMap(view, ps))
  }

  /** Storing one more prefix adds its page. */
  lemma TreePagesAdd(view: View, p: Prefix, slots: seq<int>, ps: int)
    requires p !in view && 0 < ps <= |slots|
    ensures TreePages(view[p := slots], ps) == TreePages(view, ps) + multiset{slots[|slots| - ps]}
  {
    hide Sums.Bag;
    var page := multiset{slots[|slots| - ps]};
    Sums.BagSet(HeadMap(view, ps), p, page);
    HeadMapAdd(view, p, slots, ps);
  }

  lemma HeadMapAdd(view: View, p: Prefix, slots: seq<int>, ps: int)
    requires p !in view && 0 < ps <= |slots|
    ensures HeadMap(view[p := slots], ps) == HeadMap(view, ps)[p := multiset{slots[|slots| - ps]}]
  {
    var a, b := HeadMap(view[p := slots], ps), HeadMap(view, ps)[p := multiset{slots[|slots| - ps]}];
    assert a.Keys == b.Keys;
    forall q | q in a ensures a[q] == b[q] {
    }
  }

  lemma TreePagesHas(view: View, p: Prefix, ps: int)
    requires p in view
    ensures Head(view, p, ps) in TreePages(view, ps)
  {
    Sums.BagHas(HeadMap(view, ps), p);
    assert HeadMap(view, ps)[p] == multiset{Head(view, p, ps)};
    assert Head(view, p, ps) in HeadMap(view, ps)[p];
  }

  lemma TreePagesHasTwo(view: View, p: Prefix, q: Prefix, ps: int)
    requires p in view && q in view && p != q
    ensures multiset{Head(view, p, ps), Head(view, q, ps)} <= TreePages(view, ps)
  {
    Sums.BagHasTwo(HeadMap(view, ps), p, q);
    assert multiset{Head(view, p, ps)} + multiset{Head(view, q, ps)} == multiset{Head(view, p, ps), Head(view, q, ps)};
  }

  /** Inserting a run adds exactly the pages of its new part. */
  lemma {:induction false} TreePagesInsert(view: View, ps: nat, ids: seq<int>, indices: seq<int>, base: nat)
    requires ps > 0 && |ids| == |indices| && Aligned(|ids|, ps) && ValidView(view, ps) && IsLongest(view, ps, ids, base)
    ensures TreePages(Inserted(view, ps, ids, indices, base), ps)
         == TreePages(view, ps) + multiset(Stride(indices[base..], ps))
    decreases |ids|
  {
    hide TreePages, ValidView, IsLongest, Inserted, Aligned, Cells, Stride;
    LongestFacts(view, ps, ids, base);
    if |ids| == base {
      assert ids[..|ids|] == ids;
      NothingInserted(view, ps, ids, indices);
      assert indices[base..] == [];
      StrideEmpty(ps);
    } else {
      AlignedGap(base, |ids|, ps);
      MultipleAligned(1, ps);
      AlignedSum(|ids|, ps, ps);
      var n := |ids| - ps;
      ShorterLongest(view, ps, ids, base, n);
      TreePagesInsert(view, ps, ids[..n], indices[..n], base);
      InsertedStep(view, ps, ids, indices, base);
      var slots := Slots(view, ids[..base]) + indices[base..];
      TreePagesAdd(Inserted(view, ps, ids[..n], indices[..n], base), ids, slots, ps);
      assert slots[|slots| - ps] == indices[n];
      StrideStep(indices, base, n, ps);
    }
  }

  lemma StrideStep(s: seq<int>, base: nat, n: nat, ps: nat)
    requires ps > 0 && base <= n && n + ps == |s| && Aligned(base, ps) && Aligned(n, ps)
    ensures Stride(s[base..], ps) == Stride(s[..n][base..], ps) + [s[n]]
  {
    AlignedSum(n, base, ps);
    assert s[base..] == s[..n][base..] + s[n..];
    StrideConcat(s[..n][base..], s[n..], ps);
    assert Stride(s[n..], ps) == [s[n]];
  }

  lemma LongestFacts(view: View, ps: nat, ids: seq<int>, base: nat)
    requires ps > 0 && IsLongest(view, ps, ids, base)
    ensures base <= |ids| && Aligned(base, ps) && (base == 0 || ids[..base] in view)
  {
  }

  lemma ShorterLongest(view: View, ps: nat, ids: seq<int>, base: nat, n: nat)
    requires ps > 0 && IsLongest(view, ps, ids, base) && base <= n <= |ids|
    ensures IsLongest(view, ps, ids[..n], base)
  {
    assert ids[..n][..base] == ids[..base];
    forall k {:trigger ids[..n][..k]} | base < k <= n && Aligned(k, ps) ensures ids[..n][..k] !in view {
      assert ids[..n][..k] == ids[..k];
    }
  }

  lemma CellsStep(base: nat, ids: seq<int>, ps: nat)
    requires ps > 0 && Aligned(|ids|, ps) && base + ps <= |ids|
    ensures Cells(base, ids, ps) == Cells(base, ids[..|ids| - ps], ps) + {ids}
  {
    var n := |ids| - ps;
    assert ids[..|ids|] == ids;
    forall q ensures q in Cells(base, ids, ps) <==> q in Cells(base, ids[..n], ps) || q == ids {
      if q in Cells(base, ids, ps) {
        var k :| base < k <= |ids| && Aligned(k, ps) && q == ids[..k];
        if k < |ids| {
          AlignedGap(k, |ids|, ps);
          assert q == ids[..n][..k];
        }
      }
      if q in Cells(base, ids[..n], ps) {
        var k :| base < k <= n && Aligned(k, ps) && q == ids[..n][..k];
        assert q == ids[..k];
      }
    }
  }

  lemma InsertedStep(view: View, ps: nat, ids: seq<int>, indices: seq<int>, base: nat)
    requires ps > 0 && |ids| == |indices| && Aligned(|ids|, ps) && IsLongest(view, ps, ids, base) && base + ps <= |ids|
    requires ValidView(view, ps)
    ensures var n := |ids| - ps;
      && (base == 0 || (ids[..base] in view && ids[..n][..base] in view))
      && |Slots(view, ids[..base])| == base
      && ids !in Inserted(view, ps, ids[..n], indices[..n], base)
      && Inserted(view, ps, ids, indices, base)
         == Inserted(view, ps, ids[..n], indices[..n], base)[ids := Slots(view, ids[..base]) + indices[base..]]
  {
    hide ValidView;
    var n := |ids| - ps;
    assert ids[..n][..base] == ids[..base] && ids[..|ids|] == ids;
    if base > 0 { SlotsLength(view, ids[..base], ps); }
    CellsStep(base, ids, ps);
    forall q | q in Cells(base, ids[..n], ps) ensures base <= |q| <= n {
    }
    MapStep(view, Cells(base, ids[..n], ps), ids, Slots(view, ids[..base]), indices, base, n);
  }

  lemma SlotsLength(view: View, p: Prefix, ps: int)
    requires ValidView(view, ps) && p in view
    ensures |view[p]| == |p|
  {
  }

  lemma MapStep(view: View, cells: set<Prefix>, ids: seq<int>, slots: seq<int>, indices: seq<int>, base: nat, n: nat)
    requires base <= n < |ids| == |indices| && forall q :: q in cells ==> base <= |q| <= n
    ensures ids !in cells
    ensures view + (map q | q in cells + {ids} :: slots + Part(indices, base, |q|))
         == (view + (map q | q in cells :: slots + Part(indices[..n], base, |q|)))[ids := slots + indices[base..]]
  {
    hide Part;
    var a, b := map q | q in cells + {ids} :: slots + Part(indices, base, |q|), map q | q in cells :: slots + Part(indices[..n], base, |q|);
    forall q | q in cells ensures Part(indices[..n], base, |q|) == Part(indices, base, |q|) {
      PartOfShorter(indices, base, |q|, n);
    }
    PartToEnd(indices, base);
    assert a == b[ids := slots + indices[base..]];
    PutLast(view, b, ids, slots + indices[base..]);
  }

  lemma PartOfShorter(s: seq<int>, lo: nat, hi: nat, n: nat)
    requires lo <= hi <= n <= |s|
    ensures Part(s[..n], lo, hi) == Part(s, lo, hi)
  {
  }

  lemma PartToEnd(s: seq<int>, lo: nat)
    requires lo <= |s|
    ensures Part(s, lo, |s|) == s[lo..]
  {
  }

  lemma PutLast(view: View, b: View, p: Prefix, slots: seq<int>)
    ensures view + b[p := slots] == (view + b)[p := slots]
  {
  }

  lemma RemovedStep(before: View, shorter: seq<Prefix>, p: Prefix)
    requires p in before && p !in shorter
    ensures p !in before - Elements(shorter + [p])
    ensures before - Elements(shorter) == (before - Elements(shorter + [p]))[p := before[p]]
  {
    assert Elements(shorter + [p]) == Elements(shorter) + {p};
  }

  lemma FlatStep(before: View, shorter: seq<Prefix>, p: Prefix, ps: nat)
    requires ps > 0 && ValidView(before, ps) && p in before && Aligned(|Flat(before, shorter, ps)|, ps)
    ensures Aligned(|Flat(before, shorter + [p], ps)|, ps) && ps <= |before[p]|
    ensures Stride(Flat(before, shorter + [p], ps), ps) == Stride(Flat(before, shorter, ps), ps) + [before[p][|before[p]| - ps]]
  {
    hide ValidView;
    FlatAppend(before, shorter, [p], ps);
    LastPageFits(before, p, ps);
    var last := LastPage(before, p, ps);
    assert Flat(before, [p], ps) == last;
    StrideConcat(Flat(before, shorter, ps), last, ps);
    assert Stride(last, ps) == [last[0]];
    MultipleAligned(1, ps);
    AlignedSum(|Flat(before, shorter, ps)|, ps, ps);
  }

  /** The removed pages and the remaining ones are the pages there were. */
  lemma {:induction false} TreePagesRemove(before: View, order: seq<Prefix>, ps: nat)
    requires ps > 0 && ValidView(before, ps) && NoDup(order) && forall p :: p in order ==> p in before
    ensures TreePages(before, ps) == TreePages(before - Elements(order), ps) + multiset(Stride(Flat(before, order, ps), ps))
    ensures Aligned(|Flat(before, order, ps)|, ps)
    decreases |order|
  {
    hide TreePages, ValidView, Aligned, Stride;
    if order == [] {
      assert before - Elements(order) == before;
      MultipleAligned(0, ps);
      StrideEmpty(ps);
    } else {
      var n := |order| - 1;
      var shorter, p := order[..n], order[n];
      assert order == shorter + [p] && p !in shorter;
      TreePagesRemove(before, shorter, ps);
      FlatStep(before, shorter, p, ps);
      RemovedStep(before, shorter, p);
      TreePagesAdd(before - Elements(order), p, before[p], ps);
    }
  }

  // ---- all pages ----

  /** The pages `0, ps, 2*ps, ...`: what the free list starts from. */
  function AllPages(n: nat, ps: nat): (r: seq<int>)
    ensures |r| == n && forall i :: 0 <= i < n ==> r[i] == i * ps
  {
    seq(n, i => i * ps)
  }

  lemma AllPagesOnce(n: nat, ps: nat, x: int)
    requires ps > 0
    ensures multiset(AllPages(n, ps))[x] <= 1
    ensures x in AllPages(n, ps) ==> Aligned(x, ps) && 0 <= x && x + ps <= n * ps
  {
    if n > 0 {
      AllPagesOnce(n - 1, ps, x);
      assert AllPages(n, ps) == AllPages(n - 1, ps) + [(n - 1) * ps];
      MultipleAligned(n - 1, ps);
      SumTimes(n, n - 1, 1, ps);
      assert x == (n - 1) * ps ==> x !in AllPages(n - 1, ps);
    }
  }
}
