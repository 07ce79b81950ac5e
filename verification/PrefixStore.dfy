/**
 The node-free meaning of the prefix cache: a finite map from page-aligned token
 prefixes to slots, and a bag of locked prefixes.
 */
module PrefixStore {
  import opened Alignment

  type Prefix = seq<int>
  type View = map<Prefix, seq<int>>

  /** Every stored prefix is page-aligned, has one slot a token, and is stored with all its page-aligned prefixes. */
  ghost predicate ValidView(view: View, ps: int)
  {
    ps > 0 &&
    forall p :: p in view ==>
      && |p| > 0 && Aligned(|p|, ps) && |view[p]| == |p|
      && forall k {:trigger p[..k]} :: 0 < k <= |p| && Aligned(k, ps) ==> p[..k] in view && view[p[..k]] == view[p][..k]
  }

  ghost function Slots(view: View, p: Prefix): seq<int>
    requires p == [] || p in view
  {
    if p == [] then [] else view[p]
  }

  /** `n` is the length of the longest page-aligned prefix of `ids` that is stored. */
  ghost predicate IsLongest(view: View, ps: int, ids: seq<int>, n: nat)
    requires ps > 0
  {
    && n <= |ids| && Aligned(n, ps)
    && (n == 0 || ids[..n] in view)
    && forall k {:trigger ids[..k]} :: n < k <= |ids| && Aligned(k, ps) ==> ids[..k] !in view
  }

  /** The page-aligned prefixes of `p` longer than `lo`: one for each page. */
  ghost function Cells(lo: nat, p: Prefix, ps: int): set<Prefix>
    requires ps > 0
  {
    set k | lo < k <= |p| && Aligned(k, ps) :: p[..k]
  }

  ghost function Part(s: seq<int>, lo: nat, hi: nat): seq<int>
  {
    if lo <= hi <= |s| then s[lo..hi] else []
  }

  /** The map after storing the pages of `ids` beyond `base` at the given slots. */
  ghost function Inserted(view: View, ps: int, ids: seq<int>, indices: seq<int>, base: nat): View
    requires ps > 0 && |ids| == |indices| && base <= |ids|
    requires base == 0 || ids[..base] in view
  {
    view + map p | p in Cells(base, ids, ps) :: Slots(view, ids[..base]) + Part(indices, base, |p|)
  }

  lemma KeptByInsert(view: View, ps: int, ids: seq<int>, indices: seq<int>, base: nat, p: Prefix)
    requires ps > 0 && |ids| == |indices| && IsLongest(view, ps, ids, base) && p in view
    ensures p in Inserted(view, ps, ids, indices, base) && Inserted(view, ps, ids, indices, base)[p] == view[p]
  {
    assert p !in Cells(base, ids, ps);
  }

  /** Storing a run of pages keeps the map closed under page-aligned prefixes. */
  lemma InsertedValid(view: View, ps: int, ids: seq<int>, indices: seq<int>, base: nat)
    requires ValidView(view, ps) && |ids| == |indices| && IsLongest(view, ps, ids, base)
    ensures ValidView(Inserted(view, ps, ids, indices, base), ps)
  {
    hide IsLongest;
    LongestStored(view, ps, ids, base);
    var after := Inserted(view, ps, ids, indices, base);
    forall p | p in after
      ensures |p| > 0 && Aligned(|p|, ps) && |after[p]| == |p|
      ensures forall k {:trigger p[..k]} :: 0 < k <= |p| && Aligned(k, ps) ==> p[..k] in after && after[p[..k]] == after[p][..k]
    {
      if p in Cells(base, ids, ps) {
        InsertedNew(view, ps, ids, indices, base, p);
      } else {
        InsertedOld(view, ps, ids, indices, base, p);
      }
    }
    MakeValid(after, ps);
  }

  lemma MakeValid(view: View, ps: int)
    requires ps > 0
    requires forall p :: p in view ==>
      && |p| > 0 && Aligned(|p|, ps) && |view[p]| == |p|
      && forall k {:trigger p[..k]} :: 0 < k <= |p| && Aligned(k, ps) ==> p[..k] in view && view[p[..k]] == view[p][..k]
    ensures ValidView(view, ps)
  {
  }

  lemma LongestStored(view: View, ps: int, ids: seq<int>, base: nat)
    requires ps > 0 && IsLongest(view, ps, ids, base)
    ensures base <= |ids| && Aligned(base, ps) && (base == 0 || ids[..base] in view)
    ensures forall p :: p in Cells(base, ids, ps) ==> p !in view
  {
  }

  lemma InsertedOld(view: View, ps: int, ids: seq<int>, indices: seq<int>, base: nat, p: Prefix)
    requires ValidView(view, ps) && |ids| == |indices| && IsLongest(view, ps, ids, base) && p in view
    ensures var after := Inserted(view, ps, ids, indices, base);
      && p in after && |p| > 0 && Aligned(|p|, ps) && |after[p]| == |p|
      && forall k {:trigger p[..k]} :: 0 < k <= |p| && Aligned(k, ps) ==> p[..k] in after && after[p[..k]] == after[p][..k]
  {
    hide IsLongest, Cells;
    LongestStored(view, ps, ids, base);
  }

  lemma InsertedAt(view: View, ps: int, ids: seq<int>, indices: seq<int>, base: nat, k: nat)
    requires ps > 0 && ValidView(view, ps) && |ids| == |indices| && IsLongest(view, ps, ids, base) && 0 < k <= |ids| && Aligned(k, ps)
    ensures var after, front := Inserted(view, ps, ids, indices, base), Slots(view, ids[..base]);
      |front| == base && ids[..k] in after && after[ids[..k]] == if k <= base then front[..k] else front + indices[base..k]
  {
    hide IsLongest, ValidView;
    LongestStored(view, ps, ids, base);
    if base > 0 { LastPageFits(view, ids[..base], ps); }
    if k <= base {
      ShorterStored(view, ids[..base], k, ps);
      assert ids[..base][..k] == ids[..k];
      assert ids[..k] !in Cells(base, ids, ps);
    } else {
      assert ids[..k] in Cells(base, ids, ps);
    }
  }

  lemma InsertedNew(view: View, ps: int, ids: seq<int>, indices: seq<int>, base: nat, p: Prefix)
    requires ps > 0 && ValidView(view, ps) && |ids| == |indices| && IsLongest(view, ps, ids, base) && p in Cells(base, ids, ps)
    ensures var after := Inserted(view, ps, ids, indices, base);
      && p in after && |p| > 0 && Aligned(|p|, ps) && |after[p]| == |p|
      && forall k {:trigger p[..k]} :: 0 < k <= |p| && Aligned(k, ps) ==> p[..k] in after && after[p[..k]] == after[p][..k]
  {
    hide IsLongest, ValidView, Inserted;
    LongestStored(view, ps, ids, base);
    var after := Inserted(view, ps, ids, indices, base);
    var m :| base < m <= |ids| && Aligned(m, ps) && p == ids[..m];
    InsertedAt(view, ps, ids, indices, base, m);
    forall k {:trigger p[..k]} | 0 < k <= |p| && Aligned(k, ps) ensures p[..k] in after && after[p[..k]] == after[p][..k] {
      assert p[..k] == ids[..k];
      InsertedAt(view, ps, ids, indices, base, k);
    }
  }

  lemma NothingInserted(view: View, ps: int, ids: seq<int>, indices: seq<int>)
    requires ps > 0 && |ids| == |indices| && (ids == [] || ids in view)
    ensures ids[..|ids|] == ids && Inserted(view, ps, ids, indices, |ids|) == view
  {
    assert ids[..|ids|] == ids;
    assert Cells(|ids|, ids, ps) == {};
  }

  // ---- locks ----

  ghost predicate Locked(locks: multiset<Prefix>, p: Prefix)
  {
    exists l :: l in locks && p <= l
  }

  lemma LockedMore(some: multiset<Prefix>, locks: multiset<Prefix>, p: Prefix)
    requires some <= locks
    ensures Locked(some, p) ==> Locked(locks, p)
  {
    if Locked(some, p) {
      var l :| l in some && p <= l;
      assert l in locks;
    }
  }

  lemma LockedShorter(locks: multiset<Prefix>, p: Prefix, q: Prefix)
    requires p <= q
    ensures Locked(locks, q) ==> Locked(locks, p)
  {
    if Locked(locks, q) {
      var l :| l in locks && q <= l;
      assert p <= l;
    }
  }

  lemma Comparable(a: Prefix, n: Prefix, b: Prefix)
    ensures a <= b && n <= b ==> a <= n || n <= a
    ensures a <= n <= b ==> a <= b
  {
  }

  /** How many locks are held on `p` or on an extension of it. */
  ghost function LockCount(locks: multiset<Prefix>, p: Prefix): nat
    decreases |locks|
  {
    if locks == multiset{} then 0
    else
      var l :| l in locks;
      LockCount(locks - multiset{l}, p) + (if p <= l then 1 else 0)
  }

  lemma {:induction false} LockCountRemove(locks: multiset<Prefix>, l: Prefix, p: Prefix)
    requires l in locks
    ensures LockCount(locks, p) == LockCount(locks - multiset{l}, p) + (if p <= l then 1 else 0)
    decreases |locks|
  {
    var m :| m in locks && LockCount(locks, p) == LockCount(locks - multiset{m}, p) + (if p <= m then 1 else 0);
    if m != l {
      LockCountRemove(locks - multiset{m}, l, p);
      LockCountRemove(locks - multiset{l}, m, p);
      assert locks - multiset{m} - multiset{l} == locks - multiset{l} - multiset{m};
    }
  }

  lemma LockCountAdd(locks: multiset<Prefix>, l: Prefix, p: Prefix)
    ensures LockCount(locks + multiset{l}, p) == LockCount(locks, p) + (if p <= l then 1 else 0)
  {
    LockCountRemove(locks + multiset{l}, l, p);
    assert locks + multiset{l} - multiset{l} == locks;
  }

  lemma {:induction false} LockCountZero(locks: multiset<Prefix>, p: Prefix)
    ensures LockCount(locks, p) == 0 <==> !Locked(locks, p)
    decreases |locks|
  {
    if locks != multiset{} {
      var l :| l in locks;
      LockCountRemove(locks, l, p);
      LockCountZero(locks - multiset{l}, p);
      if Locked(locks, p) {
        var m :| m in locks && p <= m;
        assert m == l || m in locks - multiset{l};
      }
    }
  }

  /** Two prefixes extended by the same locks are counted alike. */
  lemma {:induction false} LockCountSame(locks: multiset<Prefix>, p: Prefix, q: Prefix)
    requires forall l :: l in locks ==> (p <= l <==> q <= l)
    ensures LockCount(locks, p) == LockCount(locks, q)
    decreases |locks|
  {
    if locks != multiset{} {
      var l :| l in locks;
      LockCountRemove(locks, l, p);
      LockCountRemove(locks, l, q);
      LockCountSame(locks - multiset{l}, p, q);
    }
  }

  // ---- sizes ----

  ghost function Unlocked(view: View, locks: multiset<Prefix>): set<Prefix>
  {
    set p | p in view && !Locked(locks, p)
  }

  ghost function Held(view: View, locks: multiset<Prefix>): set<Prefix>
  {
    set p | p in view && Locked(locks, p)
  }

  lemma NoCells(lo: nat, p: Prefix, ps: int)
    requires ps > 0 && |p| <= lo
    ensures Cells(lo, p, ps) == {}
  {
  }

  lemma CellsOneMore(lo: nat, p: Prefix, ps: int)
    requires ps > 0 && Aligned(|p|, ps) && lo + ps <= |p|
    ensures p !in Cells(lo, p[..|p| - ps], ps) && Cells(lo, p, ps) == Cells(lo, p[..|p| - ps], ps) + {p}
  {
    hide Aligned;
    var shorter := p[..|p| - ps];
    forall q ensures q in Cells(lo, p, ps) <==> q in Cells(lo, shorter, ps) + {p} {
      if q in Cells(lo, p, ps) {
        var k :| lo < k <= |p| && Aligned(k, ps) && q == p[..k];
        if k < |p| {
          AlignedGap(k, |p|, ps);
          assert q == shorter[..k];
        }
      }
      if q in Cells(lo, shorter, ps) {
        var k :| lo < k <= |shorter| && Aligned(k, ps) && q == shorter[..k];
        assert q == p[..k];
      }
      if q == p {
        assert q == p[..|p|];
      }
    }
  }

  lemma {:induction false} CellsCount(lo: nat, p: Prefix, ps: int)
    requires ps > 0 && lo <= |p| && Aligned(lo, ps) && Aligned(|p|, ps)
    ensures |Cells(lo, p, ps)| * ps == |p| - lo
    decreases |p|
  {
    hide Cells, Aligned;
    if lo == |p| {
      NoCells(lo, p, ps);
    } else {
      AlignedGap(lo, |p|, ps);
      AlignedSum(|p|, ps, ps);
      var shorter := p[..|p| - ps];
      CellsCount(lo, shorter, ps);
      CellsOneMore(lo, p, ps);
      assert |Cells(lo, p, ps)| == |Cells(lo, shorter, ps)| + 1;
      Distribute(|Cells(lo, shorter, ps)|, 1, ps);
    }
  }

  /** The pages of a prefix divide at any length into those up to it and those beyond it. */
  lemma CellsSplit(lo: nat, mid: nat, p: Prefix, ps: int)
    requires ps > 0 && lo <= mid <= |p|
    ensures Cells(lo, p, ps) == Cells(lo, p[..mid], ps) + Cells(mid, p, ps)
    ensures Cells(lo, p[..mid], ps) !! Cells(mid, p, ps)
  {
    forall q ensures q in Cells(lo, p, ps) <==> q in Cells(lo, p[..mid], ps) || q in Cells(mid, p, ps) {
      if q in Cells(lo, p, ps) {
        var k :| lo < k <= |p| && Aligned(k, ps) && q == p[..k];
        if k <= mid { assert q == p[..mid][..k]; }
      }
      if q in Cells(lo, p[..mid], ps) {
        var k :| lo < k <= mid && Aligned(k, ps) && q == p[..mid][..k];
        assert q == p[..k];
        assert |q| <= mid;
      }
    }
    forall q | q in Cells(mid, p, ps) ensures q !in Cells(lo, p[..mid], ps) {
      assert |q| > mid;
    }
  }

  lemma PagesAddUp(view: View, locks: multiset<Prefix>)
    ensures |Unlocked(view, locks)| + |Held(view, locks)| == |view|
  {
    assert Unlocked(view, locks) + Held(view, locks) == view.Keys;
    assert Unlocked(view, locks) !! Held(view, locks);
  }

  /** Locking a prefix takes exactly its own pages out of the unlocked ones. */
  lemma UnlockedAfterLock(view: View, locks: multiset<Prefix>, h: Prefix, ps: int)
    requires ps > 0 && forall p :: p in view ==> 0 < |p| && Aligned(|p|, ps)
    ensures Unlocked(view, locks + multiset{h}) == Unlocked(view, locks) - Cells(0, h, ps)
  {
    forall p | p in view
      ensures Locked(locks + multiset{h}, p) <==> Locked(locks, p) || p <= h
      ensures p <= h <==> p in Cells(0, h, ps)
    {
      if p <= h {
        assert h in locks + multiset{h};
        assert p == h[..|p|];
      }
      if Locked(locks, p) {
        var l :| l in locks && p <= l;
        assert l in locks + multiset{h};
      }
    }
  }

  lemma TakeAway(u: set<Prefix>, c: set<Prefix>, ps: int)
    requires c <= u || c !! u
    ensures |u - c| * ps == |u| * ps - (if c <= u then |c| * ps else 0)
  {
    if c <= u {
      assert u == (u - c) + c;
      Distribute(|u - c|, |c|, ps);
    } else {
      assert u - c == u;
    }
  }

  /** Taking pages that are locked like `q` out of the unlocked ones costs them all when `q` is unlocked, and nothing otherwise. */
  lemma TakeUnlocked(view: View, locks: multiset<Prefix>, taken: set<Prefix>, cells: set<Prefix>, q: Prefix, ps: int)
    requires cells <= view.Keys && cells !! taken && q in cells
    requires forall p :: p in cells ==> (Locked(locks, p) <==> Locked(locks, q))
    ensures |Unlocked(view, locks) - taken - cells| * ps
         == |Unlocked(view, locks) - taken| * ps - (if LockCount(locks, q) == 0 then |cells| * ps else 0)
  {
    LockCountZero(locks, q);
    TakeAway(Unlocked(view, locks) - taken, cells, ps);
  }

  lemma SumTimes(s: int, a: int, b: int, c: int)
    requires s == a + b
    ensures s * c == a * c + b * c
  {
  }

  lemma Distribute(a: int, b: int, c: int)
    ensures (a + b) * c == a * c + b * c
  {
  }

  lemma InsertedKeys(view: View, ps: int, ids: seq<int>, indices: seq<int>, base: nat, locks: multiset<Prefix>)
    requires ps > 0 && |ids| == |indices| && base <= |ids| && (base == 0 || ids[..base] in view)
    requires forall p :: p in Cells(base, ids, ps) ==> !Locked(locks, p) && p !in view
    ensures var after := Inserted(view, ps, ids, indices, base);
      && |Unlocked(after, locks)| == |Unlocked(view, locks)| + |Cells(base, ids, ps)|
      && |after| == |view| + |Cells(base, ids, ps)|
  {
    hide Cells, Locked, Inserted, Unlocked;
    var after, cells := Inserted(view, ps, ids, indices, base), Cells(base, ids, ps);
    assert after.Keys == view.Keys + cells by { KeysInserted(view, ps, ids, indices, base); }
    UnlockedGrows(view, after, cells, locks);
    assert |after| == |after.Keys| && |view| == |view.Keys|;
    assert view.Keys !! cells;
    assert Unlocked(view, locks) !! cells by { UnlockedStored(view, locks); }
  }

  lemma KeysInserted(view: View, ps: int, ids: seq<int>, indices: seq<int>, base: nat)
    requires ps > 0 && |ids| == |indices| && base <= |ids| && (base == 0 || ids[..base] in view)
    ensures Inserted(view, ps, ids, indices, base).Keys == view.Keys + Cells(base, ids, ps)
  {
    hide Cells;
  }

  lemma UnlockedStored(view: View, locks: multiset<Prefix>)
    ensures Unlocked(view, locks) <= view.Keys
  {
    hide Locked;
  }

  lemma UnlockedGrows(view: View, after: View, cells: set<Prefix>, locks: multiset<Prefix>)
    requires after.Keys == view.Keys + cells && forall p :: p in cells ==> !Locked(locks, p)
    ensures Unlocked(after, locks) == Unlocked(view, locks) + cells
  {
    hide Locked;
  }

  /** Inserting a run adds exactly its new pages, all of them unlocked. */
  lemma InsertCounts(view: View, ps: int, ids: seq<int>, indices: seq<int>, base: nat, locks: multiset<Prefix>)
    requires ps > 0 && |ids| == |indices| && Aligned(|ids|, ps) && IsLongest(view, ps, ids, base)
    requires forall p :: p in Cells(base, ids, ps) ==> !Locked(locks, p) && p !in view
    ensures var after := Inserted(view, ps, ids, indices, base);
      && |Unlocked(after, locks)| * ps == |Unlocked(view, locks)| * ps + |ids| - base
      && |after| * ps == |view| * ps + |ids| - base
  {
    hide Cells, Locked, Inserted, Unlocked, Aligned;
    CellsCount(base, ids, ps);
    InsertedKeys(view, ps, ids, indices, base, locks);
    var after, n := Inserted(view, ps, ids, indices, base), |Cells(base, ids, ps)|;
    SumTimes(|Unlocked(after, locks)|, |Unlocked(view, locks)|, n, ps);
    SumTimes(|after|, |view|, n, ps);
  }

  /** Dropping unlocked pages costs exactly those pages. */
  lemma DropCounts(view: View, cells: set<Prefix>, locks: multiset<Prefix>, ps: int)
    requires cells <= view.Keys && forall p :: p in cells ==> !Locked(locks, p)
    ensures |Unlocked(view - cells, locks)| * ps == |Unlocked(view, locks)| * ps - |cells| * ps
    ensures |view - cells| * ps == |view| * ps - |cells| * ps
  {
    hide Locked;
    assert Unlocked(view - cells, locks) == Unlocked(view, locks) - cells;
    assert (view - cells).Keys == view.Keys - cells;
    assert |view - cells| == |(view - cells).Keys|;
    SumTimes(|Unlocked(view, locks)|, |Unlocked(view - cells, locks)|, |cells|, ps);
    SumTimes(|view|, |view - cells|, |cells|, ps);
  }

  // ---- pages of removed prefixes ----

  /** The slots of the last page of `p`; nothing when `p` is not stored. */
  ghost function LastPage(view: View, p: Prefix, ps: int): seq<int>
  {
    if p in view && 0 <= ps <= |view[p]| then view[p][|view[p]| - ps..] else []
  }

  /** The last pages of the listed prefixes, one after the other. */
  ghost function Flat(view: View, order: seq<Prefix>, ps: int): seq<int>
  {
    if order == [] then [] else LastPage(view, order[0], ps) + Flat(view, order[1..], ps)
  }

  lemma LastPageFits(view: View, p: Prefix, ps: int)
    requires ValidView(view, ps) && p in view
    ensures 0 < ps <= |p| == |view[p]| && |LastPage(view, p, ps)| == ps && Aligned(|p|, ps)
  {
    MultipleAligned(0, ps);
    AlignedGap(0, |p|, ps);
  }

  lemma {:induction false} FlatAppend(view: View, a: seq<Prefix>, b: seq<Prefix>, ps: int)
    ensures Flat(view, a + b, ps) == Flat(view, a, ps) + Flat(view, b, ps)
  {
    if a == [] {
      assert a + b == b;
    } else {
      assert (a + b)[1..] == a[1..] + b;
      FlatAppend(view, a[1..], b, ps);
    }
  }

  /** The page-aligned prefixes of `p` longer than `lo`, shortest first. */
  ghost function CellSeq(lo: nat, p: Prefix, ps: int): seq<Prefix>
    requires ps > 0
    decreases |p|
  {
    if |p| <= lo || |p| < ps then [] else CellSeq(lo, p[..|p| - ps], ps) + [p]
  }

  ghost predicate NoDup<T>(s: seq<T>)
  {
    forall i, j :: 0 <= i < j < |s| ==> s[i] != s[j]
  }

  lemma {:induction false} CellSeqCells(lo: nat, p: Prefix, ps: int)
    requires ps > 0 && lo <= |p| && Aligned(lo, ps) && Aligned(|p|, ps)
    ensures forall q :: q in CellSeq(lo, p, ps) <==> q in Cells(lo, p, ps)
    ensures forall i :: 0 <= i < |CellSeq(lo, p, ps)| ==> |CellSeq(lo, p, ps)[i]| <= |p|
    ensures NoDup(CellSeq(lo, p, ps))
    decreases |p|
  {
    if lo < |p| {
      AlignedGap(lo, |p|, ps);
      AlignedSum(|p|, ps, ps);
      var shorter := p[..|p| - ps];
      CellSeqCells(lo, shorter, ps);
      forall q ensures q in Cells(lo, p, ps) <==> q in Cells(lo, shorter, ps) || q == p {
        if q in Cells(lo, p, ps) {
          var k :| lo < k <= |p| && Aligned(k, ps) && q == p[..k];
          if k < |p| {
            AlignedGap(k, |p|, ps);
            assert q == shorter[..k];
          }
        }
        if q in Cells(lo, shorter, ps) {
          var k :| lo < k <= |shorter| && Aligned(k, ps) && q == shorter[..k];
          assert q == p[..k];
        }
        if q == p {
          assert q == p[..|p|];
        }
      }
    }
  }

  lemma ShorterStored(view: View, p: Prefix, n: nat, ps: int)
    requires ValidView(view, ps) && p in view && n <= |p| && Aligned(n, ps)
    ensures n == 0 || p[..n] in view
    ensures |view[p]| == |p| && Slots(view, p[..n]) == view[p][..n]
  {
    if n > 0 { assert p[..n] in view; }
  }

  /** The last pages of consecutive prefixes, put together, are the slots of the longest of them. */
  lemma {:induction false} FlatCells(view: View, lo: nat, p: Prefix, ps: int)
    requires ValidView(view, ps) && (p == [] || p in view) && lo <= |p| && Aligned(lo, ps) && Aligned(|p|, ps)
    ensures |Slots(view, p)| == |p| && Flat(view, CellSeq(lo, p, ps), ps) == Slots(view, p)[lo..]
    decreases |p|
  {
    hide ValidView, Aligned, Flat;
    if lo == |p| {
      FlatNone(view, ps);
    }
    if p != [] { LastPageFits(view, p, ps); }
    if lo < |p| {
      AlignedGap(lo, |p|, ps);
      AlignedSum(|p|, ps, ps);
      var shorter := p[..|p| - ps];
      ShorterStored(view, p, |p| - ps, ps);
      FlatCells(view, lo, shorter, ps);
      FlatAppend(view, CellSeq(lo, shorter, ps), [p], ps);
      FlatOne(view, p, ps);
      SlicesJoin(view[p], lo, |p| - ps);
    }
  }

  lemma FlatNone(view: View, ps: int)
    ensures Flat(view, [], ps) == []
  {
  }

  lemma FlatOne(view: View, p: Prefix, ps: int)
    ensures Flat(view, [p], ps) == LastPage(view, p, ps)
  {
    assert Flat(view, [p], ps) == LastPage(view, p, ps) + Flat(view, [p][1..], ps);
  }

  lemma SlicesJoin(s: seq<int>, lo: nat, n: nat)
    requires lo <= n <= |s|
    ensures s[lo..] == s[..n][lo..] + s[n..]
  {
  }

  ghost function Elements<T>(s: seq<T>): set<T>
  {
    set x | x in s
  }

  lemma ElementsMore<T>(s: seq<T>, x: T)
    ensures Elements(s + [x]) == Elements(s) + {x}
  {
  }

  lemma ElementsFront<T>(s: seq<T>, i: nat)
    requires i < |s|
    ensures s[i] in Elements(s) && Elements(s[..i + 1]) == Elements(s[..i]) + {s[i]}
  {
    assert s[..i + 1] == s[..i] + [s[i]];
  }

  /** `after` is what is left of `before` when the listed prefixes are gone. */
  ghost predicate Removed(before: View, order: seq<Prefix>, after: View)
  {
    && NoDup(order) && (forall p :: p in order ==> p in before)
    && after == before - Elements(order)
  }

  lemma RemovedFacts(before: View, order: seq<Prefix>, after: View)
    requires Removed(before, order, after)
    ensures NoDup(order) && forall p :: p in order ==> p in before
  {
  }

  /** Removing one node's pages next: the removed slots grow by that node's slots. */
  lemma RemovedMore(before: View, order: seq<Prefix>, now: View, lo: nat, p: Prefix, ps: int)
    requires ValidView(before, ps) && lo < |p| && Aligned(lo, ps) && Aligned(|p|, ps)
    requires Removed(before, order, now) && Cells(lo, p, ps) <= now.Keys && p in now
    ensures |now[p]| == |p|
    ensures var more := order + CellSeq(lo, p, ps);
      && Removed(before, more, now - Cells(lo, p, ps))
      && Flat(before, more, ps) == Flat(before, order, ps) + now[p][lo..]
      && forall q :: q in more ==> q in order || q in Cells(lo, p, ps)
  {
    hide CellSeq, Cells, ValidView, Aligned, Flat;
    assert p in before;
    LastPageFits(before, p, ps);
    var more := CellSeq(lo, p, ps);
    CellSeqCells(lo, p, ps);
    FlatCells(before, lo, p, ps);
    FlatAppend(before, order, more, ps);
    assert Elements(order + more) == Elements(order) + Cells(lo, p, ps);
    forall i, j | 0 <= i < j < |order + more| ensures (order + more)[i] != (order + more)[j] {
      if i < |order| && j >= |order| {
        assert more[j - |order|] in more;
        assert order[i] in Elements(order);
      }
    }
  }
}
