/**
 What caching an unfinished prompt does to the row of its request. Pages that the tree already had are
 given back, but the row goes on naming them: the row follows the tree exactly when there were none.
 */
module Sharing {
  import Alignment
  import opened PrefixStore
  import opened Sums
  import opened Pages
  import opened World

  /** The row names the tree's own slots for the prefix the request has locked. */
  ghost predicate Shares(view: View, r: Holding)
  {
    && r.hl <= |r.row| && r.hl <= |r.tok|
    && (r.hl == 0 || r.tok[..r.hl] in view)
    && r.row[..r.hl] == Slots(view, r.tok[..r.hl])
  }

  /** While a row shares, all it maps was last written for its own prefixes: attention reads what it should. */
  lemma SharingRowIsRight(s: Store, r: Holding)
    requires ViewOk(s) && HoldingOk(r, s) && Shares(s.view, r)
    ensures Labelled(r.row, r.tok, 0, r.cachedLen, s.kv)
  {
    hide Blocked;
    FrontShape(s, r.tok[..r.hl]);
    var slots := Slots(s.view, r.tok[..r.hl]);
    forall i {:trigger r.row[i]} | 0 <= i < r.cachedLen ensures r.row[i] in s.kv && s.kv[r.row[i]] == r.tok[..i + 1] {
      if i < r.hl {
        assert r.row[i] == r.row[..r.hl][i] == slots[i];
        assert r.tok[..r.hl][..i + 1] == r.tok[..i + 1];
      }
    }
  }

  /** A new request shares. */
  lemma AdmittedShares(s: Store, r: Holding, len: nat)
    requires Starts(s, r, len)
    ensures Shares(s.view, r)
  {
  }

  // ---- what leaves a row sharing ----

  /** A row goes on sharing while its locked part and the slots of the locked prefix stay what they are. */
  lemma SharesStays(view: View, r: Holding, after: View, q: Holding)
    requires Shares(view, r) && q.hl == r.hl && r.hl <= |q.row| && q.row[..r.hl] == r.row[..r.hl]
    requires r.hl <= |q.tok| && q.tok[..r.hl] == r.tok[..r.hl]
    requires r.hl > 0 ==> r.tok[..r.hl] in after && after[r.tok[..r.hl]] == view[r.tok[..r.hl]]
    ensures Shares(after, q)
  {
  }

  /** Storing another request's run moves nothing that is stored. */
  lemma SharesAfterCaching(s: Store, r: Holding, q: Holding, n: nat, base: nat)
    requires Shares(s.view, r) && CacheStep(s, q, n, base)
    ensures Shares(Cached(s, q, n, base), r)
  {
    hide IsLongest, Inserted;
    if r.hl > 0 { KeptByInsert(s.view, s.ps, q.tok[..n], q.row[..n], base, r.tok[..r.hl]); }
    SharesStays(s.view, r, Cached(s, q, n, base), r);
  }

  /** Eviction leaves what is locked. */
  lemma SharesAfterEviction(s: Store, r: Holding, order: seq<Prefix>, after: View)
    requires Shares(s.view, r) && Handle(r) in s.locks
    requires Removed(s.view, order, after) && forall p :: p in order ==> !Locked(s.locks, p)
    ensures Shares(after, r)
  {
    HandleLocks(s.locks, r, r.tok[..r.hl]);
    SharesStays(s.view, r, after, r);
  }

  /** New pages go behind those the row has. */
  lemma SharesAfterGrant(view: View, r: Holding, pages: seq<int>, ps: nat)
    requires Shares(view, r) && r.hl <= r.alloc && r.alloc + |PageToToken(pages, ps)| <= |r.row|
    ensures Shares(view, Granted(r, pages, ps)) && Granted(r, pages, ps).hl == r.hl && Granted(r, pages, ps).tok == r.tok
    ensures Granted(r, pages, ps).row[..r.alloc] == r.row[..r.alloc]
  {
    var q := Granted(r, pages, ps);
    assert q.row[..r.alloc][..r.hl] == r.row[..r.alloc][..r.hl];
    SharesStays(view, r, view, q);
  }

  lemma {:induction false} SharesAfterGrants<K>(view: View, live: map<K, Holding>, batch: seq<K>, counts: seq<nat>,
                                                pages: seq<int>, ps: nat, k: K)
    requires |counts| == |batch| && k in live && Shares(view, live[k]) && live[k].hl <= live[k].alloc
    ensures var g := GrantAll(live, batch, counts, pages, ps); k in g && Shares(view, g[k]) && g[k].hl == live[k].hl
    decreases |batch|
  {
    hide Shares;
    if batch != [] && CanGrant(live, batch[0], counts[0], pages, ps) {
      var b, mine := batch[0], pages[..counts[0]];
      if b == k { SharesAfterGrant(view, live[k], mine, ps); }
      SharesAfterGrants(view, live[b := Granted(live[b], mine, ps)], batch[1..], counts[1..], pages[counts[0]..], ps, k);
    }
  }

  // ---- what caching does ----

  /** Where the request's locked prefix ends in the map after caching. */
  lemma CachedPrefix(s: Store, r: Holding, n: nat, base: nat)
    requires ViewOk(s) && HoldingOk(r, s) && Tight(r, s.ps) && CacheStep(s, r, n, base)
    ensures r.hl <= base <= n <= r.alloc <= |r.row| && n <= |r.tok| && (n == 0 || r.tok[..n] in Cached(s, r, n, base))
    ensures s.ps > 0 && (base == 0 || r.tok[..base] in s.view)
    ensures |Slots(s.view, r.tok[..base])| == base
    ensures Slots(Cached(s, r, n, base), r.tok[..n]) == Slots(s.view, r.tok[..base]) + r.row[base..n]
  {
    hide Blocked, Labelled, ValidView, IsLongest, Inserted;
    CacheFacts(s, r, n, base);
    CachedViewOk(s, r, n, base);
    FrontShape(s, r.tok[..base]);
    assert r.tok[..n][..n] == r.tok[..n] && r.tok[..n][..base] == r.tok[..base];
    if n > 0 {
      InsertedAt(s.view, s.ps, r.tok[..n], r.row[..n], base, n);
      var front := Slots(s.view, r.tok[..base]);
      if base == n {
        assert front[..n] == front && r.row[n..n] == [] && front + [] == front;
      } else {
        assert r.row[..n][base..n] == r.row[base..n];
      }
    }
  }

  /** The row goes on sharing exactly when the tree had nothing beyond what the request had locked. */
  lemma KeptShares<K>(s: Store, live: map<K, Holding>, k: K, n: nat, base: nat)
    requires k in live && WorldOk(s, live, multiset{}) && Tight(live[k], s.ps) && CacheStep(s, live[k], n, base) && Shares(s.view, live[k])
    ensures live[k].hl <= base <= |live[k].row|
    ensures Shares(Kept(s, live[k], n, base).view, live[k].(hl := n)) <==> base == live[k].hl
  {
    hide ViewOk, HoldingOk, Conserved, LocksMatch, CacheStep, Cached, Tight;
    var r := live[k];
    CachedPrefix(s, r, n, base);
    var front := Slots(s.view, r.tok[..base]);
    assert r.row[..n] == r.row[..base] + r.row[base..n];
    if base == r.hl {
      assert r.row[..base] == front;
    } else {
      assert r.tok[..base] in s.view;
      KeptApart(s, live, k, base);
      assert (front + r.row[base..n])[r.hl] == front[r.hl] != r.row[..n][r.hl];
    }
  }

  lemma KeptApart<K>(s: Store, live: map<K, Holding>, k: K, base: nat)
    requires k in live && WorldOk(s, live, multiset{}) && live[k].hl < base <= live[k].alloc
    requires base <= |live[k].tok| && live[k].tok[..base] in s.view
    ensures live[k].hl < |s.view[live[k].tok[..base]]| && live[k].hl < |live[k].row|
    ensures live[k].row[live[k].hl] != s.view[live[k].tok[..base]][live[k].hl]
  {
    hide Conserved, LocksMatch, Blocked, Labelled;
    assert HoldingOk(live[k], s);
    RowApartTree(s, live, multiset{}, k, live[k].hl, live[k].tok[..base], live[k].hl);
  }

  /** The pages given back are those the row still names between the old lock and what was stored: none, or at least the first. */
  lemma KeptMapsFreed<K>(s: Store, live: map<K, Holding>, k: K, n: nat, base: nat)
    requires k in live && WorldOk(s, live, multiset{}) && Tight(live[k], s.ps) && CacheStep(s, live[k], n, base) && Shares(s.view, live[k])
    ensures live[k].hl <= base <= |live[k].row| && n <= |live[k].row|
    ensures live[k].hl < base <==> exists i :: 0 <= i < n && live[k].row[i] in Kept(s, live[k], n, base).free
  {
    hide ViewOk, HoldingOk, Conserved, LocksMatch, CacheStep, Cached, Tight, Stride;
    var r := live[k];
    CachedPrefix(s, r, n, base);
    if r.hl < base {
      StrideFirst(r.row[r.hl..base], s.ps);
      assert r.row[r.hl] in Kept(s, r, n, base).free;
    } else {
      NothingFreed(s, r, n, base);
      forall i | 0 <= i < n ensures r.row[i] !in s.free {
        RowNotFree(s, live, k, i);
      }
    }
  }

  lemma StrideFirst(part: seq<int>, ps: nat)
    requires ps > 0 && part != []
    ensures part[0] in Stride(part, ps)
  {
    assert Stride(part, ps)[0] == part[0];
  }

  lemma NothingFreed(s: Store, r: Holding, n: nat, base: nat)
    requires CacheStep(s, r, n, base) && base == r.hl <= |r.row|
    ensures Kept(s, r, n, base).free == s.free
  {
    assert r.row[r.hl..base] == [];
  }

  /** No slot that a sharing row maps is free. */
  lemma RowNotFree<K>(s: Store, live: map<K, Holding>, k: K, i: nat)
    requires k in live && WorldOk(s, live, multiset{}) && Shares(s.view, live[k]) && i < live[k].alloc <= |live[k].row|
    ensures live[k].row[i] !in s.free
  {
    hide LocksMatch, Blocked, Labelled, ViewOk, TreePages, AllPages, Bag, Shaped;
    var r := live[k];
    assert HoldingOk(r, s);
    if r.row[i] in s.free {
      var x := r.row[i];
      FreePage(s, live, x);
      if i < r.hl {
        var p := r.tok[..r.hl];
        assert x == r.row[..r.hl][i] == s.view[p][i];
        SharedLength(s, p);
        var j := TreeSlot(s, p, i);
        Alignment.MultipleAligned(0, s.ps);
        SamePage(s.view[p][j], i - j, x, 0, s.ps);
        NoTwoHolders(s, live, multiset{}, multiset(s.free), TreePages(s.view, s.ps), x);
      } else {
        var j := OwnedSlot(r, s.ps, i);
        SamePage(r.row[j], i - j, x, 0, s.ps);
        BagHas(OwnedMap(live, s.ps), k);
        NoTwoHolders(s, live, multiset{}, multiset(s.free), OwnedPages(r, s.ps), x);
      }
    }
  }

  lemma SharedLength(s: Store, p: Prefix)
    requires ViewOk(s) && p in s.view
    ensures |s.view[p]| == |p|
  {
  }

  lemma FreePage<K>(s: Store, live: map<K, Holding>, x: int)
    requires Conserved(s, live, multiset{}) && x in s.free
    ensures Alignment.Aligned(x, s.ps) && x in multiset(s.free)
  {
    hide TreePages, AllPages, Bag;
    NoTwoHolders(s, live, multiset{}, multiset(s.free), multiset{}, x);
  }

  /** Two requests for the same prompt, computed in one batch: the first has been cached, and has its page in the tree. */
  ghost function TwinStore(): Store
  {
    Store(1, 4, [2, 3], map[[7] := [0]], multiset{[7], []}, map[0 := [7], 1 := [7]])
  }

  ghost function Twins(): map<int, Holding>
  {
    map[0 := Holding([7, 9], [0, 0], 1, 1, 1, 4), 1 := Holding([7, 8], [1, 0], 0, 1, 1, 4)]
  }

  /** This is a state like any other: pages, locks, blocks and labels are in order, and both rows share. */
  lemma TwinsInOrder()
    ensures WorldOk(TwinStore(), Twins(), multiset{})
    ensures Tight(Twins()[0], 1) && Tight(Twins()[1], 1)
    ensures Shares(TwinStore().view, Twins()[0]) && Shares(TwinStore().view, Twins()[1])
  {
    hide ViewOk, HoldingOk, Conserved, LocksMatch, Shares;
    TwinView();
    TwinHoldings();
    TwinPages();
    TwinLocks();
  }

  lemma TwinHoldings()
    ensures HoldingOk(Twins()[0], TwinStore()) && HoldingOk(Twins()[1], TwinStore())
    ensures Shares(TwinStore().view, Twins()[0]) && Shares(TwinStore().view, Twins()[1])
  {
    var a, b := Twins()[0], Twins()[1];
    assert a.tok[..1] == [7] && a.row[..1] == [0];
    assert b.tok[..1] == [7] && b.tok[..0] == [] && b.row[..0] == [];
  }

  lemma TwinView()
    ensures ViewOk(TwinStore())
  {
    var s := TwinStore();
    forall p | p in s.view ensures Blocked(s.view[p], 1) && Labelled(s.view[p], p, 0, |p|, s.kv) {
      assert p == [7] && p[..1] == [7];
    }
    forall p, k {:trigger p[..k]} | p in s.view && 0 < k <= |p| ensures p[..k] in s.view && s.view[p[..k]] == s.view[p][..k] {
      assert p == [7] && k == 1 && p[..k] == [7] && s.view[p][..k] == [0];
    }
  }

  lemma TwinPages()
    ensures Conserved(TwinStore(), Twins(), multiset{})
  {
    hide TreePages, OwnedPages, Bag;
    TwinOwned();
    var owned := OwnedMap(Twins(), 1);
    assert owned == map[0 := multiset{}, 1 := multiset{1}];
    BagTwo(owned, 0, 1);
    TwinTree();
    assert AllPages(4, 1) == [0, 1, 2, 3];
  }

  lemma TwinOwned()
    ensures OwnedPages(Twins()[0], 1) == multiset{} && OwnedPages(Twins()[1], 1) == multiset{1}
  {
    var a, b := Twins()[0], Twins()[1];
    assert a.row[1..1] == [] && b.row[0..1] == [1] && Stride([1], 1) == [1];
  }

  lemma TwinTree()
    ensures TreePages(TwinStore().view, 1) == multiset{0}
  {
    var m := HeadMap(TwinStore().view, 1);
    assert m == map[[7] := multiset{0}];
    BagOne(m, [7]);
  }

  lemma TwinLocks()
    ensures LocksMatch(TwinStore(), Twins())
  {
    var live := Twins();
    assert Handle(live[0]) == [7] by { assert live[0].tok[..1] == [7]; }
    assert Handle(live[1]) == [] by { assert live[1].tok[..0] == []; }
    var m := HandleMap(live);
    assert m == map[0 := multiset{[7]}, 1 := multiset{[]}];
    BagTwo(m, 0, 1);
  }

  lemma BagOne<K, V>(m: map<K, multiset<V>>, k: K)
    requires m.Keys == {k}
    ensures Bag(m) == m[k]
  {
    BagWithout(m, k);
    assert m - {k} == map[];
  }

  lemma BagTwo<K, V>(m: map<K, multiset<V>>, k: K, k': K)
    requires k != k' && m.Keys == {k, k'}
    ensures Bag(m) == m[k] + m[k']
  {
    BagWithout(m, k);
    BagOne(m - {k}, k');
  }

  /** Caching the second of them gives its page back, and its row still names it: it shares no longer. */
  lemma SamePromptTwice()
    ensures var s, r := TwinStore(), Twins()[1];
      && CacheStep(s, r, 1, 1)
      && Kept(s, r, 1, 1).free == [2, 3, 1] && r.row[0] == 1
      && Shares(s.view, r) && !Shares(Kept(s, r, 1, 1).view, r.(hl := 1))
  {
    var s, r := TwinStore(), Twins()[1];
    assert r.tok[..1] == [7] && r.tok[..1][..1] == [7] && r.row[..1] == [1];
    assert IsLongest(s.view, s.ps, r.tok[..1], 1);
    assert CacheStep(s, r, 1, 1);
    assert r.row[0..1] == [1];
    assert Cells(1, r.tok[..1], 1) == {};
    assert Cached(s, r, 1, 1)[[7]] == [0];
  }
}
