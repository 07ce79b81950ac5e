/**
 Who holds which page: the free list, the prefix tree, or a live request.
 Every step of the scheduler is described here on values, and proved to keep
 the pages, the locks, the page blocks and the labels of the KV slots.
 */
module World {
  import opened Alignment
  import opened PrefixStore
  import opened Sums
  import opened Pages

  /** What a live request holds: its tokens, its page-table row, and how far each part reaches. */
  datatype Holding = Holding(
    tok: seq<int>,    // the tokens of its row, in order
    row: seq<int>,    // its page-table row
    hl: nat,          // length of the locked prefix that belongs to the tree
    cachedLen: nat,   // positions whose KV has been written
    alloc: nat,       // positions backed by pages
    goal: nat)        // prompt length plus output length: no position from goal - 1 on is ever used

  datatype Store = Store(
    ps: nat,
    numPages: nat,
    free: seq<int>,
    view: View,
    locks: multiset<Prefix>,
    kv: map<int, Prefix>)  // for each written slot, the token prefix it was computed for

  // ---- well-formed holdings ----

  /** The slots of positions `[lo, hi)` were last written for the prefixes of `tok` ending there. */
  ghost predicate Labelled(slots: seq<int>, tok: seq<int>, lo: nat, hi: nat, kv: map<int, Prefix>)
  {
    && hi <= |slots| && hi <= |tok|
    && forall i {:trigger slots[i]} :: lo <= i < hi ==> slots[i] in kv && kv[slots[i]] == tok[..i + 1]
  }

  ghost predicate Shaped(r: Holding, ps: nat)
  {
    && ps > 0 && r.hl <= r.cachedLen <= r.alloc <= |r.row| && r.cachedLen <= |r.tok|
    && Aligned(r.hl, ps) && Aligned(r.alloc, ps)
    && Blocked(r.row[..r.alloc], ps)
  }

  /** Pages are handed out one at a time, so less than a page is unused. */
  ghost predicate Tight(r: Holding, ps: nat)
  {
    r.alloc < r.cachedLen + ps
  }

  ghost predicate HoldingOk(r: Holding, s: Store)
  {
    && Shaped(r, s.ps)
    && (r.hl == 0 || r.tok[..r.hl] in s.view)
    && Labelled(r.row, r.tok, r.hl, r.cachedLen, s.kv)
  }

  ghost predicate ViewOk(s: Store)
  {
    && ValidView(s.view, s.ps)
    && forall p :: p in s.view ==> Blocked(s.view[p], s.ps) && Labelled(s.view[p], p, 0, |p|, s.kv)
  }

  // ---- accounts ----

  /** The pages a request owns: from the end of its locked prefix to the end of its row. */
  ghost function OwnedPages(r: Holding, ps: nat): multiset<int>
  {
    if ps > 0 && r.hl <= r.alloc <= |r.row| then multiset(Stride(r.row[r.hl..r.alloc], ps)) else multiset{}
  }

  ghost function OwnedMap<K>(live: map<K, Holding>, ps: nat): map<K, multiset<int>>
  {
    map k | k in live :: OwnedPages(live[k], ps)
  }

  ghost function Handle(r: Holding): Prefix
  {
    if r.hl <= |r.tok| then r.tok[..r.hl] else []
  }

  ghost function HandleMap<K>(live: map<K, Holding>): map<K, multiset<Prefix>>
  {
    map k | k in live :: multiset{Handle(live[k])}
  }

  /** Free pages, pages of the tree, pages owned by requests and pages in hand are all pages, each exactly once. */
  ghost predicate Conserved<K>(s: Store, live: map<K, Holding>, hand: multiset<int>)
  {
    s.ps > 0 &&
    multiset(s.free) + TreePages(s.view, s.ps) + Bag(OwnedMap(live, s.ps)) + hand == multiset(AllPages(s.numPages, s.ps))
  }

  ghost predicate LocksMatch<K>(s: Store, live: map<K, Holding>)
  {
    s.locks == Bag(HandleMap(live))
  }

  ghost predicate AllOk<K>(s: Store, live: map<K, Holding>)
  {
    forall k :: k in live ==> HoldingOk(live[k], s)
  }

  ghost predicate WorldOk<K>(s: Store, live: map<K, Holding>, hand: multiset<int>)
  {
    && ViewOk(s) && AllOk(s, live) && Conserved(s, live, hand) && LocksMatch(s, live)
  }

  // ---- what conservation means ----

  /** No page has two holders. */
  lemma NoTwoHolders<K>(s: Store, live: map<K, Holding>, hand: multiset<int>, a: multiset<int>, b: multiset<int>, x: int)
    requires Conserved(s, live, hand)
    requires a + b <= multiset(s.free) + TreePages(s.view, s.ps) + Bag(OwnedMap(live, s.ps)) + hand
    requires x in a
    ensures x !in b && a[x] == 1 && Aligned(x, s.ps) && 0 <= x && x + s.ps <= s.numPages * s.ps
  {
    AllPagesOnce(s.numPages, s.ps, x);
    assert (a + b)[x] <= multiset(AllPages(s.numPages, s.ps))[x];
    assert x in AllPages(s.numPages, s.ps);
  }

  lemma OwnedSet<K>(live: map<K, Holding>, k: K, r: Holding, ps: nat)
    ensures k in live ==> Bag(OwnedMap(live[k := r], ps)) + OwnedPages(live[k], ps) == Bag(OwnedMap(live, ps)) + OwnedPages(r, ps)
    ensures k !in live ==> Bag(OwnedMap(live[k := r], ps)) == Bag(OwnedMap(live, ps)) + OwnedPages(r, ps)
  {
    hide Bag, OwnedPages;
    BagSet(OwnedMap(live, ps), k, OwnedPages(r, ps));
    assert OwnedMap(live[k := r], ps) == OwnedMap(live, ps)[k := OwnedPages(r, ps)];
  }

  lemma OwnedWithout<K>(live: map<K, Holding>, k: K, ps: nat)
    requires k in live
    ensures Bag(OwnedMap(live, ps)) == OwnedPages(live[k], ps) + Bag(OwnedMap(live - {k}, ps))
  {
    hide Bag, OwnedPages;
    BagWithout(OwnedMap(live, ps), k);
    assert OwnedMap(live - {k}, ps) == OwnedMap(live, ps) - {k};
  }

  lemma HandleSet<K>(live: map<K, Holding>, k: K, r: Holding)
    ensures k in live ==> Bag(HandleMap(live[k := r])) + multiset{Handle(live[k])} == Bag(HandleMap(live)) + multiset{Handle(r)}
    ensures k !in live ==> Bag(HandleMap(live[k := r])) == Bag(HandleMap(live)) + multiset{Handle(r)}
  {
    hide Bag, Handle;
    BagSet(HandleMap(live), k, multiset{Handle(r)});
    assert HandleMap(live[k := r]) == HandleMap(live)[k := multiset{Handle(r)}];
  }

  lemma HandleWithout<K>(live: map<K, Holding>, k: K)
    requires k in live
    ensures Bag(HandleMap(live)) == multiset{Handle(live[k])} + Bag(HandleMap(live - {k}))
  {
    hide Bag, Handle;
    BagWithout(HandleMap(live), k);
    assert HandleMap(live - {k}) == HandleMap(live) - {k};
  }

  /** The prefix of a live request is locked. */
  lemma HandleLocked<K>(s: Store, live: map<K, Holding>, k: K)
    requires LocksMatch(s, live) && k in live
    ensures Handle(live[k]) in s.locks && Locked(s.locks, Handle(live[k]))
  {
    hide Bag, Handle;
    BagHas(HandleMap(live), k);
    assert HandleMap(live)[k] == multiset{Handle(live[k])};
    assert Handle(live[k]) in HandleMap(live)[k];
  }

  lemma Cancel<T>(a: multiset<T>, b: multiset<T>, c: multiset<T>)
    requires a + c == b + c
    ensures a == b
  {
    forall x ensures a[x] == b[x] {
      assert (a + c)[x] == (b + c)[x];
    }
  }

  // ---- taking pages ----

  /** The free list after making room for `n` pages: the freed pages of the evicted run go to its end. */
  ghost function Refilled(s: Store, evicted: seq<int>): seq<int>
    requires s.ps > 0
  {
    s.free + Stride(evicted, s.ps)
  }

  ghost function Withdrawn(s: Store, order: seq<Prefix>, after: View, n: nat): Store
    requires s.ps > 0 && n <= |Refilled(s, Flat(s.view, order, s.ps))|
  {
    s.(free := Refilled(s, Flat(s.view, order, s.ps))[n..], view := after)
  }

  lemma WithdrawPages<K>(s: Store, live: map<K, Holding>, order: seq<Prefix>, after: View, n: nat)
    requires Conserved(s, live, multiset{}) && ValidView(s.view, s.ps) && Removed(s.view, order, after)
    requires n <= |Refilled(s, Flat(s.view, order, s.ps))|
    ensures Conserved(Withdrawn(s, order, after, n), live, multiset(Refilled(s, Flat(s.view, order, s.ps))[..n]))
  {
    hide ValidView, TreePages, Bag, OwnedMap, Flat, Stride, AllPages;
    var out := Stride(Flat(s.view, order, s.ps), s.ps);
    var all := s.free + out;
    TreePagesRemove(s.view, order, s.ps);
    assert all == all[..n] + all[n..];
    assert multiset(all) == multiset(all[..n] + all[n..]) == multiset(all[..n]) + multiset(all[n..]);
    Regroup(multiset(s.free), multiset(out), multiset(all[..n]), multiset(all[n..]),
            TreePages(s.view, s.ps), TreePages(after, s.ps), Bag(OwnedMap(live, s.ps)));
  }

  lemma Regroup(free: multiset<int>, out: multiset<int>, taken: multiset<int>, rest: multiset<int>,
                tree: multiset<int>, tree': multiset<int>, owned: multiset<int>)
    requires tree == tree' + out && free + out == taken + rest
    ensures rest + tree' + owned + taken == free + tree + owned + multiset{}
  {
    forall x ensures (rest + tree' + owned + taken)[x] == (free + tree + owned + multiset{})[x] {
      assert (free + out)[x] == (taken + rest)[x];
    }
  }

  lemma WithdrawHoldings<K>(s: Store, live: map<K, Holding>, order: seq<Prefix>, after: View, k: K)
    requires LocksMatch(s, live) && k in live && HoldingOk(live[k], s)
    requires Removed(s.view, order, after) && forall p :: p in order ==> !Locked(s.locks, p)
    ensures HoldingOk(live[k], s.(view := after))
  {
    hide LocksMatch, Labelled, Blocked, Locked;
    HandleLocked(s, live, k);
  }

  /** Evicting unlocked prefixes and taking the first `n` free pages into hand. */
  lemma Withdraw<K>(s: Store, live: map<K, Holding>, order: seq<Prefix>, after: View, n: nat)
    requires WorldOk(s, live, multiset{}) && s.ps > 0
    requires Removed(s.view, order, after) && forall p :: p in order ==> !Locked(s.locks, p)
    requires ValidView(after, s.ps) && n <= |Refilled(s, Flat(s.view, order, s.ps))|
    ensures WorldOk(Withdrawn(s, order, after, n), live, multiset(Refilled(s, Flat(s.view, order, s.ps))[..n]))
  {
    hide Conserved, HoldingOk, ValidView, Labelled, Blocked, Refilled, Locked;
    WithdrawPages(s, live, order, after, n);
    forall k | k in live ensures HoldingOk(live[k], Withdrawn(s, order, after, n)) {
      assert HoldingOk(live[k], s);
      WithdrawHoldings(s, live, order, after, k);
      SameForHolding(live[k], s.(view := after), Withdrawn(s, order, after, n));
    }
  }

  /** A holding depends on the view and the labels only. */
  lemma SameForHolding(r: Holding, s: Store, t: Store)
    requires HoldingOk(r, s) && t.ps == s.ps && t.view == s.view && t.kv == s.kv
    ensures HoldingOk(r, t)
  {
  }

  /** Backing the next positions of a request's row by pages in hand. */
  ghost function Granted(r: Holding, pages: seq<int>, ps: nat): Holding
    requires r.alloc + |PageToToken(pages, ps)| <= |r.row|
  {
    var slots := PageToToken(pages, ps);
    r.(row := r.row[..r.alloc] + slots + r.row[r.alloc + |slots|..], alloc := r.alloc + |slots|)
  }

  lemma GrantedShape(r: Holding, pages: seq<int>, s: Store)
    requires HoldingOk(r, s) && r.alloc + |PageToToken(pages, s.ps)| <= |r.row|
    requires forall x :: x in pages ==> Aligned(x, s.ps)
    ensures HoldingOk(Granted(r, pages, s.ps), s)
  {
    hide Aligned, Blocked, PageToToken;
    var g := Granted(r, pages, s.ps);
    PageToTokenBlocked(pages, s.ps);
    MultipleAligned(|pages|, s.ps);
    AlignedSum(r.alloc, |PageToToken(pages, s.ps)|, s.ps);
    BlockedConcat(r.row[..r.alloc], PageToToken(pages, s.ps), s.ps);
    assert g.row[..g.alloc] == r.row[..r.alloc] + PageToToken(pages, s.ps);
    forall i {:trigger g.row[i]} | r.hl <= i < r.cachedLen ensures g.row[i] == r.row[i] {
    }
  }

  lemma GrantedPages(r: Holding, pages: seq<int>, ps: nat)
    requires Shaped(r, ps) && r.alloc + |PageToToken(pages, ps)| <= |r.row|
    requires forall x :: x in pages ==> Aligned(x, ps)
    ensures OwnedPages(Granted(r, pages, ps), ps) == OwnedPages(r, ps) + multiset(pages)
  {
    hide Aligned, Blocked, PageToToken, Stride;
    var g, slots := Granted(r, pages, ps), PageToToken(pages, ps);
    PageToTokenBlocked(pages, ps);
    AlignedSum(r.alloc, r.hl, ps);
    StrideConcat(r.row[r.hl..r.alloc], slots, ps);
    assert g.row[g.hl..g.alloc] == r.row[r.hl..r.alloc] + slots;
  }

  lemma Grant<K>(s: Store, live: map<K, Holding>, hand: multiset<int>, k: K, pages: seq<int>)
    requires k in live && WorldOk(s, live, hand + multiset(pages))
    requires live[k].alloc + |PageToToken(pages, s.ps)| <= |live[k].row|
    ensures WorldOk(s, live[k := Granted(live[k], pages, s.ps)], hand)
  {
    hide ViewOk, OwnedPages, TreePages, Bag, AllPages, Blocked, Labelled, PageToToken, OwnedMap, HandleMap;
    var g := Granted(live[k], pages, s.ps);
    assert HoldingOk(live[k], s);
    HandAligned(s, live, hand + multiset(pages), pages);
    GrantedShape(live[k], pages, s);
    GrantedPages(live[k], pages, s.ps);
    OwnedSet(live, k, g, s.ps);
    Cancel(Bag(OwnedMap(live[k := g], s.ps)), Bag(OwnedMap(live, s.ps)) + multiset(pages), OwnedPages(live[k], s.ps));
    HandleSet(live, k, g);
    Cancel(Bag(HandleMap(live[k := g])), Bag(HandleMap(live)), multiset{Handle(g)});
  }

  lemma HandAligned<K>(s: Store, live: map<K, Holding>, hand: multiset<int>, pages: seq<int>)
    requires Conserved(s, live, hand) && multiset(pages) <= hand
    ensures forall x :: x in pages ==> Aligned(x, s.ps)
  {
    forall x | x in pages ensures Aligned(x, s.ps) {
      assert x in multiset(pages);
      NoTwoHolders(s, live, hand, hand, multiset{}, x);
    }
  }

  // ---- slots are not shared ----

  lemma OwnedSlot(r: Holding, ps: nat, i: nat) returns (j: nat)
    requires Shaped(r, ps) && r.hl <= i < r.alloc
    ensures r.hl <= j <= i < j + ps && Aligned(j, ps) && r.row[i] == r.row[j] + (i - j) && Aligned(r.row[j], ps)
    ensures r.row[j] in OwnedPages(r, ps)
  {
    hide Blocked;
    j := InPage(r.row[..r.alloc], r.hl, i, ps);
    AlignedSum(j, r.hl, ps);
    var part := r.row[r.hl..r.alloc];
    assert part[j - r.hl] == r.row[j];
    StrideAt(part, j - r.hl, ps);
  }

  lemma TreeSlot(s: Store, p: Prefix, i: nat) returns (j: nat)
    requires ViewOk(s) && p in s.view && i < |s.view[p]|
    ensures j <= i < j + s.ps && s.view[p][i] == s.view[p][j] + (i - j) && Aligned(s.view[p][j], s.ps)
    ensures s.view[p][j] in TreePages(s.view, s.ps)
  {
    hide Blocked, Labelled, TreePages;
    MultipleAligned(0, s.ps);
    LastPageFits(s.view, p, s.ps);
    j := InPage(s.view[p], 0, i, s.ps);
    MultipleAligned(1, s.ps);
    AlignedSum(j, s.ps, s.ps);
    AlignedGap(j, |p|, s.ps);
    var q := p[..j + s.ps];
    assert q in s.view && s.view[q] == s.view[p][..j + s.ps];
    TreePagesHas(s.view, q, s.ps);
  }

  lemma RowDistinct<K>(s: Store, live: map<K, Holding>, hand: multiset<int>, k: K, i: nat, i': nat)
    requires Conserved(s, live, hand) && k in live && Shaped(live[k], s.ps)
    requires live[k].hl <= i < i' < live[k].alloc
    ensures live[k].row[i] != live[k].row[i']
  {
    hide TreePages, AllPages, Shaped;
    var r := live[k];
    var j := OwnedSlot(r, s.ps, i);
    var j' := OwnedSlot(r, s.ps, i');
    if r.row[i] == r.row[i'] {
      SamePage(r.row[j], i - j, r.row[j'], i' - j', s.ps);
      BagHas(OwnedMap(live, s.ps), k);
      NoTwoHolders(s, live, hand, OwnedPages(r, s.ps), multiset{}, r.row[j]);
      OwnedOnce(r, s.ps, j, j');
    }
  }

  lemma OwnedOnce(r: Holding, ps: nat, j: nat, j': nat)
    requires Shaped(r, ps) && r.hl <= j < j' < r.alloc && Aligned(j, ps) && Aligned(j', ps)
    requires OwnedPages(r, ps)[r.row[j]] == 1
    ensures r.row[j] != r.row[j']
  {
    hide Blocked, Stride;
    var part := r.row[r.hl..r.alloc];
    AlignedSum(j, r.hl, ps);
    AlignedSum(j', r.hl, ps);
    assert part[j - r.hl] == r.row[j] && part[j' - r.hl] == r.row[j'];
    StrideOnce(part, j - r.hl, j' - r.hl, ps);
  }

  lemma RowApartTree<K>(s: Store, live: map<K, Holding>, hand: multiset<int>, k: K, i: nat, p: Prefix, i': nat)
    requires Conserved(s, live, hand) && ViewOk(s) && k in live && Shaped(live[k], s.ps)
    requires live[k].hl <= i < live[k].alloc && p in s.view && i' < |s.view[p]|
    ensures live[k].row[i] != s.view[p][i']
  {
    hide TreePages, AllPages, Shaped, ViewOk;
    var r := live[k];
    var j := OwnedSlot(r, s.ps, i);
    var j' := TreeSlot(s, p, i');
    if r.row[i] == s.view[p][i'] {
      SamePage(r.row[j], i - j, s.view[p][j'], i' - j', s.ps);
      BagHas(OwnedMap(live, s.ps), k);
      NoTwoHolders(s, live, hand, OwnedPages(r, s.ps), TreePages(s.view, s.ps), r.row[j]);
    }
  }

  lemma RowApartRow<K>(s: Store, live: map<K, Holding>, hand: multiset<int>, k: K, i: nat, k': K, i': nat)
    requires Conserved(s, live, hand) && k in live && k' in live && k != k' && Shaped(live[k], s.ps) && Shaped(live[k'], s.ps)
    requires live[k].hl <= i < live[k].alloc && live[k'].hl <= i' < live[k'].alloc
    ensures live[k].row[i] != live[k'].row[i']
  {
    hide TreePages, AllPages, Shaped;
    var r, r' := live[k], live[k'];
    var j := OwnedSlot(r, s.ps, i);
    var j' := OwnedSlot(r', s.ps, i');
    if r.row[i] == r'.row[i'] {
      SamePage(r.row[j], i - j, r'.row[j'], i' - j', s.ps);
      BagHasTwo(OwnedMap(live, s.ps), k, k');
      NoTwoHolders(s, live, hand, OwnedPages(r, s.ps), OwnedPages(r', s.ps), r.row[j]);
    }
  }

  // ---- computing KV ----

  /** The labels after a forward pass has written positions `[lo, hi)` of a row. */
  ghost function Computed(kv: map<int, Prefix>, row: seq<int>, tok: seq<int>, lo: nat, hi: nat): map<int, Prefix>
    requires hi <= |row| && hi <= |tok|
    decreases hi
  {
    if hi <= lo then kv else Computed(kv, row, tok, lo, hi - 1)[row[hi - 1] := tok[..hi]]
  }

  lemma {:induction false} ComputedElsewhere(kv: map<int, Prefix>, row: seq<int>, tok: seq<int>, lo: nat, hi: nat, x: int)
    requires hi <= |row| && hi <= |tok| && forall i :: lo <= i < hi ==> row[i] != x
    ensures var c := Computed(kv, row, tok, lo, hi); (x in c <==> x in kv) && (x in kv ==> c[x] == kv[x])
    decreases hi
  {
    if lo < hi { ComputedElsewhere(kv, row, tok, lo, hi - 1, x); }
  }

  lemma {:induction false} ComputedHere(kv: map<int, Prefix>, row: seq<int>, tok: seq<int>, lo: nat, hi: nat, i: nat)
    requires hi <= |row| && hi <= |tok| && lo <= i < hi
    requires forall j :: i < j < hi ==> row[j] != row[i]
    ensures var c := Computed(kv, row, tok, lo, hi); row[i] in c && c[row[i]] == tok[..i + 1]
    decreases hi
  {
    if i < hi - 1 { ComputedHere(kv, row, tok, lo, hi - 1, i); }
  }

  ghost function Wrote(s: Store, r: Holding, n: nat): Store
    requires n <= |r.row| && n <= |r.tok|
  {
    s.(kv := Computed(s.kv, r.row, r.tok, r.cachedLen, n))
  }

  lemma WroteOwn<K>(s: Store, live: map<K, Holding>, hand: multiset<int>, k: K, n: nat)
    requires Conserved(s, live, hand) && k in live && HoldingOk(live[k], s)
    requires live[k].cachedLen <= n <= live[k].alloc && n <= |live[k].tok|
    ensures HoldingOk(live[k].(cachedLen := n), Wrote(s, live[k], n))
  {
    hide Conserved, Blocked, Computed;
    var r := live[k];
    var kv := Computed(s.kv, r.row, r.tok, r.cachedLen, n);
    forall i, j | r.hl <= i < j < n ensures r.row[i] != r.row[j] {
      RowDistinct(s, live, hand, k, i, j);
    }
    forall i {:trigger r.row[i]} | r.hl <= i < n ensures r.row[i] in kv && kv[r.row[i]] == r.tok[..i + 1] {
      if i < r.cachedLen {
        ComputedElsewhere(s.kv, r.row, r.tok, r.cachedLen, n, r.row[i]);
      } else {
        ComputedHere(s.kv, r.row, r.tok, r.cachedLen, n, i);
      }
    }
  }

  lemma WroteOther<K>(s: Store, live: map<K, Holding>, hand: multiset<int>, k: K, n: nat, k': K)
    requires Conserved(s, live, hand) && k in live && k' in live && k != k' && HoldingOk(live[k], s) && HoldingOk(live[k'], s)
    requires live[k].cachedLen <= n <= live[k].alloc && n <= |live[k].tok|
    ensures HoldingOk(live[k'], Wrote(s, live[k], n))
  {
    hide Conserved, Blocked, Computed;
    var r, r' := live[k], live[k'];
    var kv := Computed(s.kv, r.row, r.tok, r.cachedLen, n);
    forall i {:trigger r'.row[i]} | r'.hl <= i < r'.cachedLen ensures r'.row[i] in kv && kv[r'.row[i]] == r'.tok[..i + 1] {
      forall j | r.cachedLen <= j < n ensures r.row[j] != r'.row[i] {
        RowApartRow(s, live, hand, k, j, k', i);
      }
      ComputedElsewhere(s.kv, r.row, r.tok, r.cachedLen, n, r'.row[i]);
    }
  }

  lemma WroteView<K>(s: Store, live: map<K, Holding>, hand: multiset<int>, k: K, n: nat)
    requires Conserved(s, live, hand) && ViewOk(s) && k in live && HoldingOk(live[k], s)
    requires live[k].cachedLen <= n <= live[k].alloc && n <= |live[k].tok|
    ensures ViewOk(Wrote(s, live[k], n))
  {
    hide Conserved, Blocked, Computed, ValidView;
    var r := live[k];
    var kv := Computed(s.kv, r.row, r.tok, r.cachedLen, n);
    forall p | p in s.view ensures Labelled(s.view[p], p, 0, |p|, kv) {
      assert Labelled(s.view[p], p, 0, |p|, s.kv);
      var slots := s.view[p];
      forall i {:trigger slots[i]} | 0 <= i < |p| ensures slots[i] in kv && kv[slots[i]] == p[..i + 1] {
        forall j | r.cachedLen <= j < n ensures r.row[j] != slots[i] {
          RowApartTree(s, live, hand, k, j, p, i);
        }
        ComputedElsewhere(s.kv, r.row, r.tok, r.cachedLen, n, slots[i]);
      }
    }
  }

  /** A forward pass of one request writes its own pages only. */
  lemma Forward<K>(s: Store, live: map<K, Holding>, hand: multiset<int>, k: K, n: nat)
    requires WorldOk(s, live, hand) && k in live
    requires live[k].cachedLen <= n <= live[k].alloc && n <= |live[k].tok| && live[k].alloc <= |live[k].row|
    ensures WorldOk(Wrote(s, live[k], n), live[k := live[k].(cachedLen := n)], hand)
  {
    hide ViewOk, HoldingOk, Conserved, LocksMatch, TreePages, Bag, AllPages, Computed, OwnedMap, HandleMap, Stride;
    var r := live[k].(cachedLen := n);
    WroteView(s, live, hand, k, n);
    WroteOwn(s, live, hand, k, n);
    forall j | j in live && j != k ensures HoldingOk(live[j], Wrote(s, live[k], n)) {
      WroteOther(s, live, hand, k, n, j);
    }
    SameHolder(live, k, r, s.ps);
    SameAccounts(s, live, Wrote(s, live[k], n), live[k := r], hand);
  }

  /** A request that keeps its pages and its prefix leaves the accounts alone. */
  lemma SameHolder<K>(live: map<K, Holding>, k: K, r: Holding, ps: nat)
    requires k in live && OwnedPages(r, ps) == OwnedPages(live[k], ps) && Handle(r) == Handle(live[k])
    ensures OwnedMap(live[k := r], ps) == OwnedMap(live, ps) && HandleMap(live[k := r]) == HandleMap(live)
  {
    SamePages(live, k, r, ps);
    SameHandle(live, k, r);
  }

  lemma SamePages<K>(live: map<K, Holding>, k: K, r: Holding, ps: nat)
    requires k in live && OwnedPages(r, ps) == OwnedPages(live[k], ps)
    ensures OwnedMap(live[k := r], ps) == OwnedMap(live, ps)
  {
    hide OwnedPages;
    assert OwnedMap(live[k := r], ps) == OwnedMap(live, ps)[k := OwnedPages(r, ps)];
  }

  lemma SameHandle<K>(live: map<K, Holding>, k: K, r: Holding)
    requires k in live && Handle(r) == Handle(live[k])
    ensures HandleMap(live[k := r]) == HandleMap(live)
  {
    hide Handle;
    assert HandleMap(live[k := r]) == HandleMap(live)[k := multiset{Handle(r)}];
  }

  lemma SameAccounts<K>(s: Store, live: map<K, Holding>, t: Store, live': map<K, Holding>, hand: multiset<int>)
    requires Conserved(s, live, hand) && LocksMatch(s, live)
    requires t == s.(kv := t.kv) && OwnedMap(live', s.ps) == OwnedMap(live, s.ps) && HandleMap(live') == HandleMap(live)
    ensures Conserved(t, live', hand) && LocksMatch(t, live')
  {
  }

  /** Tokens sampled later change nothing that is held. */
  lemma Lengthen<K>(s: Store, live: map<K, Holding>, hand: multiset<int>, k: K, tok: seq<int>)
    requires WorldOk(s, live, hand) && k in live && live[k].tok <= tok
    ensures WorldOk(s, live[k := live[k].(tok := tok)], hand)
  {
    hide ViewOk, Conserved, Bag, Blocked, OwnedMap, HandleMap, Stride;
    var r, r' := live[k], live[k].(tok := tok);
    assert HoldingOk(r, s);
    forall i {:trigger r'.row[i]} | r'.hl <= i < r'.cachedLen ensures r'.row[i] in s.kv && s.kv[r'.row[i]] == r'.tok[..i + 1] {
      assert r'.row[i] == r.row[i];
      assert tok[..i + 1] == r.tok[..i + 1];
    }
    assert tok[..r.hl] == r.tok[..r.hl];
    SameHolder(live, k, r', s.ps);
    SameAccounts(s, live, s, live[k := r'], hand);
  }

  // ---- giving pages back to the tree ----

  /** `n` is the page-aligned part of what the request has computed, and `base` of it is stored already. */
  ghost predicate CacheStep(s: Store, r: Holding, n: nat, base: nat)
  {
    && s.ps > 0 && n == AlignDown(r.cachedLen, s.ps) && base <= n <= |r.tok| && n <= |r.row|
    && IsLongest(s.view, s.ps, r.tok[..n], base)
    && (base == 0 || r.tok[..n][..base] in s.view)
  }

  /** The map after caching the first `n` tokens of a request. */
  ghost function Cached(s: Store, r: Holding, n: nat, base: nat): View
    requires CacheStep(s, r, n, base)
  {
    Inserted(s.view, s.ps, r.tok[..n], r.row[..n], base)
  }

  lemma CacheFacts(s: Store, r: Holding, n: nat, base: nat)
    requires HoldingOk(r, s) && Tight(r, s.ps) && CacheStep(s, r, n, base)
    ensures r.hl <= base && n <= r.cachedLen && Aligned(n, s.ps) && Aligned(base, s.ps)
    ensures r.cachedLen - n < s.ps && (n == r.cachedLen ==> r.alloc == n) && r.alloc <= n + s.ps
    ensures r.tok[..n][..base] == r.tok[..base]
  {
    hide Labelled, Blocked;
    AlignDownGreatest(r.cachedLen, s.ps);
    if n < r.alloc {
      AlignedGap(n, r.alloc, s.ps);
      MultipleAligned(1, s.ps);
      AlignedSum(n, s.ps, s.ps);
      if n + s.ps < r.alloc { AlignedGap(n + s.ps, r.alloc, s.ps); }
    }
    assert r.hl <= n ==> r.tok[..n][..r.hl] == r.tok[..r.hl];
  }

  /** Afterwards every whole page the request has computed is stored, and nothing stored before has changed. */
  lemma CachedKeeps(s: Store, r: Holding, n: nat, base: nat)
    requires ValidView(s.view, s.ps) && CacheStep(s, r, n, base) && r.cachedLen <= |r.tok|
    ensures forall p :: p in s.view ==> p in Cached(s, r, n, base) && Cached(s, r, n, base)[p] == s.view[p]
    ensures forall k {:trigger r.tok[..k]} :: 0 < k <= r.cachedLen && Aligned(k, s.ps) ==> r.tok[..k] in Cached(s, r, n, base)
  {
    hide ValidView, IsLongest, Inserted, Aligned;
    AlignDownGreatest(r.cachedLen, s.ps);
    forall p | p in s.view ensures p in Cached(s, r, n, base) && Cached(s, r, n, base)[p] == s.view[p] {
      KeptByInsert(s.view, s.ps, r.tok[..n], r.row[..n], base, p);
    }
    forall k {:trigger r.tok[..k]} | 0 < k <= r.cachedLen && Aligned(k, s.ps) ensures r.tok[..k] in Cached(s, r, n, base) {
      InsertedAt(s.view, s.ps, r.tok[..n], r.row[..n], base, k);
      assert r.tok[..n][..k] == r.tok[..k];
    }
  }

  /** What the tree is asked to store, and what it answers, is a cache step. */
  lemma InsertMeans(s: Store, r: Holding, n: nat, base: nat)
    requires HoldingOk(r, s) && Tight(r, s.ps) && n == AlignDown(r.cachedLen, s.ps) && n <= r.cachedLen <= |r.row|
    requires IsLongest(s.view, s.ps, r.tok[..r.cachedLen][..n], base)
    ensures CacheStep(s, r, n, base) && r.hl <= base <= n <= |r.tok|
    ensures base == 0 || r.tok[..n][..base] in s.view
    ensures r.tok[..r.cachedLen][..n] == r.tok[..n] && r.row[..r.cachedLen][..n] == r.row[..n]
    ensures Cached(s, r, n, base) == Inserted(s.view, s.ps, r.tok[..n], r.row[..n], base)
    ensures r.row[..r.cachedLen][r.hl..base] == r.row[r.hl..base] && r.row[..r.cachedLen][n..] == r.row[n..r.cachedLen]
  {
    hide Labelled, Blocked, Inserted;
    assert r.tok[..r.cachedLen][..n] == r.tok[..n] && r.row[..r.cachedLen][..n] == r.row[..n];
    assert CacheStep(s, r, n, base);
    CacheFacts(s, r, n, base);
  }

  /** The slots of a newly stored prefix: the tree's own up to `base`, the request's beyond. */
  lemma NewEntry(s: Store, r: Holding, n: nat, base: nat, p: Prefix)
    requires ViewOk(s) && HoldingOk(r, s) && Tight(r, s.ps) && CacheStep(s, r, n, base) && p in Cells(base, r.tok[..n], s.ps)
    ensures p in Cached(s, r, n, base)
    ensures Blocked(Cached(s, r, n, base)[p], s.ps) && Labelled(Cached(s, r, n, base)[p], p, 0, |p|, s.kv)
  {
    hide Blocked, ViewOk, IsLongest;
    CacheFacts(s, r, n, base);
    var k :| base < k <= n && Aligned(k, s.ps) && p == r.tok[..n][..k];
    assert p == r.tok[..k];
    var front, mine := Slots(s.view, r.tok[..base]), r.row[base..k];
    FrontShape(s, r.tok[..base]);
    assert Part(r.row[..n], base, k) == mine;
    assert Cached(s, r, n, base)[p] == front + mine;
    MineShape(r, base, k, s.ps);
    BlockedConcat(front, mine, s.ps);
    NewLabels(r, front, base, k, s.kv);
  }

  lemma MineShape(r: Holding, base: nat, k: nat, ps: nat)
    requires Shaped(r, ps) && base <= k <= r.alloc && Aligned(base, ps)
    ensures Blocked(r.row[base..k], ps)
  {
    hide Blocked;
    BlockedPrefix(r.row[..r.alloc], k, ps);
    assert r.row[..r.alloc][..k] == r.row[..k];
    BlockedSuffix(r.row[..k], base, ps);
    assert r.row[..k][base..] == r.row[base..k];
  }

  lemma NewLabels(r: Holding, front: seq<int>, base: nat, k: nat, kv: map<int, Prefix>)
    requires |front| == base && base <= k <= |r.tok| && k <= |r.row|
    requires Labelled(front, r.tok[..base], 0, base, kv) && Labelled(r.row, r.tok, base, k, kv)
    ensures Labelled(front + r.row[base..k], r.tok[..k], 0, k, kv)
  {
    var slots := front + r.row[base..k];
    forall i {:trigger slots[i]} | 0 <= i < k ensures slots[i] in kv && kv[slots[i]] == r.tok[..k][..i + 1] {
      assert r.tok[..k][..i + 1] == r.tok[..i + 1];
      if i < base {
        assert slots[i] == front[i];
        assert r.tok[..base][..i + 1] == r.tok[..i + 1];
      } else {
        assert slots[i] == r.row[i];
      }
    }
  }

  lemma FrontShape(s: Store, p: Prefix)
    requires ViewOk(s) && (p == [] || p in s.view)
    ensures |Slots(s.view, p)| == |p| && Aligned(|p|, s.ps) && Blocked(Slots(s.view, p), s.ps)
    ensures Labelled(Slots(s.view, p), p, 0, |p|, s.kv)
  {
    hide Blocked, Labelled;
    if p == [] { EmptyBlocked(s.ps, s.kv); } else { LastPageFits(s.view, p, s.ps); }
  }

  lemma EmptyBlocked(ps: nat, kv: map<int, Prefix>)
    requires ps > 0
    ensures Blocked([], ps) && Aligned(0, ps) && Labelled([], [], 0, 0, kv)
  {
  }

  lemma CachedViewOk(s: Store, r: Holding, n: nat, base: nat)
    requires ViewOk(s) && HoldingOk(r, s) && Tight(r, s.ps) && CacheStep(s, r, n, base)
    ensures ViewOk(s.(view := Cached(s, r, n, base)))
    ensures forall p :: p in s.view ==> p in Cached(s, r, n, base)
    ensures n == 0 || r.tok[..n] in Cached(s, r, n, base)
  {
    hide Blocked, Labelled, ValidView, IsLongest, HoldingOk;
    CacheFacts(s, r, n, base);
    InsertedValid(s.view, s.ps, r.tok[..n], r.row[..n], base);
    LongestStored(s.view, s.ps, r.tok[..n], base);
    forall p | p in Cached(s, r, n, base)
      ensures Blocked(Cached(s, r, n, base)[p], s.ps) && Labelled(Cached(s, r, n, base)[p], p, 0, |p|, s.kv)
    {
      if p in Cells(base, r.tok[..n], s.ps) {
        NewEntry(s, r, n, base, p);
      }
    }
    if base < n {
      assert r.tok[..n] == r.tok[..n][..n];
      assert r.tok[..n] in Cells(base, r.tok[..n], s.ps);
    } else {
      assert r.tok[..n][..n] == r.tok[..n];
    }
  }

  lemma RowSplit(r: Holding, n: nat, base: nat, ps: nat)
    requires ps > 0 && r.hl <= base <= n <= r.alloc <= |r.row|
    requires Aligned(r.hl, ps) && Aligned(base, ps) && Aligned(n, ps) && Aligned(r.alloc, ps)
    ensures Stride(r.row[r.hl..r.alloc], ps)
         == Stride(r.row[r.hl..base], ps) + (Stride(r.row[base..n], ps) + Stride(r.row[n..r.alloc], ps))
  {
    hide Stride, Aligned;
    AlignedSum(base, r.hl, ps);
    AlignedSum(n, base, ps);
    assert r.row[r.hl..r.alloc] == r.row[r.hl..base] + (r.row[base..n] + r.row[n..r.alloc]);
    StrideConcat(r.row[r.hl..base], r.row[base..n] + r.row[n..r.alloc], ps);
    StrideConcat(r.row[base..n], r.row[n..r.alloc], ps);
  }

  /** A request's pages split into duplicates of stored pages, newly stored pages, and the rest. */
  lemma OwnedSplit(s: Store, r: Holding, n: nat, base: nat)
    requires ViewOk(s) && HoldingOk(r, s) && Tight(r, s.ps) && CacheStep(s, r, n, base)
    ensures r.hl <= base <= n <= r.cachedLen <= r.alloc <= |r.row| && n <= |r.tok|
    ensures OwnedPages(r, s.ps) == multiset(Stride(r.row[r.hl..base], s.ps)) + multiset(Stride(r.row[base..n], s.ps)) + multiset(Stride(r.row[n..r.alloc], s.ps))
    ensures Stride(r.row[n..r.cachedLen], s.ps) == Stride(r.row[n..r.alloc], s.ps)
    ensures TreePages(Cached(s, r, n, base), s.ps) == TreePages(s.view, s.ps) + multiset(Stride(r.row[base..n], s.ps))
  {
    hide Labelled, Blocked, Stride, ValidView, IsLongest, TreePages, Cells, Inserted, Tight;
    CacheFacts(s, r, n, base);
    RowSplit(r, n, base, s.ps);
    AlignedSum(r.alloc, n, s.ps);
    assert r.row[n..r.alloc][..r.cachedLen - n] == r.row[n..r.cachedLen];
    StrideOfPart(r.row[n..r.alloc], r.cachedLen - n, s.ps);
    TreePagesInsert(s.view, s.ps, r.tok[..n], r.row[..n], base);
    assert r.row[..n][base..] == r.row[base..n];
  }

  /** A request's pages have been stored, and those that were stored already freed; its lock is gone. */
  ghost function Unheld(s: Store, r: Holding, n: nat, base: nat): Store
    requires CacheStep(s, r, n, base) && r.hl <= base && base <= |r.row|
  {
    s.(free := s.free + Stride(r.row[r.hl..base], s.ps),
       view := Cached(s, r, n, base),
       locks := s.locks - multiset{Handle(r)})
  }

  ghost function Dropped(s: Store, r: Holding, n: nat, base: nat): Store
    requires CacheStep(s, r, n, base) && r.hl <= base && n <= r.cachedLen <= |r.row|
  {
    var u := Unheld(s, r, n, base);
    u.(free := u.free + Stride(r.row[n..r.cachedLen], s.ps))
  }

  ghost function Kept(s: Store, r: Holding, n: nat, base: nat): Store
    requires CacheStep(s, r, n, base) && r.hl <= base && base <= |r.row|
  {
    var u := Unheld(s, r, n, base);
    u.(locks := u.locks + multiset{r.tok[..n]})
  }

  lemma GrownView<K>(s: Store, live: map<K, Holding>, after: View)
    requires AllOk(s, live) && forall p :: p in s.view ==> p in after
    ensures AllOk(s.(view := after), live)
  {
    hide Labelled, Shaped;
  }

  lemma DroppedAccounts<K>(s: Store, live: map<K, Holding>, hand: multiset<int>, k: K, n: nat, base: nat)
    requires k in live && ViewOk(s) && HoldingOk(live[k], s) && Conserved(s, live, hand) && LocksMatch(s, live)
    requires Tight(live[k], s.ps) && CacheStep(s, live[k], n, base)
    ensures live[k].hl <= base <= n <= live[k].cachedLen <= |live[k].row|
    ensures Conserved(Dropped(s, live[k], n, base), live - {k}, hand)
    ensures LocksMatch(Dropped(s, live[k], n, base), live - {k})
  {
    hide ViewOk, HoldingOk, TreePages, Bag, AllPages, OwnedPages, OwnedMap, HandleMap, Stride, CacheStep, Cached, Handle;
    var r := live[k];
    OwnedSplit(s, r, n, base);
    OwnedWithout(live, k, s.ps);
    HandleWithout(live, k);
    var dup, rest := Stride(r.row[r.hl..base], s.ps), Stride(r.row[n..r.cachedLen], s.ps);
    assert multiset(s.free + dup + rest) == multiset(s.free) + multiset(dup) + multiset(rest);
  }

  /** A finished request gives up everything: its new pages go to the tree, the others are freed. */
  lemma Drop<K>(s: Store, live: map<K, Holding>, hand: multiset<int>, k: K, n: nat, base: nat)
    requires k in live && WorldOk(s, live, hand) && Tight(live[k], s.ps) && CacheStep(s, live[k], n, base)
    ensures live[k].hl <= base && n <= live[k].cachedLen <= |live[k].row|
    ensures WorldOk(Dropped(s, live[k], n, base), live - {k}, hand)
  {
    hide ViewOk, HoldingOk, Conserved, LocksMatch, CacheStep, Cached;
    var r := live[k];
    CachedViewOk(s, r, n, base);
    DroppedAccounts(s, live, hand, k, n, base);
    GrownView(s, live, Cached(s, r, n, base));
    var t := Dropped(s, r, n, base);
    SameAllOk(s.(view := t.view), t, live);
    SameViewOk(s.(view := t.view), t);
  }

  lemma SameAllOk<K>(s: Store, t: Store, live: map<K, Holding>)
    requires AllOk(s, live) && t.ps == s.ps && t.view == s.view && t.kv == s.kv
    ensures AllOk(t, live)
  {
    hide Labelled, Shaped;
  }

  lemma SameViewOk(s: Store, t: Store)
    requires ViewOk(s) && t.ps == s.ps && t.view == s.view && t.kv == s.kv
    ensures ViewOk(t)
  {
  }

  lemma KeptHolding(s: Store, r: Holding, n: nat, base: nat)
    requires ViewOk(s) && HoldingOk(r, s) && Tight(r, s.ps) && CacheStep(s, r, n, base)
    ensures HoldingOk(r.(hl := n), s.(view := Cached(s, r, n, base)))
    ensures OwnedPages(r.(hl := n), s.ps) == multiset(Stride(r.row[n..r.alloc], s.ps))
    ensures Handle(r.(hl := n)) == r.tok[..n]
  {
    hide Blocked, ViewOk, IsLongest, Stride;
    CacheFacts(s, r, n, base);
    CachedViewOk(s, r, n, base);
  }

  lemma KeptAccounts<K>(s: Store, live: map<K, Holding>, hand: multiset<int>, k: K, n: nat, base: nat)
    requires k in live && ViewOk(s) && HoldingOk(live[k], s) && Conserved(s, live, hand) && LocksMatch(s, live)
    requires Tight(live[k], s.ps) && CacheStep(s, live[k], n, base)
    ensures live[k].hl <= base <= |live[k].row|
    ensures Conserved(Kept(s, live[k], n, base), live[k := live[k].(hl := n)], hand)
    ensures LocksMatch(Kept(s, live[k], n, base), live[k := live[k].(hl := n)])
  {
    hide ViewOk, HoldingOk, TreePages, Bag, AllPages, OwnedPages, OwnedMap, HandleMap, Stride, CacheStep, Cached, Handle;
    var r, r' := live[k], live[k].(hl := n);
    OwnedSplit(s, r, n, base);
    KeptHolding(s, r, n, base);
    OwnedSet(live, k, r', s.ps);
    HandleSet(live, k, r');
    var dup, new', rest := multiset(Stride(r.row[r.hl..base], s.ps)), multiset(Stride(r.row[base..n], s.ps)), multiset(Stride(r.row[n..r.alloc], s.ps));
    Cancel(Bag(OwnedMap(live[k := r'], s.ps)) + dup + new', Bag(OwnedMap(live, s.ps)), rest);
    assert multiset(Kept(s, r, n, base).free) == multiset(s.free) + dup;
    HandleLocked(s, live, k);
    SwapLock(Bag(HandleMap(live[k := r'])), s.locks, Handle(r), r.tok[..n]);
  }

  lemma SwapLock(after: multiset<Prefix>, before: multiset<Prefix>, p: Prefix, q: Prefix)
    requires after + multiset{p} == before + multiset{q} && p in before
    ensures before - multiset{p} + multiset{q} == after
  {
    forall x ensures (before - multiset{p} + multiset{q})[x] == after[x] {
      assert (after + multiset{p})[x] == (before + multiset{q})[x];
    }
  }

  /** An unfinished request keeps its tail; the tree takes the rest, under a new lock. */
  lemma Keep<K>(s: Store, live: map<K, Holding>, hand: multiset<int>, k: K, n: nat, base: nat)
    requires k in live && WorldOk(s, live, hand) && Tight(live[k], s.ps) && CacheStep(s, live[k], n, base)
    ensures live[k].hl <= base <= |live[k].row|
    ensures WorldOk(Kept(s, live[k], n, base), live[k := live[k].(hl := n)], hand)
  {
    hide ViewOk, HoldingOk, Conserved, LocksMatch, CacheStep, Cached;
    var r := live[k];
    CachedViewOk(s, r, n, base);
    KeptAccounts(s, live, hand, k, n, base);
    GrownView(s, live, Cached(s, r, n, base));
    var t := Kept(s, r, n, base);
    SameAllOk(s.(view := t.view), t, live);
    SameViewOk(s.(view := t.view), t);
    KeptHolding(s, r, n, base);
    SameForHolding(r.(hl := n), s.(view := t.view), t);
  }

  // ---- admitting and continuing ----

  /** A new request starts from the longest stored prefix of its prompt, under a lock, and owns nothing yet. */
  ghost predicate Starts(s: Store, r: Holding, len: nat)
  {
    && s.ps > 0 && Aligned(len, s.ps) && len <= |r.tok| && len <= |r.row|
    && (len == 0 || r.tok[..len] in s.view)
    && r.hl == len && r.cachedLen == len && r.alloc == len
    && r.row[..len] == Slots(s.view, r.tok[..len])
  }

  lemma StartsOk(s: Store, r: Holding, len: nat)
    requires ViewOk(s) && Starts(s, r, len)
    ensures HoldingOk(r, s) && OwnedPages(r, s.ps) == multiset{} && Handle(r) == r.tok[..len]
    ensures Labelled(r.row, r.tok, 0, len, s.kv)
  {
    hide ValidView, Blocked;
    FrontShape(s, r.tok[..len]);
    assert r.row[len..len] == [];
    var slots := Slots(s.view, r.tok[..len]);
    forall i {:trigger r.row[i]} | 0 <= i < len ensures r.row[i] in s.kv && s.kv[r.row[i]] == r.tok[..i + 1] {
      assert r.row[i] == r.row[..len][i] == slots[i];
      assert r.tok[..len][..i + 1] == r.tok[..i + 1];
    }
  }

  lemma Admit<K>(s: Store, live: map<K, Holding>, hand: multiset<int>, k: K, r: Holding, len: nat)
    requires WorldOk(s, live, hand) && k !in live && Starts(s, r, len)
    ensures WorldOk(s.(locks := s.locks + multiset{r.tok[..len]}), live[k := r], hand)
    ensures Labelled(r.row, r.tok, 0, len, s.kv)
  {
    hide ViewOk, HoldingOk, TreePages, Bag, AllPages, OwnedMap, HandleMap, OwnedPages, Handle, Labelled;
    StartsOk(s, r, len);
    OwnedSet(live, k, r, s.ps);
    HandleSet(live, k, r);
    var t := s.(locks := s.locks + multiset{r.tok[..len]});
    SameAllOk(s, t, live);
    SameViewOk(s, t);
    SameForHolding(r, s, t);
  }

  /** The next chunk of a prompt carries on under a new name, with what the last chunk holds. */
  lemma Rename<K>(s: Store, live: map<K, Holding>, hand: multiset<int>, k: K, k': K)
    requires WorldOk(s, live, hand) && k in live && k' !in live
    ensures WorldOk(s, (live - {k})[k' := live[k]], hand)
  {
    hide ViewOk, HoldingOk, TreePages, Bag, AllPages, OwnedMap, HandleMap, OwnedPages, Handle;
    var r := live[k];
    OwnedWithout(live, k, s.ps);
    HandleWithout(live, k);
    OwnedSet(live - {k}, k', r, s.ps);
    HandleSet(live - {k}, k', r);
  }

  // ---- the theorem about pages ----

  lemma FreeOnce<K>(s: Store, live: map<K, Holding>)
    requires Conserved(s, live, multiset{})
    ensures NoDup(s.free) && forall p :: p in s.view ==> Head(s.view, p, s.ps) !in s.free
  {
    hide TreePages, Bag, OwnedMap, AllPages, Head;
    forall i, j | 0 <= i < j < |s.free| ensures s.free[i] != s.free[j] {
      if s.free[i] == s.free[j] {
        TwiceIn(s.free, i, j);
        NoTwoHolders(s, live, multiset{}, multiset(s.free), multiset{}, s.free[i]);
      }
    }
    forall p | p in s.view ensures Head(s.view, p, s.ps) !in s.free {
      TreePagesHas(s.view, p, s.ps);
      NoTwoHolders(s, live, multiset{}, TreePages(s.view, s.ps), multiset(s.free), Head(s.view, p, s.ps));
    }
  }

  lemma TreeOnce<K>(s: Store, live: map<K, Holding>, p: Prefix, q: Prefix)
    requires Conserved(s, live, multiset{}) && p in s.view && q in s.view && p != q
    ensures Head(s.view, p, s.ps) != Head(s.view, q, s.ps)
  {
    hide TreePages, Bag, OwnedMap, AllPages, Head;
    TreePagesHasTwo(s.view, p, q, s.ps);
    TreePagesHas(s.view, p, s.ps);
    var x, y := Head(s.view, p, s.ps), Head(s.view, q, s.ps);
    if x == y { assert multiset{x, y}[x] == 2; }
    NoTwoHolders(s, live, multiset{}, TreePages(s.view, s.ps), multiset{}, x);
  }

  lemma OwnedApart<K>(s: Store, live: map<K, Holding>, k: K, x: int)
    requires Conserved(s, live, multiset{}) && k in live && x in OwnedPages(live[k], s.ps)
    ensures OwnedPages(live[k], s.ps)[x] == 1 && x !in s.free && x !in TreePages(s.view, s.ps)
    ensures forall k' :: k' in live && k' != k ==> x !in OwnedPages(live[k'], s.ps)
  {
    hide TreePages, Bag, OwnedPages, AllPages;
    BagHas(OwnedMap(live, s.ps), k);
    NoTwoHolders(s, live, multiset{}, OwnedPages(live[k], s.ps), multiset(s.free) + TreePages(s.view, s.ps), x);
    assert x !in multiset(s.free);
    forall k' | k' in live && k' != k ensures x !in OwnedPages(live[k'], s.ps) {
      BagHasTwo(OwnedMap(live, s.ps), k, k');
      NoTwoHolders(s, live, multiset{}, OwnedPages(live[k], s.ps), OwnedPages(live[k'], s.ps), x);
    }
  }

  ghost predicate Holds<K>(s: Store, live: map<K, Holding>, x: int)
  {
    x in s.free || x in TreePages(s.view, s.ps) || exists k :: k in live && x in OwnedPages(live[k], s.ps)
  }

  /** Every page has exactly one holder: the free list at one place, one stored prefix, or one position of one request. */
  lemma PagesPartitioned<K>(s: Store, live: map<K, Holding>)
    requires Conserved(s, live, multiset{})
    ensures NoDup(s.free) && forall p :: p in s.view ==> Head(s.view, p, s.ps) !in s.free
    ensures forall p, q :: p in s.view && q in s.view && p != q ==> Head(s.view, p, s.ps) != Head(s.view, q, s.ps)
    ensures forall k, x {:trigger OwnedPages(live[k], s.ps)[x]} :: k in live && x in OwnedPages(live[k], s.ps) ==>
      && OwnedPages(live[k], s.ps)[x] == 1 && x !in s.free && x !in TreePages(s.view, s.ps)
      && forall k' :: k' in live && k' != k ==> x !in OwnedPages(live[k'], s.ps)
    ensures forall x :: x in AllPages(s.numPages, s.ps) <==> Holds(s, live, x)
  {
    hide TreePages, Bag, OwnedPages, AllPages, Head, Conserved, NoDup, OwnedMap;
    FreeOnce(s, live);
    forall p, q | p in s.view && q in s.view && p != q ensures Head(s.view, p, s.ps) != Head(s.view, q, s.ps) {
      TreeOnce(s, live, p, q);
    }
    forall k, x {:trigger OwnedPages(live[k], s.ps)[x]} | k in live && x in OwnedPages(live[k], s.ps)
      ensures OwnedPages(live[k], s.ps)[x] == 1 && x !in s.free && x !in TreePages(s.view, s.ps)
      ensures forall k' :: k' in live && k' != k ==> x !in OwnedPages(live[k'], s.ps)
    {
      OwnedApart(s, live, k, x);
    }
    forall x ensures x in AllPages(s.numPages, s.ps) <==> Holds(s, live, x) {
      AllHeld(s, live, x);
    }
  }

  lemma AllHeld<K>(s: Store, live: map<K, Holding>, x: int)
    requires Conserved(s, live, multiset{})
    ensures x in AllPages(s.numPages, s.ps) <==> Holds(s, live, x)
  {
    hide TreePages, Bag, OwnedPages, AllPages;
    assert x in AllPages(s.numPages, s.ps) <==> x in multiset(AllPages(s.numPages, s.ps));
    assert x in s.free <==> x in multiset(s.free);
    if x in Bag(OwnedMap(live, s.ps)) {
      var k := BagFrom(OwnedMap(live, s.ps), x);
      assert x in OwnedPages(live[k], s.ps);
    }
    if k :| k in live && x in OwnedPages(live[k], s.ps) {
      BagHas(OwnedMap(live, s.ps), k);
    }
  }

  lemma TwiceIn(a: seq<int>, i: nat, j: nat)
    requires i < j < |a| && a[i] == a[j]
    ensures multiset(a)[a[i]] >= 2
  {
    assert a == a[..j] + [a[j]] + a[j + 1..];
    assert a[i] in a[..j];
  }

  /** When no request is live, free pages and stored pages make up the whole pool, and nothing is locked. */
  lemma IdleIntegrity<K>(s: Store, live: map<K, Holding>)
    requires Conserved(s, live, multiset{}) && LocksMatch(s, live) && live == map[]
    ensures |s.free| + |s.view| == s.numPages && s.locks == multiset{}
    ensures forall x :: x in s.free ==> Aligned(x, s.ps)
  {
    TreePagesCount(s.view, s.ps);
    assert OwnedMap(live, s.ps) == map[];
    assert HandleMap(live) == map[];
    assert |multiset(s.free) + TreePages(s.view, s.ps)| == |multiset(AllPages(s.numPages, s.ps))|;
    forall x | x in s.free ensures Aligned(x, s.ps) {
      assert x in multiset(s.free);
      NoTwoHolders(s, live, multiset{}, multiset(s.free), multiset{}, x);
    }
  }

  lemma {:induction false} TreePagesCount(view: View, ps: int)
    ensures |TreePages(view, ps)| == |view|
    decreases |view|
  {
    hide Bag, HeadMap, Head;
    EmptyBag<Prefix, int>();
    if view == map[] {
      NoHeads(ps);
    } else {
      var p :| p in view;
      HeadMapWithout(view, p, ps);
      BagWithout(HeadMap(view, ps), p);
      TreePagesCount(view - {p}, ps);
    }
  }

  lemma NoHeads(ps: int)
    ensures HeadMap(map[], ps) == map[]
  {
  }

  lemma HeadMapWithout(view: View, p: Prefix, ps: int)
    requires p in view
    ensures p in HeadMap(view, ps) && HeadMap(view, ps)[p] == multiset{Head(view, p, ps)}
    ensures HeadMap(view - {p}, ps) == HeadMap(view, ps) - {p}
  {
    hide LastHead;
  }

  // ---- a whole batch ----

  /** How many more pages each request of a batch needs, and the pages dealt out in order. */
  ghost function GrantAll<K>(live: map<K, Holding>, batch: seq<K>, counts: seq<nat>, pages: seq<int>, ps: nat): map<K, Holding>
    requires |counts| == |batch|
    decreases |batch|
  {
    if batch == [] || !CanGrant(live, batch[0], counts[0], pages, ps) then live
    else
      GrantAll(live[batch[0] := Granted(live[batch[0]], pages[..counts[0]], ps)], batch[1..], counts[1..], pages[counts[0]..], ps)
  }

  ghost predicate CanGrant<K>(live: map<K, Holding>, k: K, count: nat, pages: seq<int>, ps: nat)
  {
    && k in live && count <= |pages|
    && live[k].alloc + |PageToToken(pages[..count], ps)| <= |live[k].row|
  }

  ghost function Sum(counts: seq<nat>): nat
  {
    if counts == [] then 0 else counts[0] + Sum(counts[1..])
  }

  lemma {:induction false} SumAppend(counts: seq<nat>, c: nat)
    ensures Sum(counts + [c]) == Sum(counts) + c
    decreases |counts|
  {
    if counts == [] {
      assert counts + [c] == [c];
    } else {
      assert (counts + [c])[1..] == counts[1..] + [c];
      SumAppend(counts[1..], c);
    }
  }

  /** Dealing the pages in hand to the requests of a batch, in order, leaves no page in hand. */
  lemma {:induction false} GrantAllOk<K>(s: Store, live: map<K, Holding>, batch: seq<K>, counts: seq<nat>, pages: seq<int>)
    requires |counts| == |batch| && Sum(counts) == |pages| && NoDup(batch)
    requires WorldOk(s, live, multiset(pages))
    requires forall i :: 0 <= i < |batch| ==> batch[i] in live && live[batch[i]].alloc + counts[i] * s.ps <= |live[batch[i]].row|
    ensures WorldOk(s, GrantAll(live, batch, counts, pages, s.ps), multiset{})
    ensures GrantAll(live, batch, counts, pages, s.ps).Keys == live.Keys
    ensures forall k :: k in live && k !in batch ==> GrantAll(live, batch, counts, pages, s.ps)[k] == live[k]
    decreases |batch|
  {
    hide WorldOk;
    if batch == [] {
      assert pages == [];
    } else {
      var k, n := batch[0], counts[0];
      var mine, rest := pages[..n], pages[n..];
      assert pages == mine + rest && multiset(pages) == multiset(rest) + multiset(mine);
      PageToTokenLength(mine, s.ps);
      Grant(s, live, multiset(rest), k, mine);
      var next := live[k := Granted(live[k], mine, s.ps)];
      assert next.Keys == live.Keys;
      assert k !in batch[1..];
      GrantAllOk(s, next, batch[1..], counts[1..], rest);
    }
  }

  // ---- the reservation budget, in whole pages ----

  /** How many pages an allocation can get: the free ones and, after eviction, the unlocked ones of the tree. */
  ghost function Available(s: Store): nat
  {
    |s.free| + |Unlocked(s.view, s.locks)|
  }

  /** The pages a request may still need: those up to its last position that is ever used, without those it has. */
  ghost function Need(r: Holding, ps: nat): int
    requires ps > 0
  {
    (r.goal - 1 + ps - 1) / ps - r.alloc / ps
  }

  ghost function NeedMap<K>(live: map<K, Holding>, ps: nat): map<K, int>
    requires ps > 0
  {
    map k | k in live :: Need(live[k], ps)
  }

  /** Admission has not overcommitted: the pages that all live requests may still need can be had. */
  ghost predicate Budgeted<K>(s: Store, live: map<K, Holding>)
  {
    && s.ps > 0 && (forall k :: k in live ==> Need(live[k], s.ps) >= 0)
    && Total(NeedMap(live, s.ps)) <= Available(s)
  }

  lemma NeedSet<K>(live: map<K, Holding>, k: K, r: Holding, ps: nat)
    requires ps > 0
    ensures Total(NeedMap(live[k := r], ps)) == Total(NeedMap(live, ps)) + Need(r, ps) - (if k in live then Need(live[k], ps) else 0)
  {
    hide Total, Need;
    TotalSet(NeedMap(live, ps), k, Need(r, ps));
    assert NeedMap(live[k := r], ps) == NeedMap(live, ps)[k := Need(r, ps)];
  }

  lemma NeedWithout<K>(live: map<K, Holding>, k: K, ps: nat)
    requires ps > 0 && k in live
    ensures Total(NeedMap(live, ps)) == Need(live[k], ps) + Total(NeedMap(live - {k}, ps))
  {
    hide Total, Need;
    TotalWithout(NeedMap(live, ps), k);
    assert NeedMap(live - {k}, ps) == NeedMap(live, ps) - {k};
  }

  /** Without pages of its own for the last of its positions, a request needs less than a page beyond its tokens. */
  lemma NeedBound(r: Holding, ps: nat)
    requires ps > 0 && Aligned(r.alloc, ps) && r.goal > 0
    ensures r.goal - 1 - r.alloc <= Need(r, ps) * ps <= r.goal - 1 - r.alloc + ps - 1
    ensures r.alloc < r.goal ==> Need(r, ps) >= 0
  {
    var last := r.goal - 1;
    DivCeilCovers(last, ps);
    assert Need(r, ps) * ps == DivCeil(last, ps) * ps - r.alloc;
    if r.alloc < r.goal { Below(-1, Need(r, ps), ps); }
  }

  /** Eviction turns unlocked pages into free ones, so only the pages taken are gone. */
  lemma WithdrawBudget(s: Store, order: seq<Prefix>, after: View, n: nat)
    requires ValidView(s.view, s.ps) && Removed(s.view, order, after) && forall p :: p in order ==> !Locked(s.locks, p)
    requires s.ps > 0 && n <= |Refilled(s, Flat(s.view, order, s.ps))|
    ensures Available(Withdrawn(s, order, after, n)) + n == Available(s)
  {
    hide Locked, ValidView;
    StrideFlatLength(s.view, order, s.ps);
    assert Unlocked(after, s.locks) == Unlocked(s.view, s.locks) - Elements(order);
    assert Elements(order) <= Unlocked(s.view, s.locks);
    ElementsSize(order);
  }

  lemma {:induction false} StrideFlatLength(view: View, order: seq<Prefix>, ps: nat)
    requires ps > 0 && ValidView(view, ps) && forall p :: p in order ==> p in view
    ensures |Stride(Flat(view, order, ps), ps)| == |order|
    decreases |order|
  {
    hide ValidView;
    if order != [] {
      var first, rest := LastPage(view, order[0], ps), Flat(view, order[1..], ps);
      LastPageFits(view, order[0], ps);
      MultipleAligned(1, ps);
      StrideConcat(first, rest, ps);
      StrideFlatLength(view, order[1..], ps);
    }
  }

  lemma {:induction false} ElementsSize<T>(s: seq<T>)
    requires NoDup(s)
    ensures |Elements(s)| == |s|
    decreases |s|
  {
    if s != [] {
      var n := |s| - 1;
      ElementsSize(s[..n]);
      assert s == s[..n] + [s[n]];
      assert Elements(s) == Elements(s[..n]) + {s[n]};
      assert s[n] !in s[..n];
    }
  }

  /** Locking a prefix makes at most its own pages unavailable. */
  lemma LockBudget(s: Store, p: Prefix)
    requires ValidView(s.view, s.ps) && Aligned(|p|, s.ps)
    ensures Available(s) <= Available(s.(locks := s.locks + multiset{p})) + |Cells(0, p, s.ps)|
    ensures |Cells(0, p, s.ps)| * s.ps == |p|
  {
    hide Locked;
    UnlockedAfterLock(s.view, s.locks, p, s.ps);
    MultipleAligned(0, s.ps);
    CellsCount(0, p, s.ps);
    SubsetSize(Unlocked(s.view, s.locks) - Cells(0, p, s.ps), Cells(0, p, s.ps), Unlocked(s.view, s.locks));
  }

  lemma SubsetSize<T>(a: set<T>, b: set<T>, c: set<T>)
    requires c <= a + b
    ensures |c| <= |a| + |b|
  {
    var d := b - a;
    assert a + b == a + d;
    assert |a + d| == |a| + |d|;
    Smaller(d, b);
    Smaller(c, a + b);
  }

  lemma {:induction false} Smaller<T>(a: set<T>, b: set<T>)
    requires a <= b
    ensures |a| <= |b|
  {
    assert b == a + (b - a);
  }

  /** Giving a request up frees pages and locks, and takes none. */
  lemma DropBudget(s: Store, r: Holding, n: nat, base: nat)
    requires CacheStep(s, r, n, base) && r.hl <= base && n <= r.cachedLen <= |r.row|
    ensures Available(s) <= Available(Dropped(s, r, n, base))
  {
    hide CacheStep;
    var t := Dropped(s, r, n, base);
    GrownKeys(s, r, n, base);
    FewerLocks(s.view, t.view, s.locks, t.locks);
    Smaller(Unlocked(s.view, s.locks), Unlocked(t.view, t.locks));
  }

  lemma GrownKeys(s: Store, r: Holding, n: nat, base: nat)
    requires CacheStep(s, r, n, base)
    ensures s.view.Keys <= Cached(s, r, n, base).Keys
  {
  }

  lemma FewerLocks(v: View, w: View, locks: multiset<Prefix>, locks': multiset<Prefix>)
    requires v.Keys <= w.Keys && locks' <= locks
    ensures Unlocked(v, locks) <= Unlocked(w, locks')
  {
    forall p | p in v && !Locked(locks, p) ensures p in w && !Locked(locks', p) {
      LockedMore(locks', locks, p);
    }
  }

  /** Caching an unfinished prompt locks its pages, but frees as many duplicates as it locks old pages. */
  lemma KeepBudget(s: Store, r: Holding, n: nat, base: nat)
    requires ViewOk(s) && HoldingOk(r, s) && Tight(r, s.ps) && CacheStep(s, r, n, base) && Handle(r) in s.locks
    ensures r.hl <= base <= |r.row|
    ensures Available(s) <= Available(Kept(s, r, n, base))
  {
    hide CacheStep, ViewOk, HoldingOk, Cached, Stride, Locked;
    OwnedSplit(s, r, n, base);
    CacheFacts(s, r, n, base);
    GrownKeys(s, r, n, base);
    var t, dup := Kept(s, r, n, base), Cells(r.hl, r.tok[..base], s.ps);
    DupPages(s, r, base);
    KeptUnlocked(s, r, n, base);
    SubsetSize(Unlocked(t.view, t.locks), dup, Unlocked(s.view, s.locks));
  }

  lemma DupPages(s: Store, r: Holding, base: nat)
    requires HoldingOk(r, s) && r.hl <= base <= |r.row| && base <= |r.tok| && Aligned(base, s.ps)
    ensures |Cells(r.hl, r.tok[..base], s.ps)| == |Stride(r.row[r.hl..base], s.ps)|
  {
    hide Stride, Cells, Blocked, Labelled;
    AlignedSum(base, r.hl, s.ps);
    CellsCount(r.hl, r.tok[..base], s.ps);
    StrideLength(r.row[r.hl..base], s.ps);
    SameFactor(|Cells(r.hl, r.tok[..base], s.ps)|, |Stride(r.row[r.hl..base], s.ps)|, s.ps);
  }

  lemma SameFactor(a: int, b: int, c: int)
    requires c > 0 && a * c == b * c
    ensures a == b
  {
    MultipleAligned(a, c);
    MultipleAligned(b, c);
  }

  /** What was available and is no more lies between the old and the new end of what the tree shares. */
  lemma KeptUnlocked(s: Store, r: Holding, n: nat, base: nat)
    requires ViewOk(s) && HoldingOk(r, s) && Tight(r, s.ps) && CacheStep(s, r, n, base) && Handle(r) in s.locks
    requires r.hl <= base <= n <= |r.tok| && base <= |r.row| && s.view.Keys <= Cached(s, r, n, base).Keys
    ensures var t := Kept(s, r, n, base);
      Unlocked(s.view, s.locks) <= Unlocked(t.view, t.locks) + Cells(r.hl, r.tok[..base], s.ps)
  {
    hide Cached, HoldingOk;
    CacheFacts(s, r, n, base);
    var t := Kept(s, r, n, base);
    forall p | p in Unlocked(s.view, s.locks) ensures p in Unlocked(t.view, t.locks) || p in Cells(r.hl, r.tok[..base], s.ps) {
      if Locked(t.locks, p) {
        var l :| l in t.locks && p <= l;
        assert l in s.locks || l == r.tok[..n];
        assert l == r.tok[..n] && p == r.tok[..n][..|p|];
        NotBeyond(s, r, n, base, |p|);
        assert p == r.tok[..base][..|p|];
        HandleLocks(s.locks, r, p);
      }
    }
  }

  lemma NotBeyond(s: Store, r: Holding, n: nat, base: nat, k: nat)
    requires CacheStep(s, r, n, base) && k <= n && Aligned(k, s.ps) && r.tok[..n][..k] in s.view
    ensures k <= base
  {
  }

  lemma HandleLocks(locks: multiset<Prefix>, r: Holding, p: Prefix)
    requires Handle(r) in locks
    ensures r.hl <= |r.tok| && |p| <= r.hl && p == r.tok[..|p|] ==> Locked(locks, p)
  {
    if r.hl <= |r.tok| && |p| <= r.hl && p == r.tok[..|p|] {
      assert p <= Handle(r);
    }
  }

  // ---- backing a batch ----

  lemma BackBatch<K>(s: Store, live: map<K, Holding>, order: seq<Prefix>, after: View, batch: seq<K>, counts: seq<nat>)
    requires WorldOk(s, live, multiset{}) && s.ps > 0 && |counts| == |batch| && NoDup(batch)
    requires Removed(s.view, order, after) && forall p :: p in order ==> !Locked(s.locks, p)
    requires ValidView(after, s.ps) && Sum(counts) <= |Refilled(s, Flat(s.view, order, s.ps))|
    requires forall i :: 0 <= i < |batch| ==> batch[i] in live && live[batch[i]].alloc + counts[i] * s.ps <= |live[batch[i]].row|
    ensures var taken := Refilled(s, Flat(s.view, order, s.ps))[..Sum(counts)];
      WorldOk(Withdrawn(s, order, after, Sum(counts)), GrantAll(live, batch, counts, taken, s.ps), multiset{})
  {
    hide WorldOk, Removed, Locked, ValidView, Refilled, Flat, GrantAll, NoDup;
    var taken := Refilled(s, Flat(s.view, order, s.ps))[..Sum(counts)];
    Withdraw(s, live, order, after, Sum(counts));
    GrantAllOk(Withdrawn(s, order, after, Sum(counts)), live, batch, counts, taken);
  }

  lemma GrantedNeed(r: Holding, pages: seq<int>, ps: nat)
    requires ps > 0 && r.alloc + |PageToToken(pages, ps)| <= |r.row|
    ensures Need(Granted(r, pages, ps), ps) == Need(r, ps) - |pages| && |Granted(r, pages, ps).row| == |r.row|
  {
    hide PageToToken;
    PageToTokenLength(pages, ps);
    MorePages(r.alloc, |pages|, ps);
  }

  lemma MorePages(a: nat, k: nat, ps: nat)
    requires ps > 0
    ensures (a + k * ps) / ps == a / ps + k
  {
    Divided(a / ps + k, ps, a % ps);
    assert a + k * ps == (a / ps + k) * ps + a % ps;
  }

  /** Backing a batch meets that much of what the requests need. */
  lemma {:induction false} BackNeeds<K>(live: map<K, Holding>, batch: seq<K>, counts: seq<nat>, pages: seq<int>, ps: nat)
    requires ps > 0 && |counts| == |batch| && NoDup(batch) && Sum(counts) == |pages|
    requires forall i :: 0 <= i < |batch| ==> batch[i] in live && live[batch[i]].alloc + counts[i] * ps <= |live[batch[i]].row|
    ensures var g := GrantAll(live, batch, counts, pages, ps);
      && Total(NeedMap(g, ps)) == Total(NeedMap(live, ps)) - Sum(counts) && g.Keys == live.Keys
      && (forall i :: 0 <= i < |batch| ==> Need(g[batch[i]], ps) == Need(live[batch[i]], ps) - counts[i])
      && (forall k :: k in live && k !in batch ==> g[k] == live[k])
    decreases |batch|
  {
    hide Total, NeedMap;
    if batch != [] {
      var k, n := batch[0], counts[0];
      var mine, rest := pages[..n], pages[n..];
      PageToTokenLength(mine, ps);
      var granted := Granted(live[k], mine, ps);
      GrantedNeed(live[k], mine, ps);
      NeedSet(live, k, granted, ps);
      BackNeeds(live[k := granted], batch[1..], counts[1..], rest, ps);
      assert k !in batch[1..];
      forall i | 0 <= i < |batch| ensures batch[i] == k <==> i == 0 {
        if i > 0 { assert batch[1..][i - 1] == batch[i]; }
      }
    }
  }

  lemma {:induction false} TotalNonnegative<K>(m: map<K, int>)
    requires forall k :: k in m ==> m[k] >= 0
    ensures Total(m) >= 0
    decreases |m|
  {
    if m != map[] {
      var k :| k in m && Total(m) == m[k] + Total(m - {k});
      TotalNonnegative(m - {k});
    }
  }

  /** The pages a batch needs can be had. */
  lemma BatchAffordable<K>(s: Store, live: map<K, Holding>, batch: seq<K>, counts: seq<nat>)
    requires Budgeted(s, live) && |counts| == |batch| && NoDup(batch)
    requires forall i :: 0 <= i < |batch| ==> batch[i] in live && live[batch[i]].alloc + counts[i] * s.ps <= |live[batch[i]].row|
    requires forall i :: 0 <= i < |batch| ==> counts[i] <= Need(live[batch[i]], s.ps)
    ensures Sum(counts) <= Available(s)
  {
    hide Available, Total;
    var pages := seq(Sum(counts), _ => 0);
    BackNeeds(live, batch, counts, pages, s.ps);
    var g := GrantAll(live, batch, counts, pages, s.ps);
    forall k | k in NeedMap(g, s.ps) ensures NeedMap(g, s.ps)[k] >= 0 {
      if k in batch {
        var i :| 0 <= i < |batch| && batch[i] == k;
      }
    }
    TotalNonnegative(NeedMap(g, s.ps));
  }

  /** Backing a batch keeps the budget. */
  lemma BackBudget<K>(s: Store, live: map<K, Holding>, order: seq<Prefix>, after: View, batch: seq<K>, counts: seq<nat>,
                      taken: seq<int>)
    requires Budgeted(s, live) && |counts| == |batch| && NoDup(batch) && Sum(counts) == |taken|
    requires forall i :: 0 <= i < |batch| ==> batch[i] in live && live[batch[i]].alloc + counts[i] * s.ps <= |live[batch[i]].row|
    requires forall i :: 0 <= i < |batch| ==> counts[i] <= Need(live[batch[i]], s.ps)
    requires ValidView(s.view, s.ps) && Removed(s.view, order, after) && forall p :: p in order ==> !Locked(s.locks, p)
    requires Sum(counts) <= |Refilled(s, Flat(s.view, order, s.ps))|
    ensures Budgeted(Withdrawn(s, order, after, Sum(counts)), GrantAll(live, batch, counts, taken, s.ps))
  {
    hide Available, Total, ValidView, Removed, Locked, Refilled, Flat;
    WithdrawBudget(s, order, after, Sum(counts));
    BackNeeds(live, batch, counts, taken, s.ps);
    var g := GrantAll(live, batch, counts, taken, s.ps);
    forall k | k in g ensures Need(g[k], s.ps) >= 0 {
      if k in batch {
        var i :| 0 <= i < |batch| && batch[i] == k;
      }
    }
  }
}
