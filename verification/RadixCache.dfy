/**
 The radix prefix cache: a mutable tree whose edges carry page-aligned runs of
 tokens and their slots. It is proved against the map of PrefixStore.
 */
module RadixCache {
  import opened Alignment
  import opened PrefixStore

  /** The dictionary key of a run of tokens: its first page. */
  function FirstPage(ids: seq<int>, ps: nat): (k: seq<int>)
  {
    if |ids| <= ps then ids else ids[..ps]
  }

  /** The first position where the two runs differ, or the shorter length. */
  function CompareKey(a: seq<int>, b: seq<int>): (n: nat)
    ensures n <= |a| && n <= |b| && a[..n] == b[..n]
    ensures n < |a| && n < |b| ==> a[n] != b[n]
  {
    if a == [] || b == [] || a[0] != b[0] then 0
    else
      var n := 1 + CompareKey(a[1..], b[1..]);
      assert a[..n] == [a[0]] + a[1..][..n - 1];
      assert b[..n] == [b[0]] + b[1..][..n - 1];
      n
  }

  lemma {:induction false} Agrees(a: seq<int>, b: seq<int>, n: nat)
    requires n <= |a| && n <= |b| && a[..n] == b[..n]
    ensures n <= CompareKey(a, b)
  {
    if n > 0 {
      assert a[0] == a[..n][0] == b[..n][0];
      assert a[1..][..n - 1] == a[..n][1..] && b[1..][..n - 1] == b[..n][1..];
      Agrees(a[1..], b[1..], n - 1);
    }
  }

  class RadixTreeNode {
    var children: map<seq<int>, RadixTreeNode>
    var parent: RadixTreeNode?
    var refCount: int
    var timestamp: int
    var key: seq<int>
    var value: seq<int>
    // The tokens from the root to the end of this node, and their slots.
    ghost var prefix: Prefix
    ghost var slots: seq<int>

    constructor (tic: int)
      ensures children == map[] && parent == null && refCount == 0 && timestamp == tic
      ensures key == [] && value == [] && prefix == [] && slots == []
    {
      children, parent, refCount, timestamp := map[], null, 0, tic;
      key, value, prefix, slots := [], [], [], [];
    }

    predicate IsRoot()
      reads this`parent
    {
      parent == null
    }

    predicate IsLeaf()
      reads this`children
    {
      |children| == 0
    }

    method SetKeyValue(key: seq<int>, value: seq<int>)
      requires |key| == |value|
      modifies this`key, this`value
      ensures this.key == key && this.value == value
    {
      this.key, this.value := key, value;
    }

    method SetParent(parent: RadixTreeNode, ps: nat)
      requires parent != this
      modifies this`parent, parent`children
      ensures this.parent == parent
      ensures parent.children == old(parent.children)[FirstPage(key, ps) := this]
    {
      this.parent := parent;
      parent.children := parent.children[FirstPage(key, ps) := this];
    }

    /** Cuts this node in two: the returned node takes the first `pos` tokens, this node keeps the rest. */
    method SplitAt(pos: nat, ps: nat) returns (upper: RadixTreeNode)
      requires 0 < pos < |key| == |value|
      requires parent != null && parent != this
      modifies this`key, this`value, this`parent, parent`children
      ensures fresh(upper)
      ensures upper.parent == old(parent) && upper.children == map[FirstPage(old(key)[pos..], ps) := this]
      ensures upper.key == old(key)[..pos] && upper.value == old(value)[..pos]
      ensures upper.refCount == refCount && upper.timestamp == timestamp
      ensures upper.prefix == old(parent).prefix + upper.key && upper.slots == old(parent).slots + upper.value
      ensures key == old(key)[pos..] && value == old(value)[pos..] && parent == upper
      ensures old(parent).children == old(parent.children)[FirstPage(old(key)[..pos], ps) := upper]
    {
      var above: RadixTreeNode := parent;
      upper := new RadixTreeNode(timestamp);
      upper.SetKeyValue(key[..pos], value[..pos]);
      upper.SetParent(above, ps);
      upper.refCount := refCount;
      upper.prefix, upper.slots := above.prefix + upper.key, above.slots + upper.value;

      SetKeyValue(key[pos..], value[pos..]);
      SetParent(upper, ps);
    }

    /** Hangs a new node below this one. */
    method Graft(key: seq<int>, value: seq<int>, ps: nat, now: int) returns (leaf: RadixTreeNode)
      requires |key| == |value|
      modifies this`children
      ensures fresh(leaf) && leaf.parent == this && leaf.children == map[]
      ensures leaf.refCount == 0 && leaf.timestamp == now && leaf.key == key && leaf.value == value
      ensures leaf.prefix == prefix + key && leaf.slots == slots + value
      ensures children == old(children)[FirstPage(key, ps) := leaf]
    {
      leaf := new RadixTreeNode(now);
      leaf.SetKeyValue(key, value);
      leaf.SetParent(this, ps);
      leaf.prefix, leaf.slots := prefix + key, slots + value;
    }
  }

  /** A handle names a node of the tree and the number of tokens from the root to its end. */
  datatype RadixCacheHandle = RadixCacheHandle(cachedLen: nat, node: RadixTreeNode)

  class RadixPrefixCache {
    const pageSize: nat
    const root: RadixTreeNode
    var evictableSize: int
    var protectedSize: int
    ghost var nodes: set<RadixTreeNode>
    ghost var view: View
    ghost var locks: multiset<Prefix>

    // ---- invariant ----

    ghost predicate LinkedUp(n: RadixTreeNode)
      reads this`nodes, n`parent, n`key, n`value, n`prefix, n`slots
      reads nodes`prefix, nodes`slots, nodes`children
    {
      && n.parent != null && n.parent in nodes
      && |n.key| == |n.value| && 0 < |n.key| && pageSize > 0 && Aligned(|n.key|, pageSize)
      && n.prefix == n.parent.prefix + n.key && n.slots == n.parent.slots + n.value
      && FirstPage(n.key, pageSize) in n.parent.children
      && n.parent.children[FirstPage(n.key, pageSize)] == n
    }

    ghost predicate LinkedDown(n: RadixTreeNode)
      reads this`nodes, n`children, nodes`parent, nodes`key
    {
      forall k :: k in n.children ==>
        var c := n.children[k];
        c in nodes && c != root && c.parent == n && FirstPage(c.key, pageSize) == k
    }

    /** The nodes form a tree, each linked to its parent by the first page of its run. */
    ghost predicate Structure()
      reads this`nodes, nodes`parent, nodes`children, nodes`key, nodes`value, nodes`prefix, nodes`slots
    {
      && pageSize > 0
      && root in nodes && root.parent == null && root.prefix == [] && root.slots == []
      && (forall n :: n in nodes ==> |n.prefix| == |n.slots| && Aligned(|n.prefix|, pageSize))
      && (forall n {:trigger LinkedUp(n)} :: n in nodes && n != root ==> LinkedUp(n))
      && (forall n {:trigger LinkedDown(n)} :: n in nodes ==> LinkedDown(n))
    }

    ghost predicate Spelled(p: Prefix)
      reads this`nodes, nodes`prefix
    {
      exists n :: n in nodes && p <= n.prefix
    }

    ghost predicate Ends(p: Prefix)
      reads this`nodes, nodes`prefix
    {
      exists n :: n in nodes && n.prefix == p
    }

    ghost predicate LocksOnNodes(locks: multiset<Prefix>)
      reads this`nodes, nodes`prefix
    {
      forall l {:trigger Ends(l)} :: l in locks ==> Ends(l)
    }

    /** The map is exactly what the nodes spell out. */
    ghost predicate Represents()
      reads this`nodes, this`view, nodes`prefix, nodes`slots
    {
      && pageSize > 0
      && (forall n, k {:trigger n.prefix[..k]} :: n in nodes && 0 < k <= |n.prefix| && k <= |n.slots| && Aligned(k, pageSize) ==>
            n.prefix[..k] in view && view[n.prefix[..k]] == n.slots[..k])
      && (forall p :: p in view ==> 0 < |p| && Aligned(|p|, pageSize))
      && (forall p {:trigger Spelled(p)} :: p in view ==> Spelled(p))
    }

    /** Reference counts count the locks below a node; the counters measure unlocked and locked pages. */
    ghost predicate AccountingFor(locks: multiset<Prefix>)
      reads this`nodes, this`view, this`evictableSize, this`protectedSize, nodes`refCount, nodes`prefix
    {
      && root in nodes && root.refCount == 1
      && LocksOnNodes(locks)
      && (forall n {:trigger n.refCount} :: n in nodes && n != root ==> n.refCount == LockCount(locks, n.prefix))
      && evictableSize == |Unlocked(view, locks)| * pageSize
      && evictableSize + protectedSize == |view| * pageSize
    }

    ghost predicate Valid()
      reads this`nodes, this`view, this`locks, this`evictableSize, this`protectedSize, nodes`refCount
      reads nodes`parent, nodes`children, nodes`key, nodes`value, nodes`prefix, nodes`slots
    {
      root in nodes && Structure() && Represents() && AccountingFor(locks)
    }

    // ---- what a lock keeps ----

    /** A node below which something is locked stays, with its tokens and its slots. */
    twostate predicate LockedStay()
      reads this`nodes, nodes`prefix, nodes`slots
    {
      forall n :: n in old(nodes) && old(Locked(locks, n.prefix)) ==>
        n in nodes && n.prefix == old(n.prefix) && n.slots == old(n.slots)
    }

    /** So what has been matched and locked can be looked up at any time, and comes out the same. */
    twostate lemma LockedMatchStays(n: RadixTreeNode)
      requires old(Valid()) && Valid() && LockedStay() && n in old(nodes) && old(Locked(locks, n.prefix))
      ensures n in nodes && n.prefix == old(n.prefix) && n.slots == old(n.slots)
      ensures forall k {:trigger n.prefix[..k]} :: 0 < k <= |n.prefix| && Aligned(k, pageSize) ==>
        n.prefix[..k] in view && n.prefix[..k] in old(view) && view[n.prefix[..k]] == old(view)[n.prefix[..k]] == n.slots[..k]
    {
      forall k {:trigger n.prefix[..k]} | 0 < k <= |n.prefix| && Aligned(k, pageSize)
        ensures n.prefix[..k] in view && n.prefix[..k] in old(view)
        ensures view[n.prefix[..k]] == old(view)[n.prefix[..k]] == n.slots[..k]
      {
        assert |n.prefix| == |n.slots|;
        assert old(n.prefix)[..k] in old(view);
      }
    }

    // ---- shape of the tree ----

    lemma RootFacts()
      requires Structure()
      ensures pageSize > 0 && root in nodes && root.parent == null && root.prefix == []
    {
    }

    lemma OnlyRoot(n: RadixTreeNode)
      requires Structure() && n in nodes && n.parent == null
      ensures n == root && n.prefix == [] && pageSize > 0
    {
      assert n == root || LinkedUp(n);
    }

    /** No node lies strictly between a node and its parent. */
    lemma {:induction false} Between(a: RadixTreeNode, m: RadixTreeNode)
      requires Structure() && a in nodes && m in nodes && a.prefix <= m.prefix
      ensures a == m || (m != root && m.parent != null && a.prefix <= m.parent.prefix)
      decreases |a.prefix| + |m.prefix|
    {
      if m == root {
        assert a == root || LinkedUp(a);
      } else if a != m {
        assert LinkedUp(m);
        var q := m.parent;
        if |q.prefix| < |a.prefix| {
          assert a != root;
          assert LinkedUp(a);
          var b := a.parent;
          assert b.prefix <= m.prefix && q.prefix <= m.prefix;
          if |b.prefix| < |q.prefix| {
            assert q.prefix == m.prefix[..|q.prefix|] <= a.prefix;
            Between(q, a);
          } else if |q.prefix| < |b.prefix| {
            Between(b, m);
          } else {
            assert b.prefix == m.prefix[..|b.prefix|] == q.prefix;
            Between(b, q);
            if q != root { assert LinkedUp(q); }
            assert b == q;
            SameFirstPage(a, m);
          }
        } else {
          assert a.prefix == m.prefix[..|a.prefix|] <= q.prefix;
        }
      }
    }

    lemma SameFirstPage(a: RadixTreeNode, m: RadixTreeNode)
      requires Structure() && a in nodes && m in nodes && a != root && m != root
      requires a.parent == m.parent && a.prefix <= m.prefix
      ensures a == m
    {
      assert LinkedUp(a) && LinkedUp(m);
      assert a.key == m.key[..|a.key|] by {
        assert a.key == a.prefix[|a.parent.prefix|..];
        assert m.key == m.prefix[|a.parent.prefix|..];
      }
      AlignedGap(0, |a.key|, pageSize);
      assert a.key[..pageSize] == m.key[..pageSize];
      assert FirstPage(a.key, pageSize) == a.key[..pageSize];
      assert FirstPage(m.key, pageSize) == m.key[..pageSize];
    }

    /** A proper extension of a node's prefix continues through a child of that node. */
    lemma {:induction false} ChildToward(a: RadixTreeNode, m: RadixTreeNode)
      requires Structure() && a in nodes && m in nodes && a.prefix <= m.prefix && a != m
      ensures |a.prefix| + pageSize <= |m.prefix|
      ensures var k := m.prefix[|a.prefix|..][..pageSize];
        k in a.children && a.children[k] in nodes && a.children[k].prefix <= m.prefix
      decreases |m.prefix|
    {
      Between(a, m);
      assert LinkedUp(m) && LinkedDown(a);
      var q := m.parent;
      AlignedGap(0, |m.key|, pageSize);
      if q == a {
        assert m.prefix[|a.prefix|..] == m.key;
        assert FirstPage(m.key, pageSize) == m.key[..pageSize];
      } else {
        ChildToward(a, q);
        assert m.prefix[|a.prefix|..][..pageSize] == q.prefix[|a.prefix|..][..pageSize];
      }
    }

    /** A page of a node's own run lies on no path that avoids the node. */
    lemma CellOwner(n: RadixTreeNode, m: RadixTreeNode, p: Prefix)
      requires Structure() && n in nodes && m in nodes && n != root && n.parent != null
      requires |n.parent.prefix| < |p| && Aligned(|p|, pageSize) && p <= n.prefix && p <= m.prefix
      ensures n.prefix <= m.prefix
    {
      assert LinkedUp(n);
      var q := n.parent;
      AlignedGap(|q.prefix|, |p|, pageSize);
      assert q.prefix == p[..|q.prefix|];
      assert q.prefix <= m.prefix;
      ChildToward(q, m);
      var k := m.prefix[|q.prefix|..][..pageSize];
      assert k == p[|q.prefix|..|q.prefix| + pageSize];
      assert k == n.prefix[|q.prefix|..][..pageSize];
      assert n.prefix[|q.prefix|..] == n.key;
      AlignedGap(0, |n.key|, pageSize);
      assert FirstPage(n.key, pageSize) == k;
    }

    ghost function CellsOf(n: RadixTreeNode): set<Prefix>
      requires pageSize > 0 && n.parent != null
      reads n`parent, n`prefix, n.parent`prefix
    {
      Cells(|n.parent.prefix|, n.prefix, pageSize)
    }

    /** The pages of one node are locked together. */
    lemma CellsLockedTogether(n: RadixTreeNode, locks: multiset<Prefix>, p: Prefix)
      requires Structure() && n in nodes && n != root && n.parent != null && p in CellsOf(n)
      requires LocksOnNodes(locks)
      ensures Locked(locks, p) <==> Locked(locks, n.prefix)
    {
      if Locked(locks, p) {
        var l :| l in locks && p <= l;
        assert Ends(l);
        var m :| m in nodes && m.prefix == l;
        CellOwner(n, m, p);
      }
      if Locked(locks, n.prefix) {
        var l :| l in locks && n.prefix <= l;
        assert p <= l;
      }
    }

    lemma CellsOfCount(n: RadixTreeNode)
      requires Structure() && Represents() && n in nodes && n != root && n.parent != null
      ensures CellsOf(n) <= view.Keys && |CellsOf(n)| * pageSize == |n.key|
      ensures n.prefix in CellsOf(n)
    {
      assert LinkedUp(n);
      assert n.prefix == n.prefix[..|n.prefix|];
      CellsCount(|n.parent.prefix|, n.prefix, pageSize);
      forall p | p in CellsOf(n) ensures p in view {
        var k :| |n.parent.prefix| < k <= |n.prefix| && Aligned(k, pageSize) && p == n.prefix[..k];
      }
    }

    lemma ViewIsValid()
      requires Structure() && Represents()
      ensures ValidView(view, pageSize)
    {
      forall p | p in view
        ensures 0 < |p| && Aligned(|p|, pageSize) && |view[p]| == |p|
        ensures forall k {:trigger p[..k]} :: 0 < k <= |p| && Aligned(k, pageSize) ==>
          p[..k] in view && view[p[..k]] == view[p][..k]
      {
        assert Spelled(p);
        var n :| n in nodes && p <= n.prefix;
        assert p == n.prefix[..|p|];
        assert view[p] == n.slots[..|p|];
        forall k {:trigger p[..k]} | 0 < k <= |p| && Aligned(k, pageSize)
          ensures p[..k] in view && view[p[..k]] == view[p][..k]
        {
          assert p[..k] == n.prefix[..k];
          assert n.slots[..|p|][..k] == n.slots[..k];
        }
      }
    }

    lemma Sizes()
      requires Valid()
      ensures pageSize > 0 && ValidView(view, pageSize)
      ensures evictableSize == |Unlocked(view, locks)| * pageSize
      ensures protectedSize == |Held(view, locks)| * pageSize
    {
      ViewIsValid();
      PagesAddUp(view, locks);
      SumTimes(|view|, |Unlocked(view, locks)|, |Held(view, locks)|, pageSize);
    }

    // ---- construction ----

    constructor (pageSize: nat)
      requires pageSize > 0
      ensures Valid() && fresh(nodes) && this.pageSize == pageSize
      ensures view == map[] && locks == multiset{} && evictableSize == 0 && protectedSize == 0
    {
      this.pageSize := pageSize;
      evictableSize, protectedSize := 0, 0;
      var r := new RadixTreeNode(0);
      r.refCount := 1;
      root := r;
      nodes := {r};
      view, locks := map[], multiset{};
      new;
      MultipleAligned(0, pageSize);
      assert Unlocked(view, locks) == {} && Held(view, locks) == {};
    }

    // ---- locks ----

    /** Taking one node's pages out of the unlocked ones costs its length if it is unlocked, and nothing otherwise. */
    lemma TakeCells(n: RadixTreeNode, base: multiset<Prefix>, taken: set<Prefix>)
      requires Structure() && Represents() && n in nodes && n != root && n.parent != null
      requires LocksOnNodes(base) && taken !! CellsOf(n)
      ensures |Unlocked(view, base) - taken - CellsOf(n)| * pageSize
           == |Unlocked(view, base) - taken| * pageSize - (if LockCount(base, n.prefix) == 0 then |n.key| else 0)
    {
      CellsOfCount(n);
      CellsLockedAlike(n, base);
      TakeUnlocked(view, base, taken, CellsOf(n), n.prefix, pageSize);
    }

    lemma CellsLockedAlike(n: RadixTreeNode, base: multiset<Prefix>)
      requires Structure() && n in nodes && n != root && n.parent != null && LocksOnNodes(base)
      ensures forall p :: p in CellsOf(n) ==> (Locked(base, p) <==> Locked(base, n.prefix))
    {
      forall p | p in CellsOf(n) ensures Locked(base, p) <==> Locked(base, n.prefix) {
        CellsLockedTogether(n, base, p);
      }
    }

    lemma StepUp(n: RadixTreeNode, h: RadixTreeNode)
      requires Structure() && n in nodes && h in nodes && n != root && n.prefix <= h.prefix
      ensures LinkedUp(n) && n.parent.prefix <= h.prefix && |n.parent.prefix| < |n.prefix|
      ensures CellsOf(n) + Cells(|n.prefix|, h.prefix, pageSize) == Cells(|n.parent.prefix|, h.prefix, pageSize)
      ensures CellsOf(n) !! Cells(|n.prefix|, h.prefix, pageSize)
      ensures forall m :: m in nodes && m.prefix <= h.prefix && |n.parent.prefix| < |m.prefix| <= |n.prefix| ==> m == n
    {
      assert LinkedUp(n);
      CellsSplit(|n.parent.prefix|, |n.prefix|, h.prefix, pageSize);
      assert h.prefix[..|n.prefix|] == n.prefix;
      forall m | m in nodes && m.prefix <= h.prefix && |n.parent.prefix| < |m.prefix| <= |n.prefix| ensures m == n {
        assert m.prefix == h.prefix[..|m.prefix|] <= n.prefix;
        Between(m, n);
      }
    }

    ghost predicate OnPath(n: RadixTreeNode, h: Prefix, lo: nat, hi: nat)
      reads n`prefix
    {
      n.prefix <= h && lo < |n.prefix| <= hi
    }

    /** Reference counts halfway up the path to `h`: the locks of `base`, and one more for the nodes in `(lo, hi]`. */
    ghost predicate CountedOnPath(base: multiset<Prefix>, h: Prefix, lo: nat, hi: nat)
      reads this`nodes, nodes`refCount, nodes`prefix
    {
      forall n {:trigger n.refCount} :: n in nodes && n != root ==>
        n.refCount == LockCount(base, n.prefix) + (if OnPath(n, h, lo, hi) then 1 else 0)
    }

    ghost function FreeTokens(base: multiset<Prefix>, taken: set<Prefix>): int
      reads this`view
    {
      |Unlocked(view, base) - taken| * pageSize
    }

    /** Everything but the reference counts and the evictable size, which are in transit while a path is walked. */
    ghost predicate Settled()
      reads this`nodes, this`view, this`locks, this`evictableSize, this`protectedSize, nodes`refCount
      reads nodes`parent, nodes`children, nodes`key, nodes`value, nodes`prefix, nodes`slots
    {
      && Structure() && Represents() && LocksOnNodes(locks) && root in nodes && root.refCount == 1
      && evictableSize + protectedSize == |view| * pageSize
    }

    /** Locking the path of `h` has reached `n`: the nodes below `n` are counted, and their pages taken. */
    ghost predicate MidLock(h: RadixTreeNode, n: RadixTreeNode)
      requires pageSize > 0
      reads this, nodes, h`prefix, n`prefix
    {
      && Settled() && h in nodes && n in nodes && n.prefix <= h.prefix
      && CountedOnPath(locks, h.prefix, |n.prefix|, |h.prefix|)
      && evictableSize == FreeTokens(locks, Cells(|n.prefix|, h.prefix, pageSize))
    }

    /** Unlocking the path of `h` has reached `n`: the nodes from `n` up are still counted. */
    ghost predicate MidUnlock(h: RadixTreeNode, n: RadixTreeNode)
      requires pageSize > 0
      reads this, nodes, h`prefix, n`prefix
    {
      && Settled() && h in nodes && n in nodes && n.prefix <= h.prefix
      && CountedOnPath(locks, h.prefix, 0, |n.prefix|)
      && evictableSize == FreeTokens(locks, Cells(0, n.prefix, pageSize))
    }

    lemma StartOfPath(h: RadixTreeNode)
      requires Valid() && h in nodes
      ensures MidLock(h, h)
    {
      assert Cells(|h.prefix|, h.prefix, pageSize) == {};
      assert Unlocked(view, locks) - {} == Unlocked(view, locks);
    }

    lemma EndOfPath(h: RadixTreeNode, n: RadixTreeNode)
      requires pageSize > 0 && MidUnlock(h, n) && n.parent == null
      ensures Valid()
    {
      OnlyRoot(n);
      assert Cells(0, [], pageSize) == {};
      assert Unlocked(view, locks) - {} == Unlocked(view, locks);
    }

    lemma LockStep(n: RadixTreeNode, h: RadixTreeNode)
      requires Structure() && Represents() && LocksOnNodes(locks)
      requires n in nodes && h in nodes && n != root && n.prefix <= h.prefix
      requires CountedOnPath(locks, h.prefix, |n.prefix|, |h.prefix|)
      ensures n.parent != null && n.parent in nodes
      ensures n.parent.prefix <= h.prefix && |n.parent.prefix| < |n.prefix|
      ensures FreeTokens(locks, Cells(|n.parent.prefix|, h.prefix, pageSize))
           == FreeTokens(locks, Cells(|n.prefix|, h.prefix, pageSize)) - (if n.refCount == 0 then |n.key| else 0)
      ensures forall m :: m in nodes ==>
        (OnPath(m, h.prefix, |n.parent.prefix|, |h.prefix|) <==> m == n || OnPath(m, h.prefix, |n.prefix|, |h.prefix|))
    {
      StepUp(n, h);
      TakeCells(n, locks, Cells(|n.prefix|, h.prefix, pageSize));
      assert Unlocked(view, locks) - Cells(|n.prefix|, h.prefix, pageSize) - CellsOf(n)
          == Unlocked(view, locks) - Cells(|n.parent.prefix|, h.prefix, pageSize);
    }

    lemma UnlockStep(n: RadixTreeNode, h: RadixTreeNode)
      requires Structure() && Represents() && LocksOnNodes(locks)
      requires n in nodes && h in nodes && n != root && n.prefix <= h.prefix
      requires CountedOnPath(locks, h.prefix, 0, |n.prefix|)
      ensures n.parent != null && n.parent in nodes && n.refCount >= 1
      ensures n.parent.prefix <= h.prefix && |n.parent.prefix| < |n.prefix|
      ensures FreeTokens(locks, Cells(0, n.parent.prefix, pageSize))
           == FreeTokens(locks, Cells(0, n.prefix, pageSize)) + (if n.refCount == 1 then |n.key| else 0)
      ensures forall m :: m in nodes ==>
        (OnPath(m, h.prefix, 0, |n.prefix|) <==> m == n || OnPath(m, h.prefix, 0, |n.parent.prefix|))
    {
      StepUp(n, h);
      CellsSplit(0, |n.parent.prefix|, n.prefix, pageSize);
      assert n.prefix[..|n.parent.prefix|] == n.parent.prefix;
      TakeCells(n, locks, Cells(0, n.parent.prefix, pageSize));
      assert Unlocked(view, locks) - Cells(0, n.parent.prefix, pageSize) - CellsOf(n)
          == Unlocked(view, locks) - Cells(0, n.prefix, pageSize);
    }

    /** One more lock on or below a node; its tokens stop being evictable with the first. */
    method Retain(node: RadixTreeNode, ghost h: RadixTreeNode)
      requires pageSize > 0 && MidLock(h, node) && node.parent != null
      modifies node`refCount, this`evictableSize, this`protectedSize
      ensures node.parent in nodes && |node.parent.prefix| < |node.prefix| && MidLock(h, node.parent)
    {
      hide Structure, Represents, LocksOnNodes, FreeTokens, LockCount, Cells;
      RootFacts();
      LockStep(node, h);
      if node.refCount == 0 {
        evictableSize := evictableSize - |node.key|;
        protectedSize := protectedSize + |node.key|;
      }
      node.refCount := node.refCount + 1;
    }

    /** One lock less on or below a node; its tokens become evictable with the last. */
    method Release(node: RadixTreeNode, ghost h: RadixTreeNode)
      requires pageSize > 0 && MidUnlock(h, node) && node.parent != null
      modifies node`refCount, this`evictableSize, this`protectedSize
      ensures node.parent in nodes && |node.parent.prefix| < |node.prefix| && MidUnlock(h, node.parent)
    {
      hide Structure, Represents, LocksOnNodes, FreeTokens, LockCount, Cells;
      RootFacts();
      UnlockStep(node, h);
      node.refCount := node.refCount - 1;
      assert node.refCount >= 0;
      if node.refCount == 0 {
        evictableSize := evictableSize + |node.key|;
        protectedSize := protectedSize - |node.key|;
      }
    }

    /** Locks, or unlocks, every node on the path of a handle. */
    method LockHandle(handle: RadixCacheHandle, unlock: bool)
      requires Valid() && handle.node in nodes
      requires unlock ==> handle.node.prefix in locks
      modifies this`evictableSize, this`protectedSize, this`locks, nodes`refCount
      ensures Valid()
      ensures locks == if unlock then old(locks) - multiset{handle.node.prefix} else old(locks) + multiset{handle.node.prefix}
      ensures LockedStay()
    {
      hide Structure, Represents, LocksOnNodes, AccountingFor, CountedOnPath, FreeTokens, LockCount, Cells;
      var node := handle.node;
      ghost var h := handle.node;
      RootFacts();
      if unlock {
        UnlockedAccounting(locks - multiset{h.prefix}, h);
        locks := locks - multiset{h.prefix};
        while !node.IsRoot()
          invariant node in nodes && MidUnlock(h, node) && locks == old(locks) - multiset{h.prefix}
          decreases |node.prefix|
        {
          Release(node, h);
          node := node.parent;
        }
        EndOfPath(h, node);
      } else {
        StartOfPath(h);
        while !node.IsRoot()
          invariant node in nodes && MidLock(h, node) && locks == old(locks)
          decreases |node.prefix|
        {
          Retain(node, h);
          node := node.parent;
        }
        LockedAccounting(h, node);
        locks := locks + multiset{h.prefix};
      }
    }

    /** Once the whole path is walked, the accounts are those of one more lock. */
    lemma LockedAccounting(h: RadixTreeNode, n: RadixTreeNode)
      requires pageSize > 0 && MidLock(h, n) && n.parent == null
      ensures root in nodes && Structure() && Represents() && AccountingFor(locks + multiset{h.prefix})
    {
      OnlyRoot(n);
      UnlockedAfterLock(view, locks, h.prefix, pageSize);
      forall m | m in nodes && m != root ensures m.refCount == LockCount(locks + multiset{h.prefix}, m.prefix) {
        assert LinkedUp(m);
        LockCountAdd(locks, h.prefix, m.prefix);
      }
      forall l | l in locks + multiset{h.prefix} ensures Ends(l) {
        assert l == h.prefix || l in locks;
      }
    }

    /** The accounts of a bag of locks are those of one lock less, with one path still to walk. */
    lemma UnlockedAccounting(base: multiset<Prefix>, h: RadixTreeNode)
      requires Valid() && h in nodes && h.prefix in locks && base == locks - multiset{h.prefix}
      ensures LocksOnNodes(base) && CountedOnPath(base, h.prefix, 0, |h.prefix|)
      ensures root.refCount == 1 && evictableSize + protectedSize == |view| * pageSize
      ensures evictableSize == FreeTokens(base, Cells(0, h.prefix, pageSize))
    {
      assert base + multiset{h.prefix} == locks;
      UnlockedAfterLock(view, base, h.prefix, pageSize);
      forall n | n in nodes && n != root
        ensures n.refCount == LockCount(base, n.prefix) + (if OnPath(n, h.prefix, 0, |h.prefix|) then 1 else 0)
      {
        assert LinkedUp(n);
        LockCountAdd(base, h.prefix, n.prefix);
      }
    }

    /** The slots of the tokens from the root to the handle's node. */
    method GetMatchedIndices(handle: RadixCacheHandle) returns (indices: seq<int>)
      requires Valid() && handle.node in nodes && handle.node != root
      ensures indices == handle.node.slots
      ensures handle.node.prefix in view && view[handle.node.prefix] == handle.node.slots
    {
      var node := handle.node;
      indices := [];
      while !node.IsRoot()
        invariant node in nodes && node.slots + indices == handle.node.slots
        decreases |node.prefix|
      {
        assert LinkedUp(node);
        indices := node.value + indices;
        node := node.parent;
      }
      OnlyRoot(node);
      assert LinkedUp(handle.node);
      assert handle.node.prefix[..|handle.node.prefix|] == handle.node.prefix;
      assert handle.node.slots[..|handle.node.slots|] == handle.node.slots;
    }

    // ---- walking the tree ----

    /** Every lock below the first pages of a node's run is below the whole run. */
    lemma SplitLocks(n: RadixTreeNode, up: Prefix)
      requires Structure() && LocksOnNodes(locks) && n in nodes && n != root && n.parent != null
      requires |n.parent.prefix| < |up| && Aligned(|up|, pageSize) && up <= n.prefix
      ensures LockCount(locks, up) == LockCount(locks, n.prefix)
    {
      forall l | l in locks ensures up <= l <==> n.prefix <= l {
        assert Ends(l);
        if up <= l {
          var m :| m in nodes && m.prefix == l;
          CellOwner(n, m, up);
        }
      }
      LockCountSame(locks, up, n.prefix);
    }

    /** What a split changes in the heap. */
    twostate predicate SplitEffect(q: RadixTreeNode, n: RadixTreeNode, new upper: RadixTreeNode, pos: nat)
      reads this`nodes, nodes, n, q, upper
    {
      && pageSize > 0 && q == old(n.parent) && 0 < pos < |old(n.key)| && Aligned(pos, pageSize)
      && upper !in old(nodes) && nodes == old(nodes) + {upper}
      && upper.parent == q && upper.children == map[FirstPage(n.key, pageSize) := n]
      && upper.key == old(n.key)[..pos] && pos <= |old(n.value)| && upper.value == old(n.value)[..pos]
      && upper.prefix == q.prefix + upper.key && upper.slots == q.slots + upper.value
      && upper.refCount == n.refCount
      && n.key == old(n.key)[pos..] && n.value == old(n.value)[pos..] && n.parent == upper
      && q.children == old(q.children)[FirstPage(upper.key, pageSize) := upper]
      && (forall m :: m in old(nodes) ==> m.prefix == old(m.prefix) && m.slots == old(m.slots) && m.refCount == old(m.refCount))
      && (forall m :: m in old(nodes) && m != q ==> m.children == old(m.children))
      && (forall m :: m in old(nodes) && m != n ==> m.parent == old(m.parent) && m.key == old(m.key) && m.value == old(m.value))
    }

    twostate lemma SplitParts(q: RadixTreeNode, new n: RadixTreeNode, new upper: RadixTreeNode, new pos: nat)
      requires old(allocated(n))
      requires old(Structure()) && n in old(nodes) && n != root && SplitEffect(q, n, upper, pos)
      ensures q in nodes && upper !in old(nodes) && FirstPage(upper.key, pageSize) == FirstPage(old(n.key), pageSize)
      ensures n.prefix == upper.prefix + n.key && n.slots == upper.slots + n.value
      ensures Aligned(|n.key|, pageSize) && Aligned(|upper.prefix|, pageSize) && |n.key| == |n.value| && |upper.key| == |upper.value|
      ensures FirstPage(old(n.key), pageSize) in old(q.children) && old(q.children)[FirstPage(old(n.key), pageSize)] == n
    {
      assert old(LinkedUp(n));
      AlignedSum(|old(n.key)|, pos, pageSize);
      AlignedSum(|q.prefix|, pos, pageSize);
      AlignedGap(0, pos, pageSize);
    }

    twostate lemma SplitUp(q: RadixTreeNode, new n: RadixTreeNode, new upper: RadixTreeNode, new pos: nat, new m: RadixTreeNode)
      requires old(allocated(n))
      requires old(Structure()) && n in old(nodes) && n != root && SplitEffect(q, n, upper, pos)
      requires m in nodes && m != root
      ensures LinkedUp(m)
    {
      SplitParts(q, n, upper, pos);
      if m != upper && m != n {
        assert old(LinkedUp(m));
      }
    }

    twostate lemma SplitDown(q: RadixTreeNode, new n: RadixTreeNode, new upper: RadixTreeNode, new pos: nat, new m: RadixTreeNode)
      requires old(allocated(n))
      requires old(Structure()) && n in old(nodes) && n != root && SplitEffect(q, n, upper, pos)
      requires m in nodes
      ensures LinkedDown(m)
    {
      SplitParts(q, n, upper, pos);
      if m != upper {
        assert old(LinkedDown(m));
        forall k | k in m.children
          ensures var c := m.children[k]; c in nodes && c != root && c.parent == m && FirstPage(c.key, pageSize) == k
        {
          if m != q { assert m.children[k] != n; }
        }
      }
    }

    twostate lemma SplitStructure(q: RadixTreeNode, new n: RadixTreeNode, new upper: RadixTreeNode, new pos: nat)
      requires old(allocated(n))
      requires old(Structure()) && n in old(nodes) && n != root && SplitEffect(q, n, upper, pos)
      ensures Structure()
    {
      hide LinkedUp, LinkedDown;
      SplitParts(q, n, upper, pos);
      forall m | m in nodes && m != root ensures LinkedUp(m) {
        SplitUp(q, n, upper, pos, m);
      }
      forall m | m in nodes ensures LinkedDown(m) {
        SplitDown(q, n, upper, pos, m);
      }
    }

    twostate lemma SplitRepresents(q: RadixTreeNode, new n: RadixTreeNode, new upper: RadixTreeNode, new pos: nat)
      requires old(allocated(n))
      requires old(Structure()) && old(Represents()) && view == old(view)
      requires n in old(nodes) && n != root && SplitEffect(q, n, upper, pos)
      ensures Represents()
    {
      assert old(LinkedUp(n));
      assert upper.prefix == n.prefix[..|upper.prefix|] && upper.slots == n.slots[..|upper.prefix|];
      forall k {:trigger upper.prefix[..k]} | 0 < k <= |upper.prefix| && k <= |upper.slots| && Aligned(k, pageSize)
        ensures upper.prefix[..k] in view && view[upper.prefix[..k]] == upper.slots[..k]
      {
        assert upper.prefix[..k] == n.prefix[..k] && upper.slots[..k] == n.slots[..k];
      }
      forall p | p in view ensures Spelled(p) {
        assert old(Spelled(p));
      }
    }

    twostate lemma SplitAccounting(q: RadixTreeNode, new n: RadixTreeNode, new upper: RadixTreeNode, new pos: nat)
      requires old(allocated(n))
      requires old(Valid()) && view == old(view) && locks == old(locks)
      requires evictableSize == old(evictableSize) && protectedSize == old(protectedSize)
      requires n in old(nodes) && n != root && SplitEffect(q, n, upper, pos)
      requires LockCount(locks, upper.prefix) == LockCount(locks, n.prefix)
      ensures AccountingFor(locks)
    {
      forall l | l in locks ensures Ends(l) {
        assert old(Ends(l));
      }
    }

    method SplitNode(n: RadixTreeNode, pos: nat) returns (upper: RadixTreeNode)
      requires Valid() && n in nodes && n != root && 0 < pos < |n.key| && Aligned(pos, pageSize)
      modifies this`nodes, n`key, n`value, n`parent, nodes`children
      ensures fresh(upper) && nodes == old(nodes) + {upper}
      ensures Valid()
      ensures upper.prefix <= n.prefix && |upper.prefix| == |n.prefix| - old(|n.key|) + pos
    {
      hide LockCount;
      assert LinkedUp(n);
      ghost var q := n.parent;
      AlignedSum(|q.prefix|, pos, pageSize);
      SplitLocks(n, q.prefix + n.key[..pos]);
      upper := n.SplitAt(pos, pageSize);
      nodes := nodes + {upper};
      SplitStructure(q, n, upper, pos);
      SplitRepresents(q, n, upper, pos);
      SplitAccounting(q, n, upper, pos);
    }

    /** Without a child for the next page, nothing longer is stored. */
    lemma StopMissing(n: RadixTreeNode, ids: seq<int>)
      requires Structure() && Represents() && n in nodes && n.prefix <= ids
      requires FirstPage(ids[|n.prefix|..], pageSize) !in n.children
      ensures IsLongest(view, pageSize, ids, |n.prefix|)
    {
      StoredNode(n);
      assert ids[..|n.prefix|] == n.prefix;
      forall k {:trigger ids[..k]} | |n.prefix| < k <= |ids| && Aligned(k, pageSize) ensures ids[..k] !in view {
        if ids[..k] in view { StoredAhead(n, ids, k); }
      }
    }

    /** What is stored beyond a node's prefix goes on through one of its children. */
    lemma StoredAhead(n: RadixTreeNode, ids: seq<int>, k: nat)
      requires Structure() && Represents() && n in nodes && n.prefix <= ids
      requires |n.prefix| < k <= |ids| && Aligned(k, pageSize) && ids[..k] in view
      ensures FirstPage(ids[|n.prefix|..], pageSize) in n.children
    {
      assert Spelled(ids[..k]);
      var m :| m in nodes && ids[..k] <= m.prefix;
      assert n.prefix == ids[..k][..|n.prefix|];
      ChildToward(n, m);
      AlignedGap(|n.prefix|, k, pageSize);
      assert m.prefix[..k] == ids[..k];
      assert m.prefix[|n.prefix|..][..pageSize] == m.prefix[..k][|n.prefix|..|n.prefix| + pageSize];
      assert FirstPage(ids[|n.prefix|..], pageSize) == ids[..k][|n.prefix|..|n.prefix| + pageSize];
    }

    /** What is stored along the input, through a child, agrees with that child's run as far as both go. */
    lemma AgreesAhead(c: RadixTreeNode, ids: seq<int>, n: nat, k: nat) returns (j: nat)
      requires Structure() && Represents() && c in nodes && c != root && c.parent != null && c.parent.prefix <= ids
      requires |c.parent.prefix| < n <= k <= |ids| && Aligned(n, pageSize) && Aligned(k, pageSize) && n <= |c.prefix|
      requires ids[..n] == c.prefix[..n] && ids[..k] in view
      ensures j == (if k - |c.parent.prefix| <= |c.key| then k - |c.parent.prefix| else |c.key|)
      ensures Aligned(j, pageSize) && j <= CompareKey(c.key, ids[|c.parent.prefix|..])
    {
      assert LinkedUp(c);
      var q := c.parent;
      var rest := ids[|q.prefix|..];
      assert Spelled(ids[..k]);
      var m :| m in nodes && ids[..k] <= m.prefix;
      assert ids[..n] == ids[..k][..n];
      CellOwner(c, m, ids[..n]);
      AlignedSum(k, |q.prefix|, pageSize);
      j := if k - |q.prefix| <= |c.key| then k - |q.prefix| else |c.key|;
      forall i | 0 <= i < j ensures c.key[i] == rest[i] {
        assert c.key[i] == c.prefix[|q.prefix| + i] == m.prefix[|q.prefix| + i] == ids[..k][|q.prefix| + i];
      }
      assert c.key[..j] == rest[..j];
      Agrees(c.key, rest, j);
    }

    /** A run that agrees with the input on fewer pages than it has ends the match. */
    lemma StopPartial(c: RadixTreeNode, ids: seq<int>, len: nat)
      requires Structure() && Represents() && c in nodes && c != root && c.parent != null
      requires c.parent.prefix <= ids
      requires var rest := ids[|c.parent.prefix|..];
        len == AlignDown(CompareKey(c.key, rest), pageSize) && pageSize <= len < |c.key| && len <= |rest| && c.key[..len] == rest[..len]
      ensures IsLongest(view, pageSize, ids, |c.parent.prefix| + len)
    {
      assert LinkedUp(c);
      var q := c.parent;
      var n := |q.prefix| + len;
      AlignDownGreatest(CompareKey(c.key, ids[|q.prefix|..]), pageSize);
      AlignedSum(|q.prefix|, len, pageSize);
      assert ids[..n] == c.prefix[..n] by {
        assert ids[..n] == q.prefix + ids[|q.prefix|..][..len];
        assert c.prefix[..n] == q.prefix + c.key[..len];
      }
      forall k {:trigger ids[..k]} | n < k <= |ids| && Aligned(k, pageSize) ensures ids[..k] !in view {
        if ids[..k] in view { var j := AgreesAhead(c, ids, n, k); }
      }
    }

    /** The whole prefix of a node below the root is stored. */
    lemma StoredNode(n: RadixTreeNode)
      requires Structure() && Represents() && n in nodes
      ensures n.prefix == [] || (n.prefix in view && view[n.prefix] == n.slots)
      ensures n != root ==> n.prefix != []
    {
      assert n.prefix == n.prefix[..|n.prefix|] && n.slots == n.slots[..|n.prefix|];
      if n != root { assert LinkedUp(n); }
    }

    /** A child found for the next page agrees with the input on at least that page. */
    lemma ChildMatches(n: RadixTreeNode, c: RadixTreeNode, ids: seq<int>)
      requires Structure() && n in nodes && n.prefix <= ids && |n.prefix| < |ids|
      requires FirstPage(ids[|n.prefix|..], pageSize) in n.children
      requires c == n.children[FirstPage(ids[|n.prefix|..], pageSize)]
      ensures c in nodes && c != root && c.parent == n && c.prefix == n.prefix + c.key && |c.key| <= |c.prefix|
      ensures Aligned(|c.key|, pageSize)
      ensures pageSize <= CompareKey(c.key, ids[|n.prefix|..])
    {
      assert LinkedDown(n);
      assert LinkedUp(c);
      AlignedGap(0, |c.key|, pageSize);
      var rest := ids[|n.prefix|..];
      assert |FirstPage(c.key, pageSize)| == pageSize;
      assert c.key[..pageSize] == rest[..pageSize];
      Agrees(c.key, rest, pageSize);
    }

    /** How far the run of a child that has been found agrees with the input, in whole pages. */
    lemma NextRun(n: RadixTreeNode, c: RadixTreeNode, ids: seq<int>)
      requires Structure() && n in nodes && n.prefix <= ids && |n.prefix| < |ids|
      requires FirstPage(ids[|n.prefix|..], pageSize) in n.children
      requires c == n.children[FirstPage(ids[|n.prefix|..], pageSize)]
      ensures c in nodes && c != root && c.parent == n && pageSize > 0
      ensures var rest, len := ids[|n.prefix|..], AlignDown(CompareKey(c.key, ids[|n.prefix|..]), pageSize);
        && pageSize <= len <= |c.key| && len <= |rest| && c.key[..len] == rest[..len] && Aligned(len, pageSize)
        && |c.prefix| == |n.prefix| + |c.key| && c.prefix[..|n.prefix| + len] == ids[..|n.prefix| + len]
    {
      hide Structure;
      ChildMatches(n, c, ids);
      RootFacts();
      var rest := ids[|n.prefix|..];
      var len := AlignDown(CompareKey(c.key, rest), pageSize);
      AlignDownGreatest(CompareKey(c.key, rest), pageSize);
      MultipleAligned(1, pageSize);
      assert c.key[..len] == rest[..len];
      assert ids[..|n.prefix| + len] == n.prefix + rest[..len];
    }

    // ---- when nodes were last used ----

    ghost function Stamps(): map<RadixTreeNode, int>
      reads this`nodes, nodes`timestamp
    {
      map n | n in nodes :: n.timestamp
    }

    /** Of the given nodes, those on the way to `upTo` were used at `tic`, and no other has been touched. */
    ghost predicate Stamped(among: set<RadixTreeNode>, before: map<RadixTreeNode, int>, upTo: Prefix, tic: int)
      reads among`prefix, among`timestamp
    {
      forall n :: n in among ==>
        if n != root && n.prefix <= upTo then n.timestamp == tic else n in before && n.timestamp == before[n]
    }

    /** The nodes on the way into a node's run are those on the way to its parent, and at its end the node. */
    ghost predicate OnTheWay(c: RadixTreeNode, k: nat)
      reads this`nodes, nodes`prefix, c`prefix, c`parent, c.parent
    {
      && c.parent != null && k <= |c.prefix|
      && forall m :: m in nodes ==>
        (m.prefix <= c.prefix[..k] <==> m.prefix <= c.parent.prefix || (m == c && k == |c.prefix|))
    }

    lemma WayInto(c: RadixTreeNode, k: nat)
      requires Structure() && c in nodes && c != root && c.parent != null && |c.parent.prefix| < k <= |c.prefix|
      ensures OnTheWay(c, k)
    {
      assert LinkedUp(c);
      forall m | m in nodes
        ensures m.prefix <= c.prefix[..k] <==> m.prefix <= c.parent.prefix || (m == c && k == |c.prefix|)
      {
        if m.prefix <= c.prefix[..k] {
          assert c.prefix[..k] <= c.prefix;
          Between(m, c);
        }
        assert c.parent.prefix <= c.prefix[..k];
      }
    }

    twostate lemma StampedThrough(c: RadixTreeNode, new before: map<RadixTreeNode, int>, new tic: int)
      requires old(allocated(before))
      requires c in nodes && nodes == old(nodes) && c != root && old(OnTheWay(c, |c.prefix|)) && c.prefix == old(c.prefix)
      requires c.timestamp == tic && forall m :: m in nodes ==> m.prefix == old(m.prefix) && (m != c ==> m.timestamp == old(m.timestamp))
      requires old(Stamped(nodes, before, c.parent.prefix, tic))
      ensures Stamped(nodes, before, c.prefix, tic)
    {
      assert old(c.prefix)[..|c.prefix|] == c.prefix;
    }

    twostate lemma StampedInto(c: RadixTreeNode, new upper: RadixTreeNode, new k: nat, new before: map<RadixTreeNode, int>,
                               new tic: int)
      requires old(allocated(before))
      requires c in old(nodes) && nodes == old(nodes) + {upper} && upper !in old(nodes) && upper != root
      requires k < |old(c.prefix)| && old(OnTheWay(c, k)) && upper.prefix == old(c.prefix)[..k]
      requires upper.timestamp == tic && forall m :: m in old(nodes) ==> m.prefix == old(m.prefix) && m.timestamp == old(m.timestamp)
      requires old(Stamped(nodes, before, c.parent.prefix, tic))
      ensures Stamped(nodes, before, upper.prefix, tic)
    {
    }

    /** Cuts a run where the input leaves it; only the part in front counts as used. */
    method CutRun(c: RadixTreeNode, pos: nat, tic: int, ghost k: nat, ghost before: map<RadixTreeNode, int>)
      returns (upper: RadixTreeNode)
      requires Valid() && c in nodes && c != root && 0 < pos < |c.key| && Aligned(pos, pageSize)
      requires k == |c.prefix| - |c.key| + pos && OnTheWay(c, k) && Stamped(nodes, before, c.parent.prefix, tic)
      modifies this`nodes, c`key, c`value, c`parent, nodes`children
      ensures fresh(upper) && nodes == old(nodes) + {upper} && Valid()
      ensures k < |c.prefix| && upper.prefix == c.prefix[..k] && Stamped(nodes, before, upper.prefix, tic)
    {
      hide RadixPrefixCache.Valid, Stamped, OnTheWay;
      upper := SplitNode(c, pos);
      upper.timestamp := tic;
      StampedInto(c, upper, k, before, tic);
    }

    /** A node all of whose run the input follows counts as used. */
    method Touch(c: RadixTreeNode, tic: int, ghost before: map<RadixTreeNode, int>)
      requires Valid() && c in nodes && c != root && OnTheWay(c, |c.prefix|) && Stamped(nodes, before, c.parent.prefix, tic)
      modifies c`timestamp
      ensures Valid() && Stamped(nodes, before, c.prefix, tic)
    {
      hide Structure, Represents, AccountingFor, Stamped, OnTheWay;
      c.timestamp := tic;
      StampedThrough(c, before, tic);
    }

    /** Walks as far as the tokens are stored, cutting the last node at a page boundary when it is only half matched. */
    method TreeWalk(ids: seq<int>, tic: int) returns (node: RadixTreeNode, prefixLen: nat)
      requires Valid()
      modifies this`nodes, nodes`key, nodes`value, nodes`parent, nodes`children, nodes`timestamp
      ensures Valid() && old(nodes) <= nodes && fresh(nodes - old(nodes))
      ensures node in nodes && prefixLen <= |ids| && node.prefix == ids[..prefixLen]
      ensures IsLongest(view, pageSize, ids, prefixLen)
      ensures Stamped(nodes, old(Stamps()), ids[..prefixLen], tic)
    {
      hide LockCount, Structure, Represents, AccountingFor, IsLongest, LinkedUp, LinkedDown, Stamped, OnTheWay;
      hide FirstPage, CompareKey, AlignDown, Stamps;
      RootFacts();
      prefixLen := 0;
      node := root;
      ghost var before := Stamps();
      StampedAtRoot(tic);
      while prefixLen < |ids|
        invariant Valid() && nodes == old(nodes) && node in nodes
        invariant prefixLen == |node.prefix| <= |ids| && node.prefix == ids[..prefixLen]
        invariant Stamped(nodes, before, node.prefix, tic)
        decreases |ids| - prefixLen
      {
        var rest := ids[prefixLen..];
        if FirstPage(rest, pageSize) !in node.children {
          StopMissing(node, ids);
          return;
        }
        NextRun(node, node.children[FirstPage(rest, pageSize)], ids);
        node := node.children[FirstPage(rest, pageSize)];
        var matchLen := AlignDown(CompareKey(node.key, rest), pageSize);
        prefixLen := prefixLen + matchLen;
        WayInto(node, prefixLen);
        if matchLen != |node.key| {
          StopPartial(node, ids, matchLen);
          node := CutRun(node, matchLen, tic, prefixLen, before);
          return;
        }
        Touch(node, tic, before);
      }
      WholeMatch(node, ids);
    }

    lemma StampedAtRoot(tic: int)
      requires Structure()
      ensures Stamped(nodes, Stamps(), [], tic)
    {
      forall n | n in nodes && n != root ensures n.prefix != [] {
        assert LinkedUp(n);
      }
    }

    lemma WholeMatch(n: RadixTreeNode, ids: seq<int>)
      requires Structure() && Represents() && n in nodes && n.prefix == ids
      ensures IsLongest(view, pageSize, ids, |ids|)
    {
      StoredNode(n);
      assert ids[..|ids|] == ids;
    }

    // ---- the operations ----

    method MatchPrefix(ids: seq<int>, tic: int) returns (handle: RadixCacheHandle)
      requires Valid()
      modifies this`nodes, nodes`key, nodes`value, nodes`parent, nodes`children, nodes`timestamp
      ensures Valid() && old(nodes) <= nodes && fresh(nodes - old(nodes)) && LockedStay()
      ensures handle.node in nodes && handle.cachedLen <= |ids| && handle.node.prefix == ids[..handle.cachedLen]
      ensures IsLongest(view, pageSize, ids, handle.cachedLen)
      ensures Stamped(nodes, old(Stamps()), ids[..handle.cachedLen], tic)
    {
      hide Stamped, Stamps;
      var node, prefixLen := TreeWalk(ids, tic);
      handle := RadixCacheHandle(prefixLen, node);
    }

    twostate predicate LeafEffect(q: RadixTreeNode, new leaf: RadixTreeNode, ids: seq<int>, indices: seq<int>)
      reads this`nodes, nodes, q, leaf
    {
      && pageSize > 0 && q in old(nodes) && |ids| == |indices| && q.prefix <= ids && |q.prefix| < |ids| && Aligned(|ids|, pageSize)
      && leaf !in old(nodes) && nodes == old(nodes) + {leaf}
      && leaf.parent == q && leaf.children == map[] && leaf.refCount == 0
      && leaf.key == ids[|q.prefix|..] && leaf.value == indices[|q.prefix|..]
      && leaf.prefix == q.prefix + leaf.key && leaf.slots == q.slots + leaf.value
      && q.children == old(q.children)[FirstPage(leaf.key, pageSize) := leaf]
      && (forall m :: m in old(nodes) ==>
            && m.prefix == old(m.prefix) && m.slots == old(m.slots) && m.refCount == old(m.refCount)
            && m.parent == old(m.parent) && m.key == old(m.key) && m.value == old(m.value))
      && (forall m :: m in old(nodes) && m != q ==> m.children == old(m.children))
    }

    /** No child holds the first page of a run that extends the longest match. */
    lemma NoChildAhead(q: RadixTreeNode, ids: seq<int>)
      requires Structure() && Represents() && q in nodes && q.prefix <= ids && |q.prefix| < |ids| && Aligned(|ids|, pageSize)
      requires IsLongest(view, pageSize, ids, |q.prefix|)
      ensures FirstPage(ids[|q.prefix|..], pageSize) !in q.children
    {
      if FirstPage(ids[|q.prefix|..], pageSize) in q.children { PageAhead(q, ids); }
    }

    /** The next page is stored when a child holds it. */
    lemma PageAhead(q: RadixTreeNode, ids: seq<int>)
      requires Structure() && Represents() && q in nodes && q.prefix <= ids && |q.prefix| < |ids| && Aligned(|ids|, pageSize)
      requires FirstPage(ids[|q.prefix|..], pageSize) in q.children
      ensures |q.prefix| + pageSize <= |ids| && Aligned(|q.prefix| + pageSize, pageSize) && ids[..|q.prefix| + pageSize] in view
    {
      var c := q.children[FirstPage(ids[|q.prefix|..], pageSize)];
      ChildMatches(q, c, ids);
      var k := |q.prefix| + pageSize;
      MultipleAligned(1, pageSize);
      AlignedSum(|q.prefix|, pageSize, pageSize);
      assert c.key[..pageSize] == ids[|q.prefix|..][..pageSize];
      assert c.prefix[..k] == q.prefix + c.key[..pageSize];
      assert ids[..k] == q.prefix + ids[|q.prefix|..][..pageSize];
      assert c.prefix[..k] == ids[..k];
      assert |c.slots| == |c.prefix|;
    }

    twostate lemma LeafUp(q: RadixTreeNode, new leaf: RadixTreeNode, new ids: seq<int>, new indices: seq<int>, new m: RadixTreeNode)
      requires old(Structure()) && LeafEffect(q, leaf, ids, indices)
      requires FirstPage(leaf.key, pageSize) !in old(q.children)
      requires m in nodes && m != root
      ensures LinkedUp(m)
    {
      if m == leaf {
        AlignedSum(|ids|, |q.prefix|, pageSize);
      } else {
        assert old(LinkedUp(m));
      }
    }

    twostate lemma LeafDown(q: RadixTreeNode, new leaf: RadixTreeNode, new ids: seq<int>, new indices: seq<int>,
                            new m: RadixTreeNode)
      requires old(Structure()) && LeafEffect(q, leaf, ids, indices)
      requires m in nodes
      ensures LinkedDown(m)
    {
      if m != leaf { assert old(LinkedDown(m)); }
    }

    twostate lemma LeafStructure(q: RadixTreeNode, new leaf: RadixTreeNode, new ids: seq<int>, new indices: seq<int>)
      requires old(Structure()) && LeafEffect(q, leaf, ids, indices)
      requires FirstPage(leaf.key, pageSize) !in old(q.children)
      ensures Structure()
    {
      hide LinkedUp, LinkedDown;
      assert leaf.prefix == ids;
      forall m | m in nodes && m != root ensures LinkedUp(m) {
        LeafUp(q, leaf, ids, indices, m);
      }
      forall m | m in nodes ensures LinkedDown(m) {
        LeafDown(q, leaf, ids, indices, m);
      }
    }

    twostate lemma LeafCell(q: RadixTreeNode, new leaf: RadixTreeNode, new ids: seq<int>, new indices: seq<int>, new k: nat)
      requires LeafEffect(q, leaf, ids, indices) && old(ValidView(view, pageSize)) && q.slots == old(q.slots)
      requires IsLongest(old(view), pageSize, ids, |q.prefix|)
      requires |q.prefix| == |q.slots| && (q.prefix == [] || (q.prefix in old(view) && old(view)[q.prefix] == q.slots))
      requires view == Inserted(old(view), pageSize, ids, indices, |q.prefix|)
      requires 0 < k <= |ids| && Aligned(k, pageSize)
      ensures |leaf.slots| == |ids|
      ensures ids[..k] in view && view[ids[..k]] == leaf.slots[..k]
    {
      hide ValidView, IsLongest, Inserted, Aligned;
      var base := |q.prefix|;
      assert ids[..base] == q.prefix;
      InsertedAt(old(view), pageSize, ids, indices, base, k);
      assert leaf.slots[..k] == if k <= base then q.slots[..k] else q.slots + indices[base..k];
    }

    /** A new leaf spells out what has been stored with it. */
    twostate lemma LeafSpells(q: RadixTreeNode, new leaf: RadixTreeNode, new ids: seq<int>, new indices: seq<int>, new p: Prefix)
      requires old(Represents()) && LeafEffect(q, leaf, ids, indices) && p in view
      requires q.prefix == ids[..|q.prefix|] && (q.prefix == [] || q.prefix in old(view))
      requires view == Inserted(old(view), pageSize, ids, indices, |q.prefix|)
      ensures 0 < |p| && Aligned(|p|, pageSize) && Spelled(p)
    {
      assert leaf.prefix == ids && ids[..|q.prefix|] == q.prefix;
      if p in old(view) {
        assert old(Spelled(p));
      } else {
        assert p <= leaf.prefix;
      }
    }

    twostate lemma LeafRepresents(q: RadixTreeNode, new leaf: RadixTreeNode, new ids: seq<int>, new indices: seq<int>)
      requires old(Structure()) && old(Represents()) && LeafEffect(q, leaf, ids, indices) && old(ValidView(view, pageSize))
      requires IsLongest(old(view), pageSize, ids, |q.prefix|)
      requires q.prefix == [] || (q.prefix in old(view) && old(view)[q.prefix] == q.slots)
      requires view == Inserted(old(view), pageSize, ids, indices, |q.prefix|)
      ensures Represents()
    {
      hide IsLongest, Inserted, ValidView;
      assert leaf.prefix == ids && ids[..|q.prefix|] == q.prefix && |q.prefix| == |q.slots|;
      forall n, k {:trigger n.prefix[..k]} | n in nodes && 0 < k <= |n.prefix| && k <= |n.slots| && Aligned(k, pageSize)
        ensures n.prefix[..k] in view && view[n.prefix[..k]] == n.slots[..k]
      {
        if n == leaf {
          LeafCell(q, leaf, ids, indices, k);
        } else {
          assert old(n.prefix)[..k] in old(view);
          KeptByInsert(old(view), pageSize, ids, indices, |q.prefix|, n.prefix[..k]);
        }
      }
      forall p | p in view ensures 0 < |p| && Aligned(|p|, pageSize) && Spelled(p) {
        LeafSpells(q, leaf, ids, indices, p);
      }
    }

    /** What is locked is stored. */
    lemma LockedStored(p: Prefix)
      requires Structure() && Represents() && LocksOnNodes(locks)
      ensures Locked(locks, p) && 0 < |p| && Aligned(|p|, pageSize) ==> p in view
    {
      if Locked(locks, p) && 0 < |p| && Aligned(|p|, pageSize) {
        var l :| l in locks && p <= l;
        assert Ends(l);
        var m :| m in nodes && m.prefix == l;
        assert |m.slots| == |m.prefix|;
        assert p == m.prefix[..|p|];
      }
    }

    /** A run that is not stored is not locked. */
    lemma NotLocked(ids: seq<int>, base: nat)
      requires Structure() && Represents() && LocksOnNodes(locks)
      requires Aligned(|ids|, pageSize) && base < |ids| && IsLongest(view, pageSize, ids, base)
      ensures forall p :: p in Cells(base, ids, pageSize) ==> !Locked(locks, p) && p !in view
      ensures LockCount(locks, ids) == 0
    {
      forall p | p in Cells(base, ids, pageSize) ensures !Locked(locks, p) && p !in view {
        LockedStored(p);
      }
      assert ids[..|ids|] == ids && ids in Cells(base, ids, pageSize);
      LockCountZero(locks, ids);
    }

    twostate lemma LeafAccounting(q: RadixTreeNode, new leaf: RadixTreeNode, new ids: seq<int>, new indices: seq<int>)
      requires old(AccountingFor(locks)) && LeafEffect(q, leaf, ids, indices) && locks == old(locks)
      requires LockCount(locks, ids) == 0
      requires |Unlocked(view, locks)| * pageSize == |Unlocked(old(view), locks)| * pageSize + |leaf.key|
      requires |view| * pageSize == |old(view)| * pageSize + |leaf.key|
      requires evictableSize == old(evictableSize) + |leaf.key| && protectedSize == old(protectedSize)
      ensures AccountingFor(locks)
    {
      hide LockCount;
      assert leaf.prefix == ids;
      forall l | l in locks ensures Ends(l) {
        assert old(Ends(l));
      }
    }

    /** Stores the page-aligned part of `ids`; the pages already stored keep their old slots. */
    method InsertPrefix(ids: seq<int>, indices: seq<int>, tic: int, now: int) returns (cachedLen: nat, handle: RadixCacheHandle)
      requires Valid() && |ids| <= |indices|
      modifies this`nodes, this`view, this`evictableSize
      modifies nodes`key, nodes`value, nodes`parent, nodes`children, nodes`timestamp
      ensures Valid() && old(nodes) <= nodes && fresh(nodes - old(nodes)) && LockedStay()
      ensures var n := AlignDown(|ids|, pageSize);
        && n <= |ids| && handle.cachedLen == n && handle.node in nodes && handle.node.prefix == ids[..n]
        && IsLongest(old(view), pageSize, ids[..n], cachedLen)
        && view == Inserted(old(view), pageSize, ids[..n], indices[..n], cachedLen)
        && (cachedLen < n ==> fresh(handle.node) && handle.node.timestamp == now)
        && Stamped(if cachedLen < n then nodes - {handle.node} else nodes, old(Stamps()), ids[..cachedLen], tic)
    {
      hide LockCount, Structure, Represents, AccountingFor, IsLongest, Inserted, Stamped, Stamps;
      RootFacts();
      var insertLen := AlignDown(|ids|, pageSize);
      AlignDownGreatest(|ids|, pageSize);
      var key, value := ids[..insertLen], indices[..insertLen];
      var node, prefixLen := TreeWalk(key, tic);
      cachedLen := prefixLen;
      LongestStored(view, pageSize, key, prefixLen);
      if prefixLen != insertLen {
        ghost var walked := nodes;
        node := AddLeaf(node, prefixLen, key, value, now);
        assert nodes - {node} == walked;
        assert key[..prefixLen] == ids[..prefixLen];
      } else {
        StoredNode(node);
        assert node.prefix == key;
        NothingInserted(view, pageSize, key, value);
      }
      handle := RadixCacheHandle(insertLen, node);
    }

    /** What must be known before a run is hung below the longest match. */
    lemma BeforeLeaf(q: RadixTreeNode, ids: seq<int>, indices: seq<int>)
      requires Valid() && q in nodes && |ids| == |indices| && q.prefix <= ids && |q.prefix| < |ids| && Aligned(|ids|, pageSize)
      requires IsLongest(view, pageSize, ids, |q.prefix|)
      ensures FirstPage(ids[|q.prefix|..], pageSize) !in q.children
      ensures q.prefix == [] || (q.prefix in view && view[q.prefix] == q.slots)
      ensures LockCount(locks, ids) == 0
      ensures var after := Inserted(view, pageSize, ids, indices, |q.prefix|);
        && |Unlocked(after, locks)| * pageSize == |Unlocked(view, locks)| * pageSize + |ids| - |q.prefix|
        && |after| * pageSize == |view| * pageSize + |ids| - |q.prefix|
    {
      hide LockCount, Structure, Represents, Inserted, Unlocked, Cells;
      RootFacts();
      NoChildAhead(q, ids);
      StoredNode(q);
      NotLocked(ids, |q.prefix|);
      InsertCounts(view, pageSize, ids, indices, |q.prefix|, locks);
    }

    method AddLeaf(q: RadixTreeNode, base: nat, ids: seq<int>, indices: seq<int>, now: int) returns (leaf: RadixTreeNode)
      requires Valid() && q in nodes && |ids| == |indices| && q.prefix <= ids && |q.prefix| < |ids| && Aligned(|ids|, pageSize)
      requires base == |q.prefix| && IsLongest(view, pageSize, ids, base)
      requires base == 0 || ids[..base] in view
      modifies this`nodes, this`view, this`evictableSize, nodes`children
      ensures fresh(leaf) && nodes == old(nodes) + {leaf} && leaf.prefix == ids && leaf.timestamp == now
      ensures Valid() && view == Inserted(old(view), pageSize, ids, indices, |q.prefix|)
    {
      hide LockCount, Structure, Represents, AccountingFor, IsLongest, Inserted, Unlocked, Cells, ValidView;
      RootFacts();
      ViewIsValid();
      BeforeLeaf(q, ids, indices);
      leaf := q.Graft(ids[base..], indices[base..], pageSize, now);
      nodes := nodes + {leaf};
      evictableSize := evictableSize + |leaf.key|;
      view := Inserted(view, pageSize, ids, indices, base);
      LeafStructure(q, leaf, ids, indices);
      LeafRepresents(q, leaf, ids, indices);
      LeafAccounting(q, leaf, ids, indices);
    }

    // ---- eviction ----

    ghost predicate UnlockedLeaf(s: set<RadixTreeNode>, v: RadixTreeNode)
      reads s`parent, v`refCount
    {
      v in s && v != root && v.refCount == 0 && forall x :: x in s ==> x.parent != v
    }

    /** `v` is a least recently used node among the unlocked leaves of `s`. */
    ghost predicate LeastRecent(s: set<RadixTreeNode>, v: RadixTreeNode)
      reads s`parent, s`refCount, s`timestamp, v`refCount, v`timestamp
    {
      UnlockedLeaf(s, v) && forall m :: m in s && UnlockedLeaf(s, m) ==> v.timestamp <= m.timestamp
    }

    lemma ChildlessIsLeaf(v: RadixTreeNode)
      requires Structure() && v in nodes
      ensures v.children == map[] <==> forall x :: x in nodes ==> x.parent != v
    {
      assert LinkedDown(v);
      if v.children != map[] {
        var k :| k in v.children.Keys;
        assert v.children[k].parent == v;
      } else {
        forall x | x in nodes ensures x.parent != v {
          if x != root { assert LinkedUp(x); }
        }
      }
    }

    /** What the eviction heap holds between two steps. */
    ghost function UnlockedLeaves(): set<RadixTreeNode>
      reads this`nodes, nodes`parent, nodes`refCount
    {
      set v | v in nodes && UnlockedLeaf(nodes, v)
    }

    lemma Deepest(s: set<RadixTreeNode>) returns (d: RadixTreeNode)
      requires s != {}
      ensures d in s && forall m :: m in s ==> |m.prefix| <= |d.prefix|
    {
      d :| d in s;
      if s != {d} {
        var e := Deepest(s - {d});
        if |e.prefix| > |d.prefix| { d := e; }
      }
    }

    lemma ParentShorter(x: RadixTreeNode)
      requires Structure() && x in nodes && x != root
      ensures x.parent != null && x.parent.prefix <= x.prefix && |x.parent.prefix| < |x.prefix|
    {
      assert LinkedUp(x);
    }

    /** As long as an unlocked page is stored, some leaf is unlocked. */
    lemma SomeUnlockedLeaf() returns (v: RadixTreeNode)
      requires Valid() && evictableSize > 0
      ensures v in nodes && UnlockedLeaf(nodes, v)
    {
      assert Unlocked(view, locks) != {};
      var p :| p in Unlocked(view, locks);
      assert Spelled(p);
      var below := set n | n in nodes && p <= n.prefix;
      var n0 :| n0 in nodes && p <= n0.prefix;
      assert n0 in below;
      v := Deepest(below);
      forall x | x in nodes ensures x.parent != v {
        if x != root {
          ParentShorter(x);
          Comparable(p, v.prefix, x.prefix);
        }
      }
      LockCountZero(locks, v.prefix);
      LockedShorter(locks, p, v.prefix);
    }

    /** Incomparable nodes still to visit; `done` holds the nodes that are not at or below one of them. */
    ghost predicate Frontier(todo: set<RadixTreeNode>, done: set<RadixTreeNode>)
      reads this`nodes, nodes`prefix, todo`prefix
    {
      && todo <= nodes && done <= nodes
      && (forall a, b :: a in todo && b in todo && a != b ==> !(a.prefix <= b.prefix))
      && (forall v :: v in nodes && v !in done ==> exists a :: a in todo && a.prefix <= v.prefix)
      && (forall v, a :: v in done && a in todo ==> !(a.prefix <= v.prefix))
    }

    lemma ChildFacts(n: RadixTreeNode, c: RadixTreeNode)
      requires Structure() && n in nodes && c in n.children.Values
      ensures c in nodes && c != root && c.parent == n && n.prefix <= c.prefix && |n.prefix| < |c.prefix|
    {
      assert LinkedDown(n);
      assert LinkedUp(c);
    }

    lemma TowardChild(n: RadixTreeNode, v: RadixTreeNode) returns (c: RadixTreeNode)
      requires Structure() && n in nodes && v in nodes && n.prefix <= v.prefix && n != v
      ensures c in n.children.Values && c.prefix <= v.prefix
    {
      ChildToward(n, v);
      c := n.children[v.prefix[|n.prefix|..][..pageSize]];
    }

    /** A child of a node still to visit is not at, above or below another one or another child. */
    lemma ApartAfterStep(todo: set<RadixTreeNode>, n: RadixTreeNode, done: set<RadixTreeNode>, a: RadixTreeNode, b: RadixTreeNode)
      requires Structure() && Frontier(todo, done) && n in todo && n in nodes && a != b
      requires a in todo - {n} || a in n.children.Values
      requires b in todo - {n} || b in n.children.Values
      ensures !(a.prefix <= b.prefix)
    {
      hide Structure, Frontier;
      if b in n.children.Values {
        ChildFacts(n, b);
        if a in n.children.Values {
          ChildFacts(n, a);
          if a.prefix <= b.prefix { SameFirstPage(a, b); }
        } else {
          TodoApart(todo, done, a, n);
          Comparable(a.prefix, n.prefix, b.prefix);
        }
      } else if a in n.children.Values {
        ChildFacts(n, a);
        TodoApart(todo, done, n, b);
        Comparable(n.prefix, a.prefix, b.prefix);
      } else {
        TodoApart(todo, done, a, b);
      }
    }

    lemma TodoApart(todo: set<RadixTreeNode>, done: set<RadixTreeNode>, a: RadixTreeNode, b: RadixTreeNode)
      requires Frontier(todo, done) && a in todo && b in todo && a != b
      ensures a in nodes && b in nodes && !(a.prefix <= b.prefix) && !(b.prefix <= a.prefix)
    {
    }

    lemma DoneApart(todo: set<RadixTreeNode>, n: RadixTreeNode, done: set<RadixTreeNode>, v: RadixTreeNode, a: RadixTreeNode)
      requires Structure() && Frontier(todo, done) && n in todo && v in done + {n}
      requires a in todo - {n} || a in n.children.Values
      ensures !(a.prefix <= v.prefix)
    {
      hide Structure, Frontier;
      FrontierNode(todo, done, n);
      if a in n.children.Values {
        ChildFacts(n, a);
        Comparable(n.prefix, a.prefix, v.prefix);
        if v != n { DoneNotBelow(todo, done, v, n); }
      } else if v == n {
        TodoApart(todo, done, a, n);
      } else {
        DoneNotBelow(todo, done, v, a);
      }
    }

    lemma FrontierNode(todo: set<RadixTreeNode>, done: set<RadixTreeNode>, n: RadixTreeNode)
      requires Frontier(todo, done) && n in todo
      ensures n in nodes && n !in done && todo <= nodes && done <= nodes
    {
    }

    lemma DoneNotBelow(todo: set<RadixTreeNode>, done: set<RadixTreeNode>, v: RadixTreeNode, a: RadixTreeNode)
      requires Frontier(todo, done) && v in done && a in todo
      ensures !(a.prefix <= v.prefix)
    {
    }

    lemma FrontierFrom(todo: set<RadixTreeNode>, done: set<RadixTreeNode>)
      requires todo <= nodes && done <= nodes
      requires forall a, b :: a in todo && b in todo && a != b ==> !(a.prefix <= b.prefix)
      requires forall v :: v in nodes && v !in done ==> exists a :: a in todo && a.prefix <= v.prefix
      requires forall v, a :: v in done && a in todo ==> !(a.prefix <= v.prefix)
      ensures Frontier(todo, done)
    {
    }

    lemma StillCovered(todo: set<RadixTreeNode>, n: RadixTreeNode, done: set<RadixTreeNode>, v: RadixTreeNode)
      returns (a: RadixTreeNode)
      requires Structure() && Frontier(todo, done) && n in todo && v in nodes && v !in done + {n}
      ensures (a in todo - {n} || a in n.children.Values) && a.prefix <= v.prefix
    {
      hide Structure;
      a :| a in todo && a.prefix <= v.prefix;
      if a == n { a := TowardChild(n, v); }
    }

    /** Replacing a node by its children leaves only that node done. */
    lemma FrontierStep(todo: set<RadixTreeNode>, n: RadixTreeNode, done: set<RadixTreeNode>)
      requires Structure() && Frontier(todo, done) && n in todo
      ensures n in nodes && n !in done && Frontier(todo - {n} + n.children.Values, done + {n})
    {
      hide Structure, Frontier;
      FrontierNode(todo, done, n);
      var next := todo - {n} + n.children.Values;
      forall c | c in n.children.Values ensures c in nodes {
        ChildFacts(n, c);
      }
      forall a, b | a in next && b in next && a != b ensures !(a.prefix <= b.prefix) {
        ApartAfterStep(todo, n, done, a, b);
      }
      forall v | v in nodes && v !in done + {n} ensures exists a :: a in next && a.prefix <= v.prefix {
        var a := StillCovered(todo, n, done, v);
        assert a in next;
      }
      forall v, a | v in done + {n} && a in next ensures !(a.prefix <= v.prefix) {
        DoneApart(todo, n, done, v, a);
      }
      FrontierFrom(next, done + {n});
    }

    lemma FrontierEnds(done: set<RadixTreeNode>)
      requires Structure()
      ensures Frontier({root}, {})
      ensures Frontier({}, done) ==> done == nodes
    {
    }

    lemma LeavesByChildren()
      requires Valid()
      ensures forall v :: v in nodes ==> (UnlockedLeaf(nodes, v) <==> v.children == map[] && v.refCount == 0)
    {
      forall v | v in nodes ensures UnlockedLeaf(nodes, v) <==> v.children == map[] && v.refCount == 0 {
        ChildlessIsLeaf(v);
      }
    }

    /** The unlocked leaves, collected from the root down. */
    method CollectLeaves() returns (leaves: set<RadixTreeNode>)
      requires Valid()
      ensures leaves == UnlockedLeaves()
    {
      hide Structure, Represents, AccountingFor, Frontier, UnlockedLeaf;
      leaves := {};
      var todo := {root};
      ghost var done: set<RadixTreeNode> := {};
      FrontierEnds(done);
      while todo != {}
        invariant Frontier(todo, done)
        invariant forall v :: v in leaves <==> v in done && v.children == map[] && v.refCount == 0
        decreases nodes - done
      {
        var n :| n in todo;
        FrontierStep(todo, n, done);
        if n.IsLeaf() {
          assert n.children == map[] && todo - {n} + n.children.Values == todo - {n};
          todo := todo - {n};
          if n.refCount == 0 {
            leaves := leaves + {n};
          }
        } else {
          todo := todo - {n} + n.children.Values;
        }
        done := done + {n};
      }
      FrontierEnds(done);
      LeavesByChildren();
    }

    // ---- removing one leaf ----

    twostate predicate CutEffect(q: RadixTreeNode, n: RadixTreeNode)
      reads this`nodes, nodes, q, n
    {
      && n in old(nodes) && n != root && old(n.children) == map[] && q == n.parent && q in old(nodes)
      && nodes == old(nodes) - {n}
      && q.children == old(q.children) - {FirstPage(n.key, pageSize)}
      && (forall m :: m in old(nodes) ==>
            && m.prefix == old(m.prefix) && m.slots == old(m.slots) && m.refCount == old(m.refCount)
            && m.parent == old(m.parent) && m.key == old(m.key) && m.value == old(m.value))
      && (forall m :: m in old(nodes) && m != q ==> m.children == old(m.children))
    }

    twostate lemma CutUp(q: RadixTreeNode, new n: RadixTreeNode, new m: RadixTreeNode)
      requires old(allocated(n)) && old(allocated(m))
      requires old(Structure()) && CutEffect(q, n) && m in nodes && m != root
      ensures LinkedUp(m)
    {
      assert old(LinkedUp(m)) && old(LinkedUp(n));
      assert old(LinkedDown(n));
      assert FirstPage(m.key, pageSize) in old(m.parent.children);
    }

    twostate lemma CutDown(q: RadixTreeNode, new n: RadixTreeNode, new m: RadixTreeNode)
      requires old(allocated(n)) && old(allocated(m))
      requires old(Structure()) && CutEffect(q, n) && m in nodes
      ensures LinkedDown(m)
    {
      assert old(LinkedDown(m)) && old(LinkedUp(n));
    }

    twostate lemma CutStructure(q: RadixTreeNode, new n: RadixTreeNode)
      requires old(allocated(n))
      requires old(Structure()) && CutEffect(q, n)
      ensures Structure()
    {
      hide LinkedUp, LinkedDown;
      forall m | m in nodes && m != root ensures LinkedUp(m) {
        CutUp(q, n, m);
      }
      forall m | m in nodes ensures LinkedDown(m) {
        CutDown(q, n, m);
      }
    }

    /** The pages of a leaf belong to no other node. */
    lemma LeafOwnsCells(n: RadixTreeNode, m: RadixTreeNode, p: Prefix)
      requires Structure() && n in nodes && n != root && n.parent != null && n.children == map[]
      requires m in nodes && m != n && p in CellsOf(n)
      ensures !(p <= m.prefix)
    {
      if p <= m.prefix {
        CellOwner(n, m, p);
        ChildToward(n, m);
      }
    }

    /** What must be known before an unlocked leaf is cut off. */
    lemma BeforeCut(n: RadixTreeNode)
      requires Valid() && n in nodes && UnlockedLeaf(nodes, n)
      ensures n.parent != null && n.parent in nodes && n.children == map[] && n.prefix in view
      ensures Aligned(|n.parent.prefix|, pageSize) && Aligned(|n.prefix|, pageSize)
      ensures |n.parent.prefix| <= |n.prefix| && |n.key| == |n.value| == |n.prefix| - |n.parent.prefix| && |n.key| > 0
      ensures |view[n.prefix]| == |n.prefix| && n.value == view[n.prefix][|n.parent.prefix|..]
      ensures CellsOf(n) <= view.Keys && |CellsOf(n)| * pageSize == |n.key| && n.prefix in CellsOf(n)
      ensures forall p :: p in CellsOf(n) ==> !Locked(locks, p)
      ensures forall m, p :: m in nodes && m != n && p in CellsOf(n) ==> !(p <= m.prefix)
      ensures FirstPage(n.key, pageSize) in n.parent.children
    {
      hide LockCount;
      assert LinkedUp(n);
      ChildlessIsLeaf(n);
      StoredNode(n);
      CellsOfCount(n);
      CellsLockedAlike(n, locks);
      LockCountZero(locks, n.prefix);
      forall m, p | m in nodes && m != n && p in CellsOf(n) ensures !(p <= m.prefix) {
        LeafOwnsCells(n, m, p);
      }
    }

    twostate lemma CutRepresents(q: RadixTreeNode, new n: RadixTreeNode)
      requires old(allocated(n))
      requires old(Structure()) && old(Represents()) && CutEffect(q, n)
      requires n.parent != null && view == old(view) - CellsOf(n)
      requires forall m, p :: m in nodes && p in CellsOf(n) ==> !(p <= m.prefix)
      ensures Represents()
    {
      forall m, k {:trigger m.prefix[..k]} | m in nodes && 0 < k <= |m.prefix| && k <= |m.slots| && Aligned(k, pageSize)
        ensures m.prefix[..k] in view && view[m.prefix[..k]] == m.slots[..k]
      {
        assert old(m.prefix)[..k] in old(view);
        assert m.prefix[..k] <= m.prefix;
      }
      forall p | p in view ensures 0 < |p| && Aligned(|p|, pageSize) && Spelled(p) {
        assert old(Spelled(p));
        var m :| m in old(nodes) && p <= m.prefix;
        if m == n {
          CutSpelled(q, n, p);
        }
      }
    }

    /** What is left of a cut leaf's path is spelled out by its parent. */
    twostate lemma CutSpelled(q: RadixTreeNode, new n: RadixTreeNode, new p: Prefix)
      requires old(allocated(n))
      requires old(Structure()) && CutEffect(q, n) && n.parent != null
      requires p <= n.prefix && p !in CellsOf(n) && Aligned(|p|, pageSize)
      ensures q in nodes && p <= q.prefix
    {
      assert old(LinkedUp(n));
      assert old(LinkedDown(n));
      assert p == n.prefix[..|p|];
      assert |p| <= |q.prefix| ==> n.prefix[..|p|] == q.prefix[..|p|];
    }

    twostate lemma CutLocks(q: RadixTreeNode, new n: RadixTreeNode)
      requires old(allocated(n))
      requires old(LocksOnNodes(locks)) && CutEffect(q, n) && locks == old(locks)
      requires !Locked(locks, n.prefix)
      ensures LocksOnNodes(locks)
    {
      forall l | l in locks ensures Ends(l) {
        assert old(Ends(l));
        assert Locked(locks, l);
      }
    }

    twostate lemma CutAccounting(q: RadixTreeNode, new n: RadixTreeNode)
      requires old(allocated(n))
      requires old(AccountingFor(locks)) && CutEffect(q, n) && locks == old(locks)
      requires pageSize > 0 && n.parent != null && view == old(view) - CellsOf(n)
      requires |Unlocked(view, locks)| * pageSize == |Unlocked(old(view), locks)| * pageSize - |n.key|
      requires |view| * pageSize == |old(view)| * pageSize - |n.key|
      requires n.prefix in CellsOf(n) && forall p :: p in CellsOf(n) ==> !Locked(locks, p)
      requires evictableSize == old(evictableSize) - |n.key| && protectedSize == old(protectedSize)
      ensures AccountingFor(locks)
    {
      hide LockCount, LocksOnNodes, Unlocked, Cells, Locked;
      CutLocks(q, n);
    }

    /** Cutting a leaf can only make its parent a new unlocked leaf. */
    twostate lemma CutLeaves(q: RadixTreeNode, new n: RadixTreeNode)
      requires old(allocated(n))
      requires old(Valid()) && CutEffect(q, n) && Structure()
      ensures q in nodes
      ensures UnlockedLeaves() == old(UnlockedLeaves()) - {n} + (if q.children == map[] && q.refCount == 0 then {q} else {})
    {
      assert old(LinkedUp(n)) && old(LinkedDown(n));
      ChildlessIsLeaf(q);
      forall v | v in nodes && v != q ensures UnlockedLeaf(nodes, v) <==> old(UnlockedLeaf(nodes, v)) {
      }
    }

    method CutLeaf(n: RadixTreeNode) returns (parent: RadixTreeNode)
      requires Valid() && n in nodes && UnlockedLeaf(nodes, n)
      modifies this`nodes, this`view, this`evictableSize, nodes`children
      ensures Valid() && parent == n.parent && nodes == old(nodes) - {n} && parent in nodes
      ensures evictableSize == old(evictableSize) - |n.key|
      ensures view == old(view) - Cells(|parent.prefix|, n.prefix, pageSize)
      ensures UnlockedLeaves() == old(UnlockedLeaves()) - {n} + (if parent.children == map[] && parent.refCount == 0 then {parent} else {})
    {
      hide Structure, Represents, AccountingFor, UnlockedLeaf, UnlockedLeaves, Unlocked, Locked, Cells;
      RootFacts();
      BeforeCut(n);
      DropCounts(view, CellsOf(n), locks, pageSize);
      parent := n.parent;
      evictableSize := evictableSize - |n.key|;
      parent.children := parent.children - {FirstPage(n.key, pageSize)};
      nodes := nodes - {n};
      view := view - CellsOf(n);
      CutStructure(parent, n);
      CutRepresents(parent, n);
      CutAccounting(parent, n);
      CutLeaves(parent, n);
    }

    ghost predicate EvictedInOrder(s: set<RadixTreeNode>, victims: seq<RadixTreeNode>)
      reads s`parent, s`refCount, s`timestamp
    {
      forall i :: 0 <= i < |victims| ==> victims[i] in s && victims[i].refCount == 0 && victims[i] != root && LeastRecent(s - Elements(victims[..i]), victims[i])
    }

    lemma LeastRecentFacts(s: set<RadixTreeNode>, v: RadixTreeNode)
      requires LeastRecent(s, v)
      ensures v.refCount == 0 && v != root
    {
    }

    lemma EvictedNext(s: set<RadixTreeNode>, victims: seq<RadixTreeNode>, v: RadixTreeNode)
      requires v in s && EvictedInOrder(s, victims) && LeastRecent(s - Elements(victims), v)
      ensures EvictedInOrder(s, victims + [v]) && Elements(victims + [v]) == Elements(victims) + {v}
    {
      hide LeastRecent;
      var longer := victims + [v];
      assert v.refCount == 0 && v != root by { LeastRecentFacts(s - Elements(victims), v); }
      forall i | 0 <= i < |longer| ensures longer[i] in s && longer[i].refCount == 0 && longer[i] != root && LeastRecent(s - Elements(longer[..i]), longer[i]) {
        assert longer[..i] == victims[..i];
        if i == |victims| { assert victims[..i] == victims; }
      }
    }

    /** Takes a least recently used node out of the heap. */
    method PopOldest(leaves: set<RadixTreeNode>) returns (node: RadixTreeNode, rest: set<RadixTreeNode>)
      requires leaves != {}
      ensures node in leaves && rest == leaves - {node}
      ensures forall m :: m in leaves ==> node.timestamp <= m.timestamp
    {
      node :| node in leaves;
      var todo := leaves;
      while todo != {}
        invariant todo <= leaves && node in leaves
        invariant forall m :: m in leaves - todo ==> node.timestamp <= m.timestamp
        decreases todo
      {
        var m :| m in todo;
        todo := todo - {m};
        if m.timestamp < node.timestamp { node := m; }
      }
      rest := leaves - {node};
    }

    lemma PoppedIsOldest(leaves: set<RadixTreeNode>, v: RadixTreeNode)
      requires leaves == UnlockedLeaves()
      requires v in leaves && forall m :: m in leaves ==> v.timestamp <= m.timestamp
      ensures v in nodes && UnlockedLeaf(nodes, v) && LeastRecent(nodes, v)
    {
    }

    lemma SomeLeafLeft(leaves: set<RadixTreeNode>)
      requires Valid() && evictableSize > 0
      requires leaves == UnlockedLeaves()
      ensures leaves != {}
    {
      var v := SomeUnlockedLeaf();
      assert v in leaves;
    }

    /** Eviction in progress: what went, in which order, and what the heap holds. */
    ghost predicate Evicting(all: set<RadixTreeNode>, before: View, evicted: seq<int>, leaves: set<RadixTreeNode>,
                             victims: seq<RadixTreeNode>, order: seq<Prefix>)
      reads this`nodes, this`view, this`locks, this`evictableSize, this`protectedSize, nodes`refCount
      reads nodes`parent, nodes`children, nodes`key, nodes`value, nodes`prefix, nodes`slots
      reads all`parent, all`refCount, all`timestamp
    {
      && Valid() && nodes == all - Elements(victims) && leaves == UnlockedLeaves()
      && ValidView(before, pageSize) && Removed(before, order, view) && (forall p :: p in order ==> !Locked(locks, p))
      && evicted == Flat(before, order, pageSize)
      && EvictedInOrder(all, victims)
    }

    lemma EvictStarts()
      requires Valid()
      ensures Evicting(nodes, view, [], UnlockedLeaves(), [], [])
    {
      ViewIsValid();
      assert view == view - Elements<Prefix>([]);
      assert nodes == nodes - Elements<RadixTreeNode>([]);
    }

    /** Cutting an unlocked leaf drops its pages, the shortest last, from what is stored. */
    lemma CutRemoves(before: View, evicted: seq<int>, order: seq<Prefix>, n: RadixTreeNode)
      returns (order': seq<Prefix>)
      requires Valid() && n in nodes && UnlockedLeaf(nodes, n) && ValidView(before, pageSize) && Removed(before, order, view)
      requires evicted == Flat(before, order, pageSize) && forall p :: p in order ==> !Locked(locks, p)
      ensures n.parent != null && |n.key| == |n.value|
      ensures Removed(before, order', view - Cells(|n.parent.prefix|, n.prefix, pageSize))
      ensures evicted + n.value == Flat(before, order', pageSize) && forall p :: p in order' ==> !Locked(locks, p)
    {
      hide RadixPrefixCache.Valid, UnlockedLeaf, Flat, Locked, Removed, Cells, CellSeq, ValidView;
      BeforeCut(n);
      order' := order + CellSeq(|n.parent.prefix|, n.prefix, pageSize);
      RemovedMore(before, order, view, |n.parent.prefix|, n.prefix, pageSize);
    }

    method EvictOne(ghost all: set<RadixTreeNode>, ghost before: View, evicted: seq<int>, leaves: set<RadixTreeNode>,
                    ghost victims: seq<RadixTreeNode>, ghost order: seq<Prefix>)
      returns (node: RadixTreeNode, leaves': set<RadixTreeNode>, ghost order': seq<Prefix>)
      requires Evicting(all, before, evicted, leaves, victims, order) && evictableSize > 0
      modifies this`nodes, this`view, this`evictableSize, nodes`children
      ensures Evicting(all, before, evicted + node.value, leaves', victims + [node], order')
      ensures nodes < old(nodes) && |node.value| == |node.key|
      ensures evictableSize == old(evictableSize) - |node.value|
    {
      hide RadixPrefixCache.Valid, LeastRecent, UnlockedLeaf, UnlockedLeaves;
      hide Flat, Locked, Removed, Cells, CellSeq, EvictedInOrder, ValidView;
      SomeLeafLeft(leaves);
      var rest;
      node, rest := PopOldest(leaves);
      PoppedIsOldest(leaves, node);
      EvictedNext(all, victims, node);
      order' := CutRemoves(before, evicted, order, node);
      var parent := CutLeaf(node);
      leaves' := rest;
      // The root is always protected, so it never joins the heap.
      if parent.IsLeaf() && parent.refCount == 0 {
        leaves' := leaves' + {parent};
      }
    }

    /** Drops least recently used unlocked leaves until `size` tokens are free; the order of the victims is kept for the proof. */
    method Evict(size: nat) returns (evicted: seq<int>, ghost victims: seq<RadixTreeNode>, ghost order: seq<Prefix>)
      requires Valid() && size <= evictableSize
      modifies this`nodes, this`view, this`evictableSize, nodes`children
      ensures Valid() && nodes == old(nodes) - Elements(victims)
      ensures Removed(old(view), order, view) && forall p :: p in order ==> !Locked(locks, p)
      ensures evicted == Flat(old(view), order, pageSize)
      ensures evictableSize == old(evictableSize) - |evicted| && size <= |evicted|
      ensures EvictedInOrder(old(nodes), victims)
      ensures size == 0 ==> victims == []
      ensures victims != [] ==> |evicted| - |victims[|victims| - 1].key| < size
      ensures LockedStay() && forall n :: n in nodes ==> n.timestamp == old(n.timestamp)
    {
      hide Structure, Represents, AccountingFor, Removed, EvictedInOrder, ValidView, LockCount, Locked;
      evicted, victims, order := [], [], [];
      EvictStarts();
      LockedCounted();
      if size == 0 {
        SparesCounted(nodes, []);
        return;
      }
      var leaves := CollectLeaves();
      while |evicted| < size
        invariant Evicting(old(nodes), old(view), evicted, leaves, victims, order)
        invariant evictableSize == old(evictableSize) - |evicted|
        invariant victims != [] ==> |evicted| - |victims[|victims| - 1].key| < size
        decreases nodes
      {
        var node, leaves', order' := EvictOne(old(nodes), old(view), evicted, leaves, victims, order);
        evicted := evicted + node.value;
        leaves, victims, order := leaves', victims + [node], order';
      }
      SparesCounted(old(nodes), victims);
    }

    lemma LockedCounted()
      requires Valid()
      ensures forall n :: n in nodes && Locked(locks, n.prefix) ==> n == root || n.refCount > 0
    {
      forall n | n in nodes && Locked(locks, n.prefix) ensures n == root || n.refCount > 0 {
        LockCountZero(locks, n.prefix);
      }
    }

    lemma SparesCounted(all: set<RadixTreeNode>, victims: seq<RadixTreeNode>)
      requires EvictedInOrder(all, victims) && root in all && nodes == all - Elements(victims)
      ensures forall n :: n in all && (n == root || n.refCount > 0) ==> n in nodes
    {
    }
  }
}
