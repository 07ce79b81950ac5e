/**
 Two microbatches, one stack of decoder layers. What each layer computes is left open; what is stated is
 the order of the computations, the buffers they share, and the KV cells they read and write.
 */
module DualBatch {
  import opened Options

  datatype Tensor = Tensor(data: seq<real>)

  datatype Routing = Routing(ids: seq<nat>, weights: seq<real>)

  /** The KV entry of one slot in one layer. */
  datatype Cell = Cell(layer: nat, slot: int)

  type Cells = map<Cell, Tensor>

  /** A decode batch: the slots its attention may look at, and those its new tokens are stored at. */
  datatype MicroBatch = MicroBatch(inputIds: seq<int>, rowSlots: seq<int>, outLoc: seq<int>)

  datatype Model = Model(
    layerNum: nat,
    dense: nat -> bool,
    embed: seq<int> -> Tensor,
    inputNorm: (nat, Tensor, Option<Tensor>) -> (Tensor, Tensor),
    entry: (nat, Tensor, MicroBatch, int) -> Tensor,
    attend: (nat, Tensor, MicroBatch, seq<Option<Tensor>>) -> Tensor,
    postNorm: (nat, Tensor, Tensor) -> (Tensor, Tensor),
    mlp: (nat, Tensor) -> Tensor,
    gate: (nat, Tensor) -> Routing,
    sharedExperts: (nat, Tensor) -> Tensor,
    routedExperts: (nat, Tensor, Routing) -> Tensor,
    add: (Tensor, Tensor) -> Tensor,
    finalNorm: (Tensor, Option<Tensor>) -> Tensor)

  ghost predicate Commutes(add: (Tensor, Tensor) -> Tensor)
  {
    forall a, b :: add(a, b) == add(b, a)
  }

  function Read(kv: Cells, layer: nat, slots: seq<int>): (r: seq<Option<Tensor>>)
  {
    seq(|slots|, i requires 0 <= i < |slots| => if Cell(layer, slots[i]) in kv then Some(kv[Cell(layer, slots[i])]) else None)
  }

  /** The cells that attention of one layer writes for a batch. */
  function NewCells(m: Model, layer: nat, x: Tensor, b: MicroBatch): Cells
  {
    map s | s in b.outLoc :: Cell(layer, s) := m.entry(layer, x, b, s)
  }

  /** Neither batch writes where the other reads or writes. */
  ghost predicate Apart(b: MicroBatch, c: MicroBatch)
  {
    && (forall s :: s in b.outLoc ==> s !in c.outLoc && s !in c.rowSlots)
    && (forall s :: s in c.outLoc ==> s !in b.rowSlots)
  }

  // ---- one batch on its own ----

  /** A batch between two steps: its hidden states, its residual, and the cells it has written so far. */
  datatype Solo = Solo(x: Tensor, residual: Option<Tensor>, written: Cells)

  ghost function AfterAttention(m: Model, b: MicroBatch, kv: Cells, layer: nat, s: Solo): Solo
  {
    var (x, residual) := m.inputNorm(layer, s.x, s.residual);
    var written := s.written + NewCells(m, layer, x, b);
    var y := m.attend(layer, x, b, Read(kv + written, layer, b.rowSlots));
    var (z, residual') := m.postNorm(layer, y, residual);
    Solo(z, Some(residual'), written)
  }

  /**
   What attention of a layer looks at: at a slot the batch has just stored to, the entry just stored; elsewhere what
   the batch has stored before, or else what was there.
   */
  lemma AttentionSees(m: Model, b: MicroBatch, kv: Cells, layer: nat, s: Solo) returns (seen: seq<Option<Tensor>>)
    ensures |seen| == |b.rowSlots|
    ensures var (x, residual) := m.inputNorm(layer, s.x, s.residual);
      && (forall i :: 0 <= i < |seen| ==>
        var c := Cell(layer, b.rowSlots[i]);
        seen[i] == if b.rowSlots[i] in b.outLoc then Some(m.entry(layer, x, b, b.rowSlots[i]))
                   else if c in s.written then Some(s.written[c]) else if c in kv then Some(kv[c]) else None)
      && var (z, residual') := m.postNorm(layer, m.attend(layer, x, b, seen), residual);
      AfterAttention(m, b, kv, layer, s).x == z && AfterAttention(m, b, kv, layer, s).residual == Some(residual')
  {
    var (x, _) := m.inputNorm(layer, s.x, s.residual);
    seen := Read(kv + (s.written + NewCells(m, layer, x, b)), layer, b.rowSlots);
  }

  /** The feed-forward half of a layer; `shared` comes first or last as the architecture has it. */
  ghost function AfterExperts(m: Model, layer: nat, x: Tensor, sharedFirst: bool): Tensor
  {
    if m.dense(layer) then m.mlp(layer, x)
    else
      var routed, shared := m.routedExperts(layer, x, m.gate(layer, x)), m.sharedExperts(layer, x);
      if sharedFirst then m.add(shared, routed) else m.add(routed, shared)
  }

  /** A batch after its first `n` layers. */
  ghost function Run(m: Model, b: MicroBatch, kv: Cells, n: nat, sharedFirst: bool): Solo
  {
    if n == 0 then Solo(m.embed(b.inputIds), None, map[])
    else
      var s := AfterAttention(m, b, kv, n - 1, Run(m, b, kv, n - 1, sharedFirst));
      s.(x := AfterExperts(m, n - 1, s.x, sharedFirst))
  }

  /** Where attention of layer `n` has left a batch whose first `n` layers are complete. */
  ghost function Attended(m: Model, b: MicroBatch, kv: Cells, n: nat, sharedFirst: bool): Solo
  {
    AfterAttention(m, b, kv, n, Run(m, b, kv, n, sharedFirst))
  }

  ghost function Output(m: Model, b: MicroBatch, kv: Cells, sharedFirst: bool): Tensor
  {
    var s := Run(m, b, kv, m.layerNum, sharedFirst);
    m.finalNorm(s.x, s.residual)
  }

  ghost function Written(m: Model, b: MicroBatch, kv: Cells, sharedFirst: bool): Cells
  {
    Run(m, b, kv, m.layerNum, sharedFirst).written
  }

  ghost predicate OwnCells(cells: Cells, b: MicroBatch)
  {
    forall c :: c in cells ==> c.slot in b.outLoc
  }

  lemma {:induction false} RunOwnCells(m: Model, b: MicroBatch, kv: Cells, n: nat, sharedFirst: bool)
    ensures OwnCells(Run(m, b, kv, n, sharedFirst).written, b)
  {
    if n > 0 { RunOwnCells(m, b, kv, n - 1, sharedFirst); }
  }

  /** Two stores that agree on what a batch may look at look the same to it. */
  lemma SameRead(kv: Cells, kv': Cells, layer: nat, slots: seq<int>)
    requires forall c: Cell :: c.slot in slots ==> (c in kv <==> c in kv') && (c in kv ==> kv[c] == kv'[c])
    ensures Read(kv, layer, slots) == Read(kv', layer, slots)
  {
    forall i | 0 <= i < |slots| ensures Read(kv, layer, slots)[i] == Read(kv', layer, slots)[i] {
      assert Cell(layer, slots[i]).slot in slots;
    }
  }

  /** A batch does not see what the other one has written. */
  lemma {:induction false} RunUnseen(m: Model, b: MicroBatch, kv: Cells, others: Cells, n: nat, sharedFirst: bool)
    requires forall c :: c in others ==> c.slot !in b.rowSlots
    ensures Run(m, b, kv + others, n, sharedFirst) == Run(m, b, kv, n, sharedFirst)
  {
    if n > 0 {
      RunUnseen(m, b, kv, others, n - 1, sharedFirst);
      AttentionUnseen(m, b, kv, others, n - 1, Run(m, b, kv, n - 1, sharedFirst));
    }
  }

  lemma AttentionUnseen(m: Model, b: MicroBatch, kv: Cells, others: Cells, layer: nat, s: Solo)
    requires forall c :: c in others ==> c.slot !in b.rowSlots
    ensures AfterAttention(m, b, kv + others, layer, s) == AfterAttention(m, b, kv, layer, s)
  {
    var (x, residual) := m.inputNorm(layer, s.x, s.residual);
    var written := s.written + NewCells(m, layer, x, b);
    SameRead(kv + others + written, kv + written, layer, b.rowSlots);
  }

  /** Cells of different batches can be stored in either order. */
  lemma StoresCommute(kv: Cells, a: Cells, c: Cells, b: MicroBatch, d: MicroBatch)
    requires OwnCells(a, b) && OwnCells(c, d) && Apart(b, d)
    ensures kv + a + c == kv + c + a
  {
    forall k | k in kv + a + c ensures (kv + a + c)[k] == (kv + c + a)[k] {
      assert !(k in a && k in c);
    }
    assert (kv + a + c).Keys == (kv + c + a).Keys;
  }

  /** Two stores that look the same at the slots of a batch. */
  ghost predicate Alike(kv: Cells, kv': Cells, slots: seq<int>)
  {
    forall c: Cell :: c.slot in slots ==> (c in kv <==> c in kv') && (c in kv ==> kv[c] == kv'[c])
  }

  lemma AlikeSame(kv: Cells, kv': Cells, slots: seq<int>)
    requires kv == kv'
    ensures Alike(kv, kv', slots)
  {
  }

  lemma AlikeMore(kv: Cells, kv': Cells, more: Cells, slots: seq<int>)
    requires Alike(kv, kv', slots)
    ensures Alike(kv + more, kv' + more, slots)
  {
  }

  /**
   The attention half of a layer, on a store that other batches may have written to as well.
   What attention reads is decided by the batch that the backend in use has been planned for.
   */
  method AttentionStep(m: Model, b: MicroBatch, planned: MicroBatch, layer: nat, x: Tensor, residual: Option<Tensor>,
                       kv: Cells, ghost kv0: Cells, ghost own: Cells)
    returns (z: Tensor, residual': Tensor, kv': Cells, ghost cells: Cells)
    requires planned == b && Alike(kv, kv0 + own, b.rowSlots)
    ensures kv' == kv + cells && OwnCells(cells, b)
    ensures AfterAttention(m, b, kv0, layer, Solo(x, residual, own)) == Solo(z, Some(residual'), own + cells)
  {
    var (h, r) := m.inputNorm(layer, x, residual);
    cells := NewCells(m, layer, h, b);
    kv' := kv + NewCells(m, layer, h, b);
    AlikeMore(kv, kv0 + own, cells, b.rowSlots);
    assert kv0 + own + cells == kv0 + (own + cells);
    SameRead(kv', kv0 + (own + cells), layer, b.rowSlots);
    var y := m.attend(layer, h, planned, Read(kv', layer, planned.rowSlots));
    var (p, q) := m.postNorm(layer, y, r);
    z, residual' := p, q;
  }

  /** The store of a pipeline: what was there, and what each of the two batches has written. */
  ghost predicate Shared2(kv: Cells, kv0: Cells, written: seq<Cells>, batches: seq<MicroBatch>)
  {
    && |written| == |batches| == 2 && Apart(batches[0], batches[1])
    && OwnCells(written[0], batches[0]) && OwnCells(written[1], batches[1]) && kv == kv0 + written[0] + written[1]
  }

  lemma SharedFacts(kv: Cells, kv0: Cells, written: seq<Cells>, batches: seq<MicroBatch>)
    requires Shared2(kv, kv0, written, batches)
    ensures |written| == |batches| == 2 && kv == kv0 + written[0] + written[1]
  {
  }

  lemma SharedAlike(kv: Cells, kv0: Cells, written: seq<Cells>, batches: seq<MicroBatch>, mb: nat)
    requires Shared2(kv, kv0, written, batches) && mb < 2
    ensures Alike(kv, kv0 + written[mb], batches[mb].rowSlots)
  {
  }

  lemma SharedMore(kv: Cells, kv0: Cells, written: seq<Cells>, batches: seq<MicroBatch>, mb: nat, cells: Cells)
    requires Shared2(kv, kv0, written, batches) && mb < 2 && OwnCells(cells, batches[mb])
    ensures Shared2(kv + cells, kv0, written[mb := written[mb] + cells], batches)
  {
    if mb == 0 {
      StoresCommute(kv0 + written[0], written[1], cells, batches[1], batches[0]);
      assert kv0 + written[0] + cells == kv0 + (written[0] + cells);
    } else {
      assert kv + cells == kv0 + written[0] + (written[1] + cells);
    }
  }

  // ---- the serial reference ----

  /** All layers of one batch, one after the other. */
  method ForwardSerial(m: Model, b: MicroBatch, kv: Cells, sharedFirst: bool) returns (out: Tensor, kv': Cells)
    ensures out == Output(m, b, kv, sharedFirst) && kv' == kv + Written(m, b, kv, sharedFirst)
  {
    hide AfterAttention, OwnCells, Alike, NewCells, Read;
    var x, residual := m.embed(b.inputIds), None;
    kv' := kv;
    var layer := 0;
    assert kv + map[] == kv;
    while layer < m.layerNum
      invariant 0 <= layer <= m.layerNum
      invariant var s := Run(m, b, kv, layer, sharedFirst); x == s.x && residual == s.residual && kv' == kv + s.written
    {
      ghost var s := Run(m, b, kv, layer, sharedFirst);
      var z, r;
      ghost var cells;
      AlikeSame(kv', kv + s.written, b.rowSlots);
      z, r, kv', cells := AttentionStep(m, b, b, layer, x, residual, kv', kv, s.written);
      assert kv + s.written + cells == kv + (s.written + cells);
      residual := Some(r);
      if m.dense(layer) {
        x := m.mlp(layer, z);
      } else {
        var routing := m.gate(layer, z);
        var shared := m.sharedExperts(layer, z);
        var routed := m.routedExperts(layer, z, routing);
        x := if sharedFirst then m.add(shared, routed) else m.add(routed, shared);
      }
      layer := layer + 1;
    }
    out := m.finalNorm(x, residual);
  }

  /** Two serial forward passes, one after the other, in either order. */
  lemma SerialTwice(m: Model, b: MicroBatch, c: MicroBatch, kv: Cells, sharedFirst: bool)
    requires Apart(b, c)
    ensures var first := kv + Written(m, b, kv, sharedFirst);
      && Output(m, c, first, sharedFirst) == Output(m, c, kv, sharedFirst)
      && first + Written(m, c, first, sharedFirst) == kv + Written(m, b, kv, sharedFirst) + Written(m, c, kv, sharedFirst)
    ensures kv + Written(m, b, kv, sharedFirst) + Written(m, c, kv, sharedFirst)
         == kv + Written(m, c, kv, sharedFirst) + Written(m, b, kv, sharedFirst)
  {
    RunOwnCells(m, b, kv, m.layerNum, sharedFirst);
    RunOwnCells(m, c, kv, m.layerNum, sharedFirst);
    RunUnseen(m, c, kv, Written(m, b, kv, sharedFirst), m.layerNum, sharedFirst);
    StoresCommute(kv, Written(m, b, kv, sharedFirst), Written(m, c, kv, sharedFirst), b, c);
  }

  /** Two serial passes, one after the other, on one store. */
  method ForwardBoth(m: Model, b: MicroBatch, c: MicroBatch, kv: Cells, sharedFirst: bool)
    returns (out0: Tensor, out1: Tensor, kv': Cells)
    requires Apart(b, c)
    ensures out0 == Output(m, b, kv, sharedFirst) && out1 == Output(m, c, kv, sharedFirst)
    ensures kv' == kv + Written(m, b, kv, sharedFirst) + Written(m, c, kv, sharedFirst)
  {
    hide Output, Written;
    out0, kv' := ForwardSerial(m, b, kv, sharedFirst);
    out1, kv' := ForwardSerial(m, c, kv', sharedFirst);
    SerialTwice(m, b, c, kv, sharedFirst);
  }

  // ---- the order of the steps ----

  /** Attention, submitting the experts, and collecting what they have computed. */
  datatype Step = Attention(mb: nat, layer: nat) | Experts(mb: nat, layer: nat) | Collection(mb: nat, layer: nat)

  /** What slots before `i` have done: attention of one batch while the experts of the other are under way. */
  ghost function Schedule(i: nat, layerNum: nat): seq<Step>
  {
    if i == 0 then []
    else
      var k := i - 1;
      Schedule(k, layerNum) +
      (if k == 0 then [Attention(0, 0)]
       else if k == 2 * layerNum then [Experts(1, layerNum - 1), Collection(1, layerNum - 1)]
       else [Experts(1 - k % 2, (k - 1) / 2), Attention(k % 2, k / 2), Collection(1 - k % 2, (k - 1) / 2)])
  }

  ghost function Of(steps: seq<Step>, mb: nat): seq<Step>
  {
    if steps == [] then []
    else Of(steps[..|steps| - 1], mb) + if steps[|steps| - 1].mb == mb then [steps[|steps| - 1]] else []
  }

  /** The first `n` layers, each attention before its experts, and these before they are collected. */
  ghost function InOrder(mb: nat, n: nat): seq<Step>
  {
    if n == 0 then [] else InOrder(mb, n - 1) + [Attention(mb, n - 1), Experts(mb, n - 1), Collection(mb, n - 1)]
  }

  lemma {:induction false} OfConcat(a: seq<Step>, b: seq<Step>, mb: nat)
    ensures Of(a + b, mb) == Of(a, mb) + Of(b, mb)
    decreases |b|
  {
    if b == [] {
      assert a + b == a;
    } else {
      assert (a + b)[..|a + b| - 1] == a + b[..|b| - 1];
      OfConcat(a, b[..|b| - 1], mb);
    }
  }

  lemma OfOne(a: Step, mb: nat)
    ensures Of([a], mb) == if a.mb == mb then [a] else []
  {
    assert [a][..0] == [];
  }

  lemma OfPair(a: Step, b: Step, mb: nat)
    ensures Of([a, b], mb) == (if a.mb == mb then [a] else []) + (if b.mb == mb then [b] else [])
  {
    assert [a, b][..1] == [a] && [a][..0] == [];
    assert Of([a], mb) == Of([], mb) + if a.mb == mb then [a] else [];
  }

  lemma OfTriple(a: Step, b: Step, c: Step, mb: nat)
    ensures Of([a, b, c], mb)
         == (if a.mb == mb then [a] else []) + (if b.mb == mb then [b] else []) + (if c.mb == mb then [c] else [])
  {
    assert [a, b, c][..2] == [a, b];
    OfPair(a, b, mb);
  }

  /** After an odd slot the first batch is ahead, after an even one both are level but for one attention. */
  lemma {:induction false} ScheduleSoFar(k: nat, layerNum: nat)
    requires 0 < k <= 2 * layerNum
    ensures k % 2 == 1 ==>
      Of(Schedule(k, layerNum), 0) == InOrder(0, k / 2) + [Attention(0, k / 2)] && Of(Schedule(k, layerNum), 1) == InOrder(1, k / 2)
    ensures k % 2 == 0 ==>
      Of(Schedule(k, layerNum), 0) == InOrder(0, k / 2) && Of(Schedule(k, layerNum), 1) == InOrder(1, k / 2 - 1) + [Attention(1, k / 2 - 1)]
    decreases k
  {
    hide Of;
    if k == 1 {
      assert Schedule(0, layerNum) == [] && Schedule(1, layerNum) == [Attention(0, 0)];
      OfOne(Attention(0, 0), 0);
      OfOne(Attention(0, 0), 1);
    } else {
      ScheduleSoFar(k - 1, layerNum);
      var moe, attn := 1 - (k - 1) % 2, (k - 1) % 2;
      var last := [Experts(moe, (k - 2) / 2), Attention(attn, (k - 1) / 2), Collection(moe, (k - 2) / 2)];
      assert Schedule(k, layerNum) == Schedule(k - 1, layerNum) + last;
      OfConcat(Schedule(k - 1, layerNum), last, 0);
      OfConcat(Schedule(k - 1, layerNum), last, 1);
      OfTriple(last[0], last[1], last[2], 0);
      OfTriple(last[0], last[1], last[2], 1);
    }
  }

  /** Over the whole run each batch gets attention, experts and their collection, once for every layer, in layer order. */
  lemma ScheduleComplete(layerNum: nat, mb: nat)
    requires layerNum > 0 && mb < 2
    ensures Of(Schedule(2 * layerNum + 1, layerNum), mb) == InOrder(mb, layerNum)
  {
    hide Of, InOrder;
    ScheduleSoFar(2 * layerNum, layerNum);
    var last := [Experts(1, layerNum - 1), Collection(1, layerNum - 1)];
    assert Schedule(2 * layerNum + 1, layerNum) == Schedule(2 * layerNum, layerNum) + last;
    OfConcat(Schedule(2 * layerNum, layerNum), last, mb);
    OfPair(last[0], last[1], mb);
    if mb == 1 { LastInOrder(layerNum); }
  }

  lemma LastInOrder(n: nat)
    requires n > 0
    ensures InOrder(1, n - 1) + [Attention(1, n - 1)] + [Experts(1, n - 1), Collection(1, n - 1)] == InOrder(1, n)
  {
  }

  /** Between submitting and collecting the experts of one batch stands exactly one attention, that of the other. */
  ghost predicate Interleaved(steps: seq<Step>, layerNum: nat)
  {
    && layerNum > 0 && |steps| == 6 * layerNum && steps[0] == Attention(0, 0)
    && (forall k: nat :: 0 < k < 2 * layerNum ==> SlotAt(steps, k))
    && steps[6 * layerNum - 2] == Experts(1, layerNum - 1) && steps[6 * layerNum - 1] == Collection(1, layerNum - 1)
  }

  ghost predicate SlotAt(steps: seq<Step>, k: nat)
  {
    && 0 < k && 3 * k < |steps|
    && steps[3 * k - 2] == Experts(1 - k % 2, (k - 1) / 2)
    && steps[3 * k - 1] == Attention(k % 2, k / 2)
    && steps[3 * k] == Collection(1 - k % 2, (k - 1) / 2)
  }

  lemma {:induction false} SlotsSoFar(k: nat, layerNum: nat)
    requires 0 < k <= 2 * layerNum
    ensures |Schedule(k, layerNum)| == 3 * k - 2 && Schedule(k, layerNum)[0] == Attention(0, 0)
    ensures forall i: nat :: 0 < i < k ==> SlotAt(Schedule(k, layerNum), i)
    decreases k
  {
    if k == 1 {
      assert Schedule(0, layerNum) == [] && Schedule(1, layerNum) == [Attention(0, 0)];
    } else {
      SlotsSoFar(k - 1, layerNum);
      forall i: nat | 0 < i < k ensures SlotAt(Schedule(k, layerNum), i) {
        if i < k - 1 { assert SlotAt(Schedule(k - 1, layerNum), i); }
      }
    }
  }

  lemma ScheduleInterleaves(layerNum: nat)
    requires layerNum > 0
    ensures Interleaved(Schedule(2 * layerNum + 1, layerNum), layerNum)
  {
    var all := Schedule(2 * layerNum + 1, layerNum);
    SlotsSoFar(2 * layerNum, layerNum);
    assert all == Schedule(2 * layerNum, layerNum) + [Experts(1, layerNum - 1), Collection(1, layerNum - 1)];
    forall k: nat | 0 < k < 2 * layerNum ensures SlotAt(all, k) {
      assert SlotAt(Schedule(2 * layerNum, layerNum), k);
    }
  }

  // ---- the CPU side ----

  datatype Job = Job(layer: nat, x: Tensor, routing: Routing)

  /** The buffer that the results of all layers and of both batches pass through. */
  class Staging {
    var value: Tensor

    constructor ()
    {
      value := Tensor([]);
    }
  }

  /** The routed experts of all layers. A submission may overwrite the buffer at any time until it is collected. */
  class CpuExperts {
    const model: Model
    const staging: Staging
    var job: Option<Job>

    constructor (model: Model)
      ensures this.model == model && job == None && fresh(staging)
    {
      this.model := model;
      staging := new Staging();
      job := None;
    }

    /** At most one submission is outstanding. */
    method SubmitForward(layer: nat, x: Tensor, routing: Routing)
      requires job == None
      modifies this`job, staging
      ensures job == Some(Job(layer, x, routing))
    {
      job := Some(Job(layer, x, routing));
      staging.value := *;
    }

    /** Collects what has been submitted for this layer and these hidden states; the result stays in the buffer. */
    method SyncForward(layer: nat, x: Tensor) returns (output: Staging)
      requires job.Some? && job.value.layer == layer && job.value.x == x
      modifies this`job, staging
      ensures job == None && output == staging
      ensures output.value == model.routedExperts(layer, x, old(job).value.routing)
    {
      staging.value := model.routedExperts(job.value.layer, job.value.x, job.value.routing);
      job := None;
      output := staging;
    }
  }
}
