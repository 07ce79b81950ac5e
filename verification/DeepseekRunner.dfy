/** The interleaved decode step of the DeepSeek runner, against two serial passes. */
module DeepseekRunner {
  import opened Options
  import opened DualBatch

  class DeepseekV2DualBatchRunner {
    const model: Model
    const batches: seq<MicroBatch>
    const experts: CpuExperts
    var hiddenStates: seq<Tensor>
    var residual: seq<Option<Tensor>>
    var shared: seq<Option<Tensor>>
    var topk: seq<Option<Routing>>
    var kv: Cells
    var attnBackend: int        // which batch the attention backend in use has been planned for
    ghost var kv0: Cells        // the store before the step
    ghost var written: seq<Cells>
    ghost var steps: seq<Step>

    constructor (model: Model, m0: MicroBatch, m1: MicroBatch, kv: Cells, attnBackend: int)
      ensures this.model == model && batches == [m0, m1] && this.kv == kv && this.attnBackend == attnBackend
      ensures experts.model == model && experts.job == None && fresh(experts) && fresh(experts.staging)
    {
      this.model, batches, this.kv, this.attnBackend := model, [m0, m1], kv, attnBackend;
      experts := new CpuExperts(model);
      hiddenStates, residual, shared, topk := [], [], [], [];
      kv0, written, steps := kv, [], [];
    }

    ghost predicate Shape()
      reads this`kv, this`kv0, this`written, this`hiddenStates, this`residual, this`shared, this`topk
    {
      && Shared2(kv, kv0, written, batches) && experts.model == model && Commutes(model.add)
      && |hiddenStates| == |residual| == |shared| == |topk| == 2
    }

    /** What the serial pass of a batch holds after `n` layers, and what its attention of layer `n` makes of it. */
    ghost function Serial(mb: nat, n: nat): Solo
      requires mb < |batches|
      reads this`kv0
    {
      Run(model, batches[mb], kv0, n, true)
    }

    ghost function SerialAttended(mb: nat, n: nat): Solo
      requires mb < |batches|
      reads this`kv0
    {
      Attended(model, batches[mb], kv0, n, true)
    }

    /** `n` layers are complete, but for adding what the shared experts have computed. */
    ghost predicate AtLayer(mb: nat, n: nat)
      requires mb < 2 && Shape()
      reads this`kv, this`kv0, this`written, this`hiddenStates, this`residual, this`shared, this`topk
    {
      var s := Serial(mb, n);
      && residual[mb] == s.residual && written[mb] == s.written && topk[mb] == None
      && s.x == match shared[mb] case None => hiddenStates[mb] case Some(y) => model.add(hiddenStates[mb], y)
    }

    /** Attention of layer `n` is done, and its experts are still to come. */
    ghost predicate AtExperts(mb: nat, n: nat)
      requires mb < 2 && Shape()
      reads this`kv, this`kv0, this`written, this`hiddenStates, this`residual, this`shared, this`topk
    {
      var s := SerialAttended(mb, n);
      && hiddenStates[mb] == s.x && residual[mb] == s.residual && written[mb] == s.written
      && shared[mb] == (if model.dense(n) then None else Some(model.sharedExperts(n, s.x)))
      && topk[mb] == (if model.dense(n) then None else Some(model.gate(n, s.x)))
    }

    /** The experts of layer `n` have been started: on the CPU, or, for a dense layer, finished at once. */
    ghost predicate AtSync(mb: nat, n: nat)
      requires mb < 2 && Shape()
      reads this`kv, this`kv0, this`written, this`hiddenStates, this`residual, this`shared, this`topk, experts`job
    {
      if model.dense(n) then AtLayer(mb, n + 1) && shared[mb] == None && experts.job == None
      else AtExperts(mb, n) && topk[mb].Some? && experts.job == Some(Job(n, hiddenStates[mb], topk[mb].value))
    }

    /** The other batch has not been touched. */
    twostate predicate Untouched(mb: nat)
      requires mb < 2 && Shape() && old(Shape())
      reads this`kv, this`kv0, this`written, this`hiddenStates, this`residual, this`shared, this`topk
    {
      && hiddenStates[mb] == old(hiddenStates)[mb] && residual[mb] == old(residual)[mb] && shared[mb] == old(shared)[mb]
      && topk[mb] == old(topk)[mb] && written[mb] == old(written)[mb] && kv0 == old(kv0)
    }

    /** The routed result of the last layer is back; what the shared experts have computed is added to it. */
    method AddShared(mb: nat, ghost n: nat)
      requires mb < 2 && Shape() && AtLayer(mb, n)
      modifies this`hiddenStates, this`shared
      ensures Shape() && Untouched(1 - mb) && residual[mb] == Serial(mb, n).residual && written[mb] == Serial(mb, n).written
      ensures shared[mb] == None && topk[mb] == None && hiddenStates[mb] == Serial(mb, n).x
    {
      hide Shared2, Run, Commutes;
      SharedFacts(kv, kv0, written, batches);
      if shared[mb].Some? {
        hiddenStates := hiddenStates[mb := model.add(hiddenStates[mb], shared[mb].value)];
        shared := shared[mb := None];
      }
    }

    method Attend(mb: nat, layer: nat)
      requires mb < 2 && Shape() && residual[mb] == Serial(mb, layer).residual && written[mb] == Serial(mb, layer).written
      requires hiddenStates[mb] == Serial(mb, layer).x && attnBackend == mb
      modifies this`hiddenStates, this`residual, this`kv, this`written
      ensures Shape() && Untouched(1 - mb) && shared == old(shared) && topk == old(topk)
      ensures var s := SerialAttended(mb, layer); hiddenStates[mb] == s.x && residual[mb] == s.residual && written[mb] == s.written
    {
      hide Shared2, AfterAttention, Commutes, Run, OwnCells, Alike;
      SharedFacts(kv, kv0, written, batches);
      SharedAlike(kv, kv0, written, batches, mb);
      var z, r;
      ghost var cells;
      z, r, kv, cells := AttentionStep(model, batches[mb], batches[attnBackend], layer, hiddenStates[mb], residual[mb], kv, kv0, written[mb]);
      SharedMore(old(kv), kv0, written, batches, mb, cells);
      written := written[mb := written[mb] + cells];
      hiddenStates, residual := hiddenStates[mb := z], residual[mb := Some(r)];
      SharedFacts(kv, kv0, written, batches);
    }

    method SubmitAttn(mb: nat, layer: nat)
      requires mb < 2 && Shape() && AtLayer(mb, layer)
      modifies this`hiddenStates, this`residual, this`shared, this`topk, this`kv, this`attnBackend, this`written, this`steps
      ensures Shape() && AtExperts(mb, layer) && Untouched(1 - mb)
      ensures steps == old(steps) + [Attention(mb, layer)]
    {
      hide Shared2, AfterAttention, Commutes, Run;
      SharedFacts(kv, kv0, written, batches);
      AddShared(mb, layer);
      attnBackend := mb;
      steps := steps + [Attention(mb, layer)];
      Attend(mb, layer);
      if !model.dense(layer) {
        topk := topk[mb := Some(model.gate(layer, hiddenStates[mb]))];
        shared := shared[mb := Some(model.sharedExperts(layer, hiddenStates[mb]))];
      }
    }

    method SubmitMoe(mb: nat, layer: nat)
      requires mb < 2 && Shape() && AtExperts(mb, layer) && experts.job == None
      modifies this`hiddenStates, this`steps, experts`job, experts.staging
      ensures Shape() && AtSync(mb, layer) && Untouched(1 - mb)
      ensures steps == old(steps) + [Experts(mb, layer)]
    {
      var x := hiddenStates[mb];
      steps := steps + [Experts(mb, layer)];
      if model.dense(layer) {
        hiddenStates := hiddenStates[mb := model.mlp(layer, x)];
        return;
      }
      experts.SubmitForward(layer, x, topk[mb].value);
    }

    method SyncMoe(mb: nat, layer: nat)
      requires mb < 2 && Shape() && AtSync(mb, layer)
      modifies this`steps, this`hiddenStates, this`topk, experts`job, experts.staging
      ensures Shape() && AtLayer(mb, layer + 1) && Untouched(1 - mb) && experts.job == None
      ensures steps == old(steps) + [Collection(mb, layer)]
    {
      steps := steps + [Collection(mb, layer)];
      if model.dense(layer) {
        return;
      }
      var output := experts.SyncForward(layer, hiddenStates[mb]);
      hiddenStates := hiddenStates[mb := output.value];
      topk := topk[mb := None];
    }

    /** How far the two batches are before slot `i`. */
    ghost predicate BeforeSlot(i: nat)
      reads this`kv, this`kv0, this`written, this`hiddenStates, this`residual, this`shared, this`topk, this`steps, experts`job
    {
      && Shape() && experts.job == None && steps == Schedule(i, model.layerNum)
      && (i == 0 ==> AtLayer(0, 0) && AtLayer(1, 0))
      && (0 < i <= 2 * model.layerNum ==> AtExperts(1 - i % 2, (i - 1) / 2) && AtLayer(i % 2, i / 2))
      && (i == 2 * model.layerNum + 1 ==> AtLayer(0, model.layerNum) && AtLayer(1, model.layerNum))
    }

    method RunSlot(i: nat)
      requires i < 2 * model.layerNum + 1 && model.layerNum > 0 && BeforeSlot(i)
      modifies this`hiddenStates, this`residual, this`shared, this`topk, this`kv, this`attnBackend, this`written, this`steps
      modifies experts`job, experts.staging
      ensures BeforeSlot(i + 1)
    {
      hide Shared2, AtLayer, AtExperts, Commutes;
      var layerNum := model.layerNum;
      var overlapSteps := 2 * layerNum - 1;
      if i == 0 {
        SubmitAttn(0, 0);
        StaysAtLayer(1, 0);
      } else if i == overlapSteps + 1 {
        SubmitMoe(1, layerNum - 1);
        SyncMoe(1, layerNum - 1);
        StaysAtLayer(0, layerNum);
      } else {
        var attnBatch := i % 2;
        var moeBatch := 1 - attnBatch;
        var attnLayer := i / 2;
        var moeLayer := (i - 1) / 2;
        SubmitMoe(moeBatch, moeLayer);
        StaysAtLayer(attnBatch, attnLayer);
        label submitted:
        SubmitAttn(attnBatch, attnLayer);
        StaysAtSync@submitted(moeBatch, moeLayer);
        label attended:
        SyncMoe(moeBatch, moeLayer);
        StaysAtExperts@attended(attnBatch, attnLayer);
      }
    }

    twostate lemma StaysAtLayer(new mb: nat, new n: nat)
      requires mb < 2 && Shape() && old(Shape()) && Untouched(mb) && old(AtLayer(mb, n))
      ensures AtLayer(mb, n)
    {
      hide Shared2, Run, Commutes;
    }

    twostate lemma StaysAtExperts(new mb: nat, new n: nat)
      requires mb < 2 && Shape() && old(Shape()) && Untouched(mb) && old(AtExperts(mb, n))
      ensures AtExperts(mb, n)
    {
      hide Shared2, Run, Commutes, AfterAttention;
    }

    twostate lemma StaysAtSync(new mb: nat, new n: nat)
      requires mb < 2 && Shape() && old(Shape()) && Untouched(mb) && old(AtSync(mb, n)) && experts.job == old(experts.job)
      ensures AtSync(mb, n)
    {
      hide Shared2, Run, Commutes, AfterAttention;
    }

    /**
     One decode step, slot by slot: attention of one batch between submitting and collecting the experts of the other.
     It gives what two serial passes give, in either order, and leaves nothing behind.
     */
    method Forward() returns (out0: Tensor, out1: Tensor)
      requires |batches| == 2 && Apart(batches[0], batches[1]) && model.layerNum > 0 && Commutes(model.add)
      requires experts.model == model && experts.job == None
      modifies this, experts`job, experts.staging
      ensures out0 == Output(model, batches[0], old(kv), true) && out1 == Output(model, batches[1], old(kv), true)
      ensures kv == old(kv) + Written(model, batches[0], old(kv), true) + Written(model, batches[1], old(kv), true)
      ensures steps == Schedule(2 * model.layerNum + 1, model.layerNum) && Interleaved(steps, model.layerNum)
      ensures shared == [None, None] && topk == [None, None] && experts.job == None && attnBackend == old(attnBackend)
    {
      hide Shared2, AfterAttention, Run, Apart, Commutes, AtExperts, AtLayer, Schedule, Interleaved;
      assert Commutes(model.add) && Apart(batches[0], batches[1]);
      hiddenStates := [model.embed(batches[0].inputIds), model.embed(batches[1].inputIds)];
      residual, shared, topk := [None, None], [None, None], [None, None];
      kv0, written, steps := kv, [map[], map[]], [];
      StartOfStep();
      var layerNum := model.layerNum;
      var previousBackend := attnBackend;
      var overlapSteps := 2 * layerNum - 1;
      var i := 0;
      while i < overlapSteps + 2
        invariant 0 <= i <= overlapSteps + 2 && kv0 == old(kv) && BeforeSlot(i)
      {
        RunSlot(i);
        i := i + 1;
      }
      ScheduleInterleaves(layerNum);
      attnBackend := previousBackend;
      out0, out1 := Finish();
    }

    /** No attention follows the last layer, so what its shared experts have computed is added here. */
    method Finish() returns (out0: Tensor, out1: Tensor)
      requires Shape() && AtLayer(0, model.layerNum) && AtLayer(1, model.layerNum)
      modifies this`hiddenStates, this`shared
      ensures out0 == Output(model, batches[0], kv0, true) && out1 == Output(model, batches[1], kv0, true)
      ensures kv == kv0 + Written(model, batches[0], kv0, true) + Written(model, batches[1], kv0, true)
      ensures shared == [None, None] && topk == [None, None]
    {
      hide Shared2, Run, Commutes;
      SharedFacts(kv, kv0, written, batches);
      AddShared(0, model.layerNum);
      AddShared(1, model.layerNum);
      out0 := model.finalNorm(hiddenStates[0], residual[0]);
      out1 := model.finalNorm(hiddenStates[1], residual[1]);
    }

    lemma StartOfStep()
      requires |batches| == 2 && Apart(batches[0], batches[1]) && Commutes(model.add) && experts.model == model
      requires hiddenStates == [model.embed(batches[0].inputIds), model.embed(batches[1].inputIds)]
      requires residual == [None, None] && shared == [None, None] && topk == [None, None] && written == [map[], map[]] && kv == kv0
      requires steps == [] && experts.job == None
      ensures BeforeSlot(0)
    {
      assert kv0 + map[] + map[] == kv0;
    }
  }
}
