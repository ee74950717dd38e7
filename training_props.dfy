/**
 * Properties of the BPTT update of `NetworkSpec.Train`: which parameters each
 * phase writes, the order of the in-place updates (the backward pass reads the
 * already-updated `Wy` and `Wh`), the accumulated form of the hidden-layer
 * updates, and the cases in which training changes nothing.
 */
module TrainingProps {
  import opened Config
  import opened Activations
  import opened NetworkSpec

  // ---------------------------------------------------------------- frames

  /** The backward walk never writes the output layer. */
  lemma {:induction false} BackwardKeepsOutputLayer(q0: Params, hs: seq<seq<real>>, input: seq<seq<real>>, dOut: real, t: nat)
    requires WellFormed(q0) && IsMatrix(hs, SeqLen + 1, NumHidden) && IsInput(input) && t <= SeqLen
    ensures Backward(q0, hs, input, dOut, t).params.wy == q0.wy
    ensures Backward(q0, hs, input, dOut, t).params.biasY == q0.biasY
    decreases SeqLen - t
  {
    if t < SeqLen {
      BackwardKeepsOutputLayer(q0, hs, input, dOut, t + 1);
    }
  }

  /** The output-layer update moves `Wy[j][0]` and `bias_y[0]` by the rate times the output delta. */
  lemma OutputUpdateAt(p: Params, last: seq<real>, dOut: real, j: nat)
    requires WellFormed(p) && |last| == NumHidden && j < NumHidden
    ensures OutputUpdate(p, last, dOut).wy[j][0] == p.wy[j][0] + LearningRate * dOut * last[j]
    ensures OutputUpdate(p, last, dOut).biasY[0] == p.biasY[0] + LearningRate * dOut
  {
  }

  /**
   * `treinar` leaves the output layer exactly as its output-layer update made
   * it, from the prediction and the last hidden state of its forward pass.
   */
  lemma TrainOutputLayer(act: Act, p: Params, input: seq<seq<real>>, target: real)
    requires WellFormed(p) && IsInput(input)
    ensures var hs := Trajectory(act, p, input);
            var q0 := OutputUpdate(p, hs[SeqLen], OutputDelta(target, Predict(act, p, input)));
            Train(act, p, input, target).wy == q0.wy && Train(act, p, input, target).biasY == q0.biasY
  {
    var hs := Trajectory(act, p, input);
    var dOut := OutputDelta(target, Predict(act, p, input));
    BackwardKeepsOutputLayer(OutputUpdate(p, hs[SeqLen], dOut), hs, input, dOut, 0);
  }

  // ---------------------------------------------------------------- update order

  /**
   * At the last turn the error entering hidden unit `j` is `delta_saida` times
   * the UPDATED `Wy[j][0]`: it exceeds the textbook value `delta_saida * Wy[j][0]`
   * (old weight) by `rate * delta_saida^2 * h[j]`.
   */
  lemma LastStepUsesUpdatedWy(p: Params, hs: seq<seq<real>>, input: seq<seq<real>>, dOut: real, j: nat)
    requires WellFormed(p) && IsMatrix(hs, SeqLen + 1, NumHidden) && IsInput(input) && j < NumHidden
    ensures var q0 := OutputUpdate(p, hs[SeqLen], dOut);
            StepDeltas(q0, hs, input, dOut, SeqLen - 1)[j]
              == (dOut * p.wy[j][0] + LearningRate * dOut * dOut * hs[SeqLen][j]) * DTanh(hs[SeqLen][j])
  {
    var q0 := OutputUpdate(p, hs[SeqLen], dOut);
    var s := Backward(q0, hs, input, dOut, SeqLen);
    assert s.params == q0;
    assert Incoming(SeqLen - 1, s.params.wy, s.carried, dOut)[j] == dOut * q0.wy[j][0];
    assert q0.wy[j][0] == p.wy[j][0] + LearningRate * dOut * hs[SeqLen][j];
    assert dOut * (p.wy[j][0] + LearningRate * dOut * hs[SeqLen][j])
        == dOut * p.wy[j][0] + LearningRate * dOut * dOut * hs[SeqLen][j];
  }

  /** Row `h` of the carried error through the updated `Wh`, in terms of the weights before the update. */
  lemma {:induction false} RowDotAfterUpdate(q: Params, delta: seq<real>, x: seq<real>, prev: seq<real>, h: nat, n: nat)
    requires WellFormed(q) && |delta| == NumHidden && |x| == NumInputs && |prev| == NumHidden
    requires h < NumHidden && n <= NumHidden
    ensures RowDot(delta, ColumnUpdate(q, delta, x, prev).wh, h, n)
         == RowDot(delta, q.wh, h, n) + LearningRate * prev[h] * SumSquares(delta, n)
  {
    if n > 0 {
      RowDotAfterUpdate(q, delta, x, prev, h, n - 1);
      var w := ColumnUpdate(q, delta, x, prev).wh;
      assert w[h][n - 1] == q.wh[h][n - 1] + LearningRate * delta[n - 1] * prev[h];
      ExpandUpdatedProduct(delta[n - 1], q.wh[h][n - 1], prev[h]);
    }
  }

  lemma ExpandUpdatedProduct(d: real, w: real, x: real)
    ensures d * (w + LearningRate * d * x) == d * w + LearningRate * x * (d * d)
  {
  }

  /**
   * The carried error `erro_proximo` of step `t` is computed through `Wh` as it
   * is after that step's own updates, not through the weights before the step.
   */
  lemma CarriedErrorUsesUpdatedWh(q0: Params, hs: seq<seq<real>>, input: seq<seq<real>>, dOut: real, t: nat)
    requires WellFormed(q0) && IsMatrix(hs, SeqLen + 1, NumHidden) && IsInput(input) && t < SeqLen
    ensures var s := Backward(q0, hs, input, dOut, t);
            s.carried == CarriedError(StepDeltas(q0, hs, input, dOut, t), s.params.wh)
  {
    BackwardStep(q0, hs, input, dOut, t);
  }

  /**
   * Row `h` of the carried error through a column-updated `Wh`: the textbook
   * value through the weights before the update plus `rate * prev[h] * |delta|^2`.
   */
  lemma CarriedErrorAfterUpdate(q: Params, delta: seq<real>, x: seq<real>, prev: seq<real>, h: nat)
    requires WellFormed(q) && |delta| == NumHidden && |x| == NumInputs && |prev| == NumHidden && h < NumHidden
    ensures CarriedError(delta, ColumnUpdate(q, delta, x, prev).wh)[h]
         == RowDot(delta, q.wh, h, NumHidden) + LearningRate * prev[h] * SumSquares(delta, NumHidden)
  {
    RowDotAfterUpdate(q, delta, x, prev, h, NumHidden);
  }

  /** One backward step: the column updates by the step's deltas, then the carried error through the new `Wh`. */
  lemma BackwardStep(q0: Params, hs: seq<seq<real>>, input: seq<seq<real>>, dOut: real, t: nat)
    requires WellFormed(q0) && IsMatrix(hs, SeqLen + 1, NumHidden) && IsInput(input) && t < SeqLen
    ensures var delta := StepDeltas(q0, hs, input, dOut, t);
            var q := ColumnUpdate(Backward(q0, hs, input, dOut, t + 1).params, delta, input[t], hs[t]);
            Backward(q0, hs, input, dOut, t) == BackState(q, CarriedError(delta, q.wh))
  {
  }

  // ---------------------------------------------------------------- unit by unit

  /**
   * `q` with the weights of the hidden units `k < n` moved by `delta[k]`: the
   * state of the parameters part-way through one backward step, after its
   * first `n` units.
   */
  function PartialUpdate(q: Params, delta: seq<real>, x: seq<real>, prev: seq<real>, n: nat): (r: Params)
    requires WellFormed(q) && |delta| == NumHidden && |x| == NumInputs && |prev| == NumHidden && n <= NumHidden
    ensures WellFormed(r)
    ensures r.wy == q.wy && r.biasY == q.biasY
  {
    q.(biasH := seq(NumHidden, k requires 0 <= k < NumHidden =>
                  if k < n then Adjust(q.biasH[k], delta[k], 1.0) else q.biasH[k]),
       wx := seq(NumInputs, i requires 0 <= i < NumInputs =>
               seq(NumHidden, k requires 0 <= k < NumHidden =>
                 if k < n then Adjust(q.wx[i][k], delta[k], x[i]) else q.wx[i][k])),
       wh := seq(NumHidden, h requires 0 <= h < NumHidden =>
               seq(NumHidden, k requires 0 <= k < NumHidden =>
                 if k < n then Adjust(q.wh[h][k], delta[k], prev[h]) else q.wh[h][k])))
  }

  /** `q` with the weights of hidden unit `j` alone moved by `d`. */
  function UnitUpdate(q: Params, j: nat, d: real, x: seq<real>, prev: seq<real>): (r: Params)
    requires WellFormed(q) && j < NumHidden && |x| == NumInputs && |prev| == NumHidden
    ensures WellFormed(r)
    ensures r.wy == q.wy && r.biasY == q.biasY
  {
    q.(biasH := seq(NumHidden, k requires 0 <= k < NumHidden =>
                  if k == j then Adjust(q.biasH[k], d, 1.0) else q.biasH[k]),
       wx := seq(NumInputs, i requires 0 <= i < NumInputs =>
               seq(NumHidden, k requires 0 <= k < NumHidden =>
                 if k == j then Adjust(q.wx[i][k], d, x[i]) else q.wx[i][k])),
       wh := seq(NumHidden, h requires 0 <= h < NumHidden =>
               seq(NumHidden, k requires 0 <= k < NumHidden =>
                 if k == j then Adjust(q.wh[h][k], d, prev[h]) else q.wh[h][k])))
  }

  /** Before any unit the parameters are untouched. */
  lemma PartialUpdateStart(q: Params, delta: seq<real>, x: seq<real>, prev: seq<real>)
    requires WellFormed(q) && |delta| == NumHidden && |x| == NumInputs && |prev| == NumHidden
    ensures PartialUpdate(q, delta, x, prev, 0) == q
  {
    var r := PartialUpdate(q, delta, x, prev, 0);
    assert r.wx == q.wx by {
      forall i | 0 <= i < NumInputs ensures r.wx[i] == q.wx[i] { }
    }
    assert r.wh == q.wh by {
      forall h | 0 <= h < NumHidden ensures r.wh[h] == q.wh[h] { }
    }
  }

  /** Updating unit `n` after the units before it gives the state after the first `n + 1` units. */
  lemma PartialUpdateNext(q: Params, delta: seq<real>, x: seq<real>, prev: seq<real>, n: nat)
    requires WellFormed(q) && |delta| == NumHidden && |x| == NumInputs && |prev| == NumHidden && n < NumHidden
    ensures UnitUpdate(PartialUpdate(q, delta, x, prev, n), n, delta[n], x, prev) == PartialUpdate(q, delta, x, prev, n + 1)
  {
    var a := UnitUpdate(PartialUpdate(q, delta, x, prev, n), n, delta[n], x, prev);
    var b := PartialUpdate(q, delta, x, prev, n + 1);
    assert a.wx == b.wx by {
      forall i | 0 <= i < NumInputs ensures a.wx[i] == b.wx[i] { }
    }
    assert a.wh == b.wh by {
      forall h | 0 <= h < NumHidden ensures a.wh[h] == b.wh[h] { }
    }
  }

  /** After every unit the step's updates are complete. */
  lemma PartialUpdateEnd(q: Params, delta: seq<real>, x: seq<real>, prev: seq<real>)
    requires WellFormed(q) && |delta| == NumHidden && |x| == NumInputs && |prev| == NumHidden
    ensures PartialUpdate(q, delta, x, prev, NumHidden) == ColumnUpdate(q, delta, x, prev)
  {
    var a := PartialUpdate(q, delta, x, prev, NumHidden);
    var b := ColumnUpdate(q, delta, x, prev);
    assert a.wx == b.wx by {
      forall i | 0 <= i < NumInputs ensures a.wx[i] == b.wx[i] { }
    }
    assert a.wh == b.wh by {
      forall h | 0 <= h < NumHidden ensures a.wh[h] == b.wh[h] { }
    }
  }

  // ---------------------------------------------------------------- accumulated updates

  /** The hidden deltas of every backward step, indexed by turn. */
  function AllDeltas(q0: Params, hs: seq<seq<real>>, input: seq<seq<real>>, dOut: real): (ds: seq<seq<real>>)
    requires WellFormed(q0) && IsMatrix(hs, SeqLen + 1, NumHidden) && IsInput(input)
    ensures IsMatrix(ds, SeqLen, NumHidden)
  {
    seq(SeqLen, t requires 0 <= t < SeqLen => StepDeltas(q0, hs, input, dOut, t))
  }

  /** The sum over the turns `u` from `t` on of `ds[u][j] * v[u][k]`. */
  function WeightedSum(ds: seq<seq<real>>, v: seq<seq<real>>, k: nat, j: nat, t: nat): real
    requires IsMatrix(ds, SeqLen, NumHidden) && j < NumHidden && t <= SeqLen
    requires SeqLen <= |v| && forall u :: 0 <= u < SeqLen ==> k < |v[u]|
    decreases SeqLen - t
  {
    if t == SeqLen then 0.0 else ds[t][j] * v[t][k] + WeightedSum(ds, v, k, j, t + 1)
  }

  /** The sum over the turns `u` from `t` on of `ds[u][j]`. */
  function DeltaSum(ds: seq<seq<real>>, j: nat, t: nat): real
    requires IsMatrix(ds, SeqLen, NumHidden) && j < NumHidden && t <= SeqLen
    decreases SeqLen - t
  {
    if t == SeqLen then 0.0 else ds[t][j] + DeltaSum(ds, j, t + 1)
  }

  lemma WeightedSumStep(ds: seq<seq<real>>, v: seq<seq<real>>, k: nat, j: nat, t: nat)
    requires IsMatrix(ds, SeqLen, NumHidden) && j < NumHidden && t < SeqLen
    requires SeqLen <= |v| && forall u :: 0 <= u < SeqLen ==> k < |v[u]|
    ensures WeightedSum(ds, v, k, j, t) == ds[t][j] * v[t][k] + WeightedSum(ds, v, k, j, t + 1)
  {
  }

  lemma DeltaSumStep(ds: seq<seq<real>>, j: nat, t: nat)
    requires IsMatrix(ds, SeqLen, NumHidden) && j < NumHidden && t < SeqLen
    ensures DeltaSum(ds, j, t) == ds[t][j] + DeltaSum(ds, j, t + 1)
  {
  }

  /** The cells written by one backward step, for input row `x` and previous hidden state `prev`. */
  lemma ColumnUpdateAt(q: Params, delta: seq<real>, x: seq<real>, prev: seq<real>, i: nat, k: nat, j: nat)
    requires WellFormed(q) && |delta| == NumHidden && |x| == NumInputs && |prev| == NumHidden
    requires i < NumInputs && k < NumHidden && j < NumHidden
    ensures ColumnUpdate(q, delta, x, prev).wx[i][j] == Adjust(q.wx[i][j], delta[j], x[i])
    ensures ColumnUpdate(q, delta, x, prev).wh[k][j] == Adjust(q.wh[k][j], delta[j], prev[k])
    ensures ColumnUpdate(q, delta, x, prev).biasH[j] == Adjust(q.biasH[j], delta[j], 1.0)
  {
  }

  /** The cells written by backward step `t`, in terms of the parameters before it. */
  lemma BackwardStepCell(q0: Params, hs: seq<seq<real>>, input: seq<seq<real>>, dOut: real, t: nat, i: nat, k: nat, j: nat)
    requires WellFormed(q0) && IsMatrix(hs, SeqLen + 1, NumHidden) && IsInput(input) && t < SeqLen
    requires i < NumInputs && k < NumHidden && j < NumHidden
    ensures var before := Backward(q0, hs, input, dOut, t + 1).params;
            var after := Backward(q0, hs, input, dOut, t).params;
            var delta := StepDeltas(q0, hs, input, dOut, t);
            && after.wx[i][j] == Adjust(before.wx[i][j], delta[j], input[t][i])
            && after.wh[k][j] == Adjust(before.wh[k][j], delta[j], hs[t][k])
            && after.biasH[j] == Adjust(before.biasH[j], delta[j], 1.0)
  {
    var before := Backward(q0, hs, input, dOut, t + 1).params;
    var delta := StepDeltas(q0, hs, input, dOut, t);
    BackwardStep(q0, hs, input, dOut, t);
    ColumnUpdateAt(before, delta, input[t], hs[t], i, k, j);
  }

  lemma Combine(post: real, before: real, w: real, acc: real, d: real, x: real, g: real)
    requires before == w + LearningRate * acc
    requires post == Adjust(before, d, x)
    requires g == d * x + acc
    ensures post == w + LearningRate * g
  {
  }

  lemma CombineBias(post: real, before: real, w: real, acc: real, d: real, g: real)
    requires before == w + LearningRate * acc
    requires post == Adjust(before, d, 1.0)
    requires g == d + acc
    ensures post == w + LearningRate * g
  {
  }

  /**
   * A cell written once per backward step: when every `cells[u]` is
   * `cells[u + 1]` moved by `ds[u][j]` times `v[u][k]`, each `cells[t]` is the
   * value before the walk, `cells[SeqLen]`, plus the rate times the weighted
   * sum of the steps from `t` on.
   */
  lemma {:induction false} AccumulateCells(cells: seq<real>, ds: seq<seq<real>>, v: seq<seq<real>>, k: nat, j: nat, t: nat)
    requires |cells| == SeqLen + 1 && IsMatrix(ds, SeqLen, NumHidden) && j < NumHidden && t <= SeqLen
    requires SeqLen <= |v| && forall u :: 0 <= u < SeqLen ==> k < |v[u]|
    requires forall u :: t <= u < SeqLen ==> cells[u] == Adjust(cells[u + 1], ds[u][j], v[u][k])
    ensures cells[t] == cells[SeqLen] + LearningRate * WeightedSum(ds, v, k, j, t)
    decreases SeqLen - t
  {
    if t < SeqLen {
      AccumulateCells(cells, ds, v, k, j, t + 1);
      WeightedSumStep(ds, v, k, j, t);
      Combine(cells[t], cells[t + 1], cells[SeqLen], WeightedSum(ds, v, k, j, t + 1), ds[t][j], v[t][k], WeightedSum(ds, v, k, j, t));
    }
  }

  /** The same for a bias, whose input is the constant 1. */
  lemma {:induction false} AccumulateBiasCells(cells: seq<real>, ds: seq<seq<real>>, j: nat, t: nat)
    requires |cells| == SeqLen + 1 && IsMatrix(ds, SeqLen, NumHidden) && j < NumHidden && t <= SeqLen
    requires forall u :: t <= u < SeqLen ==> cells[u] == Adjust(cells[u + 1], ds[u][j], 1.0)
    ensures cells[t] == cells[SeqLen] + LearningRate * DeltaSum(ds, j, t)
    decreases SeqLen - t
  {
    if t < SeqLen {
      AccumulateBiasCells(cells, ds, j, t + 1);
      DeltaSumStep(ds, j, t);
      CombineBias(cells[t], cells[t + 1], cells[SeqLen], DeltaSum(ds, j, t + 1), ds[t][j], DeltaSum(ds, j, t));
    }
  }

  /**
   * The in-place updates of `Wx` during the backward walk add up: every
   * `Wx[i][j]` ends at its value before the walk plus the rate times the sum
   * over the turns of `delta_t[j] * input[t][i]`.
   */
  lemma BackwardAccumulatesWx(q0: Params, hs: seq<seq<real>>, input: seq<seq<real>>, dOut: real, i: nat, j: nat)
    requires WellFormed(q0) && IsMatrix(hs, SeqLen + 1, NumHidden) && IsInput(input)
    requires i < NumInputs && j < NumHidden
    ensures Backward(q0, hs, input, dOut, 0).params.wx[i][j]
         == q0.wx[i][j] + LearningRate * WeightedSum(AllDeltas(q0, hs, input, dOut), input, i, j, 0)
  {
    var ds := AllDeltas(q0, hs, input, dOut);
    var cells := seq(SeqLen + 1, t requires 0 <= t <= SeqLen => Backward(q0, hs, input, dOut, t).params.wx[i][j]);
    forall u | 0 <= u < SeqLen ensures cells[u] == Adjust(cells[u + 1], ds[u][j], input[u][i]) {
      BackwardStepCell(q0, hs, input, dOut, u, i, 0, j);
      assert ds[u] == StepDeltas(q0, hs, input, dOut, u);
    }
    AccumulateCells(cells, ds, input, i, j, 0);
  }

  /**
   * The in-place updates of `Wh[k][j]` add up in the same way, with the
   * per-turn contributions `delta_t[j] * h_t[k]`.
   */
  lemma BackwardAccumulatesWh(q0: Params, hs: seq<seq<real>>, input: seq<seq<real>>, dOut: real, k: nat, j: nat)
    requires WellFormed(q0) && IsMatrix(hs, SeqLen + 1, NumHidden) && IsInput(input)
    requires k < NumHidden && j < NumHidden
    ensures Backward(q0, hs, input, dOut, 0).params.wh[k][j]
         == q0.wh[k][j] + LearningRate * WeightedSum(AllDeltas(q0, hs, input, dOut), hs, k, j, 0)
  {
    var ds := AllDeltas(q0, hs, input, dOut);
    var cells := seq(SeqLen + 1, t requires 0 <= t <= SeqLen => Backward(q0, hs, input, dOut, t).params.wh[k][j]);
    forall u | 0 <= u < SeqLen ensures cells[u] == Adjust(cells[u + 1], ds[u][j], hs[u][k]) {
      BackwardStepCell(q0, hs, input, dOut, u, 0, k, j);
      assert ds[u] == StepDeltas(q0, hs, input, dOut, u);
    }
    AccumulateCells(cells, ds, hs, k, j, 0);
  }

  /** The in-place updates of `bias_h[j]` add up to the rate times the sum of the step deltas. */
  lemma BackwardAccumulatesBias(q0: Params, hs: seq<seq<real>>, input: seq<seq<real>>, dOut: real, j: nat)
    requires WellFormed(q0) && IsMatrix(hs, SeqLen + 1, NumHidden) && IsInput(input)
    requires j < NumHidden
    ensures Backward(q0, hs, input, dOut, 0).params.biasH[j]
         == q0.biasH[j] + LearningRate * DeltaSum(AllDeltas(q0, hs, input, dOut), j, 0)
  {
    var ds := AllDeltas(q0, hs, input, dOut);
    var cells := seq(SeqLen + 1, t requires 0 <= t <= SeqLen => Backward(q0, hs, input, dOut, t).params.biasH[j]);
    forall u | 0 <= u < SeqLen ensures cells[u] == Adjust(cells[u + 1], ds[u][j], 1.0) {
      BackwardStepCell(q0, hs, input, dOut, u, 0, 0, j);
      assert ds[u] == StepDeltas(q0, hs, input, dOut, u);
    }
    AccumulateBiasCells(cells, ds, j, 0);
  }

  // ---------------------------------------------------------------- no-op cases

  lemma {:induction false} RowDotZeros(w: seq<seq<real>>, h: nat, n: nat)
    requires h < |w| && n <= |w[h]| && n <= NumHidden
    ensures RowDot(Zeros(NumHidden), w, h, n) == 0.0
  {
    if n > 0 {
      RowDotZeros(w, h, n - 1);
    }
  }

  /** With a zero output delta every hidden delta is zero and the backward walk changes nothing. */
  lemma {:induction false} ZeroDeltaBackward(p: Params, hs: seq<seq<real>>, input: seq<seq<real>>, t: nat)
    requires WellFormed(p) && IsMatrix(hs, SeqLen + 1, NumHidden) && IsInput(input) && t <= SeqLen
    ensures Backward(p, hs, input, 0.0, t) == BackState(p, Zeros(NumHidden))
    ensures t < SeqLen ==> StepDeltas(p, hs, input, 0.0, t) == Zeros(NumHidden)
    decreases SeqLen - t
  {
    if t < SeqLen {
      ZeroDeltaBackward(p, hs, input, t + 1);
      var err := Incoming(t, p.wy, Zeros(NumHidden), 0.0);
      assert err == Zeros(NumHidden);
      var delta := HiddenDeltas(err, hs[t + 1]);
      assert delta == Zeros(NumHidden);
      var q := ColumnUpdate(p, delta, input[t], hs[t]);
      assert q.biasH == p.biasH;
      assert q.wx == p.wx by {
        forall i | 0 <= i < NumInputs ensures q.wx[i] == p.wx[i] { }
      }
      assert q.wh == p.wh by {
        forall k | 0 <= k < NumHidden ensures q.wh[k] == p.wh[k] { }
      }
      assert q == p;
      forall k | 0 <= k < NumHidden ensures CarriedError(delta, q.wh)[k] == 0.0 {
        RowDotZeros(q.wh, k, NumHidden);
      }
      assert CarriedError(delta, q.wh) == Zeros(NumHidden);
    }
  }

  /** With a zero output delta the output-layer update changes nothing. */
  lemma ZeroDeltaOutputUpdate(p: Params, last: seq<real>)
    requires WellFormed(p) && |last| == NumHidden
    ensures OutputUpdate(p, last, 0.0) == p
  {
    var q := OutputUpdate(p, last, 0.0);
    forall j | 0 <= j < NumHidden ensures q.wy[j] == p.wy[j] {
      assert |q.wy[j]| == |p.wy[j]| == 1;
      assert q.wy[j][0] == p.wy[j][0];
    }
    assert q.biasY[0] == p.biasY[0];
    assert q.wy == p.wy;
  }

  /** Training on a label equal to the current prediction leaves every parameter unchanged. */
  lemma TrainAtPredictionIsNoOp(act: Act, p: Params, input: seq<seq<real>>)
    requires WellFormed(p) && IsInput(input)
    ensures Train(act, p, input, Predict(act, p, input)) == p
  {
    var hs := Trajectory(act, p, input);
    var pred := Predict(act, p, input);
    assert OutputDelta(pred, pred) == 0.0;
    ZeroDeltaOutputUpdate(p, hs[SeqLen]);
    ZeroDeltaBackward(p, hs, input, 0);
  }

  /**
   * With range-respecting activations the output bias is left unchanged
   * exactly when the label equals the prediction; any other label moves it.
   */
  lemma TrainMovesOutputBiasIff(act: Act, p: Params, input: seq<seq<real>>, target: real)
    requires InRange(act) && WellFormed(p) && IsInput(input)
    ensures Train(act, p, input, target).biasY == p.biasY <==> target == Predict(act, p, input)
  {
    var pred := Predict(act, p, input);
    if target == pred {
      TrainAtPredictionIsNoOp(act, p, input);
    } else {
      var hs := Trajectory(act, p, input);
      var dOut := OutputDelta(target, pred);
      assert dOut != 0.0 by {
        PredictInRange(act, p, input);
        DSigmoidRange(pred);
        if dOut == 0.0 {
          ZeroProduct(DSigmoid(pred), target - pred);
        }
      }
      assert Train(act, p, input, target).biasY[0] == Adjust(p.biasY[0], dOut, 1.0) by {
        TrainOutputLayer(act, p, input, target);
      }
      AdjustMoves(p.biasY[0], dOut, 1.0);
    }
  }

  /** A gradient step with a nonzero delta and a nonzero input moves the weight. */
  lemma AdjustMoves(w: real, d: real, x: real)
    requires d != 0.0 && x != 0.0
    ensures Adjust(w, d, x) != w
  {
    if d * x == 0.0 {
      ZeroProduct(d, x);
    }
  }
}
