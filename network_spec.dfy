/**
 * Pure specification of the recurrent network of the battle predictor: its
 * parameter set, the forward recurrence, the output probability, the
 * backpropagation-through-time (BPTT) update with its in-place ordering, and
 * the random initialiser. The class `Network.Rnn` is proved against these
 * functions.
 */
module NetworkSpec {
  import opened Config
  import opened Activations

  /** `m` has `rows` rows of `cols` entries each. */
  predicate IsMatrix(m: seq<seq<real>>, rows: nat, cols: nat) {
    |m| == rows && forall i :: 0 <= i < rows ==> |m[i]| == cols
  }

  /** An input sequence: one feature row of `NumInputs` entries per turn. */
  predicate IsInput(input: seq<seq<real>>) {
    IsMatrix(input, SeqLen, NumInputs)
  }

  /** The trainable parameters of the network (the fields `Wx`, `Wh`, `Wy`, `bias_h`, `bias_y`). */
  datatype Params = Params(
    wx: seq<seq<real>>,
    wh: seq<seq<real>>,
    wy: seq<seq<real>>,
    biasH: seq<real>,
    biasY: seq<real>)

  /** Every parameter matrix and vector has its fixed dimensions. */
  predicate WellFormed(p: Params) {
    && IsMatrix(p.wx, NumInputs, NumHidden)
    && IsMatrix(p.wh, NumHidden, NumHidden)
    && IsMatrix(p.wy, NumHidden, NumOutputs)
    && |p.biasH| == NumHidden
    && |p.biasY| == NumOutputs
  }

  function Zeros(n: nat): (z: seq<real>)
    ensures |z| == n && forall k :: 0 <= k < n ==> z[k] == 0.0
  {
    seq(n, _ => 0.0)
  }

  // ---------------------------------------------------------------- sums

  /** The sum of `x[i] * w[i][j]` over the first `n` rows, accumulated from row 0 upwards. */
  function ColumnDot(x: seq<real>, w: seq<seq<real>>, j: nat, n: nat): real
    requires n <= |x| && n <= |w|
    requires forall i :: 0 <= i < n ==> j < |w[i]|
  {
    if n == 0 then 0.0 else ColumnDot(x, w, j, n - 1) + x[n - 1] * w[n - 1][j]
  }

  /** The sum of `d[j] * w[h][j]` over the first `n` columns of row `h`. */
  function RowDot(d: seq<real>, w: seq<seq<real>>, h: nat, n: nat): real
    requires n <= |d| && h < |w| && n <= |w[h]|
  {
    if n == 0 then 0.0 else RowDot(d, w, h, n - 1) + d[n - 1] * w[h][n - 1]
  }

  /** The sum of `d[j] * d[j]` over the first `n` entries. */
  function SumSquares(d: seq<real>, n: nat): real
    requires n <= |d|
  {
    if n == 0 then 0.0 else SumSquares(d, n - 1) + d[n - 1] * d[n - 1]
  }

  // ---------------------------------------------------------------- forward pass

  /** The activation of hidden unit `j` from input row `x` and the previous hidden state `prev`. */
  function PreActivation(p: Params, x: seq<real>, prev: seq<real>, j: nat): real
    requires WellFormed(p) && |x| == NumInputs && |prev| == NumHidden && j < NumHidden
  {
    p.biasH[j] + ColumnDot(x, p.wx, j, NumInputs) + ColumnDot(prev, p.wh, j, NumHidden)
  }

  /** One step of the recurrence: the next hidden state. */
  function Step(act: Act, p: Params, x: seq<real>, prev: seq<real>): (next: seq<real>)
    requires WellFormed(p) && |x| == NumInputs && |prev| == NumHidden
    ensures |next| == NumHidden
  {
    seq(NumHidden, j requires 0 <= j < NumHidden => act.tanh(PreActivation(p, x, prev, j)))
  }

  /** The hidden state after the first `t` turns; the state before turn 0 is all zeros. */
  function HiddenAt(act: Act, p: Params, input: seq<seq<real>>, t: nat): (h: seq<real>)
    requires WellFormed(p) && IsInput(input) && t <= SeqLen
    ensures |h| == NumHidden
  {
    if t == 0 then Zeros(NumHidden) else Step(act, p, input[t - 1], HiddenAt(act, p, input, t - 1))
  }

  /** The hidden trajectory a forward pass leaves in `estados_ocultos`: rows 0..SeqLen. */
  function Trajectory(act: Act, p: Params, input: seq<seq<real>>): (hs: seq<seq<real>>)
    requires WellFormed(p) && IsInput(input)
    ensures IsMatrix(hs, SeqLen + 1, NumHidden)
  {
    seq(SeqLen + 1, t requires 0 <= t <= SeqLen => HiddenAt(act, p, input, t))
  }

  /** The activation of the output unit from the last hidden state. */
  function OutputActivation(p: Params, last: seq<real>): real
    requires WellFormed(p) && |last| == NumHidden
  {
    p.biasY[0] + ColumnDot(last, p.wy, 0, NumHidden)
  }

  /** The probability that the hero wins, as returned by `forward`. */
  function Predict(act: Act, p: Params, input: seq<seq<real>>): real
    requires WellFormed(p) && IsInput(input)
  {
    act.sigmoid(OutputActivation(p, HiddenAt(act, p, input, SeqLen)))
  }

  /** Row 0 of the trajectory is zero, every later row is the tanh step of the row before. */
  lemma TrajectoryRecurrence(act: Act, p: Params, input: seq<seq<real>>)
    requires WellFormed(p) && IsInput(input)
    ensures Trajectory(act, p, input)[0] == Zeros(NumHidden)
    ensures forall t, j :: 0 <= t < SeqLen && 0 <= j < NumHidden ==>
      Trajectory(act, p, input)[t + 1][j]
        == act.tanh(p.biasH[j]
             + ColumnDot(input[t], p.wx, j, NumInputs)
             + ColumnDot(Trajectory(act, p, input)[t], p.wh, j, NumHidden))
  {
    var hs := Trajectory(act, p, input);
    forall t, j | 0 <= t < SeqLen && 0 <= j < NumHidden
      ensures hs[t + 1][j] == act.tanh(PreActivation(p, input[t], hs[t], j))
    {
      assert hs[t + 1] == Step(act, p, input[t], HiddenAt(act, p, input, t));
    }
  }

  /** With range-respecting activations every hidden state lies in (-1, 1). */
  lemma TrajectoryInRange(act: Act, p: Params, input: seq<seq<real>>)
    requires InRange(act) && WellFormed(p) && IsInput(input)
    ensures forall t, j :: 0 <= t <= SeqLen && 0 <= j < NumHidden ==>
      -1.0 < Trajectory(act, p, input)[t][j] < 1.0
  {
    var hs := Trajectory(act, p, input);
    forall t, j | 0 <= t <= SeqLen && 0 <= j < NumHidden
      ensures -1.0 < hs[t][j] < 1.0
    {
      if t > 0 {
        assert hs[t][j] == act.tanh(PreActivation(p, input[t - 1], HiddenAt(act, p, input, t - 1), j));
      }
    }
  }

  /** With range-respecting activations the prediction is a probability in (0, 1). */
  lemma PredictInRange(act: Act, p: Params, input: seq<seq<real>>)
    requires InRange(act) && WellFormed(p) && IsInput(input)
    ensures 0.0 < Predict(act, p, input) < 1.0
  {
  }

  // ---------------------------------------------------------------- BPTT

  /** The error signal of the output unit: squared-error gradient through the sigmoid. */
  function OutputDelta(target: real, predicted: real): real {
    (target - predicted) * DSigmoid(predicted)
  }

  /** One gradient step on a weight `w`: the rate times the unit's delta `d` times the weight's input `x`. */
  function Adjust(w: real, d: real, x: real): real {
    w + LearningRate * d * x
  }

  /** The output-layer update: `Wy[j][0]` and `bias_y[0]` move by the output delta. */
  function OutputUpdate(p: Params, last: seq<real>, dOut: real): (q: Params)
    requires WellFormed(p) && |last| == NumHidden
    ensures WellFormed(q)
    ensures q.wx == p.wx && q.wh == p.wh && q.biasH == p.biasH
  {
    p.(wy := seq(NumHidden, j requires 0 <= j < NumHidden => [Adjust(p.wy[j][0], dOut, last[j])]),
       biasY := [Adjust(p.biasY[0], dOut, 1.0)])
  }

  /**
   * The error entering the hidden layer at turn `t`: at the last turn it comes
   * from the output unit through the (already updated) `Wy`, before that it is
   * the error carried back from turn `t + 1`.
   */
  function Incoming(t: nat, wy: seq<seq<real>>, carried: seq<real>, dOut: real): (err: seq<real>)
    requires IsMatrix(wy, NumHidden, NumOutputs) && |carried| == NumHidden
    ensures |err| == NumHidden
  {
    if t == SeqLen - 1 then seq(NumHidden, j requires 0 <= j < NumHidden => dOut * wy[j][0]) else carried
  }

  /** The hidden deltas: incoming error times the tanh derivative at the unit's output. */
  function HiddenDeltas(err: seq<real>, h: seq<real>): (delta: seq<real>)
    requires |err| == NumHidden && |h| == NumHidden
    ensures |delta| == NumHidden
  {
    seq(NumHidden, j requires 0 <= j < NumHidden => err[j] * DTanh(h[j]))
  }

  /**
   * The updates of one backward step: column `j` of `Wx` and `Wh` and
   * `bias_h[j]` move by `delta[j]`, with input row `x` and previous hidden state `prev`.
   */
  function ColumnUpdate(q: Params, delta: seq<real>, x: seq<real>, prev: seq<real>): (r: Params)
    requires WellFormed(q) && |delta| == NumHidden && |x| == NumInputs && |prev| == NumHidden
    ensures WellFormed(r)
    ensures r.wy == q.wy && r.biasY == q.biasY
  {
    q.(biasH := seq(NumHidden, j requires 0 <= j < NumHidden => Adjust(q.biasH[j], delta[j], 1.0)),
       wx := seq(NumInputs, i requires 0 <= i < NumInputs =>
               seq(NumHidden, j requires 0 <= j < NumHidden => Adjust(q.wx[i][j], delta[j], x[i]))),
       wh := seq(NumHidden, h requires 0 <= h < NumHidden =>
               seq(NumHidden, j requires 0 <= j < NumHidden => Adjust(q.wh[h][j], delta[j], prev[h]))))
  }

  /** The error carried to the previous turn (`erro_proximo`), through the recurrent weights `wh`. */
  function CarriedError(delta: seq<real>, wh: seq<seq<real>>): (e: seq<real>)
    requires |delta| == NumHidden && IsMatrix(wh, NumHidden, NumHidden)
    ensures |e| == NumHidden
  {
    seq(NumHidden, h requires 0 <= h < NumHidden => RowDot(delta, wh, h, NumHidden))
  }

  /** The parameters and the carried error after the backward steps SeqLen-1 down to `t`. */
  datatype BackState = BackState(params: Params, carried: seq<real>)

  /**
   * The backward walk from the last turn down to turn `t`, starting from the
   * parameters `q0` produced by the output-layer update and from a zero
   * carried error. `hs` is the trajectory of the forward pass.
   */
  function Backward(q0: Params, hs: seq<seq<real>>, input: seq<seq<real>>, dOut: real, t: nat): (s: BackState)
    requires WellFormed(q0) && IsMatrix(hs, SeqLen + 1, NumHidden) && IsInput(input) && t <= SeqLen
    ensures WellFormed(s.params) && |s.carried| == NumHidden
    decreases SeqLen - t
  {
    if t == SeqLen then BackState(q0, Zeros(NumHidden))
    else
      var s := Backward(q0, hs, input, dOut, t + 1);
      var delta := HiddenDeltas(Incoming(t, s.params.wy, s.carried, dOut), hs[t + 1]);
      var q := ColumnUpdate(s.params, delta, input[t], hs[t]);
      BackState(q, CarriedError(delta, q.wh))
  }

  /** The hidden deltas of backward step `t`. */
  function StepDeltas(q0: Params, hs: seq<seq<real>>, input: seq<seq<real>>, dOut: real, t: nat): (delta: seq<real>)
    requires WellFormed(q0) && IsMatrix(hs, SeqLen + 1, NumHidden) && IsInput(input) && t < SeqLen
    ensures |delta| == NumHidden
  {
    var s := Backward(q0, hs, input, dOut, t + 1);
    HiddenDeltas(Incoming(t, s.params.wy, s.carried, dOut), hs[t + 1])
  }

  /** The parameters after one call of `treinar` on `input` with label `target`. */
  function Train(act: Act, p: Params, input: seq<seq<real>>, target: real): (r: Params)
    requires WellFormed(p) && IsInput(input)
    ensures WellFormed(r)
  {
    var hs := Trajectory(act, p, input);
    var dOut := OutputDelta(target, Predict(act, p, input));
    Backward(OutputUpdate(p, hs[SeqLen], dOut), hs, input, dOut, 0).params
  }

  // ---------------------------------------------------------------- initialisation

  /** Where the draws for `Wy` and `bias_h` start: after those of `Wx` and `Wh`. */
  const OutputDrawsStart: nat := NumInputs * NumHidden + NumHidden * NumHidden

  /** The number of `rand()` calls `inicializar_rnn` makes. */
  const InitDraws: nat := OutputDrawsStart + NumHidden * (NumOutputs + 1) + 1

  /** Every element of `draws` is a value `rand()` can return. */
  predicate AreDraws(draws: seq<int>) {
    forall k :: 0 <= k < |draws| ==> IsDraw(draws[k])
  }

  /**
   * The parameters `inicializar_rnn` sets from its successive draws: `Wx` row
   * by row, then `Wh` row by row, then for each hidden unit its output weights
   * followed by its bias, and last `bias_y[0]`; each weight is `aleatorio()` of its draw.
   */
  function InitialParams(draws: seq<int>): (p: Params)
    requires |draws| == InitDraws && AreDraws(draws)
    ensures WellFormed(p)
  {
    Params(
      seq(NumInputs, i requires 0 <= i < NumInputs =>
        seq(NumHidden, j requires 0 <= j < NumHidden => Random(draws[i * NumHidden + j]))),
      seq(NumHidden, i requires 0 <= i < NumHidden =>
        seq(NumHidden, j requires 0 <= j < NumHidden => Random(draws[NumInputs * NumHidden + i * NumHidden + j]))),
      seq(NumHidden, i requires 0 <= i < NumHidden =>
        seq(NumOutputs, j requires 0 <= j < NumOutputs => Random(draws[OutputDrawsStart + i * (NumOutputs + 1) + j]))),
      seq(NumHidden, i requires 0 <= i < NumHidden => Random(draws[OutputDrawsStart + i * (NumOutputs + 1) + NumOutputs])),
      [Random(draws[InitDraws - 1])])
  }

  /** Every parameter lies in [-1, 1]. */
  predicate InUnitRange(p: Params)
    requires WellFormed(p)
  {
    && (forall i, j :: 0 <= i < NumInputs && 0 <= j < NumHidden ==> -1.0 <= p.wx[i][j] <= 1.0)
    && (forall i, j :: 0 <= i < NumHidden && 0 <= j < NumHidden ==> -1.0 <= p.wh[i][j] <= 1.0)
    && (forall i, j :: 0 <= i < NumHidden && 0 <= j < NumOutputs ==> -1.0 <= p.wy[i][j] <= 1.0)
    && (forall j :: 0 <= j < NumHidden ==> -1.0 <= p.biasH[j] <= 1.0)
    && (forall j :: 0 <= j < NumOutputs ==> -1.0 <= p.biasY[j] <= 1.0)
  }

  /** After initialisation every parameter lies in [-1, 1]. */
  lemma InitialParamsInRange(draws: seq<int>)
    requires |draws| == InitDraws && AreDraws(draws)
    ensures InUnitRange(InitialParams(draws))
  {
    var p := InitialParams(draws);
    forall i, j | 0 <= i < NumInputs && 0 <= j < NumHidden ensures -1.0 <= p.wx[i][j] <= 1.0 {
      assert p.wx[i][j] == Random(draws[i * NumHidden + j]);
    }
    forall i, j | 0 <= i < NumHidden && 0 <= j < NumHidden ensures -1.0 <= p.wh[i][j] <= 1.0 {
      assert p.wh[i][j] == Random(draws[NumInputs * NumHidden + i * NumHidden + j]);
    }
    forall i, j | 0 <= i < NumHidden && 0 <= j < NumOutputs ensures -1.0 <= p.wy[i][j] <= 1.0 {
      assert p.wy[i][j] == Random(draws[OutputDrawsStart + i * (NumOutputs + 1) + j]);
    }
  }
}
