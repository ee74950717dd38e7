/**
 * The network as the program keeps it: one `RNN` record whose weight tables,
 * biases and table of hidden states (`estados_ocultos`) are updated in place by
 * `inicializar_rnn`, `forward` and `treinar`. The class holds those tables as
 * arrays of the program's sizes; `Pars()` and `Hidden()` read them back as the
 * values of `NetworkSpec`, and every method is proved against the functions
 * there.
 */
module Network {
  import opened Config
  import opened Activations
  import opened NetworkSpec
  import opened TrainingProps

  /** The contents of a two-dimensional array, row by row. */
  ghost function Mat(a: array2<real>): (m: seq<seq<real>>)
    reads a
    ensures IsMatrix(m, a.Length0, a.Length1)
  {
    seq(a.Length0, i requires 0 <= i < a.Length0 reads a =>
      seq(a.Length1, j requires 0 <= j < a.Length1 reads a => a[i, j]))
  }

  /** Two tables with the same cells are the same table. */
  lemma MatFromCells(a: array2<real>, m: seq<seq<real>>)
    requires IsMatrix(m, a.Length0, a.Length1)
    requires forall i, j :: 0 <= i < a.Length0 && 0 <= j < a.Length1 ==> a[i, j] == m[i][j]
    ensures Mat(a) == m
  {
    forall i | 0 <= i < a.Length0 ensures Mat(a)[i] == m[i] {
      RowFromCells(a, i, m[i]);
    }
  }

  /** One row of a table, from its cells. */
  lemma RowFromCells(a: array2<real>, i: nat, r: seq<real>)
    requires i < a.Length0 && |r| == a.Length1
    requires forall j :: 0 <= j < a.Length1 ==> a[i, j] == r[j]
    ensures Mat(a)[i] == r
  {
  }

  /**
   * `acc` plus the dot product of row `x` with column `j` of `w`, summed in
   * index order as the activation loops of `forward` do.
   */
  method AddInputColumn(acc: real, x: seq<real>, w: array2<real>, j: nat) returns (r: real)
    requires |x| == w.Length0 && j < w.Length1
    ensures r == acc + ColumnDot(x, Mat(w), j, |x|)
  {
    r := acc;
    for i := 0 to |x|
      invariant r == acc + ColumnDot(x, Mat(w), j, i)
    {
      r := r + x[i] * w[i, j];
    }
  }

  /** The same, with the row taken from row `t` of the table `src`. */
  method AddRowColumn(acc: real, src: array2<real>, t: nat, w: array2<real>, j: nat) returns (r: real)
    requires t < src.Length0 && src.Length1 == w.Length0 && j < w.Length1
    ensures r == acc + ColumnDot(Mat(src)[t], Mat(w), j, src.Length1)
  {
    r := acc;
    for h := 0 to src.Length1
      invariant r == acc + ColumnDot(Mat(src)[t], Mat(w), j, h)
    {
      r := r + src[t, h] * w[h, j];
    }
  }

  /** The record `RNN`: weights, biases and the hidden states of the last forward pass. */
  class Rnn {
    /** Input weights `Wx[NUM_ENTRADAS][NUM_OCULTOS]`. */
    const Wx: array2<real>
    /** Recurrent weights `Wh[NUM_OCULTOS][NUM_OCULTOS]`. */
    const Wh: array2<real>
    /** Output weights `Wy[NUM_OCULTOS][NUM_SAIDAS]`. */
    const Wy: array2<real>
    /** Hidden biases `bias_h[NUM_OCULTOS]`. */
    const biasH: array<real>
    /** Output bias `bias_y[NUM_SAIDAS]`. */
    const biasY: array<real>
    /** `estados_ocultos[SEQ_LEN + 1][NUM_OCULTOS]`: row 0 is the cleared memory, row `t + 1` the state after turn `t`. */
    const hidden: array2<real>

    /** The tables have the program's sizes and are separate storage. */
    predicate Valid() {
      && Wx.Length0 == NumInputs && Wx.Length1 == NumHidden
      && Wh.Length0 == NumHidden && Wh.Length1 == NumHidden
      && Wy.Length0 == NumHidden && Wy.Length1 == NumOutputs
      && biasH.Length == NumHidden && biasY.Length == NumOutputs
      && hidden.Length0 == SeqLen + 1 && hidden.Length1 == NumHidden
      && Wx != Wh && Wx != Wy && Wx != hidden && Wh != Wy && Wh != hidden && Wy != hidden
      && biasH != biasY
    }

    /** The parameters, as a value. */
    ghost function Pars(): (p: Params)
      requires Valid()
      reads Wx, Wh, Wy, biasH, biasY
      ensures WellFormed(p)
    {
      Params(Mat(Wx), Mat(Wh), Mat(Wy), biasH[..], biasY[..])
    }

    /** The table of hidden states, as a value. */
    ghost function Hidden(): (hs: seq<seq<real>>)
      requires Valid()
      reads hidden
      ensures IsMatrix(hs, SeqLen + 1, NumHidden)
    {
      Mat(hidden)
    }

    /** A record with storage of the program's sizes; `inicializar_rnn` gives the weights their values. */
    constructor ()
      ensures Valid()
      ensures fresh(Wx) && fresh(Wh) && fresh(Wy) && fresh(biasH) && fresh(biasY) && fresh(hidden)
    {
      Wx := new real[NumInputs, NumHidden];
      Wh := new real[NumHidden, NumHidden];
      Wy := new real[NumHidden, NumOutputs];
      biasH := new real[NumHidden];
      biasY := new real[NumOutputs];
      hidden := new real[SeqLen + 1, NumHidden];
    }

    /**
     * `inicializar_rnn`: every weight and bias becomes `aleatorio()` of the next
     * draw of `rand()`, in the program's order (`Wx` row by row, `Wh` row by
     * row, then each hidden unit's output weight and bias, then `bias_y[0]`).
     */
    method Initialize(draws: seq<int>)
      requires Valid() && |draws| == InitDraws && AreDraws(draws)
      modifies Wx, Wh, Wy, biasH, biasY
      ensures Pars() == InitialParams(draws)
    {
      ghost var p := InitialParams(draws);
      FillRandom(Wx, draws, 0);
      FillRandom(Wh, draws, NumInputs * NumHidden);
      FillOutputAndBias(draws);
      biasY[0] := Random(draws[InitDraws - 1]);
      MatFromCells(Wx, p.wx);
      MatFromCells(Wh, p.wh);
      assert biasY[..] == p.biasY;
    }

    /** The interleaved part of `inicializar_rnn`: for each hidden unit its output weights, then its bias. */
    method FillOutputAndBias(draws: seq<int>)
      requires Valid() && |draws| == InitDraws && AreDraws(draws)
      modifies Wy, biasH
      ensures Mat(Wy) == InitialParams(draws).wy
      ensures biasH[..] == InitialParams(draws).biasH
    {
      ghost var p := InitialParams(draws);
      var n := OutputDrawsStart;
      for i := 0 to NumHidden
        invariant n == OutputDrawsStart + i * (NumOutputs + 1)
        invariant forall r, c :: 0 <= r < i && 0 <= c < NumOutputs ==> Wy[r, c] == p.wy[r][c]
        invariant forall r :: 0 <= r < i ==> biasH[r] == p.biasH[r]
      {
        for j := 0 to NumOutputs
          invariant n == OutputDrawsStart + i * (NumOutputs + 1) + j
          invariant forall r, c :: 0 <= r < i && 0 <= c < NumOutputs ==> Wy[r, c] == p.wy[r][c]
          invariant forall c :: 0 <= c < j ==> Wy[i, c] == p.wy[i][c]
          invariant forall r :: 0 <= r < i ==> biasH[r] == p.biasH[r]
        {
          Wy[i, j] := Random(draws[n]);
          n := n + 1;
        }
        biasH[i] := Random(draws[n]);
        n := n + 1;
      }
      MatFromCells(Wy, p.wy);
    }

    /**
     * `forward`: clears the memory, runs the recurrence over the turns, writing
     * every hidden state into `hidden`, and returns the sigmoid of the output
     * unit. The result depends on the parameters and the input only: whatever
     * an earlier pass left in `hidden` is overwritten.
     */
    method Forward(input: seq<seq<real>>, act: Act) returns (y: real)
      requires Valid() && IsInput(input)
      modifies hidden
      ensures Hidden() == Trajectory(act, Pars(), input)
      ensures y == Predict(act, Pars(), input)
    {
      ghost var p := Pars();
      ClearFirstRow();
      for t := 0 to SeqLen
        invariant Pars() == p
        invariant forall u :: 0 <= u <= t ==> Mat(hidden)[u] == HiddenAt(act, p, input, u)
      {
        ComputeRow(input, act, t);
        ghost var n := t + 1;
        assert Mat(hidden)[n] == HiddenAt(act, p, input, n);
      }
      ghost var hs := Trajectory(act, p, input);
      assert Mat(hidden) == hs by {
        forall u | 0 <= u <= SeqLen ensures Mat(hidden)[u] == hs[u] { }
      }
      assert biasY[0] == p.biasY[0];
      y := AddRowColumn(biasY[0], hidden, SeqLen, Wy, 0);
      y := act.sigmoid(y);
    }

    /** The state before the first turn: row 0 of the hidden states becomes zero. */
    method ClearFirstRow()
      requires Valid()
      modifies hidden
      ensures Mat(hidden)[0] == Zeros(NumHidden)
      ensures forall u, k :: 0 < u <= SeqLen && 0 <= k < NumHidden ==> hidden[u, k] == old(hidden[u, k])
    {
      for h := 0 to NumHidden
        invariant forall k :: 0 <= k < h ==> hidden[0, k] == 0.0
        invariant forall u, k :: 0 < u <= SeqLen && 0 <= k < NumHidden ==> hidden[u, k] == old(hidden[u, k])
      {
        hidden[0, h] := 0.0;
      }
      RowFromCells(hidden, 0, Zeros(NumHidden));
    }

    /**
     * One turn of `forward`: row `t + 1` of the hidden states becomes the tanh
     * step of row `t`; every other row is left as it was.
     */
    method ComputeRow(input: seq<seq<real>>, act: Act, t: nat)
      requires Valid() && IsInput(input) && t < SeqLen
      modifies hidden
      ensures Mat(hidden)[t + 1] == Step(act, Pars(), input[t], old(Mat(hidden)[t]))
      ensures forall u :: 0 <= u <= SeqLen && u != t + 1 ==> Mat(hidden)[u] == old(Mat(hidden)[u])
    {
      ghost var prev := Mat(hidden)[t];
      ghost var next := Step(act, Pars(), input[t], prev);
      var n := t + 1;
      for j := 0 to NumHidden
        invariant forall u, k :: 0 <= u <= SeqLen && u != n && 0 <= k < NumHidden ==> hidden[u, k] == old(hidden[u, k])
        invariant forall k :: 0 <= k < j ==> hidden[n, k] == next[k]
      {
        RowFromCells(hidden, t, prev);
        var v := HiddenUnit(input, act, t, j);
        hidden[n, j] := v;
      }
      RowFromCells(hidden, n, next);
      forall u | 0 <= u <= SeqLen && u != n ensures Mat(hidden)[u] == old(Mat(hidden)[u]) {
        RowFromCells(hidden, u, old(Mat(hidden)[u]));
      }
    }

    /** One unit of one turn of `forward`: the tanh of the bias plus both weighted sums, over hidden row `t`. */
    method HiddenUnit(input: seq<seq<real>>, act: Act, t: nat, j: nat) returns (v: real)
      requires Valid() && IsInput(input) && t < SeqLen && j < NumHidden
      ensures v == act.tanh(PreActivation(Pars(), input[t], Mat(hidden)[t], j))
    {
      var a := biasH[j];
      a := AddInputColumn(a, input[t], Wx, j);
      a := AddRowColumn(a, hidden, t, Wh, j);
      v := act.tanh(a);
    }

    /**
     * `treinar`: a forward pass, the output-layer update, then the backward
     * walk over the turns from the last to the first with the carried error
     * `erro_proximo`, updating the weights in place as it goes. The new
     * parameters are exactly `NetworkSpec.Train` of the old ones, and the
     * hidden states are those of the forward pass.
     */
    method Train(input: seq<seq<real>>, target: real, act: Act)
      requires Valid() && IsInput(input)
      modifies Wx, Wh, Wy, biasH, biasY, hidden
      ensures Pars() == NetworkSpec.Train(act, old(Pars()), input, target)
      ensures Hidden() == Trajectory(act, old(Pars()), input)
    {
      ghost var p := Pars();
      var predicted := Forward(input, act);
      ghost var hs := Hidden();
      var dOut := OutputDelta(target, predicted);
      UpdateOutput(dOut);
      ghost var q0 := Pars();
      assert q0 == OutputUpdate(p, hs[SeqLen], dOut);
      var next := new real[NumHidden](_ => 0.0);
      assert next[..] == Zeros(NumHidden);
      var t := SeqLen;
      while t > 0
        invariant 0 <= t <= SeqLen
        invariant Hidden() == hs
        invariant Pars() == Backward(q0, hs, input, dOut, t).params
        invariant next[..] == Backward(q0, hs, input, dOut, t).carried
        decreases t
      {
        t := t - 1;
        var delta := UpdateColumns(input, dOut, t, next);
        CarryError(delta, next);
        BackwardStep(q0, hs, input, dOut, t);
      }
      assert NetworkSpec.Train(act, p, input, target) == Backward(q0, hs, input, dOut, 0).params;
    }

    /** The output-layer update of `treinar`: `Wy[j][0]` and `bias_y[0]` move by the output delta. */
    method UpdateOutput(dOut: real)
      requires Valid()
      modifies Wy, biasY
      ensures Pars() == OutputUpdate(old(Pars()), Hidden()[SeqLen], dOut)
    {
      ghost var p := Pars();
      ghost var last := Hidden()[SeqLen];
      ghost var q := OutputUpdate(p, last, dOut);
      for j := 0 to NumHidden
        invariant forall k :: 0 <= k < NumHidden ==> Wy[k, 0] == if k < j then q.wy[k][0] else old(Wy[k, 0])
        invariant unchanged(biasY)
      {
        assert hidden[SeqLen, j] == last[j];
        Wy[j, 0] := Wy[j, 0] + LearningRate * dOut * hidden[SeqLen, j];
      }
      ghost var b := biasY[0];
      assert b == p.biasY[0];
      biasY[0] := biasY[0] + LearningRate * dOut;
      MatFromCells(Wy, q.wy);
      assert biasY[..] == [biasY[0]];
    }

    /**
     * The first half of backward step `t` of `treinar`: the hidden deltas from
     * the incoming error, and, unit by unit, the updates of `bias_h[j]` and of
     * column `j` of `Wx` and `Wh`.
     */
    method UpdateColumns(input: seq<seq<real>>, dOut: real, t: nat, next: array<real>) returns (delta: array<real>)
      requires Valid() && IsInput(input) && t < SeqLen
      requires next.Length == NumHidden && next != biasH
      modifies Wx, Wh, biasH
      ensures fresh(delta) && delta.Length == NumHidden
      ensures delta[..] == HiddenDeltas(Incoming(t, Mat(Wy), next[..], dOut), Hidden()[t + 1])
      ensures Pars() == ColumnUpdate(old(Pars()), delta[..], input[t], Hidden()[t])
    {
      ghost var p := Pars();
      ghost var prev := Hidden()[t];
      ghost var d := HiddenDeltas(Incoming(t, Mat(Wy), next[..], dOut), Hidden()[t + 1]);
      delta := new real[NumHidden];
      PartialUpdateStart(p, d, input[t], prev);
      for j := 0 to NumHidden
        invariant forall k :: 0 <= k < j ==> delta[k] == d[k]
        invariant Pars() == PartialUpdate(p, d, input[t], prev, j)
      {
        delta[j] := UnitDelta(dOut, t, next, j);
        UpdateUnit(input, t, j, delta[j]);
        PartialUpdateNext(p, d, input[t], prev, j);
      }
      PartialUpdateEnd(p, d, input[t], prev);
      assert delta[..] == d;
    }

    /**
     * `delta_oculto[j]` of backward step `t`: the incoming error (through
     * `Wy[j][0]` at the last turn, `erro_proximo[j]` before it) times the tanh
     * derivative at the unit's state.
     */
    method UnitDelta(dOut: real, t: nat, next: array<real>, j: nat) returns (v: real)
      requires Valid() && t < SeqLen && j < NumHidden && next.Length == NumHidden
      ensures v == HiddenDeltas(Incoming(t, Mat(Wy), next[..], dOut), Hidden()[t + 1])[j]
    {
      var err := if t == SeqLen - 1 then dOut * Wy[j, 0] else next[j];
      v := err * DTanh(hidden[t + 1, j]);
    }

    /** Unit `j` of backward step `t`: `bias_h[j]` and column `j` of `Wx` and `Wh` move by the unit's delta `d`. */
    method UpdateUnit(input: seq<seq<real>>, t: nat, j: nat, d: real)
      requires Valid() && IsInput(input) && t < SeqLen && j < NumHidden
      modifies Wx, Wh, biasH
      ensures Pars() == UnitUpdate(old(Pars()), j, d, input[t], Hidden()[t])
    {
      ghost var q := UnitUpdate(Pars(), j, d, input[t], Hidden()[t]);
      biasH[j] := biasH[j] + LearningRate * d;
      AdjustColumn(Wx, j, d, input[t]);
      AdjustColumnByRow(Wh, j, d, hidden, t);
      MatFromCells(Wx, q.wx);
      MatFromCells(Wh, q.wh);
      assert biasH[..] == q.biasH;
    }

    /**
     * The error carried to the previous turn, `erro_proximo[h]`: the sum over
     * `j` of `delta_oculto[j] * Wh[h][j]`, read after this step's updates of `Wh`.
     */
    method CarryError(delta: array<real>, next: array<real>)
      requires Valid() && delta.Length == NumHidden && next.Length == NumHidden && delta != next
      modifies next
      ensures next[..] == CarriedError(delta[..], Mat(Wh))
    {
      for h := 0 to NumHidden
        invariant forall k :: 0 <= k < h ==> next[k] == RowDot(delta[..], Mat(Wh), k, NumHidden)
      {
        next[h] := 0.0;
        for j := 0 to NumHidden
          invariant forall k :: 0 <= k < h ==> next[k] == RowDot(delta[..], Mat(Wh), k, NumHidden)
          invariant next[h] == RowDot(delta[..], Mat(Wh), h, j)
        {
          next[h] := next[h] + delta[j] * Wh[h, j];
        }
      }
    }
  }

  /** Fills a table of `NumHidden` columns row by row with `aleatorio()` of the draws from position `start` on. */
  method FillRandom(a: array2<real>, draws: seq<int>, start: nat)
    requires a.Length1 == NumHidden && start + a.Length0 * NumHidden <= |draws| && AreDraws(draws)
    modifies a
    ensures forall i, j :: 0 <= i < a.Length0 && 0 <= j < NumHidden ==> a[i, j] == Random(draws[start + i * NumHidden + j])
  {
    var n := start;
    for i := 0 to a.Length0
      invariant n == start + i * NumHidden
      invariant forall r, c :: 0 <= r < i && 0 <= c < NumHidden ==> a[r, c] == Random(draws[start + r * NumHidden + c])
    {
      for j := 0 to NumHidden
        invariant n == start + i * NumHidden + j
        invariant forall r, c :: 0 <= r < i && 0 <= c < NumHidden ==> a[r, c] == Random(draws[start + r * NumHidden + c])
        invariant forall c :: 0 <= c < j ==> a[i, c] == Random(draws[start + i * NumHidden + c])
      {
        a[i, j] := Random(draws[n]);
        n := n + 1;
      }
    }
  }

  /** Column `j` of `w` moves by the rate times `d` times the row's entry of `x`; nothing else changes. */
  method AdjustColumn(w: array2<real>, j: nat, d: real, x: seq<real>)
    requires j < w.Length1 && |x| == w.Length0
    modifies w
    ensures forall i, k :: 0 <= i < w.Length0 && 0 <= k < w.Length1 ==>
      w[i, k] == if k == j then Adjust(old(w[i, k]), d, x[i]) else old(w[i, k])
  {
    for i := 0 to w.Length0
      invariant forall r, k :: 0 <= r < w.Length0 && 0 <= k < w.Length1 ==>
        w[r, k] == if k == j && r < i then Adjust(old(w[r, k]), d, x[r]) else old(w[r, k])
    {
      w[i, j] := w[i, j] + LearningRate * d * x[i];
    }
  }

  /** The same, with `x` taken from row `t` of the table `src`. */
  method AdjustColumnByRow(w: array2<real>, j: nat, d: real, src: array2<real>, t: nat)
    requires j < w.Length1 && t < src.Length0 && src.Length1 == w.Length0 && src != w
    modifies w
    ensures forall i, k :: 0 <= i < w.Length0 && 0 <= k < w.Length1 ==>
      w[i, k] == if k == j then Adjust(old(w[i, k]), d, Mat(src)[t][i]) else old(w[i, k])
  {
    for h := 0 to w.Length0
      invariant forall r, k :: 0 <= r < w.Length0 && 0 <= k < w.Length1 ==>
        w[r, k] == if k == j && r < h then Adjust(old(w[r, k]), d, Mat(src)[t][r]) else old(w[r, k])
    {
      w[h, j] := w[h, j] + LearningRate * d * src[t, h];
    }
  }
}
