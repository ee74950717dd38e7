/**
 * The program `main` drives: the network is initialised, trained on the
 * two battles it simulates, and then asked about battles between stats
 * the user enters.
 */
module Program {
  import opened Config
  import opened Activations
  import opened NetworkSpec
  import opened Gameplay
  import opened Verdict
  import opened Network

  /** The label of the won training battle and of the lost one. */
  const Won: real := 1.0
  const Lost: real := 0.0

  /** The parameters after one epoch: a training step on the won battle, then one on the lost battle. */
  function Epoch(act: Act, p: Params, win: seq<seq<real>>, lose: seq<seq<real>>): (r: Params)
    requires WellFormed(p) && IsInput(win) && IsInput(lose)
    ensures WellFormed(r)
  {
    Train(act, Train(act, p, win, Won), lose, Lost)
  }

  /** The hidden states one epoch leaves: those of the forward pass over the lost battle, after the won-battle step. */
  function EpochTrajectory(act: Act, p: Params, win: seq<seq<real>>, lose: seq<seq<real>>): (hs: seq<seq<real>>)
    requires WellFormed(p) && IsInput(win) && IsInput(lose)
    ensures IsMatrix(hs, SeqLen + 1, NumHidden)
  {
    Trajectory(act, Train(act, p, win, Won), lose)
  }

  /** The parameters after `n` epochs. */
  function TrainedFor(act: Act, p: Params, win: seq<seq<real>>, lose: seq<seq<real>>, n: nat): (r: Params)
    requires WellFormed(p) && IsInput(win) && IsInput(lose)
    ensures WellFormed(r)
  {
    if n == 0 then p else Epoch(act, TrainedFor(act, p, win, lose, n - 1), win, lose)
  }

  /** The hidden states after `n` epochs from `p`, when they were `h` before. */
  function HiddenAfter(act: Act, p: Params, h: seq<seq<real>>, win: seq<seq<real>>, lose: seq<seq<real>>, n: nat): (hs: seq<seq<real>>)
    requires WellFormed(p) && IsInput(win) && IsInput(lose)
    ensures n > 0 ==> IsMatrix(hs, SeqLen + 1, NumHidden)
  {
    if n == 0 then h else EpochTrajectory(act, TrainedFor(act, p, win, lose, n - 1), win, lose)
  }

  /**
   * The training loop of `main`: after `epochs` epochs the parameters are
   * `TrainedFor` that many; the hidden states are untouched when no epoch
   * ran, and are otherwise those the last epoch left.
   */
  method TrainEpochs(r: Rnn, act: Act, win: seq<seq<real>>, lose: seq<seq<real>>, epochs: nat)
    requires r.Valid() && IsInput(win) && IsInput(lose)
    modifies r.Wx, r.Wh, r.Wy, r.biasH, r.biasY, r.hidden
    ensures r.Pars() == TrainedFor(act, old(r.Pars()), win, lose, epochs)
    ensures epochs == 0 ==> r.Hidden() == old(r.Hidden())
    ensures epochs > 0 ==> r.Hidden() == EpochTrajectory(act, TrainedFor(act, old(r.Pars()), win, lose, epochs - 1), win, lose)
  {
    ghost var p0 := r.Pars();
    ghost var h0 := r.Hidden();
    for i := 0 to epochs
      invariant r.Pars() == TrainedFor(act, p0, win, lose, i)
      invariant r.Hidden() == HiddenAfter(act, p0, h0, win, lose, i)
    {
      ghost var q := r.Pars();
      TrainEpoch(r, act, win, lose);
      ghost var n := i + 1;
      assert TrainedFor(act, p0, win, lose, n - 1) == q;
    }
  }

  /** One epoch of the training loop (its body in `main`). */
  method TrainEpoch(r: Rnn, act: Act, win: seq<seq<real>>, lose: seq<seq<real>>)
    requires r.Valid() && IsInput(win) && IsInput(lose)
    modifies r.Wx, r.Wh, r.Wy, r.biasH, r.biasY, r.hidden
    ensures r.Pars() == Epoch(act, old(r.Pars()), win, lose)
    ensures r.Hidden() == EpochTrajectory(act, old(r.Pars()), win, lose)
  {
    r.Train(win, Won, act);
    r.Train(lose, Lost, act);
  }

  /**
   * Everything `main` does before its interactive loop: a fresh network
   * initialised from the generator's first `InitDraws` values, the two
   * training battles simulated with their coins, and `Epochs` epochs of
   * training on them.
   */
  method Prepare(act: Act, draws: seq<int>, winCoins: seq<bool>, loseCoins: seq<bool>) returns (r: Rnn)
    requires |draws| == InitDraws && AreDraws(draws) && |winCoins| == SeqLen && |loseCoins| == SeqLen
    ensures fresh(r) && fresh(r.Wx) && fresh(r.Wh) && fresh(r.Wy) && fresh(r.biasH) && fresh(r.biasY) && fresh(r.hidden)
    ensures r.Valid()
    ensures r.Pars() == TrainedFor(act, InitialParams(draws),
                                   Features(StrongHero, WeakMonster, winCoins),
                                   Features(WeakHero, StrongMonster, loseCoins), Epochs)
    ensures r.Hidden() == EpochTrajectory(act, TrainedFor(act, InitialParams(draws),
                                                       Features(StrongHero, WeakMonster, winCoins),
                                                       Features(WeakHero, StrongMonster, loseCoins), Epochs - 1),
                                          Features(StrongHero, WeakMonster, winCoins),
                                          Features(WeakHero, StrongMonster, loseCoins))
  {
    // `main` initialises the network before simulating; the draws and the
    // coins are separate parameters here, so the order changes nothing.
    var win := Simulate(StrongHero, WeakMonster, winCoins);
    var lose := Simulate(WeakHero, StrongMonster, loseCoins);
    r := new Rnn();
    r.Initialize(draws);
    TrainEpochs(r, act, win, lose, Epochs);
  }

  /**
   * One round of the interactive loop: the battle between the entered stats
   * is simulated, the network estimates the chance of winning it, and the
   * chance is turned into a conclusion; the parameters stay as they were.
   */
  method Assess(r: Rnn, act: Act, h: seq<real>, m: seq<real>, coins: seq<bool>) returns (prob: real, verdict: Conclusion)
    requires r.Valid() && IsStats(h) && IsStats(m) && |coins| == SeqLen
    modifies r.hidden
    ensures r.Pars() == old(r.Pars())
    ensures prob == Predict(act, r.Pars(), Features(h, m, coins))
    ensures InRange(act) ==> 0.0 < prob < 1.0
    ensures verdict == Conclude(prob)
    ensures r.Hidden() == Trajectory(act, r.Pars(), Features(h, m, coins))
  {
    var rows := Simulate(h, m, coins);
    prob := r.Forward(rows, act);
    if InRange(act) {
      PredictInRange(act, r.Pars(), rows);
    }
    verdict := Conclude(prob);
  }

  /**
   * The network keeps no memory between predictions: asking about `a`,
   * then about `b`, then about `a` again gives the same answer twice, and
   * the hidden-state table ends as the trajectory of `a`.
   */
  method AskTwice(r: Rnn, act: Act, a: seq<seq<real>>, b: seq<seq<real>>) returns (first: real, third: real)
    requires r.Valid() && IsInput(a) && IsInput(b)
    modifies r.hidden
    ensures first == third
    ensures r.Hidden() == Trajectory(act, r.Pars(), a)
  {
    first := r.Forward(a, act);
    var second := r.Forward(b, act);
    third := r.Forward(a, act);
  }
}
