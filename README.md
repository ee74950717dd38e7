# RNN battle predictor — a Dafny model

The program is a small recurrent neural network written in C (`main.c`). It
predicts whether an RPG hero will beat a monster. Each side has six stats:
HP, mana, strength, intelligence, defence and magic defence. A battle
engine (`simular_gameplay`) plays three turns and records, before each
turn, a row of twelve features: both stat blocks divided by 100, with the
current HP and mana. The network reads the three rows:

- twelve inputs;
- eight tanh hidden units with recurrent weights;
- one sigmoid output.

It returns the estimated chance that the hero wins. Training (`treinar`)
is one step of backpropagation through time with learning rate 0.1. It is
run for 20000 epochs on two fixed battles:

- a hero who wins, labelled 1;
- a hero who loses, labelled 0.

The program then asks about battles between stats the user enters. Its
conclusion is "advantage" above 0.7, "outmatched" below 0.3, and "even"
otherwise.

The model follows the program's structure:

- `config.dfy` (`Config`): the sizes and constants.
- `activations.dfy` (`Activations`):
  - the activation derivatives `d_sigmoide` and `d_tanh`;
  - the weight sampler `aleatorio`;
  - the `Act` pair of activation functions.
- `network_spec.dfy` (`NetworkSpec`): the network as pure values (`Params`):
  - the forward recurrence (`Trajectory`, `Predict`);
  - one training step (`Train`, built from `OutputUpdate`, `Backward`, `ColumnUpdate` and `CarriedError`);
  - the initial parameters (`InitialParams`).
- `training_props.dfy` (`TrainingProps`): lemmas about training:
  - which parameters each phase writes;
  - the in-place update order;
  - the accumulated form of the hidden-layer updates;
  - when training changes nothing.
- `rnn.dfy` (`Network`): the C struct as class `Rnn`:
  - its weight tables are `array2`/`array` fields updated in place;
  - `inicializar_rnn`, `forward` and `treinar` are methods with the C loops;
  - each method is proved equal to the `NetworkSpec` function of the old state.
- `gameplay.dfy` (`Gameplay`): the battle engine:
  - turn functions `Turn` and `StateAt`;
  - the feature table `Features`;
  - the method `Simulate`, which runs the C loop on local variables.
- `verdict.dfy` (`Verdict`): the three-way conclusion.
- `program.dfy` (`Program`): what `main` does:
  - initialisation, simulation of the training battles, and the epoch loop;
  - one round of the interactive loop.

## Model

| member | source | states |
|---|---|---|
| Activations.DSigmoidRange | main.c:55 | on any sigmoid output y in (0,1), `d_sigmoide(y)` is in (0, 1/4] |
| Activations.DSigmoidZero | main.c:55 | `d_sigmoide(y)` is zero exactly when y is 0 or 1 (both directions) |
| Activations.DTanhRange | main.c:58 | on any tanh output y in (-1,1), `d_tanh(y)` is in (0, 1] |
| Activations.Random | main.c:60 | `aleatorio` maps a draw of `rand()` into the closed interval [-1,1]; it yields -1 exactly for draw 0 and 1 exactly for draw RAND_MAX; the draw is recoverable from the result (linear map) |
| NetworkSpec.TrajectoryRecurrence | main.c:80-97 | row 0 of the hidden states is all zeros; row t+1, unit j is tanh(bias_h[j] + Σ input[t][i]·Wx[i][j] + Σ h_t[k]·Wh[k][j]) |
| NetworkSpec.TrajectoryInRange | main.c:96 | given activations with the tanh range, every hidden state lies in (-1,1) |
| NetworkSpec.PredictInRange | main.c:100-105 | given activations with the sigmoid range, the prediction is strictly between 0 and 1 |
| NetworkSpec.OutputUpdate | main.c:116-120 | the output-layer update touches only Wy and bias_y; Wx, Wh and bias_h are untouched |
| NetworkSpec.ColumnUpdate | main.c:132-137 | a backward step's updates touch only Wx, Wh and bias_h; the output layer is untouched |
| NetworkSpec.InitialParamsInRange | main.c:64-74 | after initialisation every weight and bias lies in [-1,1] |
| TrainingProps.BackwardKeepsOutputLayer | main.c:125-144 | the backward walk over the turns never writes Wy or bias_y |
| TrainingProps.OutputUpdateAt | main.c:117-120 | Wy[j][0] moves by rate·delta_out·h_last[j]; bias_y[0] moves by rate·delta_out |
| TrainingProps.TrainOutputLayer | main.c:111-120 | after `treinar` the output layer is exactly the output-layer update of the old one, from the forward pass's prediction and last hidden state |
| TrainingProps.LastStepUsesUpdatedWy | main.c:118-129 | at the last turn the incoming error is delta_out times the already-updated Wy[j][0], i.e. the old-weight value plus rate·delta_out²·h_last[j] |
| TrainingProps.RowDotAfterUpdate | main.c:137-142 | the partial sums of the carried error through the column-updated Wh equal the old-weight sums plus rate·prev[h]·(partial sum of delta²) |
| TrainingProps.CarriedErrorUsesUpdatedWh | main.c:133-143 | the carried error `erro_proximo` of step t is computed through Wh as step t itself left it |
| TrainingProps.CarriedErrorAfterUpdate | main.c:137-143 | each carried-error entry through the updated Wh is the value through the old Wh plus rate·prev[h]·Σ delta[j]² |
| TrainingProps.BackwardStep | main.c:126-143 | one backward step applies the column updates with that step's deltas, then carries the error through the new Wh |
| TrainingProps.PartialUpdateStart | main.c:127 | before the first hidden unit of a backward step nothing has been written |
| TrainingProps.PartialUpdateNext | main.c:127-138 | updating unit n after units 0..n-1 gives the state after units 0..n |
| TrainingProps.PartialUpdateEnd | main.c:127-138 | after all eight units the step's updates are complete |
| TrainingProps.ColumnUpdateAt | main.c:133-137 | each cell written by a backward step moves by rate·delta[j] times its own input (x[i], prev[k], or 1 for the bias) |
| TrainingProps.BackwardStepCell | main.c:125-137 | the cells written by backward step t, in terms of the parameters before that step |
| TrainingProps.AccumulateCells | main.c:125-137 | a cell moved once per turn ends at its start value plus rate times the weighted sum of the per-turn contributions |
| TrainingProps.AccumulateBiasCells | main.c:125-133 | the same, for a bias (input 1) |
| TrainingProps.BackwardAccumulatesWx | main.c:125-135 | after the backward walk, Wx[i][j] = its value before the walk + rate·Σ_t delta_t[j]·input[t][i] |
| TrainingProps.BackwardAccumulatesWh | main.c:125-137 | after the backward walk, Wh[k][j] = its value before the walk + rate·Σ_t delta_t[j]·h_t[k] |
| TrainingProps.BackwardAccumulatesBias | main.c:125-133 | after the backward walk, bias_h[j] = its value before the walk + rate·Σ_t delta_t[j] |
| TrainingProps.ZeroDeltaBackward | main.c:125-143 | with a zero output delta every hidden delta and carried error is zero, and the backward walk changes nothing |
| TrainingProps.ZeroDeltaOutputUpdate | main.c:116-120 | with a zero output delta the output-layer update changes nothing |
| TrainingProps.TrainAtPredictionIsNoOp | main.c:110-144 | training on a label equal to the current prediction leaves every parameter unchanged |
| TrainingProps.TrainMovesOutputBiasIff | main.c:114-120 | given range-respecting activations, bias_y is unchanged by training exactly when the label equals the prediction (both directions) |
| TrainingProps.AdjustMoves | main.c:118-137 | a gradient step with nonzero delta and nonzero input always moves the weight |
| Network.AddInputColumn | main.c:88-89 | the input loop adds exactly Σ_i input[t][i]·Wx[i][j] to the accumulator |
| Network.AddRowColumn | main.c:92-103 | the loop over a hidden row adds exactly Σ_k h[k]·W[k][j] to the accumulator |
| Network.FillRandom | main.c:65-68 | every cell (i,j) of the table gets aleatorio of draw number start + 8·i + j, in row-major order |
| Network.AdjustColumn | main.c:134-135 | column j of Wx moves by rate·d·x[i] in every row; every other column is unchanged |
| Network.AdjustColumnByRow | main.c:136-137 | column j of Wh moves by rate·d·h_t[k] in every row k; every other column is unchanged |
| Network.Rnn.constructor | main.c:39-51 | a fresh record whose tables have the program's sizes and are separate storage |
| Network.Rnn.Initialize | main.c:64-74 | the parameters become exactly `InitialParams` of the 177 draws, consumed in the program's loop order |
| Network.Rnn.FillOutputAndBias | main.c:69-72 | Wy[i][0] and bias_h[i] take draws alternately, unit by unit |
| Network.Rnn.Forward | main.c:78-106 | the hidden-state table becomes exactly the forward trajectory of the current parameters, whatever it held before; the result is `Predict` of the parameters and the input |
| Network.Rnn.ClearFirstRow | main.c:80 | row 0 of the hidden states becomes zero; later rows are unchanged |
| Network.Rnn.ComputeRow | main.c:84-97 | row t+1 becomes the tanh step of row t; every other row is unchanged |
| Network.Rnn.HiddenUnit | main.c:85-96 | the value stored for unit j is the tanh of bias_h[j] plus both weighted sums over row t |
| Network.Rnn.Train | main.c:110-145 | the parameters become exactly `NetworkSpec.Train` of the old ones; the hidden-state table is the forward trajectory of the old parameters (the backward pass does not write it) |
| Network.Rnn.UpdateOutput | main.c:117-120 | the parameters become the output-layer update of the old ones, using the last hidden state |
| Network.Rnn.UpdateColumns | main.c:126-138 | the deltas of step t are computed from the updated Wy (last step) or the carried error; the parameters become the column update of the old ones |
| Network.Rnn.UnitDelta | main.c:129-130 | the delta of unit j is its incoming error times d_tanh of its hidden state |
| Network.Rnn.UpdateUnit | main.c:133-137 | the weights of hidden unit j alone move by its delta |
| Network.Rnn.CarryError | main.c:140-143 | `erro_proximo` becomes the carried error through the current Wh |
| Gameplay.NonNegative | main.c:181-200 | a clamped value is non-negative and equals the input when that was non-negative, else 0 |
| Gameplay.HeroDamage | main.c:171-182 | with raw = Int − MDef when Int > Str and mana ≥ 10 (a spell) and Str − Def otherwise, the damage is raw when raw ≥ 0 and 0 when raw < 0 |
| Gameplay.MonsterDamage | main.c:186-195 | with raw = Int − MDef when mana ≥ 10 and the coin comes up (a spell) and Str − Def otherwise, the damage is raw when raw ≥ 0 and 0 when raw < 0 |
| Gameplay.Turn | main.c:169-200 | after a turn both HPs are ≥ 0 and neither has grown from a non-negative value; a side's mana drops exactly when its spell conditions hold (hero: Int > Str and mana ≥ 10; monster: mana ≥ 10 and the coin), by exactly 10, and is unchanged otherwise |
| Gameplay.Simulate | main.c:149-203 | the table written is exactly `Features`: row t holds the battle before turn t |
| Gameplay.PlayTurn | main.c:169-200 | the locals after one loop iteration are exactly `Turn` of those before |
| Gameplay.HeroAttack | main.c:169-182 | the hero's damage and mana after its half of the turn |
| Gameplay.MonsterAttack | main.c:185-195 | the monster's damage and mana after its half of the turn |
| Gameplay.ManaNeverNegative | main.c:171-188 | over the battle neither side's mana exceeds its starting value, and a side that starts with non-negative mana never goes below zero |
| Gameplay.HpNonIncreasing | main.c:182-200 | from the first turn on both HPs are non-negative and never increase |
| Gameplay.FirstRowIsStart | main.c:152-164 | the first feature row is both starting stat blocks divided by 100 |
| Gameplay.StaticColumns | main.c:159-164 | columns 2-5 and 8-11 (strength, intelligence and both defences) are the same in every row |
| Gameplay.WinningBattle | main.c:216-217 | the winning training battle gives a monster-HP feature of 1.0, 0.2, 0.0, whatever the coins |
| Gameplay.LosingBattle | main.c:221-222 | the losing training battle gives a hero-HP feature of 0.8, 0.1, 0.0 and a monster-HP feature of 2.0 in every row, whatever the coins |
| Verdict.Conclude | main.c:263-265 | "advantage" exactly above 0.7, "outmatched" exactly below 0.3, "even" exactly on [0.3, 0.7] |
| Verdict.ConcludeMonotone | main.c:263-265 | a higher chance never yields a worse conclusion |
| Program.TrainEpochs | main.c:229-232 | the parameters become exactly `TrainedFor` the given number of epochs: each epoch trains on the won battle, then on the lost one; the hidden-state table is unchanged after 0 epochs and otherwise holds the forward trajectory of the lost battle from the last epoch (the parameters after that epoch's won-battle step) |
| Program.TrainEpoch | main.c:231-232 | one epoch: the parameters become `Epoch` of the old ones (a training step on the won battle with label 1.0, then one on the lost battle with label 0.0); the hidden-state table becomes `EpochTrajectory`, the forward trajectory of the lost battle under the parameters after the won-battle step |
| Program.Prepare | main.c:208-232 | a fresh network (a new record with new tables) whose parameters are those initialised from the draws and then trained for 20000 epochs on the features of the two simulated training battles; the hidden-state table holds the forward trajectory of the lost battle from the last epoch |
| Program.Assess | main.c:255-265 | one interactive round leaves the parameters unchanged; the chance is `Predict` on the simulated features, lies in (0,1) for range-respecting activations, and the conclusion is `Conclude` of it; the hidden-state table ends as the trajectory of the simulated battle |
| Program.AskTwice | main.c:78-106 | prediction keeps no memory: asking about a, then b, then a again gives the same answer the first and third time, and the hidden-state table ends as the trajectory of a |

## Left out

- Console I/O is not modelled: `printf`, `scanf` and `pausar_tela`. The interactive loop is one round (`Program.Assess`), with the stats as parameters. The "continue?" loop is not modelled.
- `srand(time(0))` and `rand()` are not modelled. The 177 values `inicializar_rnn` draws are a parameter. Each monster coin (`rand() % 2 == 0`) is a parameter per turn. The coin for a turn is ignored when the monster has under 10 mana, as in the C, where `rand()` is then not called. Draws in the model are per turn, not positions in one shared stream. `RAND_MAX` is fixed to the glibc value 2147483647. The Windows build the program also targets has 32767. The contract of `Activations.Random` and every lemma using it hold for any positive `RAND_MAX`; only the constant would change.
- `sigmoide`, `tanh_custom` and `exp`/`tanh` themselves are not modelled. The network takes its activations as a parameter `Act`. `InRange` lists the facts the lemmas use: sigmoid in (0,1) and tanh in (-1,1).
- IEEE double arithmetic is not modelled: the model computes on exact reals. Rounding, overflow and NaN are not captured.
- Program.TrainedFor: its contract states only the shapes of the trained parameters. The program makes no promise about what 20000 epochs achieve (accuracy, convergence). No such claim is modelled.
- Program.AskTwice: states that the answers agree, not the value. `Network.Rnn.Forward` gives the value.
- `Network.Rnn.constructor` allocates the tables without an initialiser, so their contents are arbitrary, as with the uninitialised `RNN rnn;` of the C. No result depends on them, because `Initialize` and `Forward` overwrite them before they are read.
- The input tables `dados_win`, `dados_lose` and `input_rnn` are passed as values (`seq<seq<real>>`). `simular_gameplay` returns its table instead of writing into a caller's array. `forward` and `treinar` only read it.
- `NumOutputs` is 1 throughout, as in the program. The output layer's code paths use index 0 only, like the C.
- Behaviour kept as the C has it:
  - `aleatorio` reaches both -1 (draw 0) and 1 (draw `RAND_MAX`): the interval is closed (see `Activations.Random`).
  - The monster still attacks in the turn its HP reaches zero, and both HPs are clamped only at the end of the turn, as the C loop does.
- The backward pass reads the already-updated `Wy` at the last turn and the already-updated `Wh` in the carried error, as the C does. `CarriedErrorUsesUpdatedWh` states that the carried error goes through the updated `Wh`. `LastStepUsesUpdatedWy` and `CarriedErrorAfterUpdate` state how this differs from the gradient through the old weights. The model does not claim either is the exact gradient.
