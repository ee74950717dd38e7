/** The compile-time dimensions and training constants of the battle predictor. */
module Config {
  /** Number of turns the network looks at (`SEQ_LEN`). */
  const SeqLen: nat := 3
  /** Width of one feature row: six stats for each side (`NUM_ENTRADAS`). */
  const NumInputs: nat := 12
  /** Hidden units of the recurrent layer (`NUM_OCULTOS`). */
  const NumHidden: nat := 8
  /** Output units (`NUM_SAIDAS`). */
  const NumOutputs: nat := 1
  /** Training epochs run by the driver (`EPOCAS`). */
  const Epochs: nat := 20000
  /** Fixed learning rate (`TAXA_APRENDIZADO`). */
  const LearningRate: real := 0.1
}
