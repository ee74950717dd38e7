/**
 * The conclusion the program prints after the network has estimated the
 * hero's chance of winning.
 */
module Verdict {
  /** The three messages: the hero has the advantage, is outmatched, or the fight is even. */
  datatype Conclusion = Advantage | Even | Outmatched

  /** Above this chance the hero has the advantage. */
  const Favourable: real := 0.7
  /** Below this chance the hero is outmatched. */
  const Hopeless: real := 0.3

  /**
   * The chance is compared with 0.7 first and with 0.3 next: each conclusion
   * is drawn exactly on its own interval, the two boundaries falling to `Even`.
   */
  function Conclude(prob: real): (c: Conclusion)
    ensures c == Advantage <==> prob > Favourable
    ensures c == Outmatched <==> prob < Hopeless
    ensures c == Even <==> Hopeless <= prob <= Favourable
  {
    if prob > Favourable then Advantage
    else if prob < Hopeless then Outmatched
    else Even
  }

  /** The conclusions in order of how well the hero fares. */
  function Rank(c: Conclusion): nat {
    match c
    case Outmatched => 0
    case Even => 1
    case Advantage => 2
  }

  /** A higher chance never yields a worse conclusion. */
  lemma ConcludeMonotone(p1: real, p2: real)
    requires p1 <= p2
    ensures Rank(Conclude(p1)) <= Rank(Conclude(p2))
  {
  }
}
