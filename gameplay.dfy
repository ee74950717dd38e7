/**
 * The battle engine `simular_gameplay`: three turns of a hero against a
 * monster, each turn recorded, before it is played, as a row of twelve
 * features (the six stats of each side divided by 100, with the current HP
 * and mana in place of the starting ones).
 */
module Gameplay {
  import opened Config

  /** Positions in a stat block (the program's `I_HP` ... `I_MDEF`). */
  const HP: nat := 0
  const MN: nat := 1
  const STR: nat := 2
  const INT: nat := 3
  const DEF: nat := 4
  const MDEF: nat := 5

  /** A stat block: HP, mana, strength, intelligence, defence, magic defence. */
  predicate IsStats(s: seq<real>) {
    |s| == 6
  }

  /** What a spell costs in mana, and the mana needed to cast one. */
  const SpellCost: real := 10.0

  /** The four values the battle changes; the other stats stay as given. */
  datatype Combat = Combat(heroHp: real, heroMana: real, monsterHp: real, monsterMana: real)

  /** The battle before the first turn. */
  function Start(h: seq<real>, m: seq<real>): Combat
    requires IsStats(h) && IsStats(m)
  {
    Combat(h[HP], h[MN], m[HP], m[MN])
  }

  /** Negative values are raised to zero: damage never heals, HP never drops below zero. */
  function NonNegative(x: real): (r: real)
    ensures r >= 0.0
    ensures x >= 0.0 ==> r == x
    ensures x < 0.0 ==> r == 0.0
  {
    if x < 0.0 then 0.0 else x
  }

  /** The hero casts a spell when more intelligent than strong and having the mana for it. */
  predicate HeroCasts(h: seq<real>, c: Combat)
    requires IsStats(h)
  {
    h[INT] > h[STR] && c.heroMana >= SpellCost
  }

  /** The hero's damage: intelligence against magic defence for a spell, strength against defence otherwise. */
  function HeroDamage(h: seq<real>, m: seq<real>, c: Combat): (d: real)
    requires IsStats(h) && IsStats(m)
    ensures d >= 0.0
    ensures var raw := if h[INT] > h[STR] && c.heroMana >= SpellCost then h[INT] - m[MDEF] else h[STR] - m[DEF];
            (raw >= 0.0 ==> d == raw) && (raw < 0.0 ==> d == 0.0)
  {
    NonNegative(if HeroCasts(h, c) then h[INT] - m[MDEF] else h[STR] - m[DEF])
  }

  /**
   * The monster casts a spell when it has the mana and the coin comes up
   * (`coin` stands for `rand() % 2 == 0`, which is evaluated only when the
   * mana test passes).
   */
  predicate MonsterCasts(c: Combat, coin: bool) {
    c.monsterMana >= SpellCost && coin
  }

  /** The monster's damage, computed like the hero's. */
  function MonsterDamage(h: seq<real>, m: seq<real>, c: Combat, coin: bool): (d: real)
    requires IsStats(h) && IsStats(m)
    ensures d >= 0.0
    ensures var raw := if c.monsterMana >= SpellCost && coin then m[INT] - h[MDEF] else m[STR] - h[DEF];
            (raw >= 0.0 ==> d == raw) && (raw < 0.0 ==> d == 0.0)
  {
    NonNegative(if MonsterCasts(c, coin) then m[INT] - h[MDEF] else m[STR] - h[DEF])
  }

  /**
   * One turn: the hero attacks, then the monster, whatever its HP has become;
   * a spell costs its caster `SpellCost` mana; both HPs are raised to zero at
   * the end of the turn. Afterwards both HPs are non-negative and neither
   * has grown from a non-negative value; each side's mana drops, by exactly
   * `SpellCost`, precisely when that side's spell conditions hold, and is
   * unchanged otherwise.
   */
  function Turn(h: seq<real>, m: seq<real>, c: Combat, coin: bool): (r: Combat)
    requires IsStats(h) && IsStats(m)
    ensures r.heroHp >= 0.0 && r.monsterHp >= 0.0
    ensures c.heroHp >= 0.0 ==> r.heroHp <= c.heroHp
    ensures c.monsterHp >= 0.0 ==> r.monsterHp <= c.monsterHp
    ensures r.heroMana < c.heroMana <==> h[INT] > h[STR] && c.heroMana >= SpellCost
    ensures r.heroMana == c.heroMana || r.heroMana == c.heroMana - SpellCost
    ensures r.monsterMana < c.monsterMana <==> c.monsterMana >= SpellCost && coin
    ensures r.monsterMana == c.monsterMana || r.monsterMana == c.monsterMana - SpellCost
  {
    var heroMana := if HeroCasts(h, c) then c.heroMana - SpellCost else c.heroMana;
    var monsterMana := if MonsterCasts(c, coin) then c.monsterMana - SpellCost else c.monsterMana;
    Combat(NonNegative(c.heroHp - MonsterDamage(h, m, c, coin)), heroMana,
           NonNegative(c.monsterHp - HeroDamage(h, m, c)), monsterMana)
  }

  /** The battle after the first `t` turns, turn `u` using coin `coins[u]`. */
  function StateAt(h: seq<real>, m: seq<real>, coins: seq<bool>, t: nat): Combat
    requires IsStats(h) && IsStats(m) && t <= |coins|
  {
    if t == 0 then Start(h, m) else Turn(h, m, StateAt(h, m, coins, t - 1), coins[t - 1])
  }

  /** The feature row of one turn: both stat blocks over 100, with the current HP and mana. */
  function Row(h: seq<real>, m: seq<real>, c: Combat): (row: seq<real>)
    requires IsStats(h) && IsStats(m)
    ensures |row| == NumInputs
  {
    [c.heroHp / 100.0, c.heroMana / 100.0, h[STR] / 100.0, h[INT] / 100.0, h[DEF] / 100.0, h[MDEF] / 100.0,
     c.monsterHp / 100.0, c.monsterMana / 100.0, m[STR] / 100.0, m[INT] / 100.0, m[DEF] / 100.0, m[MDEF] / 100.0]
  }

  /** The table `simular_gameplay` fills: row `t` is the battle before turn `t`. */
  function Features(h: seq<real>, m: seq<real>, coins: seq<bool>): (rows: seq<seq<real>>)
    requires IsStats(h) && IsStats(m) && |coins| == SeqLen
    ensures |rows| == SeqLen && forall t :: 0 <= t < SeqLen ==> |rows[t]| == NumInputs
  {
    seq(SeqLen, t requires 0 <= t < SeqLen => Row(h, m, StateAt(h, m, coins, t)))
  }

  /**
   * `simular_gameplay`: plays the turns on local copies of both sides' HP and
   * mana, writing each turn's feature row before the turn is played.
   */
  method Simulate(h: seq<real>, m: seq<real>, coins: seq<bool>) returns (rows: seq<seq<real>>)
    requires IsStats(h) && IsStats(m) && |coins| == SeqLen
    ensures rows == Features(h, m, coins)
  {
    var heroHp, heroMana := h[HP], h[MN];
    var monsterHp, monsterMana := m[HP], m[MN];
    rows := [];
    for t := 0 to SeqLen
      invariant Combat(heroHp, heroMana, monsterHp, monsterMana) == StateAt(h, m, coins, t)
      invariant |rows| == t && forall u :: 0 <= u < t ==> rows[u] == Row(h, m, StateAt(h, m, coins, u))
    {
      rows := rows + [[heroHp / 100.0, heroMana / 100.0, h[STR] / 100.0, h[INT] / 100.0, h[DEF] / 100.0, h[MDEF] / 100.0,
                       monsterHp / 100.0, monsterMana / 100.0, m[STR] / 100.0, m[INT] / 100.0, m[DEF] / 100.0, m[MDEF] / 100.0]];
      var next := PlayTurn(h, m, Combat(heroHp, heroMana, monsterHp, monsterMana), coins[t]);
      heroHp, heroMana, monsterHp, monsterMana := next.heroHp, next.heroMana, next.monsterHp, next.monsterMana;
    }
  }

  /** The body of the loop after the row is written: the hero's attack, the monster's, and the clamping of both HPs. */
  method PlayTurn(h: seq<real>, m: seq<real>, c: Combat, coin: bool) returns (next: Combat)
    requires IsStats(h) && IsStats(m)
    ensures next == Turn(h, m, c, coin)
  {
    var heroDamage, heroMana := HeroAttack(h, m, c);
    var monsterHp := c.monsterHp - heroDamage;
    var monsterDamage, monsterMana := MonsterAttack(h, m, c, coin);
    var heroHp := c.heroHp - monsterDamage;
    if heroHp < 0.0 {
      heroHp := 0.0;
    }
    if monsterHp < 0.0 {
      monsterHp := 0.0;
    }
    next := Combat(heroHp, heroMana, monsterHp, monsterMana);
  }

  /** The hero's half of a turn: its damage and its mana afterwards. */
  method HeroAttack(h: seq<real>, m: seq<real>, c: Combat) returns (damage: real, mana: real)
    requires IsStats(h) && IsStats(m)
    ensures damage == HeroDamage(h, m, c)
    ensures mana == if HeroCasts(h, c) then c.heroMana - SpellCost else c.heroMana
  {
    if h[INT] > h[STR] && c.heroMana >= SpellCost {
      damage := h[INT] - m[MDEF];
      mana := c.heroMana - SpellCost;
    } else {
      damage := h[STR] - m[DEF];
      mana := c.heroMana;
    }
    if damage < 0.0 {
      damage := 0.0;
    }
  }

  /** The monster's half of a turn: its damage and its mana afterwards. */
  method MonsterAttack(h: seq<real>, m: seq<real>, c: Combat, coin: bool) returns (damage: real, mana: real)
    requires IsStats(h) && IsStats(m)
    ensures damage == MonsterDamage(h, m, c, coin)
    ensures mana == if MonsterCasts(c, coin) then c.monsterMana - SpellCost else c.monsterMana
  {
    if c.monsterMana >= SpellCost && coin {
      damage := m[INT] - h[MDEF];
      mana := c.monsterMana - SpellCost;
    } else {
      damage := m[STR] - h[DEF];
      mana := c.monsterMana;
    }
    if damage < 0.0 {
      damage := 0.0;
    }
  }

  // ---------------------------------------------------------------- properties

  /**
   * Over the whole battle mana never increases, and a side that starts with
   * non-negative mana never goes below zero.
   */
  lemma {:induction false} ManaNeverNegative(h: seq<real>, m: seq<real>, coins: seq<bool>, t: nat)
    requires IsStats(h) && IsStats(m) && t <= |coins|
    ensures StateAt(h, m, coins, t).heroMana <= h[MN] && StateAt(h, m, coins, t).monsterMana <= m[MN]
    ensures h[MN] >= 0.0 ==> StateAt(h, m, coins, t).heroMana >= 0.0
    ensures m[MN] >= 0.0 ==> StateAt(h, m, coins, t).monsterMana >= 0.0
  {
    if t > 0 {
      ManaNeverNegative(h, m, coins, t - 1);
    }
  }

  /**
   * From the first turn on both HPs are non-negative and never increase
   * (before it they are whatever was entered).
   */
  lemma {:induction false} HpNonIncreasing(h: seq<real>, m: seq<real>, coins: seq<bool>, t1: nat, t2: nat)
    requires IsStats(h) && IsStats(m) && 0 < t1 <= t2 <= |coins|
    ensures StateAt(h, m, coins, t2).heroHp >= 0.0 && StateAt(h, m, coins, t2).monsterHp >= 0.0
    ensures StateAt(h, m, coins, t2).heroHp <= StateAt(h, m, coins, t1).heroHp
    ensures StateAt(h, m, coins, t2).monsterHp <= StateAt(h, m, coins, t1).monsterHp
  {
    if t2 > t1 {
      HpNonIncreasing(h, m, coins, t1, t2 - 1);
    }
  }

  /** The first row is the starting stats of both sides, each divided by 100. */
  lemma FirstRowIsStart(h: seq<real>, m: seq<real>, coins: seq<bool>)
    requires IsStats(h) && IsStats(m) && |coins| == SeqLen
    ensures forall k :: 0 <= k < 6 ==> Features(h, m, coins)[0][k] == h[k] / 100.0
    ensures forall k :: 0 <= k < 6 ==> Features(h, m, coins)[0][6 + k] == m[k] / 100.0
  {
    var row := Features(h, m, coins)[0];
    assert row == Row(h, m, Start(h, m));
  }

  /** The strength, intelligence and defence columns of both sides are the same in every row. */
  lemma StaticColumns(h: seq<real>, m: seq<real>, coins: seq<bool>, t: nat)
    requires IsStats(h) && IsStats(m) && |coins| == SeqLen && t < SeqLen
    ensures forall k :: 2 <= k < 6 ==> Features(h, m, coins)[t][k] == h[k] / 100.0
    ensures forall k :: 2 <= k < 6 ==> Features(h, m, coins)[t][6 + k] == m[k] / 100.0
  {
    var row := Features(h, m, coins)[t];
    assert row == Row(h, m, StateAt(h, m, coins, t));
  }

  // ---------------------------------------------------------------- the two training battles

  /** The hero of the winning training battle (`h_win`). */
  const StrongHero: seq<real> := [100.0, 50.0, 90.0, 20.0, 80.0, 50.0]
  /** Its opponent (`m_lose`). */
  const WeakMonster: seq<real> := [100.0, 100.0, 20.0, 80.0, 10.0, 80.0]
  /** The hero of the losing training battle (`h_lose`). */
  const WeakHero: seq<real> := [80.0, 20.0, 30.0, 30.0, 20.0, 20.0]
  /** Its opponent (`m_win`). */
  const StrongMonster: seq<real> := [200.0, 100.0, 90.0, 90.0, 80.0, 80.0]

  /**
   * In the winning battle the hero's sword deals 80 a turn, whatever the
   * coins: the monster's HP feature reads 1.0, then 0.2, then 0.0.
   */
  lemma WinningBattle(coins: seq<bool>)
    requires |coins| == SeqLen
    ensures Features(StrongHero, WeakMonster, coins)[0][6] == 1.0
    ensures Features(StrongHero, WeakMonster, coins)[1][6] == 0.2
    ensures Features(StrongHero, WeakMonster, coins)[2][6] == 0.0
  {
    var f := Features(StrongHero, WeakMonster, coins);
    assert f[1] == Row(StrongHero, WeakMonster, StateAt(StrongHero, WeakMonster, coins, 1));
    assert f[2] == Row(StrongHero, WeakMonster, StateAt(StrongHero, WeakMonster, coins, 2));
  }

  /**
   * In the losing battle the hero deals no damage and takes 70 a turn by
   * sword or spell alike: its HP feature reads 0.8, 0.1, 0.0 while the
   * monster's stays at 2.0, whatever the coins.
   */
  lemma LosingBattle(coins: seq<bool>)
    requires |coins| == SeqLen
    ensures forall t :: 0 <= t < SeqLen ==> Features(WeakHero, StrongMonster, coins)[t][6] == 2.0
    ensures Features(WeakHero, StrongMonster, coins)[0][0] == 0.8
    ensures Features(WeakHero, StrongMonster, coins)[1][0] == 0.1
    ensures Features(WeakHero, StrongMonster, coins)[2][0] == 0.0
  {
    var f := Features(WeakHero, StrongMonster, coins);
    assert f[0] == Row(WeakHero, StrongMonster, StateAt(WeakHero, StrongMonster, coins, 0));
    assert f[1] == Row(WeakHero, StrongMonster, StateAt(WeakHero, StrongMonster, coins, 1));
    assert f[2] == Row(WeakHero, StrongMonster, StateAt(WeakHero, StrongMonster, coins, 2));
  }
}
