/**
 * The value side of the combat engine: enemy templates, the combat session
 * record, the damage-formula split, critical damage, the victory rewards and
 * `formatDiceRoll`. The steps that change the game state live in `Engine` and
 * in the `Game` class.
 */
module Combat {
  import opened Wrappers
  import opened Text
  import opened Dice
  import opened Ledger

  /** One entry of `enemyDatabase`, or a live enemy cloned from it. */
  datatype Enemy = Enemy(
    id: string, name: string, level: int, health: int, maxHealth: int,
    armorClass: int, attackBonus: int, damageDice: string,
    expReward: int, goldReward: int, difficulty: string)

  const EnemyDatabase: seq<Enemy> := [
    Enemy("bandit", "Bandit", 1, 50, 50, 12, 4, "1d6", 25, 10, "easy"),
    Enemy("bandit_leader", "Bandit Leader", 3, 80, 80, 15, 6, "1d8+2", 75, 30, "medium"),
    Enemy("wild_wolf", "Wild Wolf", 2, 35, 35, 13, 5, "1d6+2", 40, 5, "easy"),
    Enemy("orc_warrior", "Orc Warrior", 4, 120, 120, 16, 7, "2d6+3", 100, 50, "hard")
  ]

  /** `enemyDatabase[key]`; each template's key is its id. */
  function FindEnemy(key: string): (r: Option<Enemy>)
    ensures r.Some? ==> r.value in EnemyDatabase && r.value.id == key
    ensures r.None? ==> forall k :: 0 <= k < |EnemyDatabase| ==> EnemyDatabase[k].id != key
  {
    FindEnemyIn(EnemyDatabase, key)
  }

  function FindEnemyIn(table: seq<Enemy>, key: string): (r: Option<Enemy>)
    ensures r.Some? ==> r.value in table && r.value.id == key
    ensures r.None? ==> forall k :: 0 <= k < |table| ==> table[k].id != key
  {
    if table == [] then None
    else if table[0].id == key then Some(table[0])
    else FindEnemyIn(table[1..], key)
  }

  /** One entry of the combat log: a `playerAttack` or an `enemyAttack` result. */
  datatype AttackResult =
    | PlayerStrike(enemyIndex: nat, check: Check, hit: bool, damage: Option<Damage>, critical: bool, defeated: bool)
    | EnemyStrike(enemyIndex: nat, enemyName: string, check: Check, hit: bool, damage: Option<Damage>, critical: bool)

  /** `combatState`: the enemies, the round, whose turn it is and the log. */
  datatype Session = Session(enemies: seq<Enemy>, round: int, playerTurn: bool, log: seq<AttackResult>)

  /** The id `startCombat` gives the `i`-th clone: `${enemyId}_${i}`. */
  function CloneId(enemyId: string, i: nat): string {
    enemyId + "_" + NatToString(i)
  }

  /** The enemies `startCombat` creates: copies of the template at full health with numbered ids. */
  function Clones(template: Enemy, enemyId: string, count: nat): (r: seq<Enemy>)
    ensures |r| == count
    ensures forall i :: 0 <= i < count ==>
      r[i] == template.(id := CloneId(enemyId, i), health := template.maxHealth)
  {
    seq(count, i requires 0 <= i < count => template.(id := CloneId(enemyId, i), health := template.maxHealth))
  }

  /** The indices of the enemies with health above 0, in index order. */
  function AliveIndices(enemies: seq<Enemy>): (r: seq<nat>)
    ensures forall k :: 0 <= k < |r| ==> r[k] < |enemies| && enemies[r[k]].health > 0
    ensures forall i :: 0 <= i < |enemies| && enemies[i].health > 0 ==> i in r
    ensures forall a, b :: 0 <= a < b < |r| ==> r[a] < r[b]
    decreases |enemies|
  {
    if enemies == [] then []
    else
      var front := AliveIndices(enemies[..|enemies| - 1]);
      var last := |enemies| - 1;
      if enemies[last].health > 0 then front + [last] else front
  }

  /** Alive status depends on health only: enemies with the same healths have the same alive indices. */
  lemma {:induction false} AliveIndicesByHealth(a: seq<Enemy>, b: seq<Enemy>)
    requires |a| == |b| && forall i :: 0 <= i < |a| ==> a[i].health == b[i].health
    ensures AliveIndices(a) == AliveIndices(b)
    decreases |a|
  {
    if a != [] {
      AliveIndicesByHealth(a[..|a| - 1], b[..|b| - 1]);
    }
  }

  /** The reward template of a live enemy: the template named by its id up to the first `_`. */
  function RewardTemplate(e: Enemy): Option<Enemy> {
    FindEnemy(PrefixBefore(e.id, '_'))
  }

  /** One more enemy adds the rewards of its template, if any. */
  lemma RewardTotalsStep(enemies: seq<Enemy>, i: nat)
    requires i < |enemies|
    ensures var before, t := RewardTotals(enemies[..i]), RewardTemplate(enemies[i]);
      RewardTotals(enemies[..i + 1]) == if t.Some? then (before.0 + t.value.expReward, before.1 + t.value.goldReward) else before
  {
    assert enemies[..i + 1][..i] == enemies[..i];
  }

  /** The experience and gold `endCombat(true)` grants for these enemies. */
  function RewardTotals(enemies: seq<Enemy>): (int, int)
    decreases |enemies|
  {
    if enemies == [] then (0, 0)
    else
      var (exp, gold) := RewardTotals(enemies[..|enemies| - 1]);
      match RewardTemplate(enemies[|enemies| - 1])
      case None => (exp, gold)
      case Some(t) => (exp + t.expReward, gold + t.goldReward)
  }

  /** `s.split('_')[0]` of `p_rest` is `p` when `p` has no `_`. */
  lemma {:induction false} PrefixBeforeUnderscore(p: string, rest: string)
    requires '_' !in p
    ensures PrefixBefore(p + "_" + rest, '_') == p
    decreases |p|
  {
    if p != [] {
      assert (p + "_" + rest)[1..] == p[1..] + "_" + rest;
      PrefixBeforeUnderscore(p[1..], rest);
    }
  }

  /** Enemies that all earn the rewards of the same template earn them once each. */
  lemma {:induction false} UniformRewards(enemies: seq<Enemy>, t: Option<Enemy>)
    requires forall i :: 0 <= i < |enemies| ==> RewardTemplate(enemies[i]) == t
    ensures RewardTotals(enemies) == if t.Some? then (|enemies| * t.value.expReward, |enemies| * t.value.goldReward) else (0, 0)
    decreases |enemies|
  {
    if enemies != [] {
      UniformRewards(enemies[..|enemies| - 1], t);
    }
  }

  /** Every clone of `p_rest` is paid from the template named `p`. */
  lemma CloneTemplates(template: Enemy, p: string, rest: string, count: nat)
    requires '_' !in p
    ensures forall i :: 0 <= i < count ==> RewardTemplate(Clones(template, p + "_" + rest, count)[i]) == FindEnemy(p)
  {
    forall i | 0 <= i < count
      ensures RewardTemplate(Clones(template, p + "_" + rest, count)[i]) == FindEnemy(p)
    {
      assert CloneId(p + "_" + rest, i) == p + "_" + (rest + "_" + NatToString(i));
      PrefixBeforeUnderscore(p, rest + "_" + NatToString(i));
    }
  }

  /**
   * Clones of a template under an id starting `p_` earn, each, the rewards
   * `exp` and `gold` of the template named `p`, or nothing when no template has
   * that name.
   */
  lemma CloneRewards(template: Enemy, id: string, p: string, count: nat, exp: int, gold: int)
    requires '_' !in p && |p| < |id| && id[..|p|] == p && id[|p|] == '_'
    requires FindEnemy(p).Some? ==> FindEnemy(p).value.expReward == exp && FindEnemy(p).value.goldReward == gold
    requires FindEnemy(p).None? ==> exp == 0 && gold == 0
    ensures RewardTotals(Clones(template, id, count)) == (count * exp, count * gold)
  {
    var rest := id[|p| + 1..];
    assert id == p + "_" + rest;
    CloneTemplates(template, p, rest, count);
    UniformRewards(Clones(template, id, count), FindEnemy(p));
  }

  /** Bandit clones earn 25 experience and 10 gold each. */
  lemma BanditCloneRewards(count: nat)
    ensures RewardTotals(Clones(EnemyDatabase[0], "bandit", count)) == (count * 25, count * 10)
  {
    var bandit := FindEnemy("bandit");
    assert bandit == Some(EnemyDatabase[0]);
    forall i | 0 <= i < count
      ensures RewardTemplate(Clones(EnemyDatabase[0], "bandit", count)[i]) == bandit
    {
      PrefixBeforeUnderscore("bandit", NatToString(i));
    }
    UniformRewards(Clones(EnemyDatabase[0], "bandit", count), bandit);
  }

  /** Bandit leaders are paid as bandits, 25/10 each, not 75/30. */
  lemma LeaderCloneRewards(count: nat)
    ensures RewardTotals(Clones(EnemyDatabase[1], "bandit_leader", count)) == (count * 25, count * 10)
  {
    assert FindEnemy("bandit") == Some(EnemyDatabase[0]);
    CloneRewards(EnemyDatabase[1], "bandit_leader", "bandit", count, 25, 10);
  }

  /** No template is named "wild" or "orc". */
  lemma NoWildOrOrcTemplate()
    ensures FindEnemy("wild").None? && FindEnemy("orc").None?
  {
    forall k | 0 <= k < |EnemyDatabase|
      ensures EnemyDatabase[k].id != "wild" && EnemyDatabase[k].id != "orc"
    {
      assert |EnemyDatabase[k].id| >= 6 && EnemyDatabase[k].id[0] in {'b', 'w', 'o'};
    }
  }

  /** Wolves pay nothing: their prefix "wild" names no template. */
  lemma WolfCloneRewards(count: nat)
    ensures RewardTotals(Clones(EnemyDatabase[2], "wild_wolf", count)) == (0, 0)
  {
    NoWildOrOrcTemplate();
    CloneRewards(EnemyDatabase[2], "wild_wolf", "wild", count, 0, 0);
  }

  /** Orcs pay nothing: their prefix "orc" names no template. */
  lemma OrcCloneRewards(count: nat)
    ensures RewardTotals(Clones(EnemyDatabase[3], "orc_warrior", count)) == (0, 0)
  {
    NoWildOrOrcTemplate();
    CloneRewards(EnemyDatabase[3], "orc_warrior", "orc", count, 0, 0);
  }

  /** The flat `[+-]\d+` part that may follow a dice match ending at `e`, or 0. */
  function SignedSuffix(s: string, e: nat): (r: int)
    requires e <= |s|
    ensures r != 0 ==> e + 1 < |s| && IsDigit(s[e + 1])
    ensures r > 0 ==> s[e] == '+'
    ensures r < 0 ==> s[e] == '-'
    ensures e + 1 < |s| && s[e] == '+' && IsDigit(s[e + 1]) ==> r == DigitsValue(s[e + 1..DigitRunEnd(s, e + 1)])
    ensures e + 1 < |s| && s[e] == '-' && IsDigit(s[e + 1]) ==> r == -(DigitsValue(s[e + 1..DigitRunEnd(s, e + 1)]) as int)
  {
    if e + 1 < |s| && (s[e] == '+' || s[e] == '-') && IsDigit(s[e + 1]) then
      var v: int := DigitsValue(s[e + 1..DigitRunEnd(s, e + 1)]);
      if s[e] == '+' then v else -v
    else 0
  }

  /** A damage formula cut into its dice part and its flat part. */
  datatype Split = Split(dice: string, flat: int)

  /**
   * `enemyAttack`'s split of "NdM±K" by `/(\d+)d(\d+)([+-]\d+)?/`: the matched
   * "NdM" text and K. A string without a match is kept whole, with 0.
   */
  function SplitDamageFormula(s: string): (r: Split)
    ensures FindDice(s).None? ==> r == Split(s, 0)
    ensures FindDice(s).Some? ==> var m := FindDice(s).value;
      FindDice(r.dice) == Some(DiceMatch(m.count, m.sides, 0, |r.dice|)) && r.flat == SignedSuffix(s, m.end)
  {
    match FindDice(s)
    case None => Split(s, 0)
    case Some(m) =>
      MatchedTextReparses(s);
      Split(s[m.start..m.end], SignedSuffix(s, m.end))
  }

  /** A bare "NdM" is kept as it is, with flat part 0. */
  lemma SplitPlain(count: nat, sides: nat)
    ensures SplitDamageFormula(DiceFormula(count, sides)) == Split(DiceFormula(count, sides), 0)
  {
    var f := DiceFormula(count, sides);
    assert f + "" == f;
    DiceFormulaRoundTrip(count, sides, "");
  }

  /** The flat part "+K" right after the dice is read as K. */
  lemma PlusSuffix(f: string, k: nat)
    ensures SignedSuffix(f + "+" + NatToString(k), |f|) == k
  {
    var digits := NatToString(k);
    var s := f + "+" + digits;
    assert s[|f|] == '+' && s[|f| + 1..|s|] == digits && s[|f| + 1] == digits[0];
    DigitRunEndAt(s, |f| + 1, |s|);
    NatToStringRoundTrip(k);
  }

  /** "NdM+K" splits into "NdM" and K. */
  lemma SplitPlus(count: nat, sides: nat, k: nat)
    ensures SplitDamageFormula(DiceFormula(count, sides) + "+" + NatToString(k)) == Split(DiceFormula(count, sides), k)
  {
    var f, digits := DiceFormula(count, sides), NatToString(k);
    var s := f + "+" + digits;
    assert s == f + ("+" + digits);
    DiceFormulaRoundTrip(count, sides, "+" + digits);
    assert s[0..|f|] == f;
    PlusSuffix(f, k);
  }

  /** The flat part "-K" right after the dice is read as -K. */
  lemma MinusSuffix(f: string, k: nat)
    ensures SignedSuffix(f + "-" + NatToString(k), |f|) == -(k as int)
  {
    var digits := NatToString(k);
    var s := f + "-" + digits;
    assert s[|f|] == '-' && s[|f| + 1..|s|] == digits && s[|f| + 1] == digits[0];
    DigitRunEndAt(s, |f| + 1, |s|);
    NatToStringRoundTrip(k);
  }

  /** "NdM-K" splits into "NdM" and -K: the sign is kept, as `parseInt("-K")` does. */
  lemma SplitMinus(count: nat, sides: nat, k: nat)
    ensures SplitDamageFormula(DiceFormula(count, sides) + "-" + NatToString(k)) == Split(DiceFormula(count, sides), -(k as int))
  {
    var f, digits := DiceFormula(count, sides), NatToString(k);
    var s := f + "-" + digits;
    assert s == f + ("-" + digits);
    DiceFormulaRoundTrip(count, sides, "-" + digits);
    assert s[0..|f|] == f;
    MinusSuffix(f, k);
  }

  /** The four templates split into their dice and flat parts, e.g. "2d6+3" into "2d6" and 3. */
  lemma TemplateFormulas()
    ensures SplitDamageFormula(EnemyDatabase[0].damageDice) == Split("1d6", 0)
    ensures SplitDamageFormula(EnemyDatabase[1].damageDice) == Split("1d8", 2)
    ensures SplitDamageFormula(EnemyDatabase[2].damageDice) == Split("1d6", 2)
    ensures SplitDamageFormula(EnemyDatabase[3].damageDice) == Split("2d6", 3)
  {
    assert DigitChar(1) == '1' && DigitChar(2) == '2' && DigitChar(3) == '3';
    assert DigitChar(6) == '6' && DigitChar(8) == '8';
    var d0, d1, d2, d3 := EnemyDatabase[0].damageDice, EnemyDatabase[1].damageDice, EnemyDatabase[2].damageDice, EnemyDatabase[3].damageDice;
    assert d0 == "1d6" == [DigitChar(1), 'd', DigitChar(6)];
    SplitTemplate(1, 6, 0);
    assert d1 == "1d8+2" == [DigitChar(1), 'd', DigitChar(8), '+', DigitChar(2)];
    SplitTemplate(1, 8, 2);
    assert d2 == "1d6+2" == [DigitChar(1), 'd', DigitChar(6), '+', DigitChar(2)];
    SplitTemplate(1, 6, 2);
    assert d3 == "2d6+3" == [DigitChar(2), 'd', DigitChar(6), '+', DigitChar(3)];
    SplitTemplate(2, 6, 3);
  }

  lemma SplitTemplate(count: nat, sides: nat, k: nat)
    requires count < 10 && sides < 10 && k < 10
    ensures var f := [DigitChar(count), 'd', DigitChar(sides)];
      SplitDamageFormula(if k == 0 then f else [DigitChar(count), 'd', DigitChar(sides), '+', DigitChar(k)]) == Split(f, k)
  {
    var f := [DigitChar(count), 'd', DigitChar(sides)];
    assert DiceFormula(count, sides) == f;
    if k == 0 {
      SplitPlain(count, sides);
    } else {
      assert f + "+" + NatToString(k) == [DigitChar(count), 'd', DigitChar(sides), '+', DigitChar(k)];
      SplitPlus(count, sides, k);
    }
  }

  /**
   * Critical damage in `playerAttack` and `enemyAttack`: both pools are listed,
   * but the total is the second pool plus the flat modifier only.
   */
  function CritDamage(first: Damage, second: Damage, flat: int): Damage {
    Damage(first.rolls + second.rolls, first.modifier, second.total + flat)
  }

  /** Critical damage in the chat path (`executePendingRoll`): the two totals are added. */
  function ChatCritDamage(first: Damage, second: Damage): Damage {
    Damage(first.rolls + second.rolls, first.modifier, first.total + second.total)
  }

  /**
   * On a formula that matches, the combat-path critical ignores the first pool,
   * while the chat-path critical counts every listed die once plus the
   * modifier; the two differ by exactly the first pool.
   */
  lemma CriticalPaths(formula: string, modifier: int, rand: nat -> nat, at: nat)
    requires FindDice(formula).Some?
    ensures var first := DamageOf(formula, modifier, rand, at);
      var second := DamageOf(formula, 0, rand, at + |first.rolls|);
      && CritDamage(first, second, modifier).total == Sum(second.rolls) + modifier
      && ChatCritDamage(first, second).total == Sum(first.rolls + second.rolls) + modifier
      && ChatCritDamage(first, second).total - CritDamage(first, second, modifier).total == Sum(first.rolls)
  {
    var first := DamageOf(formula, modifier, rand, at);
    var second := DamageOf(formula, 0, rand, at + |first.rolls|);
    assert first.total == Sum(first.rolls) + modifier && second.total == Sum(second.rolls);
    CritTotals(first, second, modifier);
  }

  /** The two criticals on any pair of pools whose totals are their sums, the first with the modifier. */
  lemma CritTotals(first: Damage, second: Damage, modifier: int)
    requires first.total == Sum(first.rolls) + modifier && second.total == Sum(second.rolls)
    ensures CritDamage(first, second, modifier).total == Sum(second.rolls) + modifier
    ensures ChatCritDamage(first, second).total == Sum(first.rolls + second.rolls) + modifier
    ensures ChatCritDamage(first, second).total - CritDamage(first, second, modifier).total == Sum(first.rolls)
  {
    SumAppend(first.rolls, second.rolls);
  }

  /**
   * `getPlayerDamageDice`: the `damageDice` of the first inventory stack whose
   * item is a weapon, if it has one, else "1d4".
   */
  function PlayerDamageDice(inv: seq<Stack>): string {
    match FirstWeapon(inv)
    case Some(w) => w.damageDice.GetOr("1d4")
    case None => "1d4"
  }

  function FirstWeapon(inv: seq<Stack>): (r: Option<ItemData>)
    ensures r.Some? ==> r.value in ItemDatabase && r.value.kind == "weapon"
  {
    if inv == [] then None
    else match FindItem(inv[0].id)
      case Some(d) =>
        if d.kind == "weapon" then Some(d) else FirstWeapon(inv[1..])
      case None => FirstWeapon(inv[1..])
  }

  /** No item of the database has damage dice, so the player always strikes with 1d4. */
  lemma PlayerAlwaysOneDFour(inv: seq<Stack>)
    ensures PlayerDamageDice(inv) == "1d4"
  {
  }

  /** `formatDiceRoll(result, 'attack' | 'skill')`. */
  function FormatCheck(c: Check): string {
    (if c.success then "✓" else "✗")
      + " [" + IntToString(c.roll) + "] + " + IntToString(c.modifier) + " = " + IntToString(c.total)
      + " vs " + IntToString(c.difficulty) + (if c.roll == 20 then " (CRITICAL!)" else "")
  }

  lemma IntToStringEndsInDigit(i: int)
    ensures |IntToString(i)| >= 1 && IsDigit(IntToString(i)[|IntToString(i)| - 1])
  {
  }

  /** The first mark tells success, and the text ends in ")" exactly on a natural 20. */
  lemma FormatCheckMarks(c: Check)
    ensures var r := FormatCheck(c);
      (|r| >= 1 && (r[0] == '✓' <==> c.success) && (r[|r| - 1] == ')' <==> c.roll == 20))
  {
    IntToStringEndsInDigit(c.difficulty);
  }

  /** `formatDiceRoll(result, 'damage')`: the " + mod" part is written only for a non-zero modifier. */
  function FormatDamage(d: Damage): string {
    "[" + Join(seq(|d.rolls|, i requires 0 <= i < |d.rolls| => IntToString(d.rolls[i])), " + ") + "]"
      + (if d.modifier != 0 then " + " + IntToString(d.modifier) else "")
      + " = " + IntToString(d.total) + " damage"
  }

  /** After the bracketed dice the text continues with " + " iff the modifier is non-zero. */
  lemma FormatDamageModifier(d: Damage)
    ensures var dice := "[" + Join(seq(|d.rolls|, i requires 0 <= i < |d.rolls| => IntToString(d.rolls[i])), " + ") + "]";
      var r := FormatDamage(d);
      |dice| + 3 <= |r| && r[..|dice|] == dice
      && (r[|dice|..|dice| + 3] == " + " <==> d.modifier != 0)
  {
    var dice := "[" + Join(seq(|d.rolls|, i requires 0 <= i < |d.rolls| => IntToString(d.rolls[i])), " + ") + "]";
    var mod := if d.modifier != 0 then " + " + IntToString(d.modifier) else "";
    var tail := mod + " = " + IntToString(d.total) + " damage";
    assert FormatDamage(d) == dice + tail;
    assert (dice + tail)[..|dice|] == dice;
    assert (dice + tail)[|dice|..|dice| + 3] == tail[..3];
    if d.modifier != 0 {
      assert tail[..3] == " + ";
    } else {
      assert tail[..3] == " = ";
    }
  }
}
