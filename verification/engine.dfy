/**
 * The game state (`gameState` together with the combat session and the d20
 * draws consumed so far) and the combat steps of combat-system.js as
 * functions on it: starting and ending a fight, one player attack, one enemy
 * attack, the enemy phase and the turn machine of `processCombatTurn`.
 *
 * Randomness: `rand(k)` is the value standing for the `k`-th `Math.random()`
 * call; `drawn` counts the calls made so far.
 */
module Engine {
  import opened Wrappers
  import opened Dice
  import opened Characters
  import opened Ledger
  import opened Combat

  /** `gameState.pendingRoll`: the single roll waiting for the player's click. */
  datatype PendingRoll =
    | SkillPending(skill: string, modifier: int, difficulty: int, message: string)
    | AttackPending(targetIndex: nat, enemyName: string, modifier: int, difficulty: int, message: string)

  datatype GameState = GameState(
    character: Character, inventory: seq<Stack>, party: seq<Member>,
    questDb: seq<Quest>, active: seq<Quest>, completed: seq<string>, rumors: seq<string>,
    npcs: map<string, int>, location: string, combat: Option<Session>,
    history: seq<RollEntry>, pending: Option<PendingRoll>, drawn: nat)

  /** The state the page starts with. */
  const InitialState := GameState(DefaultCharacter, [], [], QuestDatabase, [], [], [], map[], "tavern", None, [], None, 0)

  /** What every operation keeps: a positive level threshold (so `checkLevelUp` stops) and at most 20 saved rolls. */
  predicate Valid(s: GameState) {
    s.character.expToNext >= 1 && |s.history| <= HistoryLimit
  }

  /** `updateSkillModifiers`, the state change of every `updateUI` call. */
  function UpdateUi(s: GameState): (r: GameState)
    ensures r.character.skills == DerivedSkills(s.character.stats)
    ensures r.(character := s.character) == s && r.character.(skills := s.character.skills) == s.character
  {
    s.(character := WithDerivedSkills(s.character))
  }

  /** `health -= damage`, then a result at or below 0 is set to 0. */
  function ClampedHealth(health: int, damage: int): (r: int)
    ensures r >= 0
    ensures r == 0 <==> health - damage <= 0
    ensures r > 0 ==> r == health - damage
  {
    if health - damage <= 0 then 0 else health - damage
  }

  /**
   * The damage of a landed attack in `playerAttack` and `enemyAttack`: one pool
   * with the flat modifier, and on a critical a second pool that replaces the
   * first in the total. It uses one draw per listed die.
   */
  function StrikeDamage(formula: string, flat: int, critical: bool, rand: nat -> nat, at: nat): Damage {
    var first := DamageOf(formula, flat, rand, at);
    if critical then CritDamage(first, DamageOf(formula, 0, rand, at + |first.rolls|), flat)
    else first
  }

  /** The combat-path strike's damage from its first pool: a second pool follows it on a critical. */
  lemma StrikeDamageAfter(formula: string, flat: int, critical: bool, rand: nat -> nat, at: nat, first: Damage)
    requires first == DamageOf(formula, flat, rand, at)
    ensures StrikeDamage(formula, flat, critical, rand, at)
      == if critical then CritDamage(first, DamageOf(formula, 0, rand, at + |first.rolls|), flat) else first
  {
  }

  /**
   * The damage of a landed chat attack and the draws it takes: the formula's
   * pool with the modifier, and on a critical a second pool whose dice and
   * total are appended.
   */
  function ChatStrikeDamage(formula: string, modifier: int, rand: nat -> nat, at: nat, critical: bool): Damage {
    var first := DamageOf(formula, modifier, rand, at);
    if critical then ChatCritDamage(first, DamageOf(formula, 0, rand, at + |first.rolls|))
    else first
  }

  /** The chat strike's damage from its first pool: a second pool follows it on a critical. */
  lemma ChatStrikeDamageAfter(formula: string, modifier: int, rand: nat -> nat, at: nat, critical: bool, first: Damage)
    requires first == DamageOf(formula, modifier, rand, at)
    ensures ChatStrikeDamage(formula, modifier, rand, at, critical)
      == if critical then ChatCritDamage(first, DamageOf(formula, 0, rand, at + |first.rolls|)) else first
  {
  }

  /** On a formula that matches, a critical chat strike rolls the pool twice and adds the modifier once. */
  lemma ChatStrikeDamageShape(formula: string, modifier: int, rand: nat -> nat, at: nat, critical: bool)
    ensures !critical ==> ChatStrikeDamage(formula, modifier, rand, at, critical) == DamageOf(formula, modifier, rand, at)
    ensures critical && FindDice(formula).Some? ==>
      var m, r := FindDice(formula).value, ChatStrikeDamage(formula, modifier, rand, at, critical);
      && |r.rolls| == 2 * m.count && r.total == Sum(r.rolls) + modifier
  {
    var first := DamageOf(formula, modifier, rand, at);
    ChatStrikeDamageAfter(formula, modifier, rand, at, critical, first);
    if critical && FindDice(formula).Some? {
      var second := DamageOf(formula, 0, rand, at + |first.rolls|);
      DamageOfShape(formula, modifier, rand, at);
      DamageOfShape(formula, 0, rand, at + |first.rolls|);
      SumAppend(first.rolls, second.rolls);
      assert ChatCritDamage(first, second).total == (Sum(first.rolls) + modifier) + Sum(second.rolls);
    }
  }

  /** `startCombat(enemyId, count)`: `None` (the `false` result) for an unknown template. */
  function StartCombatSpec(s: GameState, enemyId: string, count: nat): (r: Option<GameState>)
    ensures r.None? <==> FindEnemy(enemyId).None?
    ensures r.Some? ==> r.value == s.(combat := r.value.combat) && r.value.combat.Some?
    ensures r.Some? ==> var c := r.value.combat.value;
      && c.round == 1 && c.playerTurn && c.log == [] && |c.enemies| == count
      && forall i :: 0 <= i < count ==>
           c.enemies[i].id == CloneId(enemyId, i) && c.enemies[i].health == c.enemies[i].maxHealth
           && c.enemies[i].(id := enemyId, health := FindEnemy(enemyId).value.health) == FindEnemy(enemyId).value
  {
    match FindEnemy(enemyId)
    case None => None
    case Some(t) => Some(s.(combat := Some(Session(Clones(t, enemyId, count), 1, true, []))))
  }

  /**
   * `endCombat(victory)`: nothing without a session; otherwise the session is
   * cleared, after a victory adding the rewards of the enemies' prefix templates
   * to experience and gold and then levelling up.
   */
  function EndCombatSpec(s: GameState, victory: bool): (r: GameState)
    requires Valid(s)
    ensures Valid(r) && r.combat.None?
    ensures s.combat.None? ==> r == s
    ensures s.combat.Some? && !victory ==> r == s.(combat := None)
    ensures s.combat.Some? && victory ==>
      var totals := RewardTotals(s.combat.value.enemies);
      && r.character == LevelUps(s.character.(exp := s.character.exp + totals.0, gold := s.character.gold + totals.1))
      && r.character.gold == s.character.gold + totals.1
      && r == s.(character := r.character, combat := None)
  {
    if s.combat.None? then s
    else if victory then
      var totals := RewardTotals(s.combat.value.enemies);
      var grown := s.character.(exp := s.character.exp + totals.0, gold := s.character.gold + totals.1);
      s.(character := LevelUps(grown), combat := None)
    else s.(combat := None)
  }

  /** After a victory the session goes and the character levels up with the rewards of `RewardTotals`. */
  lemma EndCombatWon(s: GameState, exp: int, gold: int)
    requires Valid(s) && s.combat.Some? && (exp, gold) == RewardTotals(s.combat.value.enemies)
    ensures EndCombatSpec(s, true) == s.(character := LevelUps(s.character.(exp := s.character.exp + exp, gold := s.character.gold + gold)), combat := None)
  {
  }

  /**
   * `playerAttack(i)`: `None` without a session, outside the player's turn or
   * for an index past the end. Otherwise a d20 against the target's armour
   * class with the strength modifier; a landed attack rolls the player's damage
   * dice and lowers the target's health, clamped at 0. The attack roll is saved,
   * and so is the damage (showing its final, critical-adjusted values, because
   * the saved record is the object changed afterwards). One log entry is added.
   */
  function PlayerAttackSpec(s: GameState, rand: nat -> nat, i: nat): (r: Option<(GameState, AttackResult)>)
    ensures r.None? <==> s.combat.None? || !s.combat.value.playerTurn || i >= |s.combat.value.enemies|
    ensures r.Some? ==> var t, res, c := r.value.0, r.value.1, s.combat.value;
      && t == s.(history := t.history, drawn := t.drawn, combat := t.combat)
      && t.combat.Some? && t.drawn > s.drawn
      && t.combat.value == c.(enemies := t.combat.value.enemies, log := c.log + [res])
      && |t.combat.value.enemies| == |c.enemies|
      && (forall k :: 0 <= k < |c.enemies| && k != i ==> t.combat.value.enemies[k] == c.enemies[k])
      && res.PlayerStrike? && res.enemyIndex == i
      && res.check.modifier == Modifier(s.character.stats.strength) && res.check.difficulty == c.enemies[i].armorClass
      && 1 <= res.check.roll <= 20 && res.critical == (res.check.roll == 20)
      && res.hit == Lands(res.check) && (res.hit <==> res.damage.Some?)
      && (!res.hit ==> t.combat.value.enemies == c.enemies && !res.defeated)
      && (res.hit ==>
            t.combat.value.enemies[i] == c.enemies[i].(health := ClampedHealth(c.enemies[i].health, res.damage.value.total))
            && (res.defeated <==> c.enemies[i].health - res.damage.value.total <= 0))
    ensures r.Some? && |s.history| <= HistoryLimit ==> |r.value.0.history| <= HistoryLimit
  {
    if s.combat.None? || !s.combat.value.playerTurn || i >= |s.combat.value.enemies| then None
    else
      var c := s.combat.value;
      var enemy := c.enemies[i];
      var modifier := Modifier(s.character.stats.strength);
      var check := AttackRoll(modifier, enemy.armorClass, Face(20, rand(s.drawn)));
      var critical := check.roll == 20;
      var s1 := s.(history := Recorded(s.history, Checked("attack", None, check)), drawn := s.drawn + 1);
      if !Lands(check) then
        var res := PlayerStrike(i, check, false, None, critical, false);
        Some((s1.(combat := Some(c.(log := c.log + [res]))), res))
      else Some(PlayerHitSpec(s1, rand, i, check))
  }

  /**
   * The landed branch of `playerAttack(i)` after the attack roll is saved: the
   * player's damage dice with the strength modifier are rolled and saved, the
   * target's health drops, clamped at 0, and the strike is logged.
   */
  function PlayerHitSpec(s: GameState, rand: nat -> nat, i: nat, check: Check): (GameState, AttackResult)
    requires s.combat.Some? && i < |s.combat.value.enemies|
  {
    PlayerDamaged(s, i, check, StrikeDamage(PlayerDamageDice(s.inventory), Modifier(s.character.stats.strength), check.roll == 20, rand, s.drawn))
  }

  /** The player's rolled `damage` saved and dealt to enemy `i`, clamped at 0, and the strike logged. */
  function PlayerDamaged(s: GameState, i: nat, check: Check, damage: Damage): (GameState, AttackResult)
    requires s.combat.Some? && i < |s.combat.value.enemies|
  {
    var c := s.combat.value;
    var enemy := c.enemies[i];
    var health := ClampedHealth(enemy.health, damage.total);
    var res := PlayerStrike(i, check, true, Some(damage), check.roll == 20, health == 0);
    (s.(history := Recorded(s.history, Dealt("damage", damage)), drawn := s.drawn + |damage.rolls|,
        combat := Some(c.(enemies := c.enemies[i := enemy.(health := health)], log := c.log + [res]))), res)
  }

  /** The player's armour class: 10 plus the dexterity modifier. */
  function PlayerArmorClass(c: Character): int {
    10 + Modifier(c.stats.dexterity)
  }

  /**
   * `enemyAttack(i)`: `None` without a session, during the player's turn, for an
   * index past the end or for a dead enemy. Otherwise a d20 with the enemy's
   * attack bonus against the player's armour class; a landed attack rolls the
   * enemy's "NdM" dice with its flat "±K" and lowers the player's health,
   * clamped at 0. One log entry is added; the enemies are not touched.
   */
  function EnemyAttackSpec(s: GameState, rand: nat -> nat, i: nat): (r: Option<(GameState, AttackResult)>)
    ensures r.None? <==> s.combat.None? || s.combat.value.playerTurn || i >= |s.combat.value.enemies|
                         || s.combat.value.enemies[i].health <= 0
    ensures r.Some? ==> var t, res, c := r.value.0, r.value.1, s.combat.value;
      && t == s.(character := t.character, history := t.history, drawn := t.drawn, combat := t.combat)
      && t.character == s.character.(health := t.character.health)
      && t.combat == Some(c.(log := c.log + [res])) && t.drawn > s.drawn
      && res.EnemyStrike? && res.enemyIndex == i && res.enemyName == c.enemies[i].name
      && res.check.modifier == c.enemies[i].attackBonus && res.check.difficulty == PlayerArmorClass(s.character)
      && 1 <= res.check.roll <= 20 && res.critical == (res.check.roll == 20)
      && res.hit == Lands(res.check) && (res.hit <==> res.damage.Some?)
      && (!res.hit ==> t.character == s.character)
      && (res.hit ==> t.character.health == ClampedHealth(s.character.health, res.damage.value.total))
    ensures r.Some? && |s.history| <= HistoryLimit ==> |r.value.0.history| <= HistoryLimit
  {
    if s.combat.None? || s.combat.value.playerTurn || i >= |s.combat.value.enemies| || s.combat.value.enemies[i].health <= 0 then None
    else
      var c := s.combat.value;
      var enemy := c.enemies[i];
      var check := AttackRoll(enemy.attackBonus, PlayerArmorClass(s.character), Face(20, rand(s.drawn)));
      var critical := check.roll == 20;
      var s1 := s.(history := Recorded(s.history, Checked("enemy_attack", None, check)), drawn := s.drawn + 1);
      if !Lands(check) then
        var res := EnemyStrike(i, enemy.name, check, false, None, critical);
        Some((s1.(combat := Some(c.(log := c.log + [res]))), res))
      else Some(EnemyHitSpec(s1, rand, i, check))
  }

  /**
   * The landed branch of `enemyAttack(i)` after the attack roll is saved: the
   * enemy's formula split into "NdM" and "±K" is rolled and saved, the
   * player's health drops, clamped at 0, and the strike is logged.
   */
  function EnemyHitSpec(s: GameState, rand: nat -> nat, i: nat, check: Check): (GameState, AttackResult)
    requires s.combat.Some? && i < |s.combat.value.enemies|
  {
    var split := SplitDamageFormula(s.combat.value.enemies[i].damageDice);
    EnemyDamaged(s, i, check, StrikeDamage(split.dice, split.flat, check.roll == 20, rand, s.drawn))
  }

  /** The enemy's rolled `damage` saved and dealt to the player, clamped at 0, and the strike logged. */
  function EnemyDamaged(s: GameState, i: nat, check: Check, damage: Damage): (GameState, AttackResult)
    requires s.combat.Some? && i < |s.combat.value.enemies|
  {
    var c := s.combat.value;
    var res := EnemyStrike(i, c.enemies[i].name, check, true, Some(damage), check.roll == 20);
    (s.(character := s.character.(health := ClampedHealth(s.character.health, damage.total)),
        history := Recorded(s.history, Dealt("enemy_damage", damage)), drawn := s.drawn + |damage.rolls|,
        combat := Some(c.(log := c.log + [res]))), res)
  }

  /**
   * The enemy phase: `enemyAttack` for each index of `order` in turn, collecting
   * the results that are not `null`.
   */
  function Volley(s: GameState, rand: nat -> nat, order: seq<nat>): (r: (GameState, seq<AttackResult>))
    ensures r.0 == s.(character := r.0.character, history := r.0.history, drawn := r.0.drawn, combat := r.0.combat)
    ensures r.0.character == s.character.(health := r.0.character.health)
    ensures r.0.combat.Some? == s.combat.Some?
    ensures s.combat.Some? ==> r.0.combat.value == s.combat.value.(log := s.combat.value.log + r.1)
    ensures r.0.drawn >= s.drawn
    ensures |s.history| <= HistoryLimit ==> |r.0.history| <= HistoryLimit
    decreases |order|
  {
    if order == [] then (s, [])
    else
      var prior := Volley(s, rand, order[..|order| - 1]);
      var strike := EnemyAttackSpec(prior.0, rand, order[|order| - 1]);
      if strike.None? then prior else (strike.value.0, prior.1 + [strike.value.1])
  }

  /**
   * When the enemy turn has begun, every enemy of `order` that is alive attacks
   * exactly once, in the order given.
   */
  lemma {:induction false} VolleyEveryoneStrikes(s: GameState, rand: nat -> nat, order: seq<nat>)
    requires s.combat.Some? && !s.combat.value.playerTurn
    requires forall k :: 0 <= k < |order| ==> order[k] < |s.combat.value.enemies| && s.combat.value.enemies[order[k]].health > 0
    ensures |Volley(s, rand, order).1| == |order|
    ensures forall k :: 0 <= k < |order| ==> Volley(s, rand, order).1[k].EnemyStrike? && Volley(s, rand, order).1[k].enemyIndex == order[k]
    decreases |order|
  {
    if order != [] {
      var front := order[..|order| - 1];
      assert forall k :: 0 <= k < |front| ==> front[k] == order[k];
      VolleyEveryoneStrikes(s, rand, front);
      VolleyLastStrikes(s, rand, order);
      var earlier, results := Volley(s, rand, front).1, Volley(s, rand, order).1;
      assert |results| == |earlier| + 1;
      forall k | 0 <= k < |order|
        ensures results[k].EnemyStrike? && results[k].enemyIndex == order[k]
      {
        if k < |front| {
          assert results[k] == earlier[k];
        }
      }
    }
  }

  /** The last index of a volley against a living enemy adds exactly its strike. */
  lemma VolleyLastStrikes(s: GameState, rand: nat -> nat, order: seq<nat>)
    requires s.combat.Some? && !s.combat.value.playerTurn && order != []
    requires order[|order| - 1] < |s.combat.value.enemies| && s.combat.value.enemies[order[|order| - 1]].health > 0
    ensures var prior := Volley(s, rand, order[..|order| - 1]);
      && EnemyAttackSpec(prior.0, rand, order[|order| - 1]).Some?
      && Volley(s, rand, order).1 == prior.1 + [EnemyAttackSpec(prior.0, rand, order[|order| - 1]).value.1]
  {
    var prior := Volley(s, rand, order[..|order| - 1]);
    var last := order[|order| - 1];
    assert prior.0.combat.value.enemies == s.combat.value.enemies && !prior.0.combat.value.playerTurn;
    var strike := EnemyAttackSpec(prior.0, rand, last);
    assert strike.Some?;
    assert Volley(s, rand, order) == (strike.value.0, prior.1 + [strike.value.1]);
  }

  /** How a round ended. */
  datatype Outcome = Victory | Defeat | Ongoing

  /**
   * What follows the player's part of a round, shared by `processCombatTurn` and
   * the chat's attack: victory when no enemy is alive; otherwise the enemy
   * phase over the enemies alive at that point, then the player's turn and the
   * next round, and defeat when the player's health is at or below 0.
   */
  function AfterPlayerPhase(s: GameState, rand: nat -> nat): (r: (GameState, seq<AttackResult>, Outcome))
    requires Valid(s) && s.combat.Some? && !s.combat.value.playerTurn
    ensures Valid(r.0)
    ensures r.0 == s.(character := r.0.character, history := r.0.history, drawn := r.0.drawn, combat := r.0.combat)
    ensures r.0.drawn >= s.drawn
    ensures r.2 == Victory <==> AliveIndices(s.combat.value.enemies) == []
    ensures r.2 == Victory ==> r.0 == EndCombatSpec(s, true) && r.1 == []
    ensures r.2 != Victory ==> (|r.1| == |AliveIndices(s.combat.value.enemies)|
      && forall k :: 0 <= k < |r.1| ==> r.1[k].EnemyStrike? && r.1[k].enemyIndex == AliveIndices(s.combat.value.enemies)[k])
    ensures r.2 == Defeat ==> r.0.combat.None? && r.0.character.health <= 0
    ensures r.2 == Ongoing ==> (r.0.combat.Some? && r.0.character.health > 0
      && r.0.combat.value == s.combat.value.(playerTurn := true, round := s.combat.value.round + 1, log := s.combat.value.log + r.1))
  {
    var alive := AliveIndices(s.combat.value.enemies);
    if alive == [] then (EndCombatSpec(s, true), [], Victory)
    else
      VolleyEveryoneStrikes(s, rand, alive);
      var volley := Volley(s, rand, alive);
      var c := volley.0.combat.value;
      var u := volley.0.(combat := Some(c.(playerTurn := true, round := c.round + 1)));
      if u.character.health <= 0 then (EndCombatSpec(u, false), volley.1, Defeat)
      else (u, volley.1, Ongoing)
  }

  /**
   * `processCombatTurn(action, target)`: `None` without a session. During the
   * player's turn an "attack" runs `playerAttack(target)`, and any action ends
   * the player's turn; then the rest of the round follows.
   */
  function CombatTurnSpec(s: GameState, rand: nat -> nat, action: string, target: nat): (r: Option<(GameState, seq<AttackResult>, Outcome)>)
    requires Valid(s)
    ensures r.None? <==> s.combat.None?
    ensures r.Some? ==> Valid(r.value.0)
    ensures r.Some? && r.value.2 == Ongoing ==>
      r.value.0.combat.Some? && r.value.0.combat.value.playerTurn && r.value.0.combat.value.round == s.combat.value.round + 1
    ensures r.Some? && r.value.2 != Ongoing ==> r.value.0.combat.None?
    ensures r.Some? && (!s.combat.value.playerTurn || action != "attack") ==>
      r.value == AfterPlayerPhase(s.(combat := Some(s.combat.value.(playerTurn := false))), rand)
    ensures r.Some? && s.combat.value.playerTurn && action == "attack" ==>
      match PlayerAttackSpec(s, rand, target)
      case None => r.value == AfterPlayerPhase(s.(combat := Some(s.combat.value.(playerTurn := false))), rand)
      case Some(own) =>
        own.0.combat.Some? && Valid(own.0) &&
        var rest := AfterPlayerPhase(own.0.(combat := Some(own.0.combat.value.(playerTurn := false))), rand);
        r.value == (rest.0, [own.1] + rest.1, rest.2)
  {
    match s.combat
    case None => None
    case Some(c) =>
      var own := if c.playerTurn && action == "attack" then PlayerAttackSpec(s, rand, target) else None;
      var s1 := if own.Some? then own.value.0 else s;
      var s2 := s1.(combat := Some(s1.combat.value.(playerTurn := false)));
      var rest := AfterPlayerPhase(s2, rand);
      assert [] + rest.1 == rest.1;
      Some((rest.0, (if own.Some? then [own.value.1] else []) + rest.1, rest.2))
  }
}
