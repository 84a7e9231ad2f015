/**
 * The page's mutable state as one object: `gameState` (with `combatState`,
 * which is the same session object as `gameState.combat`), the draws of
 * `Math.random()` consumed so far and the `AIIntegration` object. Each method
 * changes the fields step by step as game.js and combat-system.js do, and is
 * proved to leave exactly the state the matching function of `Engine`,
 * `World` or `Play` describes.
 */
module Game {
  import opened Wrappers
  import opened Text
  import opened Dice
  import opened Characters
  import opened Ledger
  import opened Combat
  import opened Actions
  import opened Engine
  import opened World
  import opened Play
  import AiIntegration

  class Game {
    var character: Character
    var inventory: seq<Stack>
    var party: seq<Member>
    var questDb: seq<Quest>
    var active: seq<Quest>
    var completed: seq<string>
    var rumors: seq<string>
    var npcs: map<string, int>
    var location: string
    var combat: Option<Session>
    var history: seq<RollEntry>
    var pending: Option<PendingRoll>
    var drawn: nat

    /** `Math.random()`: the value of the `k`-th call is `rand(k)`. */
    const rand: nat -> nat
    const ai: AiIntegration.Assistant

    /** The fields as one value. */
    function State(): GameState
      reads this
    {
      GameState(character, inventory, party, questDb, active, completed, rumors, npcs, location, combat, history, pending, drawn)
    }

    ghost predicate Valid()
      reads this
    {
      Engine.Valid(State())
    }

    /** The state of a freshly loaded page, with the given random source and assistant. */
    constructor (rand: nat -> nat, ai: AiIntegration.Assistant)
      ensures State() == InitialState && Valid()
      ensures this.rand == rand && this.ai == ai
    {
      character := DefaultCharacter;
      inventory := [];
      party := [];
      questDb := QuestDatabase;
      active := [];
      completed := [];
      rumors := [];
      npcs := map[];
      location := "tavern";
      combat := None;
      history := [];
      pending := None;
      drawn := 0;
      this.rand := rand;
      this.ai := ai;
    }

    /**
     * `loadGame()`: the saved `gameState` replaces every field it holds. The quest
     * table is a page-level constant outside the save, and the random source is
     * not saved, so both carry on unchanged.
     */
    method Load(t: GameState)
      modifies this
      ensures State() == t.(questDb := old(questDb), drawn := old(drawn))
    {
      LoadParty(t);
      LoadWorld(t);
    }

    /** The character, inventory, party and quest lists of `t`; the quest table stays. */
    method LoadParty(t: GameState)
      modifies this
      ensures State() == old(State()).(character := t.character, inventory := t.inventory, party := t.party,
                                       active := t.active, completed := t.completed)
    {
      character, inventory, party, active, completed := t.character, t.inventory, t.party, t.active, t.completed;
    }

    /** The rumours, relationships, location, session, history and pending roll of `t`; the draws go on. */
    method LoadWorld(t: GameState)
      modifies this
      ensures State() == old(State()).(rumors := t.rumors, npcs := t.npcs, location := t.location, combat := t.combat,
                                       history := t.history, pending := t.pending)
    {
      rumors, npcs, location, combat, history, pending := t.rumors, t.npcs, t.location, t.combat, t.history, t.pending;
    }

    /** `rollDie(sides)`: the next draw as a face in `[1, sides]`. */
    method RollDie(sides: nat) returns (face: int)
      modifies this
      ensures face == Face(sides, rand(old(drawn)))
      ensures 1 <= face && (sides >= 1 ==> face <= sides)
      ensures State() == old(State()).(drawn := old(drawn) + 1)
    {
      face := Face(sides, rand(drawn));
      drawn := drawn + 1;
    }

    /** `damageRoll(formula, modifier)` from the next draws. */
    method RollDamage(formula: string, modifier: int) returns (d: Damage)
      modifies this
      ensures d == DamageOf(formula, modifier, rand, old(drawn))
      ensures State() == old(State()).(drawn := old(drawn) + |d.rolls|)
    {
      d := DamageRoll(formula, modifier, rand, drawn);
      drawn := drawn + |d.rolls|;
    }

    /** `saveRoll(type, result)`: `unshift`, then `pop` past 20 entries. */
    method SaveRoll(e: RollEntry)
      modifies this
      ensures State() == old(State()).(history := Recorded(old(history), e))
    {
      history := [e] + history;
      if |history| > HistoryLimit {
        history := history[..|history| - 1];
      }
    }

    /** `updateSkillModifiers()`: the skill block recomputed from the abilities. */
    method UpdateSkillModifiers()
      modifies this
      ensures State() == UpdateUi(old(State()))
    {
      var stats := character.stats;
      character := character.(skills := DerivedSkills(stats));
    }

    /** `checkLevelUp()`: one level per pass while the experience reaches the threshold. */
    method CheckLevelUp()
      requires character.expToNext >= 1
      modifies this
      ensures State() == old(State()).(character := LevelUps(old(character)))
      ensures character.exp < character.expToNext
    {
      while character.exp >= character.expToNext
        invariant character.expToNext >= 1
        invariant LevelUps(character) == LevelUps(old(character))
        invariant State() == old(State()).(character := character)
        decreases character.exp
      {
        character := character.(exp := character.exp - character.expToNext);
        character := character.(level := character.level + 1);
        character := character.(maxHealth := character.maxHealth + 20);
        character := character.(health := character.maxHealth);
        character := character.(expToNext := (character.expToNext * 3) / 2);
        character := character.(skills := character.skills.(bartering := character.skills.bartering + 1));
      }
    }

    /** `startCombat(enemyId, count)`: `false` for an unknown template; otherwise a new session of numbered clones. */
    method StartCombat(enemyId: string, count: nat) returns (started: bool)
      modifies this
      ensures started == FindEnemy(enemyId).Some?
      ensures started ==> State() == StartCombatSpec(old(State()), enemyId, count).value
      ensures !started ==> State() == old(State())
    {
      var template := FindEnemy(enemyId);
      if template.None? {
        return false;
      }
      var t := template.value;
      var enemies: seq<Enemy> := [];
      var i := 0;
      while i < count
        invariant 0 <= i <= count
        invariant enemies == Clones(t, enemyId, i)
      {
        enemies := enemies + [t.(id := CloneId(enemyId, i), health := t.maxHealth, maxHealth := t.maxHealth)];
        i := i + 1;
      }
      combat := Some(Session(enemies, 1, true, []));
      return true;
    }

    /**
     * `endCombat(victory)`: after a victory the rewards of each enemy's prefix
     * template are summed, added, and the character levels up; the session goes.
     */
    method EndCombat(victory: bool)
      requires Valid()
      modifies this
      ensures State() == EndCombatSpec(old(State()), victory)
      ensures Valid()
    {
      if combat.None? {
        return;
      }
      if victory {
        Win();
      } else {
        combat := None;
      }
    }

    /** The victory branch: the rewards are tallied and collected, and the session goes. */
    method Win()
      requires Valid() && combat.Some?
      modifies this
      ensures State() == EndCombatSpec(old(State()), true)
    {
      var exp, gold := TallyRewards(combat.value.enemies);
      EndCombatWon(State(), exp, gold);
      GainRewards(exp, gold);
      combat := None;
    }

    /** The rewards are added to the character, who then levels up. */
    method GainRewards(exp: int, gold: int)
      requires Valid()
      modifies this
      ensures State() == old(State()).(character := LevelUps(old(character).(exp := old(character).exp + exp, gold := old(character).gold + gold)))
    {
      character := character.(exp := character.exp + exp, gold := character.gold + gold);
      CheckLevelUp();
    }

    /** The experience and gold of the defeated enemies, summed over their prefix templates one by one. */
    static method TallyRewards(enemies: seq<Enemy>) returns (exp: int, gold: int)
      ensures (exp, gold) == RewardTotals(enemies)
    {
      exp, gold := 0, 0;
      var i := 0;
      while i < |enemies|
        invariant 0 <= i <= |enemies|
        invariant (exp, gold) == RewardTotals(enemies[..i])
      {
        RewardTotalsStep(enemies, i);
        var template := RewardTemplate(enemies[i]);
        if template.Some? {
          exp := exp + template.value.expReward;
          gold := gold + template.value.goldReward;
        }
        i := i + 1;
      }
      assert enemies[..i] == enemies;
    }

    /**
     * The damage of a landed attack: one pool with the flat modifier, and on a
     * critical a second pool whose total, with the flat modifier, replaces the
     * first while the rolls of both are listed.
     */
    method StrikeRoll(formula: string, flat: int, critical: bool) returns (damage: Damage)
      modifies this
      ensures damage == StrikeDamage(formula, flat, critical, rand, old(drawn))
      ensures State() == old(State()).(drawn := old(drawn) + |damage.rolls|)
    {
      var at := drawn;
      var first := DamageRoll(formula, flat, rand, at);
      StrikeDamageAfter(formula, flat, critical, rand, at, first);
      damage := first;
      if critical {
        var second := DamageRoll(formula, 0, rand, at + |first.rolls|);
        damage := CritDamage(first, second, flat);
      }
      drawn := at + |damage.rolls|;
    }

    /**
     * `playerAttack(i)`: `None` (`null`) without a session, outside the
     * player's turn or past the end of the enemies; otherwise the attack roll
     * and, when it lands, the damage are saved, the target's health drops, and
     * the result is logged.
     */
    method PlayerAttack(i: nat) returns (result: Option<AttackResult>)
      modifies this
      ensures PlayerAttackSpec(old(State()), rand, i).None? ==> result.None? && State() == old(State())
      ensures PlayerAttackSpec(old(State()), rand, i).Some? ==>
        result == Some(PlayerAttackSpec(old(State()), rand, i).value.1) && State() == PlayerAttackSpec(old(State()), rand, i).value.0
    {
      if combat.None? || !combat.value.playerTurn || i >= |combat.value.enemies| {
        return None;
      }
      ghost var s0 := State();
      ghost var c := s0.combat.value;
      var enemy := combat.value.enemies[i];
      var modifier := Modifier(character.stats.strength);
      var roll := RollDie(20);
      var check := AttackRoll(modifier, enemy.armorClass, roll);
      var critical := check.roll == 20;
      SaveRoll(Checked("attack", None, check));
      ghost var s1 := State();
      assert s1 == s0.(history := Recorded(s0.history, Checked("attack", None, check)), drawn := s0.drawn + 1);
      var res := PlayerStrike(i, check, false, None, critical, false);
      if Lands(check) {
        res := PlayerHit(i, check);
      } else {
        combat := Some(combat.value.(log := combat.value.log + [res]));
        assert State() == s1.(combat := Some(c.(log := c.log + [res])));
      }
      return Some(res);
    }

    /** A landed `playerAttack`: damage rolled and saved, the target's health lowered, the strike logged. */
    method PlayerHit(i: nat, check: Check) returns (res: AttackResult)
      requires combat.Some? && i < |combat.value.enemies|
      modifies this
      ensures (State(), res) == PlayerHitSpec(old(State()), rand, i, check)
    {
      ghost var s0 := State();
      // The saved damage record is the object the critical then rewrites, so it shows the final values.
      var damage := StrikeRoll(PlayerDamageDice(inventory), Modifier(character.stats.strength), check.roll == 20);
      res := DealPlayerDamage(i, check, damage, s0.drawn);
    }

    /** The player's `damage`, rolled from the draws at `from`, saved and dealt to enemy `i`, and the strike logged. */
    method DealPlayerDamage(i: nat, check: Check, damage: Damage, ghost from: nat) returns (res: AttackResult)
      requires combat.Some? && i < |combat.value.enemies| && drawn == from + |damage.rolls|
      modifies this
      ensures (State(), res) == PlayerDamaged(old(State()).(drawn := from), i, check, damage)
    {
      ghost var s0 := State();
      ghost var c := s0.combat.value;
      var enemy := combat.value.enemies[i];
      SaveRoll(Dealt("damage", damage));
      var health := ClampedHealth(enemy.health, damage.total);
      combat := Some(combat.value.(enemies := combat.value.enemies[i := enemy.(health := health)]));
      res := PlayerStrike(i, check, true, Some(damage), check.roll == 20, health == 0);
      combat := Some(combat.value.(log := combat.value.log + [res]));
      assert State() == s0.(history := Recorded(s0.history, Dealt("damage", damage)),
                            combat := Some(c.(enemies := c.enemies[i := enemy.(health := health)], log := c.log + [res])));
    }

    /**
     * `enemyAttack(i)`: `None` (`null`) without a session, during the player's
     * turn, past the end or for a dead enemy; otherwise the enemy rolls against
     * the player's armour class, a landed attack rolls the split "NdM±K" damage
     * and lowers the player's health, clamped at 0, and the result is logged.
     */
    method EnemyAttack(i: nat) returns (result: Option<AttackResult>)
      modifies this
      ensures EnemyAttackSpec(old(State()), rand, i).None? ==> result.None? && State() == old(State())
      ensures EnemyAttackSpec(old(State()), rand, i).Some? ==>
        result == Some(EnemyAttackSpec(old(State()), rand, i).value.1) && State() == EnemyAttackSpec(old(State()), rand, i).value.0
    {
      if combat.None? || combat.value.playerTurn || i >= |combat.value.enemies| || combat.value.enemies[i].health <= 0 {
        return None;
      }
      ghost var s0 := State();
      ghost var c := s0.combat.value;
      var enemy := combat.value.enemies[i];
      var roll := RollDie(20);
      var check := AttackRoll(enemy.attackBonus, PlayerArmorClass(character), roll);
      var critical := check.roll == 20;
      SaveRoll(Checked("enemy_attack", None, check));
      ghost var s1 := State();
      assert s1 == s0.(history := Recorded(s0.history, Checked("enemy_attack", None, check)), drawn := s0.drawn + 1);
      var res := EnemyStrike(i, enemy.name, check, false, None, critical);
      if Lands(check) {
        res := EnemyHit(i, check);
      } else {
        combat := Some(combat.value.(log := combat.value.log + [res]));
        assert State() == s1.(combat := Some(c.(log := c.log + [res])));
      }
      return Some(res);
    }
    /** A landed `enemyAttack`: damage rolled and saved, the player's health lowered, the strike logged. */
    method EnemyHit(i: nat, check: Check) returns (res: AttackResult)
      requires combat.Some? && i < |combat.value.enemies|
      modifies this
      ensures (State(), res) == EnemyHitSpec(old(State()), rand, i, check)
    {
      ghost var s0 := State();
      var split := SplitDamageFormula(combat.value.enemies[i].damageDice);
      var damage := StrikeRoll(split.dice, split.flat, check.roll == 20);
      res := TakeEnemyDamage(i, check, damage, s0.drawn);
    }

    /** The enemy's `damage`, rolled from the draws at `from`, saved and dealt to the player, and the strike logged. */
    method TakeEnemyDamage(i: nat, check: Check, damage: Damage, ghost from: nat) returns (res: AttackResult)
      requires combat.Some? && i < |combat.value.enemies| && drawn == from + |damage.rolls|
      modifies this
      ensures (State(), res) == EnemyDamaged(old(State()).(drawn := from), i, check, damage)
    {
      ghost var s0 := State();
      ghost var c := s0.combat.value;
      SaveRoll(Dealt("enemy_damage", damage));
      res := EnemyStrike(i, combat.value.enemies[i].name, check, true, Some(damage), check.roll == 20);
      character, combat := character.(health := ClampedHealth(character.health, damage.total)), Some(combat.value.(log := combat.value.log + [res]));
      assert State() == s0.(history := Recorded(s0.history, Dealt("enemy_damage", damage)),
                            character := s0.character.(health := ClampedHealth(s0.character.health, damage.total)),
                            combat := Some(c.(log := c.log + [res])));
    }

    /**
     * The enemy phase: `enemyAttack` for each index of `order` in turn (the
     * enemies alive when the phase begins), collecting the results that are
     * not `null`.
     */
    method EnemyPhase(order: seq<nat>) returns (results: seq<AttackResult>)
      modifies this
      ensures State() == Volley(old(State()), rand, order).0 && results == Volley(old(State()), rand, order).1
    {
      ghost var s0 := State();
      results := [];
      var k := 0;
      while k < |order|
        invariant 0 <= k <= |order|
        invariant State() == Volley(s0, rand, order[..k]).0 && results == Volley(s0, rand, order[..k]).1
      {
        assert order[..k + 1][..k] == order[..k];
        var result := EnemyAttack(order[k]);
        if result.Some? {
          results := results + [result.value];
        }
        k := k + 1;
      }
      assert order[..k] == order;
    }

    /**
     * What follows the player's part of a round: victory when no enemy is
     * alive; otherwise the enemy phase, the player's turn and the next round,
     * and defeat when the player's health is at or below 0.
     */
    method FinishRound() returns (theirs: seq<AttackResult>, outcome: Outcome)
      requires Valid() && combat.Some? && !combat.value.playerTurn
      modifies this
      ensures State() == AfterPlayerPhase(old(State()), rand).0
      ensures theirs == AfterPlayerPhase(old(State()), rand).1 && outcome == AfterPlayerPhase(old(State()), rand).2
      ensures Valid()
    {
      ghost var s0 := State();
      var alive := AliveIndices(combat.value.enemies);
      if alive == [] {
        EndCombat(true);
        return [], Victory;
      }
      VolleyEveryoneStrikes(s0, rand, alive);
      theirs := EnemyPhase(alive);
      combat := Some(combat.value.(playerTurn := true, round := combat.value.round + 1));
      if character.health <= 0 {
        EndCombat(false);
        return theirs, Defeat;
      }
      return theirs, Ongoing;
    }

    /**
     * `processCombatTurn(action, target)`: nothing without a session. During the
     * player's turn an "attack" runs `playerAttack(target)`, and the turn passes
     * to the enemies whatever the action; then the round is finished.
     */
    method ProcessCombatTurn(action: string, target: nat) returns (results: seq<AttackResult>, outcome: Option<Outcome>)
      requires Valid()
      modifies this
      ensures CombatTurnSpec(old(State()), rand, action, target).None? ==> outcome.None? && results == [] && State() == old(State())
      ensures CombatTurnSpec(old(State()), rand, action, target).Some? ==>
        && State() == CombatTurnSpec(old(State()), rand, action, target).value.0
        && results == CombatTurnSpec(old(State()), rand, action, target).value.1
        && outcome == Some(CombatTurnSpec(old(State()), rand, action, target).value.2)
      ensures Valid()
    {
      if combat.None? {
        return [], None;
      }
      ghost var s0 := State();
      var own: seq<AttackResult> := [];
      if combat.value.playerTurn {
        if action == "attack" {
          var result := PlayerAttack(target);
          if result.Some? {
            own := [result.value];
          }
        }
        combat := Some(combat.value.(playerTurn := false));
      }
      var theirs, last := FinishRound();
      return own + theirs, Some(last);
    }
    /**
     * `buyItem(merchantId, itemId, price)`: refused below the price; a merchant
     * without wares throws (`MerchantMissing`); an unstocked ware changes
     * nothing; otherwise pay, add one item, and a met merchant likes the player more.
     */
    method BuyItem(merchantId: string, itemId: string, price: int) returns (outcome: Purchase)
      modifies this
      ensures State() == BuySpec(old(State()), merchantId, itemId, price).0
      ensures outcome == BuySpec(old(State()), merchantId, itemId, price).1
    {
      if character.gold < price {
        return TooPoor;
      }
      var merchant := FindNpc(merchantId);
      if merchant.None? || merchant.value.stock.None? {
        return MerchantMissing;
      }
      if FindWare(merchant.value.stock.value, itemId).None? {
        return NotStocked;
      }
      Pay(merchantId, itemId, price);
      UpdateSkillModifiers();
      return Bought;
    }

    /** The purchase itself: the gold goes, the item comes, a met merchant likes the player 2 points more. */
    method Pay(merchantId: string, itemId: string, price: int)
      modifies this
      ensures State() == old(State()).(character := old(character).(gold := old(character).gold - price),
                                       inventory := AddItem(old(inventory), itemId), npcs := Bumped(old(npcs), merchantId, 2))
    {
      character := character.(gold := character.gold - price);
      inventory := AddItem(inventory, itemId);
      if merchantId in npcs {
        npcs := npcs[merchantId := npcs[merchantId] + 2];
      }
    }

    /** `recruitCompanion(npcId)`: a recruitable NPC not yet in the party joins when the player can pay. */
    method RecruitCompanion(npcId: string) returns (outcome: Recruitment)
      modifies this
      ensures State() == RecruitSpec(old(State()), npcId).0
      ensures outcome == RecruitSpec(old(State()), npcId).1
    {
      var found := FindNpc(npcId);
      if found.None? || !found.value.canRecruit {
        return NotRecruitable;
      }
      var npc := found.value;
      if InParty(party, npcId) {
        return AlreadyInParty;
      }
      if character.gold < npc.recruitCost {
        return CannotAfford;
      }
      RecruitJoined(State(), npcId, npc);
      Join(npcId, npc);
      return Joined;
    }

    /** The cost is paid, the NPC's stats join the party, and `updateUI` rebuilds the skills. */
    method Join(npcId: string, npc: Npc)
      requires npc.companion.Some?
      modifies this
      ensures State() == Joining(old(State()), npcId, npc)
    {
      character := character.(gold := character.gold - npc.recruitCost);
      var stats := npc.companion.value;
      party := party + [Member(npcId, stats.level, stats.health, stats.maxHealth)];
      UpdateSkillModifiers();
    }

    /** `acceptQuest(questId)`: a known quest not already active is taken, at count 0, and leaves the rumours. */
    method AcceptQuest(questId: string)
      modifies this
      ensures State() == AcceptSpec(old(State()), questId)
    {
      var found := FindQuest(questDb, questId);
      if found.None? {
        return;
      }
      if HasQuest(active, questId) {
        return;
      }
      var quest := found.value;
      active := active + [quest.(currentCount := 0)];
      rumors := RemoveId(rumors, questId);
      if FindNpc(quest.giver).Some? && quest.giver in npcs {
        npcs := npcs[quest.giver := npcs[quest.giver] + 5];
      }
    }

    /**
     * `completeQuest(questId)`: an active quest pays its gold, experience and
     * item, moves from the active to the completed list, pleases a met giver,
     * and then the character levels up and the skill block is recomputed.
     */
    method CompleteQuest(questId: string)
      requires Valid()
      modifies this
      ensures State() == CompleteSpec(old(State()), questId)
      ensures Valid()
    {
      var found := FindQuest(active, questId);
      if found.None? {
        return;
      }
      var quest := found.value;
      ghost var s0 := State();
      CompleteFound(s0, questId, quest);
      Settle(quest);
      CheckLevelUp();
      UpdateSkillModifiers();
    }

    /** The quest's reward is paid and the quest retired, before the level check. */
    method Settle(quest: Quest)
      modifies this
      ensures State() == Settled(old(State()), quest)
    {
      Collect(quest);
      Retire(quest);
    }

    /** A quest's reward: its gold and experience, and its item when it names one. */
    method Collect(quest: Quest)
      modifies this
      ensures State() == old(State()).(character := old(character).(gold := old(character).gold + quest.reward.gold,
                                                                     exp := old(character).exp + quest.reward.exp),
                                       inventory := if RewardItem(quest).Some? then AddItem(old(inventory), RewardItem(quest).value)
                                                    else old(inventory))
    {
      character := character.(gold := character.gold + quest.reward.gold);
      character := character.(exp := character.exp + quest.reward.exp);
      var item := RewardItem(quest);
      if item.Some? {
        inventory := AddItem(inventory, item.value);
      }
    }

    /** A finished quest leaves the active list for the completed one, and a met giver likes the player 10 points more. */
    method Retire(quest: Quest)
      modifies this
      ensures State() == old(State()).(active := RemoveQuest(old(active), quest.id), completed := old(completed) + [quest.id],
                                       npcs := GiverBumped(old(npcs), quest.giver, 10))
    {
      active := RemoveQuest(active, quest.id);
      completed := completed + [quest.id];
      npcs := GiverBumped(npcs, quest.giver, 10);
    }

    /** `huntBandits()`: with an active bandit quest, 1 to 3 bandits fall and the count rises up to its target. */
    method HuntBandits()
      requires Valid()
      modifies this
      ensures State() == HuntSpec(old(State()), rand)
      ensures Valid()
    {
      var index := QuestIndex(active, "bandit_quest");
      if index.None? {
        return;
      }
      var reached := Hunt(index.value);
      if reached {
        CompleteQuest("bandit_quest");
      }
    }

    /** The forest trip of `huntBandits()`: 1 to 3 bandits fall and quest `i`'s count rises, up to its target. */
    method Hunt(i: nat) returns (reached: bool)
      requires i < |active|
      modifies this
      ensures State() == HuntTrip(old(State()), rand, i)
      ensures reached == (active[i].currentCount >= old(active)[i].targetCount)
    {
      location := "forest";
      var killed := RollDie(3);
      var quest := active[i];
      var count := if quest.currentCount + killed < quest.targetCount then quest.currentCount + killed else quest.targetCount;
      active := active[i := quest.(currentCount := count)];
      reached := count >= quest.targetCount;
    }

    /** `investigateTower()`: with an active tower quest, go to the tower and complete it. */
    method InvestigateTower()
      requires Valid()
      modifies this
      ensures State() == TowerSpec(old(State()))
      ensures Valid()
    {
      if QuestIndex(active, "tower_quest").None? {
        return;
      }
      location := "tower";
      CompleteQuest("tower_quest");
    }

    /** `rest()`: full health. */
    method Rest()
      modifies this
      ensures State() == RestSpec(old(State()))
    {
      character := character.(health := character.maxHealth);
      UpdateSkillModifiers();
    }

    /** `interactWithNPC(npcId)`: the first meeting records the NPC's starting relationship. */
    method MeetNpc(npcId: string)
      modifies this
      ensures State() == MeetSpec(old(State()), npcId)
    {
      var npc := FindNpc(npcId);
      if npc.None? {
        return;
      }
      if npcId !in npcs {
        npcs := npcs[npcId := npc.value.relationship];
      }
    }

    /**
     * `generateRumors()`: one draw picks an available quest; a variation with a
     * new title is stored and heard, else the base quest is heard.
     */
    method GenerateRumors(reply: AiIntegration.CallOutcome, parse: string -> Option<AiIntegration.QuestPatch>, now: nat)
      modifies this
      ensures State() == RumorSpec(old(State()), rand, ai.apiKey, ai.provider, reply, parse, now)
    {
      var available := AvailableQuests(questDb, rumors, active, completed);
      if available == [] {
        return;
      }
      var baseId := available[Scaled(|available|, rand(drawn))];
      drawn := drawn + 1;
      Hear(baseId, reply, parse, now);
    }

    /** The rumour about the drawn quest: the AI's variation when its title is new, else the quest itself. */
    method Hear(baseId: string, reply: AiIntegration.CallOutcome, parse: string -> Option<AiIntegration.QuestPatch>, now: nat)
      requires FindQuest(questDb, baseId).Some?
      modifies this
      ensures State() == Hearing(old(State()), baseId, ai.apiKey, ai.provider, reply, parse, now)
    {
      var base := FindQuest(questDb, baseId).value;
      if ai.apiKey != "" {
        var variation := AiIntegration.QuestVariation(ai.apiKey, ai.provider, base, reply, parse);
        if variation.title != base.title {
          var id := VariationId(baseId, now);
          questDb := PutQuest(questDb, variation.(id := id, giver := base.giver));
          HearRumor(id);
          return;
        }
      }
      HearRumor(baseId);
    }

    /** `if (!rumors.includes(id)) rumors.push(id)`. */
    method HearRumor(id: string)
      modifies this
      ensures State() == old(State()).(rumors := WithRumor(old(rumors), id))
    {
      if id !in rumors {
        rumors := rumors + [id];
      }
    }

    /** `listenToGossip()`: a rumour is generated only when none is known. */
    method ListenToGossip(reply: AiIntegration.CallOutcome, parse: string -> Option<AiIntegration.QuestPatch>, now: nat)
      modifies this
      ensures State() == ListenSpec(old(State()), rand, ai.apiKey, ai.provider, reply, parse, now)
    {
      if rumors == [] {
        GenerateRumors(reply, parse, now);
      }
    }

    /** `createCharacter()` on trimmed form values: a complete form with a known class makes a new character. */
    method CreateCharacter(name: string, classKey: string, appearance: string, backstory: string,
                           reply: AiIntegration.CallOutcome, parse: string -> Option<AiIntegration.QuestPatch>, now: nat)
      returns (created: bool)
      modifies this
      ensures State() == CreateSpec(old(State()), name, classKey, appearance, backstory, rand, ai.apiKey, ai.provider, reply, parse, now).0
      ensures created == CreateSpec(old(State()), name, classKey, appearance, backstory, rand, ai.apiKey, ai.provider, reply, parse, now).1
    {
      if name == "" || classKey == "" || appearance == "" || backstory == "" {
        return false;
      }
      var cls := FindClass(classKey);
      if cls.None? {
        return false;
      }
      character := NewCharacter(name, cls.value, appearance, backstory);
      UpdateSkillModifiers();
      GenerateRumors(reply, parse, now);
      return true;
    }
    /** The target loop of `handleCombatAction`: the last enemy whose lower-cased name the message contains, else 0. */
    static method PickTarget(enemies: seq<Enemy>, lower: string) returns (index: nat)
      ensures index == TargetIndex(enemies, lower)
    {
      index := 0;
      var k := 0;
      while k < |enemies|
        invariant 0 <= k <= |enemies|
        invariant index == TargetIndex(enemies[..k], lower)
      {
        TargetIndexStep(enemies, lower, k);
        if Contains(lower, Lower(enemies[k].name)) {
          index := k;
        }
        k := k + 1;
      }
      assert enemies[..k] == enemies;
    }

    /** The quest loop of `processPlayerAction`: every named quest neither active nor completed is taken at count 0. */
    method TakeQuests(lower: string)
      modifies this
      ensures State() == old(State()).(active := TakeNamedQuests(old(questDb), old(active), old(completed), lower))
    {
      ghost var before := active;
      var k := 0;
      while k < |questDb|
        invariant 0 <= k <= |questDb|
        invariant State() == old(State()).(active := TakeNamedQuests(questDb[..k], before, completed, lower))
      {
        assert questDb[..k + 1][..k] == questDb[..k];
        var quest := questDb[k];
        if Contains(lower, Lower(quest.title)) && !HasQuest(active, quest.id) && quest.id !in completed {
          active := active + [quest.(currentCount := 0)];
        }
        k := k + 1;
      }
      assert questDb[..k] == questDb;
    }

    /**
     * `handleCombatAction(message)`: an attack message makes an attack roll
     * wait against the targeted enemy; any other message goes to the game master.
     */
    method HandleCombatAction(message: string, reply: AiIntegration.CallOutcome) returns (answer: ActionAnswer)
      requires combat.Some? && ai.Valid()
      modifies this, ai
      ensures State() == CombatActionSpec(old(State()), ai.apiKey, ai.provider, message, reply).0
      ensures answer == CombatActionSpec(old(State()), ai.apiKey, ai.provider, message, reply).2
      ensures ai.chatHistory == Chatted(ai.apiKey, ai.provider, old(ai.chatHistory),
                                        CombatActionSpec(old(State()), ai.apiKey, ai.provider, message, reply).1, reply)
      ensures ai.apiKey == old(ai.apiKey) && ai.provider == old(ai.provider) && ai.Valid()
    {
      var lower := Lower(message);
      if AsksToStrike(lower) {
        var enemies := combat.value.enemies;
        var i := PickTarget(enemies, lower);
        if i >= |enemies| {
          return InvalidTarget;
        }
        var modifier := Modifier(character.stats.strength);
        pending := Some(AttackPending(i, enemies[i].name, modifier, enemies[i].armorClass, message));
        return AttackRequired(enemies[i].name, enemies[i].armorClass, modifier);
      }
      var text, _ := ai.GenerateResponse(message, "game", reply);
      return Narration(text);
    }

    /**
     * `handleSkillCheck(message, lowerMessage)`: `None` when no skill is named;
     * otherwise the game master names a difficulty and a skill roll waits.
     */
    method HandleSkillCheck(message: string, reply: AiIntegration.CallOutcome) returns (answer: Option<ActionAnswer>)
      requires ai.Valid()
      modifies this, ai
      ensures SkillCheckSpec(old(State()), ai.apiKey, ai.provider, message, reply).None? ==>
        answer.None? && State() == old(State()) && ai.chatHistory == old(ai.chatHistory)
      ensures SkillCheckSpec(old(State()), ai.apiKey, ai.provider, message, reply).Some? ==> (
        var r := SkillCheckSpec(old(State()), ai.apiKey, ai.provider, message, reply).value;
        && answer == Some(r.2) && State() == r.0
        && ai.chatHistory == AiIntegration.AfterExchange(ai.apiKey, ai.provider, old(ai.chatHistory), r.1.npcId, r.1.prompt, reply))
      ensures ai.apiKey == old(ai.apiKey) && ai.provider == old(ai.provider) && ai.Valid()
    {
      var named := SkillNamed(SkillVocabulary, Lower(message));
      if named.None? {
        return None;
      }
      var skill := named.value;
      SkillCheckNamed(State(), ai.apiKey, ai.provider, message, reply, skill);
      var modifier := SkillValue(character.skills, skill);
      var text, _ := ai.GenerateResponse(DifficultyPrompt(skill), "game", reply);
      var difficulty := ParseDifficulty(text);
      pending := Some(SkillPending(skill, modifier, difficulty, message));
      return Some(CheckRequired(skill, modifier, difficulty));
    }

    /** The rest of `processPlayerAction`: travel, the call, then resting and quest taking. */
    method Converse(message: string, reply: AiIntegration.CallOutcome) returns (answer: ActionAnswer)
      requires ai.Valid()
      modifies this, ai
      ensures State() == ConversationSpec(old(State()), ai.apiKey, ai.provider, message, reply).0
      ensures answer == ConversationSpec(old(State()), ai.apiKey, ai.provider, message, reply).2
      ensures ai.chatHistory == AiIntegration.AfterExchange(ai.apiKey, ai.provider, old(ai.chatHistory),
                                  NpcNamed(NpcDatabase, Lower(message)).GetOr("game"), message, reply)
      ensures ai.apiKey == old(ai.apiKey) && ai.provider == old(ai.provider) && ai.Valid()
    {
      var lower := Lower(message);
      Travel(lower);
      var mentioned := NpcNamed(NpcDatabase, lower);
      var text, _ := ai.GenerateResponse(message, mentioned.GetOr("game"), reply);
      Unwind(lower);
      return Narration(text);
    }

    /** The travel keyword: moves to the first place named, if any. */
    method Travel(lower: string)
      modifies this
      ensures State() == Travelled(old(State()), lower)
    {
      if AsksToTravel(lower) {
        var place := LocationNamed(Locations, lower);
        if place.Some? {
          location := place.value;
        }
      }
    }

    /** The resting and quest-taking keywords, after the call. */
    method Unwind(lower: string)
      modifies this
      ensures State() == Rested(old(State()), lower)
    {
      if AsksToRest(lower) {
        character := character.(health := character.maxHealth);
      }
      if AsksForQuest(lower) {
        TakeQuests(lower);
      }
    }

    /**
     * `processPlayerAction(message)`: without a key the player is asked for one;
     * in a fight the message is a combat action; otherwise a request to fight a
     * named enemy starts a fight, a named skill asks for a check, and anything
     * else is a conversation.
     */
    method ProcessPlayerAction(message: string, reply: AiIntegration.CallOutcome) returns (answer: ActionAnswer)
      requires ai.Valid()
      modifies this, ai
      ensures State() == PlayerActionSpec(old(State()), ai.apiKey, ai.provider, message, reply).0
      ensures answer == PlayerActionSpec(old(State()), ai.apiKey, ai.provider, message, reply).2
      ensures ai.chatHistory == Chatted(ai.apiKey, ai.provider, old(ai.chatHistory),
                                        PlayerActionSpec(old(State()), ai.apiKey, ai.provider, message, reply).1, reply)
      ensures ai.apiKey == old(ai.apiKey) && ai.provider == old(ai.provider) && ai.Valid()
    {
      if ai.apiKey == "" {
        return NeedsKey;
      }
      if combat.Some? {
        answer := HandleCombatAction(message, reply);
        return;
      }
      answer := PeaceAction(message, reply);
    }

    /** `sendChatMessage()`: an empty message does nothing; otherwise the action is processed and `updateUI` runs. */
    method SendChatMessage(message: string, reply: AiIntegration.CallOutcome) returns (answer: Option<ActionAnswer>)
      requires ai.Valid()
      modifies this, ai
      ensures State() == ChatMessageSpec(old(State()), ai.apiKey, ai.provider, message, reply).0
      ensures answer == ChatMessageSpec(old(State()), ai.apiKey, ai.provider, message, reply).2
      ensures ai.chatHistory == Chatted(ai.apiKey, ai.provider, old(ai.chatHistory),
                                        ChatMessageSpec(old(State()), ai.apiKey, ai.provider, message, reply).1, reply)
      ensures ai.apiKey == old(ai.apiKey) && ai.provider == old(ai.provider) && ai.Valid()
    {
      if message == "" {
        return None;
      }
      var a := ProcessPlayerAction(message, reply);
      UpdateSkillModifiers();
      answer := Some(a);
    }

    /** `processPlayerAction` out of a fight, once a key is set. */
    method PeaceAction(message: string, reply: AiIntegration.CallOutcome) returns (answer: ActionAnswer)
      requires combat.None? && ai.Valid()
      modifies this, ai
      ensures State() == PeaceActionSpec(old(State()), ai.apiKey, ai.provider, message, reply).0
      ensures answer == PeaceActionSpec(old(State()), ai.apiKey, ai.provider, message, reply).2
      ensures ai.chatHistory == Chatted(ai.apiKey, ai.provider, old(ai.chatHistory),
                                        PeaceActionSpec(old(State()), ai.apiKey, ai.provider, message, reply).1, reply)
      ensures ai.apiKey == old(ai.apiKey) && ai.provider == old(ai.provider) && ai.Valid()
    {
      ghost var s0 := State();
      ghost var r := PeaceActionSpec(s0, ai.apiKey, ai.provider, message, reply);
      var foe := Foe(Lower(message));
      if foe.Some? {
        answer := Fight(foe.value, message, reply);
        assert r == (FightStart(s0, foe.value), Some(Call("game", message)), answer);
        return;
      }
      answer := Request(message, reply);
    }

    /** `processPlayerAction` out of a fight on a message that starts none: a skill check, else a conversation. */
    method Request(message: string, reply: AiIntegration.CallOutcome) returns (answer: ActionAnswer)
      requires ai.Valid()
      modifies this, ai
      ensures State() == RequestSpec(old(State()), ai.apiKey, ai.provider, message, reply).0
      ensures answer == RequestSpec(old(State()), ai.apiKey, ai.provider, message, reply).2
      ensures ai.chatHistory == AiIntegration.AfterExchange(ai.apiKey, ai.provider, old(ai.chatHistory),
        RequestSpec(old(State()), ai.apiKey, ai.provider, message, reply).1.npcId,
        RequestSpec(old(State()), ai.apiKey, ai.provider, message, reply).1.prompt, reply)
      ensures ai.apiKey == old(ai.apiKey) && ai.provider == old(ai.provider) && ai.Valid()
    {
      RequestCases(State(), ai.apiKey, ai.provider, message, reply);
      var check := HandleSkillCheck(message, reply);
      if check.Some? {
        return check.value;
      }
      answer := Converse(message, reply);
    }

    /** The fight branch of `processPlayerAction`: the named enemy is met alone and the game master narrates. */
    method Fight(foe: Enemy, message: string, reply: AiIntegration.CallOutcome) returns (answer: ActionAnswer)
      requires foe in EnemyDatabase && ai.Valid()
      modifies this, ai
      ensures State() == FightStart(old(State()), foe)
      ensures answer == CombatStarted(foe.name, AiIntegration.Answer(ai.apiKey, ai.provider, reply))
      ensures ai.chatHistory == AiIntegration.AfterExchange(ai.apiKey, ai.provider, old(ai.chatHistory), "game", message, reply)
      ensures ai.apiKey == old(ai.apiKey) && ai.provider == old(ai.provider) && ai.Valid()
    {
      assert FindEnemy(foe.id).Some?;
      var started := StartCombat(foe.id, 1);
      var text, _ := ai.GenerateResponse(message, "game", reply);
      return CombatStarted(foe.name, text);
    }
    /** The damage of a landed chat attack: the weapon's dice plus strength, a second pool on a natural 20, saved, then dealt. */
    method ChatStrike(i: nat, critical: bool) returns (damage: Damage)
      requires combat.Some? && i < |combat.value.enemies|
      modifies this
      ensures State() == ChatStrikeSpec(old(State()), rand, i, critical).0
      ensures damage == ChatStrikeSpec(old(State()), rand, i, critical).1
    {
      ghost var s0 := State();
      damage := ChatDamageRoll(PlayerDamageDice(inventory), Modifier(character.stats.strength), critical);
      ghost var s1 := State();
      Deal(i, damage);
      assert State() == Struck(s0, i, damage, s1.drawn).0;
    }

    /** The damage dice of a landed chat attack, with a second pool on a critical. */
    method ChatDamageRoll(formula: string, modifier: int, critical: bool) returns (damage: Damage)
      modifies this
      ensures damage == ChatStrikeDamage(formula, modifier, rand, old(drawn), critical)
      ensures State() == old(State()).(drawn := old(drawn) + |damage.rolls|)
    {
      var at := drawn;
      var first := DamageRoll(formula, modifier, rand, at);
      ChatStrikeDamageAfter(formula, modifier, rand, at, critical, first);
      damage := first;
      if critical {
        var extra := DamageRoll(formula, 0, rand, at + |first.rolls|);
        damage := ChatCritDamage(first, extra);
      }
      drawn := at + |damage.rolls|;
    }

    /** The saved damage roll and the clamped health of the struck enemy. */
    method Deal(i: nat, damage: Damage)
      requires combat.Some? && i < |combat.value.enemies|
      modifies this
      ensures State() == Struck(old(State()), i, damage, old(drawn)).0
    {
      SaveRoll(Dealt("damage", damage));
      var c := combat.value;
      combat := Some(c.(enemies := c.enemies[i := c.enemies[i].(health := ClampedHealth(c.enemies[i].health, damage.total))]));
    }

    /** The attack branch of `executePendingRoll` on an existing target: the strike when it lands, then the enemies' phase. */
    method ChatAttack(i: nat, check: Check) returns (damage: Option<Damage>, strikes: seq<AttackResult>, outcome: Outcome)
      requires Valid() && combat.Some? && i < |combat.value.enemies|
      modifies this
      ensures State() == ChatAttackSpec(old(State()), rand, i, check).0
      ensures damage == ChatAttackSpec(old(State()), rand, i, check).1
      ensures strikes == ChatAttackSpec(old(State()), rand, i, check).2 && outcome == ChatAttackSpec(old(State()), rand, i, check).3
      ensures Valid()
    {
      ghost var s0 := State();
      if Lands(check) {
        var dealt := ChatStrike(i, check.roll == 20);
        damage := Some(dealt);
      } else {
        damage := None;
      }
      ghost var u := State();
      combat := Some(combat.value.(playerTurn := false));
      assert State() == u.(combat := Some(u.combat.value.(playerTurn := false)));
      strikes, outcome := FinishRound();
    }

    /** The fight of the attack branch of `executePendingRoll`: the chat attack when the target exists. */
    method PendingFight(i: nat, check: Check) returns (damage: Option<Damage>, strikes: seq<AttackResult>, outcome: Option<Outcome>)
      requires Valid() && combat.Some?
      modifies this
      ensures (State(), damage, strikes, outcome) == PendingFightSpec(old(State()), rand, i, check)
      ensures Valid()
    {
      if i >= |combat.value.enemies| {
        return None, [], None;
      }
      var ended;
      damage, strikes, ended := ChatAttack(i, check);
      outcome := Some(ended);
    }

    /** The skill branch of `executePendingRoll`. */
    method SkillRoll(p: PendingRoll, reply: AiIntegration.CallOutcome) returns (report: RollReport)
      requires Valid() && p.SkillPending? && pending == Some(p) && ai.Valid()
      modifies this, ai
      ensures State() == SkillRollSpec(old(State()), rand, p, ai.apiKey, ai.provider, reply).0
      ensures report == SkillRollSpec(old(State()), rand, p, ai.apiKey, ai.provider, reply).2
      ensures ai.chatHistory == Chatted(ai.apiKey, ai.provider, old(ai.chatHistory),
                                        SkillRollSpec(old(State()), rand, p, ai.apiKey, ai.provider, reply).1, reply)
      ensures ai.apiKey == old(ai.apiKey) && ai.provider == old(ai.provider) && ai.Valid() && Valid()
    {
      pending := None;
      var roll := RollDie(20);
      var check := SkillCheck(p.modifier, p.difficulty, roll);
      SaveRoll(Checked("skill_check", Some(p.skill), check));
      var narrative, _ := ai.GenerateResponse(SkillNarrativePrompt(p.skill, check), "game", reply);
      report := SkillRolled(p.skill, check, narrative);
      UpdateSkillModifiers();
    }

    /** The pending roll is cleared and its attack roll made from the next draw and saved. */
    method ConsumeAttack(p: PendingRoll) returns (check: Check)
      requires p.AttackPending?
      modifies this
      ensures check == AttackRoll(p.modifier, p.difficulty, Face(20, rand(old(drawn))))
      ensures State() == SavedAttack(old(State()), check)
    {
      pending := None;
      var roll := RollDie(20);
      check := AttackRoll(p.modifier, p.difficulty, roll);
      SaveRoll(Checked("attack", None, check));
    }

    /** The attack branch of `executePendingRoll`; it throws when no fight is on. */
    method AttackRollAction(p: PendingRoll, reply: AiIntegration.CallOutcome) returns (report: RollReport)
      requires Valid() && p.AttackPending? && pending == Some(p) && ai.Valid()
      modifies this, ai
      ensures State() == AttackRollSpec(old(State()), rand, p, ai.apiKey, ai.provider, reply).0
      ensures report == AttackRollSpec(old(State()), rand, p, ai.apiKey, ai.provider, reply).2
      ensures ai.chatHistory == Chatted(ai.apiKey, ai.provider, old(ai.chatHistory),
                                        AttackRollSpec(old(State()), rand, p, ai.apiKey, ai.provider, reply).1, reply)
      ensures ai.apiKey == old(ai.apiKey) && ai.provider == old(ai.provider) && ai.Valid() && Valid()
    {
      var check := ConsumeAttack(p);
      if combat.None? {
        return AttackCrashed(check);
      }
      var damage, strikes, outcome := PendingFight(p.targetIndex, check);
      ghost var u := State();
      var narrative, _ := ai.GenerateResponse(AttackNarrativePrompt(check), "game", reply);
      assert State() == u;
      report := AttackRolled(check, damage, strikes, outcome, narrative);
      UpdateSkillModifiers();
    }

    /**
     * `executePendingRoll()`: nothing without a waiting roll; otherwise the roll
     * is cleared, made, saved and narrated as its kind says.
     */
    method ExecutePendingRoll(reply: AiIntegration.CallOutcome) returns (report: RollReport)
      requires Valid() && ai.Valid()
      modifies this, ai
      ensures State() == PendingRollSpec(old(State()), rand, ai.apiKey, ai.provider, reply).0
      ensures report == PendingRollSpec(old(State()), rand, ai.apiKey, ai.provider, reply).2
      ensures ai.chatHistory == Chatted(ai.apiKey, ai.provider, old(ai.chatHistory),
                                        PendingRollSpec(old(State()), rand, ai.apiKey, ai.provider, reply).1, reply)
      ensures ai.apiKey == old(ai.apiKey) && ai.provider == old(ai.provider) && ai.Valid() && Valid()
    {
      if pending.None? {
        return NothingPending;
      }
      var p := pending.value;
      if p.SkillPending? {
        report := SkillRoll(p, reply);
      } else {
        report := AttackRollAction(p, reply);
      }
    }
  }
}
