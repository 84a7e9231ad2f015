/**
 * The chat-driven turn of game.js: `processPlayerAction` with its helpers
 * `handleSkillCheck` and `handleCombatAction`, and `executePendingRoll`, the
 * roll the player confirms with a click.
 *
 * Each of these makes at most one `generateResponse` call. The specifications
 * below return that call (the chat id and the prompt) beside the new game
 * state; `reply` is the provider's outcome for it, and `Answer` the text the
 * call returns. The chat histories after the turn are `Chatted`.
 */
module Play {
  import opened Wrappers
  import opened Text
  import opened Dice
  import opened Characters
  import opened Ledger
  import opened Combat
  import opened Actions
  import opened Engine
  import AiIntegration

  /** One `generateResponse(prompt, npcId, gameState)` call. */
  datatype Call = Call(npcId: string, prompt: string)

  /** The chat histories after the turn's call, if it made one. */
  function Chatted(apiKey: string, provider: AiIntegration.Provider, m: map<string, seq<AiIntegration.ChatEntry>>,
                   call: Option<Call>, reply: AiIntegration.CallOutcome): (r: map<string, seq<AiIntegration.ChatEntry>>)
    ensures call.None? ==> r == m
    ensures AiIntegration.Capped(m) ==> AiIntegration.Capped(r)
  {
    match call
    case None => m
    case Some(c) => AiIntegration.AfterExchange(apiKey, provider, m, c.npcId, c.prompt, reply)
  }

  /** What `processPlayerAction` returns, by kind. */
  datatype ActionAnswer =
    | NeedsKey
    | Narration(text: string)
    | CombatStarted(enemyName: string, text: string)
    | CheckRequired(skill: string, modifier: int, difficulty: int)
    | AttackRequired(enemyName: string, armorClass: int, modifier: int)
    | InvalidTarget

  /** The question `handleSkillCheck` asks the game master. */
  function DifficultyPrompt(skill: string): string {
    DifficultyLead + skill + DifficultyRule
  }

  const DifficultyLead: string := "The player is attempting a "
  const DifficultyRule: string :=
    " check. Determine the difficulty (DC) for this action based on the context. "
    + "Respond with ONLY a number between 8-20 representing the difficulty. "
    + "Examples: Easy situation = 8-10, Medium = 12-15, Hard = 16-18, Very Hard = 19-20."

  /** The skill found is one of the vocabulary and occurs in the message. */
  lemma SkillNamedIsNamed(vocabulary: seq<string>, lower: string)
    ensures SkillNamed(vocabulary, lower).Some? ==>
      SkillNamed(vocabulary, lower).value in vocabulary && Contains(lower, SkillNamed(vocabulary, lower).value)
  {
  }

  /**
   * `handleSkillCheck(message, lowerMessage)`: `None` when no skill of the
   * vocabulary is named. Otherwise the game master is asked for a difficulty,
   * which is read from the answer (12 when it holds none), and a skill roll with
   * the character's skill value waits for the player.
   */
  function SkillCheckSpec(s: GameState, apiKey: string, provider: AiIntegration.Provider, message: string,
                          reply: AiIntegration.CallOutcome): (r: Option<(GameState, Call, ActionAnswer)>)
    ensures r.None? <==> SkillNamed(SkillVocabulary, Lower(message)).None?
    ensures r.Some? ==> (r.value.2.CheckRequired? && 8 <= r.value.2.difficulty <= 20
      && r.value.2.modifier == SkillValue(s.character.skills, r.value.2.skill))
    ensures r.Some? ==> SkillNamed(SkillVocabulary, Lower(message)) == Some(r.value.2.skill)
    ensures r.Some? ==> r.value.1 == Call("game", DifficultyPrompt(r.value.2.skill))
    ensures r.Some? ==> r.value.0 == s.(pending := Some(SkillPending(r.value.2.skill, r.value.2.modifier, r.value.2.difficulty, message)))
  {
    var named := SkillNamed(SkillVocabulary, Lower(message));
    if named.None? then None
    else
      var skill := named.value;
      var difficulty := ParseDifficulty(AiIntegration.Answer(apiKey, provider, reply));
      var modifier := SkillValue(s.character.skills, skill);
      Some((s.(pending := Some(SkillPending(skill, modifier, difficulty, message))),
            Call("game", DifficultyPrompt(skill)), CheckRequired(skill, modifier, difficulty)))
  }

  /** A named skill: the check waits with the parsed difficulty and the character's modifier. */
  lemma SkillCheckNamed(s: GameState, apiKey: string, provider: AiIntegration.Provider, message: string,
                        reply: AiIntegration.CallOutcome, skill: string)
    requires SkillNamed(SkillVocabulary, Lower(message)) == Some(skill)
    ensures var difficulty := ParseDifficulty(AiIntegration.Answer(apiKey, provider, reply));
            var modifier := SkillValue(s.character.skills, skill);
            SkillCheckSpec(s, apiKey, provider, message, reply)
              == Some((s.(pending := Some(SkillPending(skill, modifier, difficulty, message))),
                       Call("game", DifficultyPrompt(skill)), CheckRequired(skill, modifier, difficulty)))
  {
  }

  /**
   * `handleCombatAction(message)`: an attack message targets the last enemy it
   * names (the first enemy when it names none) and makes an attack roll wait
   * for the player, with the strength modifier against that enemy's armour
   * class; an empty enemy list gives "Invalid attack target". Any other message
   * goes to the game master.
   */
  function CombatActionSpec(s: GameState, apiKey: string, provider: AiIntegration.Provider, message: string,
                            reply: AiIntegration.CallOutcome): (r: (GameState, Option<Call>, ActionAnswer))
    requires s.combat.Some?
    ensures !AsksToStrike(Lower(message)) ==>
      r == (s, Some(Call("game", message)), Narration(AiIntegration.Answer(apiKey, provider, reply)))
    ensures AsksToStrike(Lower(message)) ==> r.1.None? && (r.2 == InvalidTarget <==> s.combat.value.enemies == [])
    ensures r.2.InvalidTarget? ==> r.0 == s
    ensures r.2.AttackRequired? ==> var enemies := s.combat.value.enemies; var i := TargetIndex(enemies, Lower(message));
      && i < |enemies| && r.2.enemyName == enemies[i].name && r.2.armorClass == enemies[i].armorClass
      && r.2.modifier == Modifier(s.character.stats.strength)
      && r.0 == s.(pending := Some(AttackPending(i, enemies[i].name, r.2.modifier, enemies[i].armorClass, message)))
  {
    var lower := Lower(message);
    if AsksToStrike(lower) then
      var enemies := s.combat.value.enemies;
      var i := TargetIndex(enemies, lower);
      if i >= |enemies| then (s, None, InvalidTarget)
      else
        var modifier := Modifier(s.character.stats.strength);
        (s.(pending := Some(AttackPending(i, enemies[i].name, modifier, enemies[i].armorClass, message))), None,
         AttackRequired(enemies[i].name, enemies[i].armorClass, modifier))
    else (s, Some(Call("game", message)), Narration(AiIntegration.Answer(apiKey, provider, reply)))
  }

  /** The plain conversation: travel first, then the call, then the resting and quest-taking keywords. */
  function ConversationSpec(s: GameState, apiKey: string, provider: AiIntegration.Provider, message: string,
                            reply: AiIntegration.CallOutcome): (r: (GameState, Call, ActionAnswer))
    ensures r.1 == Call(NpcNamed(NpcDatabase, Lower(message)).GetOr("game"), message)
    ensures r.2 == Narration(AiIntegration.Answer(apiKey, provider, reply))
    ensures r.0.location == (if AsksToTravel(Lower(message)) && LocationNamed(Locations, Lower(message)).Some?
                             then LocationNamed(Locations, Lower(message)).value else s.location)
    ensures r.0.character == (if AsksToRest(Lower(message)) then s.character.(health := s.character.maxHealth) else s.character)
    ensures r.0.active == (if AsksForQuest(Lower(message)) then TakeNamedQuests(s.questDb, s.active, s.completed, Lower(message)) else s.active)
    ensures r.0 == s.(location := r.0.location, character := r.0.character, active := r.0.active)
  {
    (Rested(Travelled(s, Lower(message)), Lower(message)),
     Call(NpcNamed(NpcDatabase, Lower(message)).GetOr("game"), message), Narration(AiIntegration.Answer(apiKey, provider, reply)))
  }

  /** The travel keyword of a conversation: the first place named, if any. */
  function Travelled(s: GameState, lower: string): GameState
  {
    if AsksToTravel(lower) && LocationNamed(Locations, lower).Some? then s.(location := LocationNamed(Locations, lower).value) else s
  }

  /** The resting and quest-taking keywords of a conversation, after the call. */
  function Rested(s: GameState, lower: string): GameState
  {
    var character := if AsksToRest(lower) then s.character.(health := s.character.maxHealth) else s.character;
    s.(character := character, active := if AsksForQuest(lower) then TakeNamedQuests(s.questDb, s.active, s.completed, lower) else s.active)
  }

  /** The enemy a message outside a fight asks to fight: the first template named, if it asks for a fight. */
  function Foe(lower: string): (r: Option<Enemy>)
    ensures r.Some? ==> AsksForCombat(lower) && r == EnemyNamed(EnemyDatabase, lower) && r.value in EnemyDatabase
    ensures r.None? ==> !AsksForCombat(lower) || forall k :: 0 <= k < |EnemyDatabase| ==> !NamesEnemy(lower, EnemyDatabase[k])
  {
    if AsksForCombat(lower) then EnemyNamed(EnemyDatabase, lower) else None
  }

  /** `startCombat(enemy.id, 1)` on a template of the table: one fresh copy of it, at full health. */
  function FightStart(s: GameState, e: Enemy): (r: GameState)
    requires e in EnemyDatabase
    ensures r.combat.Some? && |r.combat.value.enemies| == 1 && r.combat.value.enemies[0].name == e.name
    ensures r == s.(combat := r.combat)
  {
    assert FindEnemy(e.id).Some?;
    var t := StartCombatSpec(s, e.id, 1).value;
    assert t.combat.value.enemies[0].(id := e.id, health := FindEnemy(e.id).value.health) == FindEnemy(e.id).value;
    t
  }

  /**
   * A keyed message outside a fight, in this order: a request to fight a
   * named enemy starts a fight with one of it; a named skill asks for a check;
   * anything else is a conversation. Every path calls the game master or an NPC.
   */
  function PeaceActionSpec(s: GameState, apiKey: string, provider: AiIntegration.Provider, message: string,
                           reply: AiIntegration.CallOutcome): (r: (GameState, Option<Call>, ActionAnswer))
    requires s.combat.None?
    ensures r.1.Some? && (r.2.Narration? || r.2.CombatStarted? || r.2.CheckRequired?)
    ensures r.2.CombatStarted? <==> Foe(Lower(message)).Some?
    ensures r.2.CombatStarted? ==> (r.2.enemyName == Foe(Lower(message)).value.name
      && r.0 == FightStart(s, Foe(Lower(message)).value))
    ensures r.0.drawn == s.drawn && r.0.history == s.history && r.0.inventory == s.inventory
    ensures r.0.party == s.party && r.0.completed == s.completed && r.0.rumors == s.rumors && r.0.questDb == s.questDb
    ensures r.0.npcs == s.npcs && r.0.character == s.character.(health := r.0.character.health)
    ensures s.active <= r.0.active
    ensures r.0.pending != s.pending ==> r.2.CheckRequired?
  {
    var lower := Lower(message);
    var foe := Foe(lower);
    if foe.Some? then
      (FightStart(s, foe.value), Some(Call("game", message)), CombatStarted(foe.value.name, AiIntegration.Answer(apiKey, provider, reply)))
    else
      var request := RequestSpec(s, apiKey, provider, message, reply);
      (request.0, Some(request.1), request.2)
  }

  /** A message out of a fight that starts none: a skill check when it names a skill, else a conversation. */
  function RequestSpec(s: GameState, apiKey: string, provider: AiIntegration.Provider, message: string,
                       reply: AiIntegration.CallOutcome): (r: (GameState, Call, ActionAnswer))
    ensures r.2.Narration? || r.2.CheckRequired?
    ensures r.0.drawn == s.drawn && r.0.history == s.history && r.0.inventory == s.inventory && r.0.combat == s.combat
    ensures r.0.party == s.party && r.0.completed == s.completed && r.0.rumors == s.rumors && r.0.questDb == s.questDb
    ensures r.0.npcs == s.npcs && r.0.character == s.character.(health := r.0.character.health)
    ensures s.active <= r.0.active
    ensures r.0.pending != s.pending ==> r.2.CheckRequired?
  {
    var check := SkillCheckSpec(s, apiKey, provider, message, reply);
    if check.Some? then check.value
    else
      TakeNamedQuestsExtends(s.questDb, s.active, s.completed, Lower(message));
      ConversationSpec(s, apiKey, provider, message, reply)
  }

  /** The two branches of a request: the skill check when one is named, else the conversation. */
  lemma RequestCases(s: GameState, apiKey: string, provider: AiIntegration.Provider, message: string,
                     reply: AiIntegration.CallOutcome)
    ensures var check := SkillCheckSpec(s, apiKey, provider, message, reply);
      RequestSpec(s, apiKey, provider, message, reply)
      == if check.Some? then check.value else ConversationSpec(s, apiKey, provider, message, reply)
  {
  }

  /**
   * `processPlayerAction(message)`: without a key the player is asked to
   * configure one; in a fight the message is a combat action; otherwise it is
   * read as above. No path rolls dice, saves a roll, or moves gold, items,
   * party, rumours or completed quests; active quests only grow, and a roll
   * waits afterwards only when the answer asks for one.
   */
  function PlayerActionSpec(s: GameState, apiKey: string, provider: AiIntegration.Provider, message: string,
                            reply: AiIntegration.CallOutcome): (r: (GameState, Option<Call>, ActionAnswer))
    ensures apiKey == "" ==> r == (s, None, NeedsKey)
    ensures apiKey != "" && s.combat.Some? ==> r == CombatActionSpec(s, apiKey, provider, message, reply)
    ensures apiKey != "" && s.combat.None? ==> r == PeaceActionSpec(s, apiKey, provider, message, reply)
    ensures r.1.None? <==> r.2.NeedsKey? || r.2.AttackRequired? || r.2.InvalidTarget?
    ensures r.0.drawn == s.drawn && r.0.history == s.history && r.0.inventory == s.inventory
    ensures r.0.party == s.party && r.0.completed == s.completed && r.0.rumors == s.rumors && r.0.questDb == s.questDb
    ensures r.0.npcs == s.npcs && r.0.character == s.character.(health := r.0.character.health)
    ensures s.active <= r.0.active
    ensures r.0.pending != s.pending ==> r.2.CheckRequired? || r.2.AttackRequired?
  {
    if apiKey == "" then (s, None, NeedsKey)
    else if s.combat.Some? then CombatActionSpec(s, apiKey, provider, message, reply)
    else PeaceActionSpec(s, apiKey, provider, message, reply)
  }

  /**
   * `sendChatMessage()` on the trimmed input: an empty message is ignored;
   * otherwise `processPlayerAction` answers and `updateUI` follows, so the
   * skill block always matches the abilities afterwards.
   */
  function ChatMessageSpec(s: GameState, apiKey: string, provider: AiIntegration.Provider, message: string,
                           reply: AiIntegration.CallOutcome): (r: (GameState, Option<Call>, Option<ActionAnswer>))
    ensures message == "" ==> r == (s, None, None)
    ensures message != "" ==> (
      var a := PlayerActionSpec(s, apiKey, provider, message, reply);
      && r.1 == a.1 && r.2 == Some(a.2)
      && r.0.character.skills == DerivedSkills(s.character.stats)
      && r.0.(character := a.0.character) == a.0 && r.0.character.(skills := a.0.character.skills) == a.0.character)
  {
    if message == "" then (s, None, None)
    else
      var a := PlayerActionSpec(s, apiKey, provider, message, reply);
      (UpdateUi(a.0), a.1, Some(a.2))
  }

  /** What `executePendingRoll` shows, by kind. */
  datatype RollReport =
    | NothingPending
    | SkillRolled(skill: string, check: Check, narrative: string)
    | AttackRolled(check: Check, damage: Option<Damage>, strikes: seq<AttackResult>, outcome: Option<Outcome>, narrative: string)
    | AttackCrashed(check: Check)

  /** The narration request after a skill roll. */
  function SkillNarrativePrompt(skill: string, check: Check): string {
    "The player attempted " + skill + ". They rolled " + IntToString(check.roll) + " + " + IntToString(check.modifier)
    + " = " + IntToString(check.total) + " against difficulty " + IntToString(check.difficulty) + ". "
    + (if check.success then "They succeeded!" else "They failed.") + " Narrate what happens."
  }

  /** The narration request after an attack roll: it reports the check's success, not whether damage was dealt. */
  function AttackNarrativePrompt(check: Check): string {
    if check.success then HitPrompt else MissPrompt
  }

  const HitPrompt: string := "The player hit the enemy. Narrate the combat action."
  const MissPrompt: string := "The player missed the enemy. Narrate the combat action."

  /**
   * The damage part of a landed chat attack on enemy `i`: the player's damage
   * dice with the strength modifier, and on a natural 20 a second pool without
   * modifier whose total is added. The damage is saved, and the target's health
   * drops, clamped at 0. There is no log entry and no turn check.
   */
  function ChatStrikeSpec(s: GameState, rand: nat -> nat, i: nat, critical: bool): (r: (GameState, Damage))
    requires s.combat.Some? && i < |s.combat.value.enemies|
    ensures var c := s.combat.value;
      r.0.combat == Some(c.(enemies := c.enemies[i := c.enemies[i].(health := ClampedHealth(c.enemies[i].health, r.1.total))]))
    ensures r.0.history == Recorded(s.history, Dealt("damage", r.1)) && r.0.drawn == s.drawn + |r.1.rolls|
    ensures !critical ==> r.1 == DamageOf(PlayerDamageDice(s.inventory), Modifier(s.character.stats.strength), rand, s.drawn)
    ensures r.0 == s.(combat := r.0.combat, history := r.0.history, drawn := r.0.drawn)
    ensures critical && FindDice(PlayerDamageDice(s.inventory)).Some? ==> var m := FindDice(PlayerDamageDice(s.inventory)).value;
      && |r.1.rolls| == 2 * m.count && r.1.total == Sum(r.1.rolls) + Modifier(s.character.stats.strength)
      && r.0.drawn == s.drawn + 2 * m.count
  {
    var dealt := ChatStrikeDamage(PlayerDamageDice(s.inventory), Modifier(s.character.stats.strength), rand, s.drawn, critical);
    ChatStrikeDamageShape(PlayerDamageDice(s.inventory), Modifier(s.character.stats.strength), rand, s.drawn, critical);
    Struck(s, i, dealt, s.drawn + |dealt.rolls|)
  }

  /** The state after `damage` is saved and dealt to enemy `i`, clamped at 0, with the dice cursor at `drawn`. */
  function Struck(s: GameState, i: nat, damage: Damage, drawn: nat): (GameState, Damage)
    requires s.combat.Some? && i < |s.combat.value.enemies|
  {
    var c := s.combat.value;
    (s.(combat := Some(c.(enemies := c.enemies[i := c.enemies[i].(health := ClampedHealth(c.enemies[i].health, damage.total))])),
        history := Recorded(s.history, Dealt("damage", damage)), drawn := drawn), damage)
  }

  /**
   * The attack branch of `executePendingRoll` against an existing enemy `i`:
   * a landed check deals chat damage (a critical on a natural 20), then the
   * player's turn ends and the rest of the round follows, whatever the turn was.
   */
  function ChatAttackSpec(s: GameState, rand: nat -> nat, i: nat, check: Check): (r: (GameState, Option<Damage>, seq<AttackResult>, Outcome))
    requires Valid(s) && s.combat.Some? && i < |s.combat.value.enemies|
    ensures Valid(r.0)
    ensures r.1.Some? <==> Lands(check)
    ensures r.0.pending == s.pending && r.0.drawn >= s.drawn
    ensures r.3 == Ongoing ==> r.0.combat.Some? && r.0.combat.value.playerTurn && r.0.combat.value.round == s.combat.value.round + 1
    ensures r.3 != Ongoing ==> r.0.combat.None?
    ensures r.3 == Victory ==> r.2 == []
  {
    var struck := if Lands(check) then var hit := ChatStrikeSpec(s, rand, i, check.roll == 20); (hit.0, Some(hit.1)) else (s, None);
    var u := struck.0;
    var after := AfterPlayerPhase(u.(combat := Some(u.combat.value.(playerTurn := false))), rand);
    (after.0, struck.1, after.1, after.2)
  }

  /**
   * The round of a chat attack: the damage is the chat strike's when the check
   * lands, and what follows is the rest of the round on the state after the
   * strike, so the fight is won exactly when no enemy is alive after it.
   */
  lemma ChatAttackRound(s: GameState, rand: nat -> nat, i: nat, check: Check)
    requires Valid(s) && s.combat.Some? && i < |s.combat.value.enemies|
    ensures var r := ChatAttackSpec(s, rand, i, check);
      r.1.Some? ==> r.1.value == ChatStrikeSpec(s, rand, i, check.roll == 20).1
    ensures var r := ChatAttackSpec(s, rand, i, check);
      var u := if Lands(check) then ChatStrikeSpec(s, rand, i, check.roll == 20).0 else s;
      && u.combat.Some? && Valid(u.(combat := Some(u.combat.value.(playerTurn := false))))
      && (r.0, r.2, r.3) == AfterPlayerPhase(u.(combat := Some(u.combat.value.(playerTurn := false))), rand)
      && (r.3 == Victory <==> AliveIndices(u.combat.value.enemies) == [])
  {
  }

  /** The skill branch of `executePendingRoll`: the check is saved and its outcome narrated. */
  function SkillRollSpec(s: GameState, rand: nat -> nat, p: PendingRoll, apiKey: string, provider: AiIntegration.Provider,
                         reply: AiIntegration.CallOutcome): (r: (GameState, Option<Call>, RollReport))
    requires Valid(s) && p.SkillPending?
    ensures Valid(r.0)
    ensures r.2.SkillRolled? && r.2.skill == p.skill && 1 <= r.2.check.roll <= 20
    ensures r.2.check == SkillCheck(p.modifier, p.difficulty, r.2.check.roll)
    ensures r.1 == Some(Call("game", SkillNarrativePrompt(p.skill, r.2.check)))
    ensures r.2.narrative == AiIntegration.Answer(apiKey, provider, reply)
    ensures r.0 == UpdateUi(s.(pending := None, history := Recorded(s.history, Checked("skill_check", Some(p.skill), r.2.check)),
                               drawn := s.drawn + 1))
  {
    var check := SkillCheck(p.modifier, p.difficulty, Face(20, rand(s.drawn)));
    var t := s.(pending := None, history := Recorded(s.history, Checked("skill_check", Some(p.skill), check)), drawn := s.drawn + 1);
    (UpdateUi(t), Some(Call("game", SkillNarrativePrompt(p.skill, check))),
     SkillRolled(p.skill, check, AiIntegration.Answer(apiKey, provider, reply)))
  }

  /** The state once an attack roll is made: the request is cleared, the roll logged and the d20 consumed. */
  function SavedAttack(s: GameState, check: Check): GameState
  {
    s.(pending := None, history := Recorded(s.history, Checked("attack", None, check)), drawn := s.drawn + 1)
  }

  /**
   * The attack branch of `executePendingRoll`, with the stored modifier and
   * armour class. Without a fight it throws (`AttackCrashed`): no narration and
   * no skill recomputation follow. With a target past the end of the enemy
   * list only the narration follows. Otherwise the chat attack runs.
   */
  function AttackRollSpec(s: GameState, rand: nat -> nat, p: PendingRoll, apiKey: string, provider: AiIntegration.Provider,
                          reply: AiIntegration.CallOutcome): (GameState, Option<Call>, RollReport)
    requires Valid(s) && p.AttackPending?
  {
    var check := AttackRoll(p.modifier, p.difficulty, Face(20, rand(s.drawn)));
    var t := SavedAttack(s, check);
    var call := Call("game", AttackNarrativePrompt(check));
    var narrative := AiIntegration.Answer(apiKey, provider, reply);
    if t.combat.None? then (t, None, AttackCrashed(check))
    else
      var fight := PendingFightSpec(t, rand, p.targetIndex, check);
      (UpdateUi(fight.0), Some(call), AttackRolled(check, fight.1, fight.2, fight.3, narrative))
  }

  /** What the attack branch of `executePendingRoll` guarantees, with and without a fight and a target. */
  lemma AttackRollOutcomes(s: GameState, rand: nat -> nat, p: PendingRoll, apiKey: string, provider: AiIntegration.Provider,
                           reply: AiIntegration.CallOutcome)
    requires Valid(s) && p.AttackPending?
    ensures var r := AttackRollSpec(s, rand, p, apiKey, provider, reply);
      && Valid(r.0) && r.0.pending.None? && r.0.drawn > s.drawn
      && (r.2.AttackCrashed? || r.2.AttackRolled?) && 1 <= r.2.check.roll <= 20
      && r.2.check == AttackRoll(p.modifier, p.difficulty, Face(20, rand(s.drawn)))
    ensures var r := AttackRollSpec(s, rand, p, apiKey, provider, reply);
      s.combat.None? ==> (r.2.AttackCrashed? && r.1.None?
        && r.0 == s.(pending := None, history := Recorded(s.history, Checked("attack", None, r.2.check)), drawn := s.drawn + 1))
    ensures var r := AttackRollSpec(s, rand, p, apiKey, provider, reply);
      s.combat.Some? ==> (r.2.AttackRolled? && r.1 == Some(Call("game", AttackNarrativePrompt(r.2.check)))
        && r.2.narrative == AiIntegration.Answer(apiKey, provider, reply)
        && r.0.character.skills == DerivedSkills(r.0.character.stats))
    ensures var r := AttackRollSpec(s, rand, p, apiKey, provider, reply);
      s.combat.Some? && p.targetIndex >= |s.combat.value.enemies| ==>
        r.2.damage.None? && r.2.outcome.None? && r.0.combat == s.combat
    ensures var r := AttackRollSpec(s, rand, p, apiKey, provider, reply);
      s.combat.Some? && p.targetIndex < |s.combat.value.enemies| ==> (
        && r.2.outcome.Some? && (r.2.damage.Some? <==> Lands(r.2.check))
        && (r.2.outcome == Some(Ongoing) ==>
              r.0.combat.Some? && r.0.combat.value.playerTurn && r.0.combat.value.round == s.combat.value.round + 1)
        && (r.2.outcome != Some(Ongoing) ==> r.0.combat.None?))
  {
  }

  /**
   * Against an existing target the attack branch is the chat attack on the
   * state after the roll is saved, then `updateUI`: the strike, the enemy
   * phase and the outcome reported are those of the round after the strike.
   */
  lemma AttackRollFight(s: GameState, rand: nat -> nat, p: PendingRoll, apiKey: string, provider: AiIntegration.Provider,
                        reply: AiIntegration.CallOutcome)
    requires Valid(s) && p.AttackPending? && s.combat.Some? && p.targetIndex < |s.combat.value.enemies|
    ensures var r := AttackRollSpec(s, rand, p, apiKey, provider, reply);
      && r.2.AttackRolled?
      && var t := SavedAttack(s, r.2.check);
         var fight := PendingFightSpec(t, rand, p.targetIndex, r.2.check);
         && r.0 == UpdateUi(fight.0) && r.2.damage == fight.1 && r.2.strikes == fight.2 && r.2.outcome == fight.3
  {
    var check := AttackRoll(p.modifier, p.difficulty, Face(20, rand(s.drawn)));
    var t := SavedAttack(s, check);
    assert t.combat.Some?;
    var fight := PendingFightSpec(t, rand, p.targetIndex, check);
    var r := AttackRollSpec(s, rand, p, apiKey, provider, reply);
    assert r.2 == AttackRolled(check, fight.1, fight.2, fight.3, AiIntegration.Answer(apiKey, provider, reply));
    assert r.0 == UpdateUi(fight.0);
  }

  /** The fight part of the attack branch: nothing past the end of the enemies, otherwise the chat attack. */
  function PendingFightSpec(t: GameState, rand: nat -> nat, i: nat, check: Check): (r: (GameState, Option<Damage>, seq<AttackResult>, Option<Outcome>))
    requires Valid(t) && t.combat.Some?
    ensures Valid(r.0) && r.0.pending == t.pending && r.0.drawn >= t.drawn
    ensures i >= |t.combat.value.enemies| ==> r == (t, None, [], None)
    ensures i < |t.combat.value.enemies| ==> (
      && r.3.Some? && (r.1.Some? <==> Lands(check))
      && (r.3 == Some(Ongoing) ==> r.0.combat.Some? && r.0.combat.value.playerTurn && r.0.combat.value.round == t.combat.value.round + 1)
      && (r.3 != Some(Ongoing) ==> r.0.combat.None?))
  {
    if i >= |t.combat.value.enemies| then (t, None, [], None)
    else
      var fight := ChatAttackSpec(t, rand, i, check);
      (fight.0, fight.1, fight.2, Some(fight.3))
  }

  /** Against an existing enemy the fight part of the attack branch is exactly the chat attack. */
  lemma PendingFightAttacks(t: GameState, rand: nat -> nat, i: nat, check: Check)
    requires Valid(t) && t.combat.Some? && i < |t.combat.value.enemies|
    ensures var f, a := PendingFightSpec(t, rand, i, check), ChatAttackSpec(t, rand, i, check);
      f.0 == a.0 && f.1 == a.1 && f.2 == a.2 && f.3 == Some(a.3)
  {
  }

  /**
   * `executePendingRoll()`: nothing without a pending roll. Otherwise the roll
   * is cleared, one d20 is drawn and the check saved, and the skill or attack
   * branch follows; every path that does not throw ends with `updateUI`.
   */
  function PendingRollSpec(s: GameState, rand: nat -> nat, apiKey: string, provider: AiIntegration.Provider,
                           reply: AiIntegration.CallOutcome): (r: (GameState, Option<Call>, RollReport))
    requires Valid(s)
    ensures Valid(r.0)
    ensures s.pending.None? ==> r == (s, None, NothingPending)
    ensures s.pending.Some? ==> r.0.pending.None? && r.0.drawn > s.drawn
    ensures s.pending.Some? && s.pending.value.SkillPending? ==> r == SkillRollSpec(s, rand, s.pending.value, apiKey, provider, reply)
    ensures s.pending.Some? && s.pending.value.AttackPending? ==> r == AttackRollSpec(s, rand, s.pending.value, apiKey, provider, reply)
  {
    match s.pending
    case None => (s, None, NothingPending)
    case Some(p) =>
      if p.SkillPending? then SkillRollSpec(s, rand, p, apiKey, provider, reply)
      else AttackRollOutcomes(s, rand, p, apiKey, provider, reply); AttackRollSpec(s, rand, p, apiKey, provider, reply)
  }

  /**
   * The narration follows the check's success while the damage follows a
   * landed roll: a natural 20 that does not reach the armour class deals damage
   * but is narrated as a miss.
   */
  lemma NaturalTwentyNarratedAsMiss(s: GameState, rand: nat -> nat, apiKey: string, provider: AiIntegration.Provider,
                                    reply: AiIntegration.CallOutcome)
    requires Valid(s) && s.pending.Some? && s.pending.value.AttackPending? && s.combat.Some?
    requires s.pending.value.targetIndex < |s.combat.value.enemies|
    requires Face(20, rand(s.drawn)) == 20 && 20 + s.pending.value.modifier < s.pending.value.difficulty
    ensures var r := PendingRollSpec(s, rand, apiKey, provider, reply);
      && r.2.AttackRolled? && r.2.damage.Some? && !r.2.check.success
      && r.1 == Some(Call("game", MissPrompt))
  {
    AttackRollOutcomes(s, rand, s.pending.value, apiKey, provider, reply);
    var r := AttackRollSpec(s, rand, s.pending.value, apiKey, provider, reply);
    assert r.2.check == SkillCheck(s.pending.value.modifier, s.pending.value.difficulty, 20);
    assert !r.2.check.success && Lands(r.2.check);
  }
}
