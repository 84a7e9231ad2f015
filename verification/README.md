# Tavern RPG game-state engine in Dafny

This project models the numeric core of a browser text role-playing game:
- the dice system, with its roll history;
- the character sheet, covering ability modifiers, the derived skill block, levelling up and starting health;
- the economy and quest ledger, covering shop prices, buying, recruiting companions, and accepting, progressing and completing quests;
- quest rumours, with their optional AI variation;
- the turn-based combat engine, covering `startCombat`, `playerAttack`, `enemyAttack`, `processCombatTurn` and `endCombat`;
- the chat-driven action resolver, covering `processPlayerAction`, `handleSkillCheck`, `handleCombatAction` and the single-slot `executePendingRoll`;
- the small state-keeping parts of the AI integration, covering per-conversation histories capped at 20, the 15-entry context window, the relationship tier and the quest-variation merge.

The model is laid out as follows:
- The page's mutable state is the class `Game.Game`. Its fields are the parts of `gameState`: the combat session, the roll history, the pending roll, and how many random draws have been made so far.
- The `AIIntegration` object is the class `AiIntegration.Assistant`.
- Each method that changes state in place in game.js or combat-system.js is a method of these classes. It is proved to leave exactly the state described by a pure function on a `GameState` value (`Engine`, `World`, `Play`).
- The properties the game relies on are proved about those functions, as ensures clauses and as lemmas.

The model handles nondeterminism and external input this way:
- Randomness is a parameter. `rand(k)` stands for the value of the `k`-th `Math.random()` call, and `floor(random() * n)` becomes `rand(k) % n`.
- The language-model provider's reply is an input value (`CallOutcome`).
- `JSON.parse` and the clock are parameters.

Module layout:

| file | module | content |
|---|---|---|
| wrappers.dfy | Wrappers | `Option` |
| text.dfy | Text | digits, decimal printing, lower case, substring search, `split('_')[0]` |
| dice.dfy | Dice | `DiceSystem`: die faces, `rollDice`, checks, the `NdM` parse, `damageRoll`, `saveRoll` |
| character.dfy | Characters | modifiers, skills, `checkLevelUp`, classes, starting health |
| ledger.dfy | Ledger | NPC, item, location and quest tables; stacks, quest lists, shop price |
| combat.dfy | Combat | enemy templates, clones, rewards, damage-formula split, criticals, `formatDiceRoll` |
| engine.dfy | Engine | the game state and the combat steps as functions |
| actions.dfy | Actions | keyword reading of chat messages, difficulty parse |
| chat.dfy | AiIntegration | chat histories, context window, answers, tiers, quest variation, `Assistant` |
| world.dfy | World | out-of-combat actions as functions |
| play.dfy | Play | `processPlayerAction` and `executePendingRoll` as functions |
| game.dfy | Game | the `Game` class: every state-changing operation as a method |

Some behaviour of the code may be unexpected. The model keeps it as written:
- `checkLevelUp` with experience `2 * expToNext + 1` gives one level, not two. The threshold grows to 150 after the first level. See `Characters.TwoHundredOneExperienceOneLevel`.
- Critical damage differs by path, and the model keeps the difference:
  - In `playerAttack` and `enemyAttack`, the first dice pool is listed but left out of the total.
  - In the chat attack of `executePendingRoll`, both pools are added.
- `endCombat` pays each enemy from the template named by its id up to the first `_`:
  - bandit leaders are paid as bandits;
  - wolves and orcs are paid nothing.
- `updateUI` recomputes the whole skill block. That discards the bartering point each level-up adds.

## Model

| member | source | states |
|---|---|---|
| Dice.Scaled | game.js:128-130 | `floor(random * n)` for a draw lies below `n` when `n >= 1`, and is 0 for `n = 0` |
| Dice.ScaledCovers | game.js:128-130 | every value below `n` is produced by some draw |
| Dice.Face | game.js:128-130 | `rollDie(sides)` gives a face in `[1, sides]`; a zero-sided die shows 1 |
| Dice.Rolls | game.js:133-142 | the dice of `rollDice(count, sides)` are exactly `count` faces, each in `[1, sides]` |
| Dice.RollDice | game.js:133-142 | the loop returns the faces drawn in order and a total equal to their sum |
| Dice.SumAppend | game.js:133-142 | the total of two pools of dice is the sum of their totals |
| Dice.SumBounds | game.js:133-142 | `count` dice each in `[lo, hi]` total between `count * lo` and `count * hi` |
| Dice.SkillCheck | game.js:145-161 | total is roll plus modifier; success iff total reaches the difficulty; margin is non-negative and is the distance between total and difficulty |
| Dice.AttackRoll | game.js:164-166 | an attack roll is the skill check against the armour class |
| Dice.NaturalTwentyLands | combat-system.js:165 | a natural 20 lands whatever the modifier and armour class, even when the check itself fails |
| Dice.SkillCheckThreshold | game.js:152-161 | with modifier 3 against 15, a 12 succeeds and an 11 fails |
| Dice.MatchDiceAt | game.js:171 | a match of `(\d+)d(\d+)` at a position lies within the text |
| Dice.FindDiceFrom | game.js:171 | the match found is the leftmost one: no earlier position matches, and none at all when it reports none |
| Dice.DiceFormulaRoundTrip | game.js:171-175 | writing `NdM` and matching it again gives back `N` and `M` from the start, whatever non-digit follows |
| Dice.MatchedTextReparses | combat-system.js:220-225 | the matched `NdM` text, cut out, matches again to the same two numbers |
| Dice.DamageOfShape | game.js:169-185 | no match gives total 0, no dice and modifier 0 (the passed modifier is dropped); a match gives `N` dice, total = dice sum + modifier, within `[N + mod, N*M + mod]` |
| Dice.TwoDSixPlusThree | game.js:169-185 | `damageRoll("2d6", 3)` has two faces in `[1, 6]` and a total in `[5, 15]` |
| Dice.DamageRoll | game.js:169-185 | the method parses the formula and rolls exactly the damage `DamageOf` describes |
| Dice.Recorded | game.js:188-198 | the new roll is first, older entries keep their order one place later, the length grows by one below 20 and stays at 20 otherwise, so the oldest is dropped |
| Text.PrefixBefore | combat-system.js:99 | `split('_')[0]` is the longest prefix without `_`, followed by `_` when shorter than the id |
| Text.NatToStringRoundTrip | combat-system.js:71 | the decimal text of a clone number reads back as that number |
| Characters.Modifier | game.js:202-204 | `floor((score - 10) / 2)`: `2m <= score - 10 < 2m + 2` |
| Characters.ModifierExamples | game.js:202-204 | 8 and 9 give -1, 10 and 11 give 0, 16 gives 3, 3 gives -4 |
| Characters.ModifierMonotone | game.js:202-204 | a higher score never gives a lower modifier |
| Characters.DerivedSkillValue | game.js:207-220 | after `updateSkillModifiers` each of the nine skills is the modifier of its own ability |
| Characters.UnknownSkillIsZero | game.js:1286 | a skill name outside the nine reads as 0, as the `or 0` fallback of the lookup does |
| Characters.WithDerivedSkills | game.js:207-220 | the skill block becomes the derived one; nothing else in the character changes |
| Characters.DerivedSkillsForget | game.js:207-220 | the rebuilt skill block depends on the abilities only, so any earlier bonus is lost |
| Characters.LevelUps | game.js:1051-1062 | given a positive threshold the loop stops with experience below the threshold, which never shrinks; the level never drops, and gold and abilities are untouched |
| Characters.LevelUpsGains | game.js:1051-1062 | after `n` passes: level +n, max health +20n, bartering +n, full health when `n > 0`, no change when `n = 0`, other fields untouched |
| Characters.ExactThresholdOneLevel | game.js:1051-1062 | experience exactly at the threshold gives exactly one level and leaves 0 experience |
| Characters.TwoHundredOneExperienceOneLevel | game.js:1051-1062 | 201 experience against 100 gives one level (101 left, threshold 150) |
| Characters.TwoHundredFiftyExperienceTwoLevels | game.js:1051-1062 | 250 experience against 100 gives two levels (0 left, threshold 225) |
| Characters.FindClass | game.js:498-502 | `characterClasses[key]` finds the class with that key, or reports that none has it |
| Characters.StartingHealthRange | game.js:505-506 | hit die plus constitution modifier, unclamped, is between 7 and 15 for the ten classes |
| Characters.NewCharacter | game.js:505-532 | the new character is level 1 with 0 of 100 experience, full health of hit die + CON modifier, the class's gold and stats, and zero skills |
| Ledger.FindNpc | game.js:223-291 | `npcDatabase[id]` finds the NPC with that id, or reports that none has it |
| Ledger.FindWare | game.js:931 | the merchant's ware with that id, or none in the stock |
| Ledger.RecruitablesHaveStats | game.js:866-871 | every recruitable NPC has the stats `recruitCompanion` copies |
| Ledger.FindItem | game.js:330-336 | `itemDatabase[id]` finds the item with that id, or reports that none has it |
| Ledger.FindQuest | game.js:1021 | the found quest has the id; none is found exactly when no record has it |
| Ledger.QuestIndex | game.js:982 | the index of the first record with the id; none exactly when no record has it |
| Ledger.FindQuestAtIndex | game.js:982 | the quest found by id is the record at the first index with that id |
| Ledger.PutQuest | game.js:1675 | after `questDatabase[id] = q` the id finds `q` and every other id finds what it found before |
| Ledger.RemoveQuest | game.js:1036 | the filter keeps exactly the records with other ids, adds none, and keeps ids distinct |
| Ledger.RemoveAbsentQuest | game.js:1036 | filtering out an id no record has changes nothing |
| Ledger.RemoveId | game.js:889 | the filtered rumour list is a subsequence of the old one, in its order; it lacks the id, keeps every other id and gains none |
| Ledger.StackIndex | game.js:938 | the index of the first stack with the id; none exactly when no stack has it |
| Ledger.AddItem | game.js:938-943 | on positive stacks the holding of the item grows by exactly one; an existing stack is bumped in place and the others are kept, otherwise a stack of 1 is appended |
| Ledger.AddItemKeepsOthers | game.js:938-943 | adding one item never changes the holding of another |
| Ledger.ShopPrice | game.js:770-772 | the price is at least 1 and is `floor(base * (100 - b) / 100)` whenever that is at least 1 |
| Ledger.ShopPriceBounds | game.js:770-772 | a non-negative bonus never raises the price; with no bonus the price is the list price |
| Ledger.ShopPriceMonotone | game.js:770-772 | a larger bartering bonus never gives a higher price |
| Ledger.ShopPriceExamples | game.js:770-772 | 15 at +3 costs 14; 50 at 0 costs 50; large bonuses floor at 1 |
| Ledger.AvailableQuests | game.js:1655-1661 | every candidate is a database rumour quest that is not heard, not active and not completed |
| Ledger.AvailableQuestsExact | game.js:1655-1661 | the candidates are the database ids in database order, filtered: an id is a candidate exactly when some database quest with it has status rumour and is not heard, active or completed |
| Combat.FindEnemy | combat-system.js:4-57 | `enemyDatabase[key]` finds the template with that key, or reports that none has it |
| Combat.Clones | combat-system.js:67-75 | `count` copies of the template, the `i`-th with id `enemyId_i` and full health |
| Combat.AliveIndices | combat-system.js:267 | the indices of exactly the enemies with health above 0, in increasing order |
| Combat.AliveIndicesByHealth | combat-system.js:267 | which enemies are alive depends on their healths only |
| Combat.PrefixBeforeUnderscore | combat-system.js:99 | the reward key of `p_rest` is `p` when `p` has no `_` |
| Combat.UniformRewards | combat-system.js:98-104 | enemies that share one reward template earn `count` times its rewards; with no template, nothing |
| Combat.CloneTemplates | combat-system.js:99 | every clone of `p_rest` is paid from the template named `p` |
| Combat.CloneRewards | combat-system.js:90-114 | clones under an id starting `p_` earn `count` times the rewards of template `p`, or nothing when no template is named `p` |
| Combat.RewardTotalsStep | combat-system.js:98-104 | one more enemy adds the rewards of its prefix template, or nothing when no template has that name |
| Combat.BanditCloneRewards | combat-system.js:98-104 | `count` bandits pay `25 * count` experience and `10 * count` gold |
| Combat.LeaderCloneRewards | combat-system.js:98-104 | bandit leaders are paid as bandits (25/10 each), not 75/30 |
| Combat.NoWildOrOrcTemplate | combat-system.js:4-57 | no template is named "wild" or "orc" |
| Combat.WolfCloneRewards | combat-system.js:98-104 | wolves pay nothing |
| Combat.OrcCloneRewards | combat-system.js:98-104 | orc warriors pay nothing |
| Combat.SplitDamageFormula | combat-system.js:220-229 | a non-matching formula is kept whole with modifier 0; a matching one keeps just its `NdM` text, which matches to the same dice, and its modifier is the signed number right after the match |
| Combat.SignedSuffix | combat-system.js:225-227 | the modifier is 0 unless a sign and a digit follow the match; after `+` it is the value of the digit run, and after `-` that value negated, as `parseInt` reads it |
| Combat.SplitPlain | combat-system.js:220-229 | a bare `NdM` splits into itself and 0 |
| Combat.PlusSuffix | combat-system.js:225-227 | the `+K` after the dice reads as `K` |
| Combat.SplitPlus | combat-system.js:220-229 | `NdM+K` splits into `NdM` and `K` |
| Combat.MinusSuffix | combat-system.js:225-227 | the `-K` after the dice reads as `-K` |
| Combat.SplitMinus | combat-system.js:220-229 | `NdM-K` splits into `NdM` and `-K`, keeping the sign as `parseInt` does |
| Combat.TemplateFormulas | combat-system.js:220-229 | the four templates split as 1d6/0, 1d8/2, 1d6/2 and 2d6/3 |
| Combat.SplitTemplate | combat-system.js:220-229 | a one-digit `NdM` or `NdM+K` splits into `NdM` and `K` |
| Combat.CriticalPaths | combat-system.js:172-177 | the combat-path critical totals the second pool plus the modifier, the chat-path one counts both pools plus the modifier, and the two differ by exactly the first pool |
| Combat.CritTotals | combat-system.js:172-177 | for any two pools whose totals are their dice sums (the first with the modifier), the combat-path critical totals the second pool plus the modifier, the chat-path one counts both pools plus the modifier, and they differ by the first pool |
| Combat.FirstWeapon | combat-system.js:126-129 | the item found is a weapon of the item table |
| Combat.PlayerAlwaysOneDFour | combat-system.js:124-141 | no item defines damage dice, so the player always strikes with 1d4 |
| Combat.FormatCheckMarks | combat-system.js:300-303 | the text starts with the success mark iff the check succeeded and ends with ")" iff the roll is a natural 20 |
| Combat.FormatDamageModifier | combat-system.js:305-308 | after the bracketed dice the text continues with " + " iff the modifier is non-zero |
| Engine.UpdateUi | game.js:566-570 | `updateUI` derives the skill block from the abilities and changes nothing else |
| Engine.ClampedHealth | combat-system.js:179-186 | health after damage is never negative, is 0 iff the damage reaches it, and otherwise drops by exactly the damage |
| Engine.ChatStrikeDamageShape | game.js:1411-1421 | without a critical the chat damage is one `damageRoll`; with one it has twice the dice and a total of all dice plus the modifier once |
| Engine.ChatStrikeDamageAfter | game.js:1411-1421 | the chat strike is its first pool, and on a critical the second pool drawn right after it is appended and its total added |
| Engine.StrikeDamageAfter | combat-system.js:171-177 | the combat-path strike is its first pool; on a critical the second pool drawn right after it is appended and the total becomes that pool plus the flat modifier |
| Engine.StartCombatSpec | combat-system.js:63-87 | an unknown template fails and changes nothing; otherwise a new session replaces any old one, with `count` numbered full-health copies, round 1, the player's turn and an empty log, and nothing else changes |
| Engine.EndCombatSpec | combat-system.js:90-114 | without a session nothing changes; a defeat only clears the session; a victory adds the prefix-template rewards, then levels up, then clears the session |
| Engine.EndCombatWon | combat-system.js:93-113 | with a session, a victory adds exactly the tallied experience and gold, levels up and clears the session |
| Engine.PlayerAttackSpec | combat-system.js:144-191 | null exactly without a session, outside the player's turn or past the last enemy; otherwise a d20 plus STR modifier against the target's AC; lands iff success or natural 20; damage exactly when it lands; only the target's health changes, clamped at 0, defeated iff it reaches 0; one log entry; turn unchanged |
| Engine.EnemyAttackSpec | combat-system.js:194-251 | null exactly without a session, in the player's turn, past the end or for a dead enemy; otherwise its attack bonus against 10 + DEX modifier; a landed hit lowers only the player's health, clamped at 0; one log entry; enemies untouched |
| Engine.Volley | combat-system.js:274-278 | the enemy phase only changes the player's health, the history, the draws and the log, which grows by exactly the collected results |
| Engine.VolleyEveryoneStrikes | combat-system.js:274-278 | in the enemy turn every listed living enemy attacks exactly once, in the listed order |
| Engine.VolleyLastStrikes | combat-system.js:274-278 | the last living enemy of a volley adds exactly its own strike |
| Engine.AfterPlayerPhase | combat-system.js:266-295 | victory iff no enemy is alive, ending the fight before any enemy acts; otherwise each living enemy strikes in index order, then player's turn and round + 1; defeat only after the whole phase, when health is at or below 0 |
| Engine.CombatTurnSpec | combat-system.js:254-296 | null exactly without a session; any action ends the player's turn; an ongoing fight is back at the player's turn one round later; a finished fight has no session; an attack is the player's strike, when it is possible, followed by the rest of the round from the state after it, with the strike listed first |
| Actions.EnemyNamed | game.js:1216-1217 | the enemy picked is the first template in table order that the message names by name or key; none when no template is named |
| Actions.LeaderMentionPicksBandit | game.js:1214-1225 | any message naming the bandit leader starts a fight with the plain bandit |
| Actions.SkillNamed | game.js:1279-1289 | the skill picked is the first of the vocabulary that occurs in the message, whatever its position in the text |
| Actions.SkillOrderIsVocabularyOrder | game.js:1279-1289 | "perception" loses to "intimidation" wherever each stands in the message |
| Actions.DifficultyWord | game.js:1299 | a word read as a difficulty is between 8 and 20 |
| Actions.DifficultyFrom | game.js:1299 | the difficulty found is the leftmost whole-word match of 8-20; none when no position matches |
| Actions.ParseDifficulty | game.js:1299-1300 | the difficulty is always between 8 and 20 (12 when the reply holds none) |
| Actions.ParseDifficultyExamples | game.js:1299-1300 | "15" gives 15; "25" and "100" give the default 12 |
| Actions.LocationNamed | game.js:1234-1244 | the location picked is named by its name or key in the message, and no earlier table entry is named; none when none is named |
| Actions.NpcNamed | game.js:1247-1253 | the NPC picked is named in the message, and no earlier table entry is named; none when none is named |
| Actions.ForestRests | game.js:1259-1261 | "go to the forest" also triggers resting, because "forest" contains "rest" |
| Actions.TakeNamedQuestsAdds | game.js:1263-1272 | quest taking only appends copies of named database quests at count 0, never a completed one and never a second copy of an id |
| Actions.TakeNamedQuestsComplete | game.js:1263-1272 | every database quest whose title is named and that is not completed ends up active |
| Actions.TakeNamedQuestsExtends | game.js:1263-1272 | the active quests before the loop stay as a prefix |
| Actions.TargetIndex | game.js:1332-1337 | the target is the last enemy whose name the message contains, or 0 when it names none |
| Actions.TargetIndexStep | game.js:1333-1337 | one more enemy becomes the target exactly when the message names it; otherwise the target so far stays |
| AiIntegration.Last | ai-integration.js:295 | the last `n` entries form a suffix of exactly `min(n, length)` entries |
| AiIntegration.Pushed | ai-integration.js:144-152 | the new entry is last; below 20 it is appended, at 20 the oldest is dropped, so a list of at most 20 stays at most 20 |
| AiIntegration.PushedAllKeepsLast | ai-integration.js:144-152 | a capped history always equals the last 20 entries of everything pushed onto it |
| AiIntegration.Window | ai-integration.js:295 | `slice(-15)` is the last 15 entries, at most 15 |
| AiIntegration.WindowOfHistory | ai-integration.js:295 | the context sent is the last 15 entries of everything pushed |
| AiIntegration.Answer | ai-integration.js:277-325 | without a key the fixed key message; for an unknown provider the "not configured" message |
| AiIntegration.AfterExchange | ai-integration.js:277-318 | without a key the histories are untouched; otherwise only the chat id's history changes, it is created when missing, and every history stays capped at 20 |
| AiIntegration.ExchangeRecords | ai-integration.js:301-318 | the history ends with the user message, followed by the reply exactly when a configured provider returned non-empty text, which is then the answer |
| AiIntegration.RelationshipTier | ai-integration.js:163-167 | > 50 very friendly, > 20 friendly, > -20 neutral, > -50 unfriendly, else hostile, each as an iff |
| AiIntegration.TierMonotone | ai-integration.js:163-167 | a better relationship never gives a colder tier |
| AiIntegration.LiveRelationship | ai-integration.js:162 | the live value when it is present and not 0; otherwise the NPC's base value; 0 only when both are 0 or missing |
| AiIntegration.ZeroLiveFallsBack | ai-integration.js:162-167 | a live relationship of 0 with Old Greg reads as his base 50, which is friendly |
| AiIntegration.PersonaOf | ai-integration.js:154-167 | the game-master prompt exactly for "", "game" or an unknown NPC; otherwise the NPC, its live-or-base relationship and its tier |
| AiIntegration.MergeLaws | ai-integration.js:415 | merging an empty patch changes nothing, and merging the same patch twice equals merging it once |
| AiIntegration.MergeKeepsUnpatched | ai-integration.js:415 | reward and type are kept unless the reply overrides them, and taken unchecked when it does |
| AiIntegration.FirstIndex | ai-integration.js:412 | the first index of the character, or none when it does not occur |
| AiIntegration.LastIndex | ai-integration.js:412 | the last index of the character, or none when it does not occur |
| AiIntegration.ExtractJson | ai-integration.js:412 | the match runs from the first `{` of the reply to its last `}`, as the greedy pattern does; none exactly when no `}` follows a `{` |
| AiIntegration.ExtractJsonExample | ai-integration.js:412 | "a{b}c" yields "{b}" |
| AiIntegration.QuestVariation | ai-integration.js:380-422 | no key, no provider, an error, an empty reply or no JSON give the base quest; otherwise the parsed patch merged over it, or the base quest when it does not parse |
| AiIntegration.Assistant.constructor | ai-integration.js:3-11 | the assistant starts with the OpenAI provider, no key and no histories |
| AiIntegration.Assistant.SaveConfig | ai-integration.js:91-100 | provider and key are replaced and the histories stay |
| AiIntegration.Assistant.GetChatHistory | ai-integration.js:137-142 | an unseen id gets an empty list, a seen one returns its list, and other ids are untouched |
| AiIntegration.Assistant.AddToHistory | ai-integration.js:144-152 | the conversation becomes the pushed list (appended, oldest dropped past 20); others untouched; all stay capped |
| AiIntegration.Assistant.GenerateResponse | ai-integration.js:277-325 | with no key nothing is sent or stored; otherwise the last 15 entries plus the message are sent, the message is stored before the call, the reply only when non-empty, and the answer is `Answer` |
| AiIntegration.Assistant.Ask | ai-integration.js:291-302 | the request carries the last 15 stored entries and the message, and the message is then stored |
| World.Bumped | game.js:945-947 | a met NPC's relationship moves by the delta; no other entry changes and none is added |
| World.GiverBumped | game.js:1039-1042 | a giver that is a known NPC and has been met moves by the delta; otherwise no relationship changes |
| World.BuySpec | game.js:924-950 | too little gold, an unknown merchant or an unstocked ware changes nothing; otherwise gold drops by exactly the price, one item is added, a met merchant gains +2 while every other NPC is unchanged, and skills are rederived |
| World.BuyAtShopPrice | game.js:924-950 | buying a stocked ware at its shop price adds exactly one of it, leaves other holdings alone, costs at most the list price and keeps gold non-negative |
| World.RecruitSpec | game.js:855-877 | only a recruitable NPC that is not in the party and is affordable joins; the cost is paid and its stats appended as a member; every refusal changes nothing; the refusal for gold happens exactly when a recruitable NPC outside the party costs more than the gold |
| World.RecruitJoined | game.js:862-875 | a recruitable NPC outside the party whose cost the gold covers has stats, and joining pays the cost, appends its stats and rederives the skills |
| World.RecruitOnce | game.js:855-877 | the party stays free of duplicates and a second recruitment of the same NPC is refused |
| World.AcceptSpec | game.js:879-900 | an unknown or already active quest changes nothing; otherwise a count-0 copy is appended, the id is filtered out of the rumours with their order kept, a met giver gains exactly +5 and every other NPC is unchanged |
| World.AcceptIdempotent | game.js:879-900 | accepting twice equals accepting once, and active ids stay distinct |
| World.CompletedQuestAcceptedAgain | game.js:879-890 | a completed quest can be accepted again: the completed list is never consulted |
| World.CompleteSpec | game.js:1020-1049 | nothing unless active; otherwise the quest moves from active to completed, gold and its item are paid, the character is the level-up of the one with the reward's gold and experience added, with skills rederived from the abilities, and a met giver gains exactly +10 while every other NPC is unchanged |
| World.CompleteFound | game.js:1020-1049 | completing a found active quest is the reward and retirement, then the level-up, then `updateUI`, in that order |
| World.CompleteOnce | game.js:1020-1049 | completing a quest a second time changes nothing |
| World.CompletionWipesBartering | game.js:1046-1048 | a completion that levels up still leaves bartering at the charisma modifier: `updateUI` discards the level-up point |
| World.HuntSpec | game.js:981-1004 | nothing without the bandit quest; otherwise the player is in the forest and one draw is used |
| World.HuntProgress | game.js:992-1001 | the hunt kills one draw's worth of 1 to 3 bandits; below the target the count rises by exactly that many, and nothing but the location and the draw changes |
| World.HuntCompletes | game.js:992-999 | when the count plus the bandits killed reaches the target, the quest, its count set to the target, is completed |
| World.HuntCompletesPays | game.js:992-999 | a hunt that reaches the target moves the bandit quest from active to completed and pays its gold |
| World.LastBanditCompletes | game.js:992-999 | a bandit quest at 2 of 3 is always completed by the next hunt |
| World.TowerSpec | game.js:1006-1018 | nothing without the tower quest; otherwise the player is at the tower and the quest is completed |
| World.RestSpec | game.js:816-820 | health returns to its maximum, skills are rederived, and nothing else changes |
| World.MeetSpec | game.js:1595-1601 | the first meeting of a known NPC records its base relationship; later meetings and unknown ids change nothing |
| World.MeetIdempotent | game.js:1595-1601 | meeting twice equals meeting once; a relationship is never reset |
| World.WithRumor | game.js:1677-1679 | the id is in the rumours afterwards, appended only when missing |
| World.RumorOutcomes | game.js:1654-1691 | nothing without an available quest; otherwise only the database, the rumours and one draw change; at most one rumour is appended, and it names a database quest; without a key the new rumour is an available base quest |
| World.RumorKeepsQuests | game.js:1674 | the database only grows: every quest id found before is still found |
| World.RumorChoice | game.js:1664-1689 | the drawn available quest is the base; with a key and a differently titled variation, the variation is stored under the variation id with the base quest's giver, every other id is unchanged and the variation id is heard; otherwise the database stays and the base id is heard |
| World.RumorsStayKnown | game.js:1654-1691 | every rumour keeps naming a quest of the database |
| World.ListenSpec | game.js:822-829 | rumours are generated only when none are known, and then one is heard if any quest is available |
| World.CreateSpec | game.js:470-551 | an empty field or unknown class changes nothing; otherwise the level-1 character replaces the old one with health hit die + CON modifier, derived skills and class gold, and inventory, party, quests, combat, history, location, pending roll and NPCs stay; the rumour generation then runs on the new character |
| Play.SkillNamedIsNamed | game.js:1283-1289 | the skill found is one of the vocabulary and occurs in the message |
| Play.SkillCheckSpec | game.js:1278-1322 | no check exactly when no skill is named; otherwise the game master is asked for a difficulty in 8-20, and a skill roll with the skill's value waits, with nothing else changed |
| Play.SkillCheckNamed | game.js:1279-1309 | a named skill waits as a skill roll with the character's value for it and the difficulty parsed from the answer, asked of the game master |
| Play.CombatActionSpec | game.js:1325-1368 | a non-attack message goes to the game master unchanged; an attack targets the last named enemy with the STR modifier against its AC, or is an invalid target when there are no enemies |
| Play.ConversationSpec | game.js:1234-1274 | the named NPC (or the game master) is called; travel, rest and quest taking follow their keywords; nothing else changes |
| Play.Foe | game.js:1214-1217 | a fight is asked for exactly when a combat word and a template are named, and then the first named template is fought |
| Play.FightStart | game.js:1218 | the fight has exactly one full-health copy of the named enemy and nothing else changes |
| Play.PeaceActionSpec | game.js:1213-1274 | out of a fight, a named enemy with a combat word starts a fight, otherwise a named skill asks for a check, otherwise a conversation; there are no dice, gold, item or party changes |
| Play.RequestSpec | game.js:1228-1274 | a skill check when a skill is named, else a conversation; only location, health, active quests and the pending roll may change |
| Play.RequestCases | game.js:1228-1274 | the request is the skill check when a skill is named, and the conversation otherwise |
| Play.PlayerActionSpec | game.js:1200-1275 | without a key only the prompt to configure one; in a fight a combat action; otherwise as above; there is never a roll or a gold, item, party or rumour change, active quests only grow, and a roll waits only when the answer asks for one |
| Play.ChatStrikeSpec | game.js:1409-1432 | a landed chat attack saves its damage and lowers only the target's health, clamped at 0; a critical has twice the dice and adds the modifier once; otherwise the damage is the weapon dice plus the strength modifier from the next draws, and one draw is used per die |
| Play.ChatAttackSpec | game.js:1402-1470 | damage exactly when the roll lands; then the enemy phase; an ongoing fight is back at the player's turn one round later; victory has no enemy strikes |
| Play.SkillRollSpec | game.js:1380-1392 | the skill roll is a d20 check with the stored modifier and difficulty, saved, narrated, and the pending roll is cleared |
| Play.AttackRollOutcomes | game.js:1394-1476 | the pending roll is cleared and the attack saved; without a fight it throws before narration; past the last enemy there is no damage and the fight is unchanged; otherwise damage iff it lands, and the round follows |
| Play.PendingFightSpec | game.js:1402-1470 | past the last enemy nothing happens; otherwise the chat attack, with damage iff it lands |
| Play.PendingFightAttacks | game.js:1402-1470 | against an existing enemy the state, damage, strikes and outcome are exactly those of the chat attack |
| Play.ChatAttackRound | game.js:1402-1470 | the damage is that of the chat strike; the state, strikes and outcome are the rest of the round from the state after the strike, and victory is reported exactly when no enemy is left alive there |
| Play.AttackRollFight | game.js:1394-1476 | against an existing enemy the roll is reported and the state, damage, strikes and outcome are the fight of the saved attack, with skills rederived |
| Play.ChatMessageSpec | game.js:1156-1197 | an empty message changes nothing; otherwise the answer and call are those of `processPlayerAction`, its state is kept except the skill block, and the skill block is derived from the abilities |
| Play.PendingRollSpec | game.js:1371-1484 | nothing without a pending roll; otherwise it is consumed once, one d20 is drawn, and the skill or attack branch follows |
| Play.NaturalTwentyNarratedAsMiss | game.js:1408-1474 | a natural 20 below the armour class deals damage but is narrated as a miss |
| Game.Game.constructor | game.js:76-124 | the page starts from the initial game state |
| Game.Game.Load | game.js:1079-1089 | every field the save holds is replaced by the loaded state; the quest table, which lives outside `gameState`, and the position in the random stream carry on |
| Game.Game.LoadParty | game.js:1083 | the character, inventory, party and active and completed quest lists become those of the loaded state; the quest table and everything else stay |
| Game.Game.LoadWorld | game.js:1083 | the rumours, relationships, location, session, history and pending roll become those of the loaded state; the draw cursor and everything else stay |
| Game.Game.RollDie | game.js:128-130 | the next draw becomes a face in `[1, sides]` and the cursor moves by one |
| Game.Game.RollDamage | game.js:169-185 | `damageRoll` from the next draws, using one draw per die |
| Game.Game.SaveRoll | game.js:188-198 | `unshift` then `pop` past 20 leaves the history `Recorded` describes |
| Game.Game.UpdateSkillModifiers | game.js:207-220 | the skill block is rebuilt from the abilities |
| Game.Game.CheckLevelUp | game.js:1051-1062 | the while loop leaves the character `LevelUps` describes, with experience below the threshold |
| Game.Game.StartCombat | combat-system.js:63-87 | returns false exactly for an unknown template, with nothing changed; otherwise the loop builds the clones of `StartCombatSpec` |
| Game.Game.EndCombat | combat-system.js:90-114 | leaves exactly the state `EndCombatSpec` describes |
| Game.Game.Win | combat-system.js:93-113 | a won fight leaves the state `EndCombatSpec` gives for a victory |
| Game.Game.GainRewards | combat-system.js:106-109 | the experience and gold are added, then the character levels up as `LevelUps` describes |
| Game.Game.TallyRewards | combat-system.js:94-104 | the `forEach` sums the prefix-template rewards, as `RewardTotals` states |
| Game.Game.StrikeRoll | combat-system.js:165-177 | the damage of a landed attack, with the combat-path critical |
| Game.Game.PlayerAttack | combat-system.js:144-191 | returns null with nothing changed, or the strike and state of `PlayerAttackSpec` |
| Game.Game.PlayerHit | combat-system.js:165-186 | the landed branch of `playerAttack` |
| Game.Game.DealPlayerDamage | combat-system.js:169-190 | the damage is saved, the target's health is clamped, and the strike is logged |
| Game.Game.EnemyAttack | combat-system.js:194-251 | returns null with nothing changed, or the strike and state of `EnemyAttackSpec` |
| Game.Game.EnemyHit | combat-system.js:218-238 | the landed branch of `enemyAttack` with the split formula |
| Game.Game.TakeEnemyDamage | combat-system.js:231-249 | the damage is saved, the player's health is clamped, and the strike is logged |
| Game.Game.EnemyPhase | combat-system.js:274-278 | the loop leaves the state and results of `Volley` |
| Game.Game.FinishRound | combat-system.js:266-295 | the victory check, the enemy phase, the next round and the defeat check, as `AfterPlayerPhase` |
| Game.Game.ProcessCombatTurn | combat-system.js:254-296 | null with nothing changed without a session; otherwise the state, results and outcome of `CombatTurnSpec` |
| Game.Game.BuyItem | game.js:924-950 | leaves the state and outcome of `BuySpec` |
| Game.Game.Pay | game.js:936-947 | the price is paid, one item is added, and a met merchant gains +2 |
| Game.Game.RecruitCompanion | game.js:855-877 | leaves the state and outcome of `RecruitSpec` |
| Game.Game.Join | game.js:867-875 | the cost is paid, the NPC's stats join the party and the skills are rederived, as `Joining` describes |
| Game.Game.AcceptQuest | game.js:879-900 | leaves the state of `AcceptSpec` |
| Game.Game.CompleteQuest | game.js:1020-1049 | leaves the state of `CompleteSpec` |
| Game.Game.Settle | game.js:1024-1043 | the reward is paid and the quest retired, leaving the `Settled` state before the level check |
| Game.Game.Collect | game.js:1024-1034 | the reward gold and experience are added and the item is stacked |
| Game.Game.Retire | game.js:1036-1042 | the quest leaves the active list for the completed one, and a met giver gains +10 |
| Game.Game.HuntBandits | game.js:981-1004 | leaves the state of `HuntSpec` |
| Game.Game.Hunt | game.js:989-996 | the trip to the forest uses one draw and raises the count up to its target, reporting whether the target is reached |
| Game.Game.InvestigateTower | game.js:1006-1018 | leaves the state of `TowerSpec` |
| Game.Game.Rest | game.js:816-820 | leaves the state of `RestSpec` |
| Game.Game.MeetNpc | game.js:1595-1601 | leaves the state of `MeetSpec` |
| Game.Game.GenerateRumors | game.js:1654-1691 | leaves the state of `RumorSpec` |
| Game.Game.Hear | game.js:1667-1689 | the rumour about the drawn quest is heard as `Hearing` describes: the variation when its title is new, else the quest itself |
| Game.Game.HearRumor | game.js:1677-1679 | the rumour is appended only when missing |
| Game.Game.ListenToGossip | game.js:822-829 | leaves the state of `ListenSpec` |
| Game.Game.CreateCharacter | game.js:470-551 | leaves the state and result of `CreateSpec` |
| Game.Game.PickTarget | game.js:1332-1337 | the `forEach` keeps the last named enemy's index, as `TargetIndex` states |
| Game.Game.TakeQuests | game.js:1263-1272 | the quest loop leaves the active list `TakeNamedQuests` describes |
| Game.Game.HandleCombatAction | game.js:1325-1368 | state, answer and chat histories as `CombatActionSpec` and its call |
| Game.Game.HandleSkillCheck | game.js:1278-1322 | no answer and nothing changed when no skill is named; otherwise state, answer and histories as `SkillCheckSpec` |
| Game.Game.Converse | game.js:1234-1274 | state, answer and histories as `ConversationSpec` |
| Game.Game.Travel | game.js:1234-1244 | the first place the message names becomes the location when it asks to travel |
| Game.Game.Unwind | game.js:1258-1272 | resting restores health and quest taking adds the named quests, as `Rested` describes |
| Game.Game.ProcessPlayerAction | game.js:1200-1275 | state, answer and histories as `PlayerActionSpec` |
| Game.Game.SendChatMessage | game.js:1156-1197 | state, answer and histories as `ChatMessageSpec` |
| Game.Game.PeaceAction | game.js:1213-1274 | state, answer and histories as `PeaceActionSpec` |
| Game.Game.Request | game.js:1228-1274 | state, answer and histories as `RequestSpec` |
| Game.Game.Fight | game.js:1214-1225 | one copy of the named enemy is fought and the game master narrates |
| Game.Game.ChatStrike | game.js:1409-1432 | state and damage as `ChatStrikeSpec` |
| Game.Game.ChatDamageRoll | game.js:1411-1421 | the chat-path damage, whose critical adds both pools |
| Game.Game.Deal | game.js:1423-1432 | the damage is saved and the target's health is clamped at 0 |
| Game.Game.ChatAttack | game.js:1402-1470 | state, damage, enemy strikes and outcome as `ChatAttackSpec` |
| Game.Game.PendingFight | game.js:1402-1470 | as `PendingFightSpec` |
| Game.Game.SkillRoll | game.js:1380-1392 | state, report and histories as `SkillRollSpec` |
| Game.Game.ConsumeAttack | game.js:1372-1397 | the pending roll is cleared and the attack roll drawn and saved |
| Game.Game.AttackRollAction | game.js:1394-1476 | state, report and histories as `AttackRollSpec` |
| Game.Game.ExecutePendingRoll | game.js:1371-1484 | state, report and histories as `PendingRollSpec` |

## Left out

- DOM rendering, modals, `addMessage`, `addChatMessage`, the markup of `updateUI`, `updateShop` and the other UI functions are left out: they are display only. The one state effect of `updateUI` is modelled at each call: it recomputes the skill block.
- `saveGame` is left out, because it is storage I/O: it writes `gameState` as JSON to `localStorage`. `loadGame` is modelled as replacing the saved fields (`Game.Game.Load`); reading and parsing the save, and the parse failure, are left out. Because the quest table is not part of the save, a load after a page reload keeps only the base quests, and rumour ids of stored variations then name no quest.
- `newGame` (game.js:1091-1138) is left out: it is a reset confirmed through a browser dialog. Once confirmed, it installs fixed defaults in memory, with no storage involved:
  - a level-1 character named "Adventurer" with 100 of 100 health, 50 gold, the abilities 12/14/13/11/12/13, zero skills and no class, appearance or backstory;
  - empty inventory, party, quest lists, relationships and roll history, no locations, the tavern as location, and no combat or pending roll;
  - then `updateUI` rebuilds the skills.
- Only one combat session is modelled. `gameState.combat` and the module variable `combatState` are treated as one, so the model does not capture how a reload can split them apart.
- `callOpenAI`, `callAnthropic` and `testConnection` are foreign network calls. Their outcome is an input, and so is `JSON.parse`.
- The prompt text of `buildSystemPrompt` and `buildGameMasterPrompt` is left out; only the persona and relationship tier are modelled.
- `Math.random`, `Date.now`, `setTimeout` and the `async`/`await` suspension points are left out:
  - draws come from the `rand` parameter;
  - the clock is the `now` parameter;
  - each operation runs to completion.
- Timestamps of saved rolls are left out.
- The temperature setting and creativity slider are left out, because they are floating point and never reach the state.
- `triggerRandomEvent` and `generateRandomEvent` are left out: they rely on a floating-point chance and return only narration.
- `handleChatResponse` (game.js:1553-1593) is left out, because no function in the game calls it. Called, it would change state in two ways:
  - after a delay, it appends each unheard quest id of the NPC to the rumours when the reply mentions a quest, help or a mission (game.js:1567-1571);
  - it adds 1 to the NPC's relationship when the reply contains "thank", "appreciate" or "glad" (game.js:1587-1590).
- Of `sendChatMessage` only the state effects are modelled: the chat display, the loading message and the input box are left out.
- Game.Game.SendChatMessage: the message is taken already trimmed, because `trim` works on Unicode white space.
- Text.Lower: only the ASCII letters A to Z are lowered, while `toLowerCase` also lowers other Unicode letters. Names and titles in the tables are ASCII.
- The `alert` checks of the form in `createCharacter` are modelled as a refusal on empty trimmed values. The trimming itself and reading the form are left out.
- The first, synchronous `generateRumors` (game.js:831-846) is left out, because the later async declaration replaces it.
- Ledger.ShopPrice: the source computes the price in floating point. The model uses exact integer arithmetic, which can differ when `base * (1 - b/100)` rounds below an integer in floating point.
- Engine.PlayerAttackSpec: when the attack lands, the history keeps the damage record with its final values after a critical. In the source the saved object is the one the critical rewrites afterwards, so the model shows exactly what the history then holds.
- The quest's `targetCount` is present only on the bandit quest. The other base quests carry 0, and the model never reads it for them.
