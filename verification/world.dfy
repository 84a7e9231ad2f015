/**
 * The out-of-combat actions of game.js as functions on the game state:
 * buying, recruiting, accepting and completing quests, the two quest actions,
 * resting, meeting an NPC, hearing rumours and creating a character.
 *
 * `updateUI` contributes only its state change, `UpdateUi` (the skill block
 * recomputed from the abilities); messages, modals and the save are not state.
 */
module World {
  import opened Wrappers
  import opened Text
  import opened Dice
  import opened Characters
  import opened Ledger
  import opened Engine
  import AiIntegration

  /** `npcs[id].relationship += delta` when the player has met `id`; the map is unchanged otherwise. */
  function Bumped(npcs: map<string, int>, id: string, delta: int): (r: map<string, int>)
    ensures r.Keys == npcs.Keys
    ensures forall k :: k in npcs && k != id ==> r[k] == npcs[k]
    ensures id in npcs ==> r[id] == npcs[id] + delta
  {
    if id in npcs then npcs[id := npcs[id] + delta] else npcs
  }

  /** The relationship bonus of a quest's giver: only for a giver that is a known NPC the player has met. */
  function GiverBumped(npcs: map<string, int>, giver: string, delta: int): (r: map<string, int>)
    ensures FindNpc(giver).Some? && giver in npcs ==> r == npcs[giver := npcs[giver] + delta]
    ensures FindNpc(giver).None? || giver !in npcs ==> r == npcs
  {
    if FindNpc(giver).Some? then Bumped(npcs, giver, delta) else npcs
  }

  /** How `buyItem` ended. `MerchantMissing` stands for the TypeError thrown for a merchant without wares. */
  datatype Purchase = Bought | TooPoor | MerchantMissing | NotStocked

  /**
   * `buyItem(merchantId, itemId, price)`: refused when the gold is below the
   * price; a merchant id that is unknown or has no wares throws before any
   * change; a ware the merchant does not stock changes nothing. Otherwise the
   * price is paid, one item is added to the inventory, a met merchant likes the
   * player 2 points more and the skill block is recomputed.
   */
  function BuySpec(s: GameState, merchantId: string, itemId: string, price: int): (r: (GameState, Purchase))
    ensures r.1 != Bought ==> r.0 == s
    ensures r.1 == TooPoor <==> s.character.gold < price
    ensures r.1 == Bought <==> (s.character.gold >= price && FindNpc(merchantId).Some?
      && FindNpc(merchantId).value.stock.Some? && FindWare(FindNpc(merchantId).value.stock.value, itemId).Some?)
    ensures r.1 == Bought ==> (
      && r.0.character.gold == s.character.gold - price
      && r.0.character == s.character.(gold := r.0.character.gold, skills := DerivedSkills(s.character.stats))
      && r.0.inventory == AddItem(s.inventory, itemId)
      && r.0.npcs == Bumped(s.npcs, merchantId, 2)
      && r.0 == s.(character := r.0.character, inventory := r.0.inventory, npcs := r.0.npcs))
  {
    if s.character.gold < price then (s, TooPoor)
    else match FindNpc(merchantId)
      case None => (s, MerchantMissing)
      case Some(merchant) =>
        match merchant.stock
        case None => (s, MerchantMissing)
        case Some(wares) =>
          if FindWare(wares, itemId).None? then (s, NotStocked)
          else
            var paid := s.character.(gold := s.character.gold - price);
            (UpdateUi(s.(character := paid, inventory := AddItem(s.inventory, itemId), npcs := Bumped(s.npcs, merchantId, 2))), Bought)
  }

  /**
   * Buying a stocked ware at the shop's displayed price, with enough gold, adds
   * exactly one of it, leaves every other holding alone, costs at most the list
   * price and never takes the gold below zero.
   */
  lemma BuyAtShopPrice(s: GameState, merchantId: string, ware: ShopItem, other: string)
    requires Positive(s.inventory) && ware.price >= 1 && other != ware.id
    requires FindNpc(merchantId).Some? && FindNpc(merchantId).value.stock.Some?
    requires FindWare(FindNpc(merchantId).value.stock.value, ware.id) == Some(ware)
    requires s.character.gold >= ShopPrice(ware.price, s.character.skills.bartering)
    requires s.character.skills.bartering >= 0
    ensures var (t, outcome) := BuySpec(s, merchantId, ware.id, ShopPrice(ware.price, s.character.skills.bartering));
      && outcome == Bought
      && Holding(t.inventory, ware.id) == Holding(s.inventory, ware.id) + 1
      && Holding(t.inventory, other) == Holding(s.inventory, other)
      && s.character.gold - ware.price <= t.character.gold < s.character.gold
      && t.character.gold >= 0
  {
    ShopPriceBounds(ware.price, s.character.skills.bartering);
    AddItemKeepsOthers(s.inventory, ware.id, other);
  }

  /** How `recruitCompanion` ended. */
  datatype Recruitment = Joined | NotRecruitable | AlreadyInParty | CannotAfford

  /**
   * `recruitCompanion(npcId)`: only a recruitable NPC, not already in the party
   * and affordable, joins; the cost is paid and the NPC's stats become a new
   * party entry at the end. Every refusal leaves the state as it was.
   */
  function RecruitSpec(s: GameState, npcId: string): (r: (GameState, Recruitment))
    ensures r.1 != Joined ==> r.0 == s
    ensures r.1 == NotRecruitable <==> FindNpc(npcId).None? || !FindNpc(npcId).value.canRecruit
    ensures r.1 == AlreadyInParty <==> FindNpc(npcId).Some? && FindNpc(npcId).value.canRecruit && InParty(s.party, npcId)
    ensures r.1 == CannotAfford <==> FindNpc(npcId).Some? && FindNpc(npcId).value.canRecruit && !InParty(s.party, npcId)
                                     && s.character.gold < FindNpc(npcId).value.recruitCost
    ensures r.1 == Joined ==> var npc := FindNpc(npcId).value;
      && npc.companion.Some? && s.character.gold >= npc.recruitCost && !InParty(s.party, npcId)
      && r.0.party == s.party + [Member(npcId, npc.companion.value.level, npc.companion.value.health, npc.companion.value.maxHealth)]
      && r.0.character == s.character.(gold := s.character.gold - npc.recruitCost, skills := DerivedSkills(s.character.stats))
      && r.0 == s.(character := r.0.character, party := r.0.party)
  {
    match FindNpc(npcId)
    case None => (s, NotRecruitable)
    case Some(npc) =>
      if !npc.canRecruit then (s, NotRecruitable)
      else if InParty(s.party, npcId) then (s, AlreadyInParty)
      else if s.character.gold < npc.recruitCost then (s, CannotAfford)
      else
        RecruitablesHaveStats();
        (Joining(s, npcId, npc), Joined)
  }

  /** The cost paid, the NPC's stats appended to the party, and the skills rebuilt. */
  function Joining(s: GameState, npcId: string, npc: Npc): GameState
    requires npc.companion.Some?
  {
    var stats := npc.companion.value;
    var paid := s.character.(gold := s.character.gold - npc.recruitCost);
    UpdateUi(s.(character := paid, party := s.party + [Member(npcId, stats.level, stats.health, stats.maxHealth)]))
  }

  /** A recruitable NPC that is not yet in the party and is affordable joins: the cost is paid and the skills rebuilt. */
  lemma RecruitJoined(s: GameState, npcId: string, npc: Npc)
    requires FindNpc(npcId) == Some(npc) && npc.canRecruit && !InParty(s.party, npcId) && s.character.gold >= npc.recruitCost
    ensures npc.companion.Some? && RecruitSpec(s, npcId) == (Joining(s, npcId, npc), Joined)
  {
    RecruitablesHaveStats();
  }

  /** No two party entries share an id. */
  predicate DistinctMembers(party: seq<Member>) {
    forall i, j :: 0 <= i < j < |party| ==> party[i].id != party[j].id
  }

  /** Recruiting keeps the party free of duplicates, and a second recruitment of the same NPC is refused. */
  lemma RecruitOnce(s: GameState, npcId: string)
    requires DistinctMembers(s.party)
    ensures DistinctMembers(RecruitSpec(s, npcId).0.party)
    ensures RecruitSpec(s, npcId).1 == Joined ==> RecruitSpec(RecruitSpec(s, npcId).0, npcId).1 == AlreadyInParty
  {
    var (t, outcome) := RecruitSpec(s, npcId);
    if outcome == Joined {
      assert t.party[|s.party|].id == npcId;
      assert InParty(t.party, npcId);
    }
  }

  /**
   * `acceptQuest(questId)`: an unknown quest, or one already active, changes
   * nothing. Otherwise a copy with its count reset is appended to the active
   * quests, the id leaves the rumours and a met giver likes the player 5 points
   * more. Completed quests are not checked.
   */
  function AcceptSpec(s: GameState, questId: string): (r: GameState)
    ensures FindQuest(s.questDb, questId).None? || HasQuest(s.active, questId) ==> r == s
    ensures FindQuest(s.questDb, questId).Some? && !HasQuest(s.active, questId) ==> (
      && r.active == s.active + [FindQuest(s.questDb, questId).value.(currentCount := 0)]
      && HasQuest(r.active, questId) && questId !in r.rumors
      && r.rumors == RemoveId(s.rumors, questId)
      && (forall x :: x in s.rumors && x != questId ==> x in r.rumors)
      && (forall x :: x in r.rumors ==> x in s.rumors)
      && r.npcs == GiverBumped(s.npcs, FindQuest(s.questDb, questId).value.giver, 5)
      && r == s.(active := r.active, rumors := r.rumors, npcs := r.npcs))
  {
    match FindQuest(s.questDb, questId)
    case None => s
    case Some(q) =>
      if HasQuest(s.active, questId) then s
      else
        var active := s.active + [q.(currentCount := 0)];
        assert active[|s.active|].id == questId;
        s.(active := active, rumors := RemoveId(s.rumors, questId), npcs := GiverBumped(s.npcs, q.giver, 5))
  }

  /** Accepting twice is accepting once, and acceptance keeps the active quests' ids distinct. */
  lemma AcceptIdempotent(s: GameState, questId: string)
    requires UniqueIds(s.active)
    ensures AcceptSpec(AcceptSpec(s, questId), questId) == AcceptSpec(s, questId)
    ensures UniqueIds(AcceptSpec(s, questId).active)
  {
  }

  /** A completed quest found in the database is taken on again: `acceptQuest` never consults the completed list. */
  lemma CompletedQuestAcceptedAgain(s: GameState, questId: string)
    requires questId in s.completed && FindQuest(s.questDb, questId).Some? && !HasQuest(s.active, questId)
    ensures HasQuest(AcceptSpec(s, questId).active, questId) && questId in AcceptSpec(s, questId).completed
  {
  }

  /** The reward item of a quest, when it names one: `if (quest.reward.item)` skips a missing or empty name. */
  function RewardItem(q: Quest): Option<string> {
    if q.reward.item.Some? && q.reward.item.value != "" then q.reward.item else None
  }

  /**
   * `completeQuest(questId)`: nothing unless the quest is active. Otherwise
   * its gold and experience are paid, its item (if any) added, every active
   * entry with that id dropped, the id appended to the completed list, a met
   * giver likes the player 10 points more; then the character levels up and the
   * skill block is recomputed, which throws away the level-up bartering points.
   */
  function CompleteSpec(s: GameState, questId: string): (r: GameState)
    requires Valid(s)
    ensures Valid(r)
    ensures !HasQuest(s.active, questId) ==> r == s
    ensures HasQuest(s.active, questId) ==> var q := FindQuest(s.active, questId).value;
      && !HasQuest(r.active, questId) && r.completed == s.completed + [questId]
      && r.character.gold == s.character.gold + q.reward.gold
      && r.character == LevelUps(s.character.(gold := s.character.gold + q.reward.gold, exp := s.character.exp + q.reward.exp))
                          .(skills := DerivedSkills(s.character.stats))
      && r.character.level >= s.character.level
      && r.inventory == (if RewardItem(q).Some? then AddItem(s.inventory, RewardItem(q).value) else s.inventory)
      && r.active == RemoveQuest(s.active, questId)
      && r.npcs == GiverBumped(s.npcs, q.giver, 10)
      && r == s.(character := r.character, inventory := r.inventory, active := r.active, completed := r.completed, npcs := r.npcs)
  {
    match FindQuest(s.active, questId)
    case None =>
      assert !HasQuest(s.active, questId);
      s
    case Some(q) =>
      var t := Settled(s, q);
      UpdateUi(t.(character := LevelUps(t.character)))
  }

  /** The reward paid and the quest retired, before the level check: gold, experience, item, lists and the giver's +10. */
  function Settled(s: GameState, q: Quest): GameState {
    var paid := s.character.(gold := s.character.gold + q.reward.gold, exp := s.character.exp + q.reward.exp);
    s.(character := paid, inventory := if RewardItem(q).Some? then AddItem(s.inventory, RewardItem(q).value) else s.inventory,
       active := RemoveQuest(s.active, q.id), completed := s.completed + [q.id], npcs := GiverBumped(s.npcs, q.giver, 10))
  }

  /** The completion of a found quest, step by step as `completeQuest` takes them. */
  lemma CompleteFound(s: GameState, questId: string, q: Quest)
    requires Valid(s) && FindQuest(s.active, questId) == Some(q)
    ensures q.id == questId
    ensures CompleteSpec(s, questId) == UpdateUi(Settled(s, q).(character := LevelUps(Settled(s, q).character)))
  {
  }

  /** A quest is completed once: a second completion changes nothing. */
  lemma CompleteOnce(s: GameState, questId: string)
    requires Valid(s)
    ensures CompleteSpec(CompleteSpec(s, questId), questId) == CompleteSpec(s, questId)
  {
  }

  /**
   * Completing a quest whose experience gives a level keeps the level, the
   * health and the threshold `checkLevelUp` set, but not its bartering point:
   * `updateUI` right after rewrites the skill block from the abilities.
   */
  lemma CompletionWipesBartering(s: GameState, questId: string)
    requires Valid(s) && HasQuest(s.active, questId)
    requires var q := FindQuest(s.active, questId).value; s.character.exp + q.reward.exp >= s.character.expToNext
    ensures CompleteSpec(s, questId).character.level > s.character.level
    ensures CompleteSpec(s, questId).character.skills.bartering == Modifier(s.character.stats.charisma)
  {
    var q := FindQuest(s.active, questId).value;
    var paid := s.character.(gold := s.character.gold + q.reward.gold, exp := s.character.exp + q.reward.exp);
    LevelUpsGains(paid);
    assert LevelCount(paid) >= 1;
  }

  /** The forest trip of `huntBandits()`: one draw defeats 1 to 3 bandits and quest `i`'s count rises by that much, up to its target. */
  function HuntTrip(s: GameState, rand: nat -> nat, i: nat): GameState
    requires i < |s.active|
  {
    var q := s.active[i];
    var killed := Scaled(3, rand(s.drawn)) + 1;
    var count := if q.currentCount + killed < q.targetCount then q.currentCount + killed else q.targetCount;
    s.(location := "forest", drawn := s.drawn + 1, active := s.active[i := q.(currentCount := count)])
  }

  /**
   * `huntBandits()`: nothing without an active bandit quest. Otherwise the
   * player goes to the forest, one draw gives 1 to 3 bandits defeated, the
   * first bandit quest's count rises by that much but not past its target, and
   * at the target the quest is completed.
   */
  function HuntSpec(s: GameState, rand: nat -> nat): (r: GameState)
    requires Valid(s)
    ensures Valid(r)
    ensures !HasQuest(s.active, "bandit_quest") ==> r == s
    ensures HasQuest(s.active, "bandit_quest") ==> r.location == "forest" && r.drawn == s.drawn + 1
  {
    match QuestIndex(s.active, "bandit_quest")
    case None => s
    case Some(i) =>
      var t := HuntTrip(s, rand, i);
      if t.active[i].currentCount >= s.active[i].targetCount then CompleteSpec(t, "bandit_quest") else t
  }

  /**
   * One hunt defeats `d` bandits, `d` being the draw scaled to 1..3. Below the
   * target the count rises by exactly `d` and nothing else but the location
   * and the draw changes.
   */
  lemma HuntProgress(s: GameState, rand: nat -> nat)
    requires Valid(s) && HasQuest(s.active, "bandit_quest")
    ensures var i := QuestIndex(s.active, "bandit_quest").value; var q := s.active[i];
      var killed := Scaled(3, rand(s.drawn)) + 1;
      && 1 <= killed <= 3
      && (q.currentCount + killed < q.targetCount ==>
            HuntSpec(s, rand) == s.(location := "forest", drawn := s.drawn + 1, active := s.active[i := q.(currentCount := q.currentCount + killed)]))
  {
  }

  /** When the count plus the bandits defeated reaches the target, the quest, its count set to the target, is completed. */
  lemma HuntCompletes(s: GameState, rand: nat -> nat)
    requires Valid(s) && HasQuest(s.active, "bandit_quest")
    ensures var i := QuestIndex(s.active, "bandit_quest").value; var q := s.active[i];
      q.currentCount + Scaled(3, rand(s.drawn)) + 1 >= q.targetCount ==>
        HuntSpec(s, rand) == CompleteSpec(s.(location := "forest", drawn := s.drawn + 1,
                                             active := s.active[i := q.(currentCount := q.targetCount)]), "bandit_quest")
  {
    var i := QuestIndex(s.active, "bandit_quest").value;
    var q := s.active[i];
    if q.currentCount + Scaled(3, rand(s.drawn)) + 1 >= q.targetCount {
      assert HuntTrip(s, rand, i) == s.(location := "forest", drawn := s.drawn + 1, active := s.active[i := q.(currentCount := q.targetCount)]);
    }
  }

  /** A hunt that reaches the target moves the bandit quest to the completed list and pays its gold. */
  lemma HuntCompletesPays(s: GameState, rand: nat -> nat)
    requires Valid(s) && HasQuest(s.active, "bandit_quest")
    ensures var i := QuestIndex(s.active, "bandit_quest").value; var q := s.active[i]; var r := HuntSpec(s, rand);
      q.currentCount + Scaled(3, rand(s.drawn)) + 1 >= q.targetCount ==>
        && "bandit_quest" in r.completed && !HasQuest(r.active, "bandit_quest")
        && r.character.gold == s.character.gold + q.reward.gold
  {
    var i := QuestIndex(s.active, "bandit_quest").value;
    var q := s.active[i];
    if q.currentCount + Scaled(3, rand(s.drawn)) + 1 >= q.targetCount {
      HuntCompletes(s, rand);
      var t := s.(location := "forest", drawn := s.drawn + 1, active := s.active[i := q.(currentCount := q.targetCount)]);
      assert t.active[i].id == "bandit_quest";
      assert HasQuest(t.active, "bandit_quest");
      FindQuestAtIndex(t.active, "bandit_quest");
    }
  }

  /** A bandit quest at 2 of 3 is always completed by the next hunt. */
  lemma LastBanditCompletes(s: GameState, rand: nat -> nat)
    requires Valid(s) && HasQuest(s.active, "bandit_quest")
    requires var q := s.active[QuestIndex(s.active, "bandit_quest").value]; q.currentCount == 2 && q.targetCount == 3
    ensures "bandit_quest" in HuntSpec(s, rand).completed && !HasQuest(HuntSpec(s, rand).active, "bandit_quest")
  {
    var i := QuestIndex(s.active, "bandit_quest").value;
    var t := s.(location := "forest", drawn := s.drawn + 1, active := s.active[i := s.active[i].(currentCount := 3)]);
    assert t.active[i].id == "bandit_quest";
    assert HasQuest(t.active, "bandit_quest");
  }

  /** `investigateTower()`: with an active tower quest, go to the tower and complete it; nothing otherwise. */
  function TowerSpec(s: GameState): (r: GameState)
    requires Valid(s)
    ensures Valid(r)
    ensures !HasQuest(s.active, "tower_quest") ==> r == s
    ensures HasQuest(s.active, "tower_quest") ==>
      r.location == "tower" && "tower_quest" in r.completed && !HasQuest(r.active, "tower_quest")
  {
    if QuestIndex(s.active, "tower_quest").None? then s
    else CompleteSpec(s.(location := "tower"), "tower_quest")
  }

  /** `rest()`: health back to its maximum, then the skill block is recomputed. */
  function RestSpec(s: GameState): (r: GameState)
    ensures r.character.health == s.character.maxHealth
    ensures r.character == s.character.(health := s.character.maxHealth, skills := DerivedSkills(s.character.stats))
    ensures r == s.(character := r.character)
  {
    UpdateUi(s.(character := s.character.(health := s.character.maxHealth)))
  }

  /** `interactWithNPC(npcId)`: the first meeting of a known NPC records its starting relationship. */
  function MeetSpec(s: GameState, npcId: string): (r: GameState)
    ensures FindNpc(npcId).None? || npcId in s.npcs ==> r == s
    ensures FindNpc(npcId).Some? ==> npcId in r.npcs && r.npcs.Keys == s.npcs.Keys + {npcId}
    ensures FindNpc(npcId).Some? && npcId !in s.npcs ==> r == s.(npcs := s.npcs[npcId := FindNpc(npcId).value.relationship])
  {
    match FindNpc(npcId)
    case None => s
    case Some(npc) => if npcId in s.npcs then s else s.(npcs := s.npcs[npcId := npc.relationship])
  }

  /** Meeting twice is meeting once: the second meeting never resets a relationship. */
  lemma MeetIdempotent(s: GameState, npcId: string)
    ensures MeetSpec(MeetSpec(s, npcId), npcId) == MeetSpec(s, npcId)
  {
  }

  /** The id a quest variation is stored under: the base id, "_variation_" and the clock reading. */
  function VariationId(baseId: string, now: nat): string {
    baseId + "_variation_" + NatToString(now)
  }

  /** `rumors.includes(id) || rumors.push(id)`. */
  function WithRumor(rumors: seq<string>, id: string): (r: seq<string>)
    ensures id in r
    ensures r == rumors || r == rumors + [id]
  {
    if id in rumors then rumors else rumors + [id]
  }

  /** Every rumour names a quest of the database. */
  predicate RumorsKnown(s: GameState) {
    forall k :: 0 <= k < |s.rumors| ==> FindQuest(s.questDb, s.rumors[k]).Some?
  }

  /**
   * The async `generateRumors()`, which replaces the synchronous one declared
   * earlier in game.js: nothing when no database quest is still an unheard
   * rumour. Otherwise one draw picks an available quest. With a key, the AI's
   * variation (computed from `reply`, with `parse` standing for `JSON.parse`
   * and `now` for `Date.now()`) is used when its title differs from the base:
   * it is stored under a fresh id with the base's giver and that id becomes a
   * rumour. Otherwise the base quest becomes a rumour.
   */
  function RumorSpec(s: GameState, rand: nat -> nat, apiKey: string, provider: AiIntegration.Provider,
                     reply: AiIntegration.CallOutcome, parse: string -> Option<AiIntegration.QuestPatch>, now: nat): GameState
  {
    var available := AvailableQuests(s.questDb, s.rumors, s.active, s.completed);
    if available == [] then s
    else Hearing(s.(drawn := s.drawn + 1), available[Scaled(|available|, rand(s.drawn))], apiKey, provider, reply, parse, now)
  }

  /** The rumour about the drawn database quest `baseId`: its variation when the AI gives a new title, else the quest itself. */
  function Hearing(s: GameState, baseId: string, apiKey: string, provider: AiIntegration.Provider,
                   reply: AiIntegration.CallOutcome, parse: string -> Option<AiIntegration.QuestPatch>, now: nat): GameState
    requires FindQuest(s.questDb, baseId).Some?
  {
    var base := FindQuest(s.questDb, baseId).value;
    var variation := AiIntegration.QuestVariation(apiKey, provider, base, reply, parse);
    if apiKey != "" && variation.title != base.title then
      var id := VariationId(baseId, now);
      s.(questDb := PutQuest(s.questDb, variation.(id := id, giver := base.giver)), rumors := WithRumor(s.rumors, id))
    else
      s.(rumors := WithRumor(s.rumors, baseId))
  }

  /**
   * What hearing a rumour changes: nothing without an available quest, else
   * the draw, at most one new rumour (a quest of the database) and the
   * database, which only grows; without a key the new rumour is an available
   * quest.
   */
  lemma RumorOutcomes(s: GameState, rand: nat -> nat, apiKey: string, provider: AiIntegration.Provider,
                      reply: AiIntegration.CallOutcome, parse: string -> Option<AiIntegration.QuestPatch>, now: nat)
    ensures var r := RumorSpec(s, rand, apiKey, provider, reply, parse, now);
      AvailableQuests(s.questDb, s.rumors, s.active, s.completed) == [] ==> r == s
    ensures var r := RumorSpec(s, rand, apiKey, provider, reply, parse, now);
      AvailableQuests(s.questDb, s.rumors, s.active, s.completed) != [] ==>
        r == s.(questDb := r.questDb, rumors := r.rumors, drawn := s.drawn + 1)
    ensures var r := RumorSpec(s, rand, apiKey, provider, reply, parse, now);
      r.rumors == s.rumors || (|r.rumors| == |s.rumors| + 1 && r.rumors[..|s.rumors|] == s.rumors)
    ensures var r := RumorSpec(s, rand, apiKey, provider, reply, parse, now);
      |r.rumors| == |s.rumors| + 1 ==> FindQuest(r.questDb, r.rumors[|s.rumors|]).Some?
    ensures var r := RumorSpec(s, rand, apiKey, provider, reply, parse, now);
      apiKey == "" && AvailableQuests(s.questDb, s.rumors, s.active, s.completed) != [] ==>
        r.questDb == s.questDb && |r.rumors| == |s.rumors| + 1
        && r.rumors[|s.rumors|] in AvailableQuests(s.questDb, s.rumors, s.active, s.completed)
  {
  }

  /** Hearing a rumour never loses a quest of the database. */
  lemma RumorKeepsQuests(s: GameState, rand: nat -> nat, apiKey: string, provider: AiIntegration.Provider,
                         reply: AiIntegration.CallOutcome, parse: string -> Option<AiIntegration.QuestPatch>, now: nat)
    ensures var r := RumorSpec(s, rand, apiKey, provider, reply, parse, now);
      forall id :: FindQuest(s.questDb, id).Some? ==> FindQuest(r.questDb, id).Some?
  {
    var available := AvailableQuests(s.questDb, s.rumors, s.active, s.completed);
    if available != [] {
      var baseId := available[Scaled(|available|, rand(s.drawn))];
      var base := FindQuest(s.questDb, baseId).value;
      var variation := AiIntegration.QuestVariation(apiKey, provider, base, reply, parse);
      if apiKey != "" && variation.title != base.title {
        var q := variation.(id := VariationId(baseId, now), giver := base.giver);
        assert RumorSpec(s, rand, apiKey, provider, reply, parse, now).questDb == PutQuest(s.questDb, q);
      }
    }
  }

  /**
   * Which rumour is heard: the drawn available quest, or with a key and a
   * differently titled variation, the variation stored under its own id with
   * the base quest's giver.
   */
  lemma RumorChoice(s: GameState, rand: nat -> nat, apiKey: string, provider: AiIntegration.Provider,
                    reply: AiIntegration.CallOutcome, parse: string -> Option<AiIntegration.QuestPatch>, now: nat)
    ensures var r := RumorSpec(s, rand, apiKey, provider, reply, parse, now);
      var available := AvailableQuests(s.questDb, s.rumors, s.active, s.completed);
      available != [] ==>
        var baseId := available[Scaled(|available|, rand(s.drawn))];
        var base := FindQuest(s.questDb, baseId).value;
        var variation := AiIntegration.QuestVariation(apiKey, provider, base, reply, parse);
        var id := VariationId(baseId, now);
        if apiKey != "" && variation.title != base.title then
          && FindQuest(r.questDb, id) == Some(variation.(id := id, giver := base.giver))
          && (forall other :: other != id ==> FindQuest(r.questDb, other) == FindQuest(s.questDb, other))
          && r.rumors == WithRumor(s.rumors, id)
        else
          r.questDb == s.questDb && r.rumors == WithRumor(s.rumors, baseId)
  {
  }

  /** Hearing a rumour keeps every rumour pointing at a quest of the database. */
  lemma RumorsStayKnown(s: GameState, rand: nat -> nat, apiKey: string, provider: AiIntegration.Provider,
                        reply: AiIntegration.CallOutcome, parse: string -> Option<AiIntegration.QuestPatch>, now: nat)
    requires RumorsKnown(s)
    ensures RumorsKnown(RumorSpec(s, rand, apiKey, provider, reply, parse, now))
  {
    RumorOutcomes(s, rand, apiKey, provider, reply, parse, now);
    RumorKeepsQuests(s, rand, apiKey, provider, reply, parse, now);
    var r := RumorSpec(s, rand, apiKey, provider, reply, parse, now);
    if AvailableQuests(s.questDb, s.rumors, s.active, s.completed) != [] {
      forall k | 0 <= k < |r.rumors|
        ensures FindQuest(r.questDb, r.rumors[k]).Some?
      {
        if k < |s.rumors| {
          assert r.rumors[k] == s.rumors[k] && FindQuest(s.questDb, s.rumors[k]).Some?;
        } else {
          assert k == |s.rumors| && |r.rumors| == |s.rumors| + 1;
        }
      }
    }
  }

  /** `listenToGossip()`: a rumour is generated only when none is known. */
  function ListenSpec(s: GameState, rand: nat -> nat, apiKey: string, provider: AiIntegration.Provider,
                      reply: AiIntegration.CallOutcome, parse: string -> Option<AiIntegration.QuestPatch>, now: nat): (r: GameState)
    ensures s.rumors != [] ==> r == s
    ensures s.rumors == [] && AvailableQuests(s.questDb, s.rumors, s.active, s.completed) != [] ==> |r.rumors| == 1
  {
    if s.rumors == [] then RumorOutcomes(s, rand, apiKey, provider, reply, parse, now); RumorSpec(s, rand, apiKey, provider, reply, parse, now)
    else s
  }

  /**
   * `createCharacter()` on already trimmed form values: an empty field or an
   * unknown class changes nothing (`false`). Otherwise the new level-1
   * character replaces the old one, its skill block is derived from the class
   * stats and a first rumour is generated; inventory, party and quests stay.
   */
  function CreateSpec(s: GameState, name: string, classKey: string, appearance: string, backstory: string,
                      rand: nat -> nat, apiKey: string, provider: AiIntegration.Provider,
                      reply: AiIntegration.CallOutcome, parse: string -> Option<AiIntegration.QuestPatch>, now: nat): (r: (GameState, bool))
    ensures r.1 <==> name != "" && classKey != "" && appearance != "" && backstory != "" && FindClass(classKey).Some?
    ensures !r.1 ==> r.0 == s
    ensures r.1 ==> var cls := FindClass(classKey).value;
      && r.0.character == NewCharacter(name, cls, appearance, backstory).(skills := DerivedSkills(cls.stats))
      && r.0.character.health == r.0.character.maxHealth == StartingHealth(cls)
      && r.0.character.level == 1 && r.0.character.exp == 0 && r.0.character.gold == cls.startingGold
      && r.0.inventory == s.inventory && r.0.party == s.party && r.0.active == s.active && r.0.completed == s.completed
      && r.0.combat == s.combat && r.0.history == s.history
      && r.0.location == s.location && r.0.pending == s.pending && r.0.npcs == s.npcs
      && r.0 == RumorSpec(s.(character := NewCharacter(name, cls, appearance, backstory).(skills := DerivedSkills(cls.stats))),
                          rand, apiKey, provider, reply, parse, now)
    ensures r.1 && |s.history| <= HistoryLimit ==> Valid(r.0)
  {
    if name == "" || classKey == "" || appearance == "" || backstory == "" then (s, false)
    else match FindClass(classKey)
      case None => (s, false)
      case Some(cls) =>
        var t := UpdateUi(s.(character := NewCharacter(name, cls, appearance, backstory)));
        RumorOutcomes(t, rand, apiKey, provider, reply, parse, now);
        (RumorSpec(t, rand, apiKey, provider, reply, parse, now), true)
  }
}
