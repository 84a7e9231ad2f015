/**
 * The world's fixed tables (NPCs, items, locations, base quests) and the value
 * operations of the economy and the quest ledger: looking records up by id,
 * bumping inventory stacks, filtering quest lists and the bartering price.
 */
module Ledger {
  import opened Wrappers

  datatype ShopItem = ShopItem(id: string, name: string, price: int, kind: string)

  datatype CompanionStats = CompanionStats(health: int, maxHealth: int, level: int)

  /**
   * One entry of `npcDatabase`. `stock` is the `inventory` field, absent on the
   * guard and the two companions; `companion` is the `stats` of a recruitable NPC.
   */
  datatype Npc = Npc(
    id: string, name: string, kind: string, location: string, relationship: int,
    stock: Option<seq<ShopItem>>, quests: seq<string>,
    canRecruit: bool, recruitCost: int, companion: Option<CompanionStats>)

  const NpcDatabase: seq<Npc> := [
    Npc("greg", "Old Greg", "tavernkeeper", "tavern", 50, Some([]), [], false, 0, None),
    Npc("merchant", "Merchant Tom", "merchant", "market", 30,
        Some([ShopItem("sword", "Iron Sword", 50, "weapon"), ShopItem("shield", "Wooden Shield", 30, "armor"),
              ShopItem("potion", "Health Potion", 15, "consumable"), ShopItem("rope", "Rope", 5, "tool")]),
        [], false, 0, None),
    Npc("guard", "Guard Captain", "guard", "town", 40, None, ["bandit_quest"], false, 0, None),
    Npc("mage", "Wise Mage", "mage", "tower", 20, Some([ShopItem("scroll", "Magic Scroll", 100, "consumable")]),
        ["tower_quest"], false, 0, None),
    Npc("rogue", "Shadow", "companion", "tavern", 0, None, [], true, 100, Some(CompanionStats(60, 60, 1))),
    Npc("warrior", "Braveheart", "companion", "tavern", 0, None, [], true, 150, Some(CompanionStats(100, 100, 1)))
  ]

  /** `npcDatabase[id]`. */
  function FindNpc(id: string): (r: Option<Npc>)
    ensures r.Some? ==> r.value in NpcDatabase && r.value.id == id
    ensures r.None? ==> forall k :: 0 <= k < |NpcDatabase| ==> NpcDatabase[k].id != id
  {
    FindNpcIn(NpcDatabase, id)
  }

  /**
   * The first record of `table` with the id, as an object-key lookup or `find`
   * gives it. `FindWare`, `FindItemIn` and `Characters.FindClassIn` are the same
   * scan over their own record types.
   */
  function FindNpcIn(table: seq<Npc>, id: string): (r: Option<Npc>)
    ensures r.Some? ==> r.value in table && r.value.id == id
    ensures r.None? ==> forall k :: 0 <= k < |table| ==> table[k].id != id
  {
    if table == [] then None
    else if table[0].id == id then Some(table[0])
    else FindNpcIn(table[1..], id)
  }

  /** `inventory.find(i => i.id === id)` on a merchant's wares: the scan of `FindNpcIn`. */
  function FindWare(wares: seq<ShopItem>, id: string): (r: Option<ShopItem>)
    ensures r.Some? ==> r.value in wares && r.value.id == id
    ensures r.None? ==> forall k :: 0 <= k < |wares| ==> wares[k].id != id
  {
    if wares == [] then None
    else if wares[0].id == id then Some(wares[0])
    else FindWare(wares[1..], id)
  }

  /** Every recruitable NPC carries companion stats, so `recruitCompanion` never reads a missing field. */
  lemma RecruitablesHaveStats()
    ensures forall k :: 0 <= k < |NpcDatabase| && NpcDatabase[k].canRecruit ==> NpcDatabase[k].companion.Some?
  {
  }

  /** One entry of `itemDatabase`; no item carries a `damageDice` field. */
  datatype ItemData = ItemData(id: string, name: string, kind: string, value: int, damageDice: Option<string>)

  const ItemDatabase: seq<ItemData> := [
    ItemData("sword", "Iron Sword", "weapon", 50, None),
    ItemData("shield", "Wooden Shield", "armor", 30, None),
    ItemData("potion", "Health Potion", "consumable", 15, None),
    ItemData("rope", "Rope", "tool", 5, None),
    ItemData("scroll", "Magic Scroll", "consumable", 100, None)
  ]

  function FindItem(id: string): (r: Option<ItemData>)
    ensures r.Some? ==> r.value in ItemDatabase && r.value.id == id
    ensures r.None? ==> forall k :: 0 <= k < |ItemDatabase| ==> ItemDatabase[k].id != id
  {
    FindItemIn(ItemDatabase, id)
  }

  /** The scan of `FindNpcIn` over the item table. */
  function FindItemIn(table: seq<ItemData>, id: string): (r: Option<ItemData>)
    ensures r.Some? ==> r.value in table && r.value.id == id
    ensures r.None? ==> forall k :: 0 <= k < |table| ==> table[k].id != id
  {
    if table == [] then None
    else if table[0].id == id then Some(table[0])
    else FindItemIn(table[1..], id)
  }

  /** The keys of `locationDatabase` with their display names, in declaration order. */
  const Locations: seq<(string, string)> := [
    ("tavern", "The Tavern"), ("market", "Market Square"), ("town", "Town Square"),
    ("tower", "Ancient Tower"), ("forest", "Dark Forest")
  ]

  datatype Reward = Reward(gold: int, exp: int, item: Option<string>)

  /**
   * A quest record. `targetCount` is only read for the bandit quest, the one
   * quest that has it; the other base quests carry 0 there.
   */
  datatype Quest = Quest(
    id: string, title: string, description: string, giver: string, kind: string, target: string,
    targetCount: int, currentCount: int, reward: Reward, status: string)

  const QuestDatabase: seq<Quest> := [
    Quest("bandit_quest", "Bandit Problem",
          "Bandits have been terrorizing the trade routes. The Guard Captain needs help.",
          "guard", "kill", "bandits", 3, 0, Reward(100, 50, None), "rumor"),
    Quest("tower_quest", "Ancient Tower",
          "The Wise Mage needs someone to investigate strange noises in the old tower.",
          "mage", "explore", "tower", 0, 0, Reward(75, 40, Some("scroll")), "rumor"),
    Quest("merchant_quest", "Missing Supplies",
          "Merchant Tom's supply cart was ambushed. He needs help recovering his goods.",
          "merchant", "retrieve", "supplies", 0, 0, Reward(60, 30, None), "rumor")
  ]

  /** No two records of `qs` share an id: what a JavaScript object keyed by id guarantees. */
  predicate UniqueIds(qs: seq<Quest>) {
    forall i, j :: 0 <= i < j < |qs| ==> qs[i].id != qs[j].id
  }

  /** The first record with this id: `questDatabase[id]`, or `active.find(q => q.id === id)`. */
  function FindQuest(qs: seq<Quest>, id: string): (r: Option<Quest>)
    ensures r.Some? ==> r.value in qs && r.value.id == id
    ensures r.None? <==> forall k :: 0 <= k < |qs| ==> qs[k].id != id
  {
    if qs == [] then None
    else if qs[0].id == id then Some(qs[0])
    else FindQuest(qs[1..], id)
  }

  /** The index of the first record with this id. */
  function QuestIndex(qs: seq<Quest>, id: string): (r: Option<nat>)
    ensures r.Some? ==> r.value < |qs| && qs[r.value].id == id && forall k :: 0 <= k < r.value ==> qs[k].id != id
    ensures r.None? <==> forall k :: 0 <= k < |qs| ==> qs[k].id != id
  {
    if qs == [] then None
    else if qs[0].id == id then Some(0)
    else match QuestIndex(qs[1..], id)
      case None => None
      case Some(k) => Some(k + 1)
  }

  lemma FindQuestAtIndex(qs: seq<Quest>, id: string)
    ensures QuestIndex(qs, id).Some? ==> FindQuest(qs, id) == Some(qs[QuestIndex(qs, id).value])
    ensures QuestIndex(qs, id).None? ==> FindQuest(qs, id).None?
  {
    if qs != [] && qs[0].id != id {
      FindQuestAtIndex(qs[1..], id);
    }
  }

  predicate HasQuest(qs: seq<Quest>, id: string) {
    exists k :: 0 <= k < |qs| && qs[k].id == id
  }

  /** `questDatabase[q.id] = q`: overwrite the entry in place, or add it at the end. */
  function PutQuest(db: seq<Quest>, q: Quest): (r: seq<Quest>)
    ensures FindQuest(r, q.id) == Some(q)
    ensures forall id :: id != q.id ==> FindQuest(r, id) == FindQuest(db, id)
  {
    if db == [] then [q]
    else if db[0].id == q.id then [q] + db[1..]
    else [db[0]] + PutQuest(db[1..], q)
  }

  /** `qs.filter(q => q.id !== id)`. */
  function RemoveQuest(qs: seq<Quest>, id: string): (r: seq<Quest>)
    ensures forall k :: 0 <= k < |r| ==> r[k].id != id
    ensures forall q :: q in qs && q.id != id ==> q in r
    ensures forall q :: q in r ==> q in qs
    ensures |r| <= |qs|
    ensures UniqueIds(qs) ==> UniqueIds(r)
  {
    if qs == [] then []
    else if qs[0].id == id then RemoveQuest(qs[1..], id)
    else [qs[0]] + RemoveQuest(qs[1..], id)
  }

  /** Removing an id no record has changes nothing. */
  lemma {:induction false} RemoveAbsentQuest(qs: seq<Quest>, id: string)
    requires forall k :: 0 <= k < |qs| ==> qs[k].id != id
    ensures RemoveQuest(qs, id) == qs
  {
    if qs != [] {
      RemoveAbsentQuest(qs[1..], id);
    }
  }

  /** `ids.filter(x => x !== id)`. */
  function RemoveId(ids: seq<string>, id: string): (r: seq<string>)
    ensures IsSubsequence(r, ids)
    ensures id !in r
    ensures forall x :: x in ids && x != id ==> x in r
    ensures forall x :: x in r ==> x in ids
  {
    if ids == [] then []
    else if ids[0] == id then RemoveId(ids[1..], id)
    else [ids[0]] + RemoveId(ids[1..], id)
  }

  /** One inventory entry `{ id, count }`. */
  datatype Stack = Stack(id: string, count: int)

  /** `count || 1`: a stack shows a zero count as one. */
  function Shown(count: int): int {
    if count == 0 then 1 else count
  }

  /** The index of the first stack with this id. */
  function StackIndex(inv: seq<Stack>, id: string): (r: Option<nat>)
    ensures r.Some? ==> r.value < |inv| && inv[r.value].id == id && forall k :: 0 <= k < r.value ==> inv[k].id != id
    ensures r.None? <==> forall k :: 0 <= k < |inv| ==> inv[k].id != id
  {
    if inv == [] then None
    else if inv[0].id == id then Some(0)
    else match StackIndex(inv[1..], id)
      case None => None
      case Some(k) => Some(k + 1)
  }

  /** Every stack holds at least one item, as every stack the game creates does. */
  predicate Positive(inv: seq<Stack>) {
    forall k :: 0 <= k < |inv| ==> inv[k].count >= 1
  }

  /** How many of `id` the inventory holds: its first stack's count, 0 without a stack. */
  function Holding(inv: seq<Stack>, id: string): int {
    match StackIndex(inv, id)
    case None => 0
    case Some(k) => inv[k].count
  }

  /**
   * Add one item: the first stack with that id becomes `(count || 1) + 1`, or a
   * new stack of one goes at the end. On positive stacks the holding of that
   * item grows by exactly one.
   */
  function AddItem(inv: seq<Stack>, id: string): (r: seq<Stack>)
    ensures Positive(inv) ==> Positive(r) && Holding(r, id) == Holding(inv, id) + 1
    ensures StackIndex(inv, id).Some? ==> |r| == |inv| && forall k :: 0 <= k < |inv| && k != StackIndex(inv, id).value ==> r[k] == inv[k]
    ensures StackIndex(inv, id).None? ==> r == inv + [Stack(id, 1)]
  {
    match StackIndex(inv, id)
    case Some(k) =>
      var r := inv[k := inv[k].(count := Shown(inv[k].count) + 1)];
      assert StackIndex(r, id) == Some(k) by { StackIndexKeep(inv, r, id, k); }
      r
    case None =>
      var r := inv + [Stack(id, 1)];
      assert StackIndex(r, id) == Some(|inv|) by { StackIndexKeep(r, r, id, |inv|); }
      r
  }

  lemma StackIndexKeep(inv: seq<Stack>, r: seq<Stack>, id: string, k: nat)
    requires k < |r| && r[k].id == id
    requires forall j :: 0 <= j < k ==> r[j].id != id
    ensures StackIndex(r, id) == Some(k)
  {
  }

  /** Other items' counts do not move when one item is added. */
  lemma AddItemKeepsOthers(inv: seq<Stack>, id: string, other: string)
    requires other != id
    ensures Holding(AddItem(inv, id), other) == Holding(inv, other)
  {
    var r := AddItem(inv, id);
    match StackIndex(inv, other)
    case None =>
      assert forall k :: 0 <= k < |r| ==> r[k].id != other;
    case Some(k) =>
      StackIndexKeep(inv, r, other, k);
  }

  /** A party entry `{ id, level, health, maxHealth }`. */
  datatype Member = Member(id: string, level: int, health: int, maxHealth: int)

  predicate InParty(party: seq<Member>, id: string) {
    exists k :: 0 <= k < |party| && party[k].id == id
  }

  /**
   * The shop's price after the bartering discount. The source computes
   * `Math.max(1, Math.floor(base * (1 - b / 100)))` in floating point; this is
   * the exact rational value rounded down.
   */
  function ShopPrice(base: int, bartering: int): (p: int)
    ensures base * (100 - bartering) >= 100 ==> 100 * p <= base * (100 - bartering) < 100 * (p + 1)
    ensures base * (100 - bartering) < 100 ==> p == 1
  {
    var discounted := (base * (100 - bartering)) / 100;
    if discounted < 1 then 1 else discounted
  }

  /** Without a bartering bonus the price is the list price; a bonus never raises it. */
  lemma ShopPriceBounds(base: int, bartering: int)
    requires base >= 1 && bartering >= 0
    ensures ShopPrice(base, bartering) <= base
    ensures bartering == 0 ==> ShopPrice(base, bartering) == base
  {
  }

  /** A larger bartering bonus never gives a higher price. */
  lemma ShopPriceMonotone(base: int, b1: int, b2: int)
    requires base >= 0 && b1 <= b2
    ensures ShopPrice(base, b2) <= ShopPrice(base, b1)
  {
    var x1, x2 := base * (100 - b1), base * (100 - b2);
    assert x2 <= x1 by {
      assert x1 - x2 == base * (b2 - b1);
    }
    assert x2 / 100 <= x1 / 100;
  }

  /** The potion at +3 bartering costs 14, the scroll at +100 or more costs 1. */
  lemma ShopPriceExamples()
    ensures ShopPrice(15, 3) == 14 && ShopPrice(50, 0) == 50 && ShopPrice(100, 100) == 1 && ShopPrice(5, 120) == 1
  {
  }

  /** The keys of the quest table, in table order. */
  function Ids(db: seq<Quest>): (r: seq<string>)
    ensures |r| == |db| && forall k :: 0 <= k < |db| ==> r[k] == db[k].id
  {
    if db == [] then [] else [db[0].id] + Ids(db[1..])
  }

  /** `a` is `b` with some entries left out, the rest kept in order. */
  predicate IsSubsequence(a: seq<string>, b: seq<string>)
    decreases |b|
  {
    if a == [] then true
    else if b == [] then false
    else (a[0] == b[0] && IsSubsequence(a[1..], b[1..])) || IsSubsequence(a, b[1..])
  }

  /** A quest `generateRumors` may pick: still a rumour, and neither heard, active nor completed. */
  predicate Unheard(q: Quest, rumors: seq<string>, active: seq<Quest>, completed: seq<string>) {
    q.status == "rumor" && q.id !in rumors && !HasQuest(active, q.id) && q.id !in completed
  }

  /**
   * The quests `generateRumors` may pick from: those of the database, in its
   * order, that are still rumours and are neither heard, active nor completed.
   */
  function AvailableQuests(db: seq<Quest>, rumors: seq<string>, active: seq<Quest>, completed: seq<string>): (r: seq<string>)
    ensures forall k :: 0 <= k < |r| ==> FindQuest(db, r[k]).Some?
    ensures forall k :: 0 <= k < |r| ==> r[k] !in rumors && r[k] !in completed && !HasQuest(active, r[k])
    ensures forall k ::
              (0 <= k < |db| && db[k].status == "rumor" && db[k].id !in rumors && db[k].id !in completed
               && !HasQuest(active, db[k].id) && FindQuest(db, db[k].id) == Some(db[k])) ==> db[k].id in r
  {
    if db == [] then []
    else
      var rest := AvailableQuests(db[1..], rumors, active, completed);
      var q := db[0];
      var r := if q.status == "rumor" && q.id !in rumors && !HasQuest(active, q.id) && q.id !in completed then [q.id] + rest else rest;
      assert forall k :: 1 <= k < |db| && FindQuest(db[1..], db[k].id).Some? ==> FindQuest(db, db[k].id).Some?;
      r
  }

  /**
   * The candidates are exactly the unheard rumour quests of the database, kept
   * in table order: the draw indexes this list, so its order decides which
   * rumour is heard.
   */
  lemma {:induction false} AvailableQuestsExact(db: seq<Quest>, rumors: seq<string>, active: seq<Quest>, completed: seq<string>)
    ensures IsSubsequence(AvailableQuests(db, rumors, active, completed), Ids(db))
    ensures forall id :: id in AvailableQuests(db, rumors, active, completed) <==>
              exists k :: 0 <= k < |db| && db[k].id == id && Unheard(db[k], rumors, active, completed)
  {
    if db != [] {
      AvailableQuestsExact(db[1..], rumors, active, completed);
      var rest := AvailableQuests(db[1..], rumors, active, completed);
      assert Ids(db) == [db[0].id] + Ids(db[1..]);
      forall id
        ensures id in AvailableQuests(db, rumors, active, completed) <==>
                exists k :: 0 <= k < |db| && db[k].id == id && Unheard(db[k], rumors, active, completed)
      {
        if exists k :: 0 <= k < |db| && db[k].id == id && Unheard(db[k], rumors, active, completed) {
          var k :| 0 <= k < |db| && db[k].id == id && Unheard(db[k], rumors, active, completed);
          if k > 0 {
            assert db[1..][k - 1] == db[k];
          }
        }
        if id in rest {
          var k :| 0 <= k < |db| - 1 && db[1..][k].id == id && Unheard(db[1..][k], rumors, active, completed);
          assert db[k + 1] == db[1..][k];
        }
      }
    }
  }
}
