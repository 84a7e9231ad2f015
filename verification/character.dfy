/**
 * The player character: ability scores, the nine skill modifiers derived from
 * them, the ten character classes, and the experience/level progression.
 */
module Characters {
  import opened Wrappers

  datatype Stats = Stats(strength: int, dexterity: int, constitution: int, intelligence: int, wisdom: int, charisma: int)

  datatype Skills = Skills(
    bartering: int, intimidation: int, persuasion: int,
    athletics: int, acrobatics: int, stealth: int,
    investigation: int, perception: int, survival: int)

  /** The all-zero skill block a fresh character starts with. */
  const NoSkills := Skills(0, 0, 0, 0, 0, 0, 0, 0, 0)

  datatype Character = Character(
    name: string, classKey: string, classDisplayName: string,
    appearance: string, backstory: string,
    level: int, exp: int, expToNext: int,
    health: int, maxHealth: int, gold: int,
    stats: Stats, skills: Skills)

  /** `calculateModifier`: `floor((score - 10) / 2)`; Dafny's `/` by 2 rounds down as well. */
  function Modifier(score: int): (m: int)
    ensures 2 * m <= score - 10 < 2 * m + 2
  {
    (score - 10) / 2
  }

  lemma ModifierExamples()
    ensures Modifier(8) == -1 && Modifier(9) == -1 && Modifier(10) == 0
    ensures Modifier(11) == 0 && Modifier(16) == 3 && Modifier(3) == -4
  {
  }

  lemma ModifierMonotone(a: int, b: int)
    requires a <= b
    ensures Modifier(a) <= Modifier(b)
  {
  }

  /** The nine skills `updateSkillModifiers` computes: each is the modifier of its ability. */
  function DerivedSkills(s: Stats): Skills {
    var cha, str, dex, int_, wis := Modifier(s.charisma), Modifier(s.strength), Modifier(s.dexterity), Modifier(s.intelligence), Modifier(s.wisdom);
    Skills(cha, cha, cha, str, dex, dex, int_, wis, wis)
  }

  /** The skill names `handleSkillCheck` looks for, in the order it looks. */
  const SkillVocabulary: seq<string> := ["intimidation", "persuasion", "athletics", "stealth", "investigation", "perception", "survival"]

  /** `skills[name] || 0`: the named skill's value (a zero stays zero), 0 for any other name. */
  function SkillValue(k: Skills, name: string): int {
    if name == "bartering" then k.bartering
    else if name == "intimidation" then k.intimidation
    else if name == "persuasion" then k.persuasion
    else if name == "athletics" then k.athletics
    else if name == "acrobatics" then k.acrobatics
    else if name == "stealth" then k.stealth
    else if name == "investigation" then k.investigation
    else if name == "perception" then k.perception
    else if name == "survival" then k.survival
    else 0
  }

  /** The ability each skill is derived from. */
  function AbilityOf(s: Stats, name: string): int {
    if name in {"bartering", "intimidation", "persuasion"} then s.charisma
    else if name == "athletics" then s.strength
    else if name in {"acrobatics", "stealth"} then s.dexterity
    else if name == "investigation" then s.intelligence
    else s.wisdom
  }

  /** After `updateSkillModifiers`, each of the nine skills is the modifier of its own ability. */
  lemma DerivedSkillValue(s: Stats, name: string)
    requires name in {"bartering", "intimidation", "persuasion", "athletics", "acrobatics", "stealth", "investigation", "perception", "survival"}
    ensures SkillValue(DerivedSkills(s), name) == Modifier(AbilityOf(s, name))
  {
  }

  /** A name outside the nine reads as 0, as `undefined || 0` does. */
  lemma UnknownSkillIsZero(k: Skills, name: string)
    requires name !in {"bartering", "intimidation", "persuasion", "athletics", "acrobatics", "stealth", "investigation", "perception", "survival"}
    ensures SkillValue(k, name) == 0
  {
  }

  /** `updateSkillModifiers`: the skill block is rebuilt from the abilities, whatever it held before. */
  function WithDerivedSkills(c: Character): (r: Character)
    ensures r.skills == DerivedSkills(c.stats)
    ensures r.(skills := c.skills) == c
  {
    c.(skills := DerivedSkills(c.stats))
  }

  /** The skill block depends on the abilities only: any earlier bonus is gone. */
  lemma DerivedSkillsForget(c: Character, d: Character)
    requires c.stats == d.stats
    ensures WithDerivedSkills(c).skills == WithDerivedSkills(d).skills
  {
  }

  /** One iteration of the `checkLevelUp` loop. */
  function LevelUpOnce(c: Character): Character {
    var maxHealth := c.maxHealth + 20;
    c.(exp := c.exp - c.expToNext, level := c.level + 1, maxHealth := maxHealth, health := maxHealth,
       expToNext := (3 * c.expToNext) / 2, skills := c.skills.(bartering := c.skills.bartering + 1))
  }

  /**
   * `checkLevelUp`: level up while the experience reaches the threshold. Given a
   * positive threshold the loop stops, below the (grown) threshold.
   */
  function LevelUps(c: Character): (r: Character)
    requires c.expToNext >= 1
    ensures r.exp < r.expToNext && r.expToNext >= c.expToNext >= 1
    ensures r.level >= c.level && r.gold == c.gold && r.stats == c.stats
    decreases c.exp
  {
    if c.exp >= c.expToNext then LevelUps(LevelUpOnce(c)) else c
  }

  /** How many times the `checkLevelUp` loop runs. */
  function LevelCount(c: Character): nat
    requires c.expToNext >= 1
    decreases c.exp
  {
    if c.exp >= c.expToNext then 1 + LevelCount(LevelUpOnce(c)) else 0
  }

  /**
   * Each level adds one level, 20 maximum health and one bartering point; after
   * any level the health is full; nothing else but experience and threshold moves.
   */
  lemma {:induction false} LevelUpsGains(c: Character)
    requires c.expToNext >= 1
    ensures var r, n := LevelUps(c), LevelCount(c);
      && r.level == c.level + n
      && r.maxHealth == c.maxHealth + 20 * n
      && r.skills == c.skills.(bartering := c.skills.bartering + n)
      && (n > 0 ==> r.health == r.maxHealth)
      && (n == 0 <==> r == c)
      && r.exp <= c.exp
      && r.(exp := c.exp, expToNext := c.expToNext, level := c.level, maxHealth := c.maxHealth, health := c.health, skills := c.skills) == c
    decreases c.exp
  {
    if c.exp >= c.expToNext {
      LevelUpsGains(LevelUpOnce(c));
    }
  }

  /** Reaching the threshold exactly gives exactly one level. */
  lemma ExactThresholdOneLevel(c: Character)
    requires c.expToNext >= 1 && c.exp == c.expToNext
    ensures LevelCount(c) == 1
    ensures LevelUps(c) == LevelUpOnce(c) && LevelUps(c).exp == 0
  {
    var d := LevelUpOnce(c);
    assert d.exp == 0 < d.expToNext;
  }

  /** 201 experience against a threshold of 100 gives one level, not two: the threshold grows to 150. */
  lemma TwoHundredOneExperienceOneLevel(c: Character)
    requires c.exp == 201 && c.expToNext == 100
    ensures LevelCount(c) == 1
    ensures LevelUps(c).exp == 101 && LevelUps(c).expToNext == 150 && LevelUps(c).level == c.level + 1
  {
    var d := LevelUpOnce(c);
    assert d.exp == 101 && d.expToNext == 150;
  }

  /** 250 experience against 100 gives two levels: 100, then 150. */
  lemma TwoHundredFiftyExperienceTwoLevels(c: Character)
    requires c.exp == 250 && c.expToNext == 100
    ensures LevelCount(c) == 2
    ensures LevelUps(c).exp == 0 && LevelUps(c).expToNext == 225 && LevelUps(c).level == c.level + 2
  {
    var d := LevelUpOnce(c);
    assert d.exp == 150 && d.expToNext == 150;
    var e := LevelUpOnce(d);
    assert e.exp == 0 && e.expToNext == 225;
    assert LevelUps(c) == LevelUps(d) == LevelUps(e) == e;
    assert LevelCount(c) == 1 + LevelCount(d) == 2 + LevelCount(e);
  }

  /** One of the ten entries of `characterClasses`. */
  datatype CharClass = CharClass(key: string, name: string, stats: Stats, hitDie: int, startingGold: int)

  const ClassTable: seq<CharClass> := [
    CharClass("fighter", "Fighter", Stats(16, 13, 15, 10, 12, 11), 10, 50),
    CharClass("rogue", "Rogue", Stats(11, 16, 13, 13, 12, 12), 8, 60),
    CharClass("wizard", "Wizard", Stats(10, 13, 12, 16, 13, 11), 6, 40),
    CharClass("cleric", "Cleric", Stats(12, 11, 13, 11, 16, 13), 8, 50),
    CharClass("ranger", "Ranger", Stats(13, 15, 13, 12, 15, 10), 10, 55),
    CharClass("paladin", "Paladin", Stats(15, 11, 14, 10, 12, 15), 10, 50),
    CharClass("barbarian", "Barbarian", Stats(16, 13, 16, 9, 12, 10), 12, 45),
    CharClass("bard", "Bard", Stats(11, 14, 12, 12, 11, 16), 8, 60),
    CharClass("monk", "Monk", Stats(13, 16, 14, 11, 15, 10), 8, 40),
    CharClass("warlock", "Warlock", Stats(10, 13, 13, 13, 11, 16), 8, 45)
  ]

  /** `characterClasses[key]`. */
  function FindClass(key: string): (r: Option<CharClass>)
    ensures r.Some? ==> r.value in ClassTable && r.value.key == key
    ensures r.None? ==> forall k :: 0 <= k < |ClassTable| ==> ClassTable[k].key != key
  {
    FindClassIn(ClassTable, key)
  }

  /** The first class with the key: the same scan as `Ledger.FindNpcIn`, over classes. */
  function FindClassIn(table: seq<CharClass>, key: string): (r: Option<CharClass>)
    ensures r.Some? ==> r.value in table && r.value.key == key
    ensures r.None? ==> forall k :: 0 <= k < |table| ==> table[k].key != key
  {
    if table == [] then None
    else if table[0].key == key then Some(table[0])
    else FindClassIn(table[1..], key)
  }

  /** Starting health: the hit die plus the constitution modifier, with no lower clamp. */
  function StartingHealth(cls: CharClass): int {
    cls.hitDie + Modifier(cls.stats.constitution)
  }

  /** Every class in the table starts between 7 (wizard) and 15 (barbarian) health. */
  lemma StartingHealthRange()
    ensures forall k :: 0 <= k < |ClassTable| ==> 7 <= StartingHealth(ClassTable[k]) <= 15
    ensures StartingHealth(ClassTable[2]) == 7 && StartingHealth(ClassTable[6]) == 15
  {
  }

  /** The character `createCharacter` builds: level 1, 0/100 experience, full health, class gold and stats, zero skills. */
  function NewCharacter(name: string, cls: CharClass, appearance: string, backstory: string): (c: Character)
    ensures c.health == c.maxHealth == StartingHealth(cls)
    ensures c.level == 1 && c.exp == 0 && c.expToNext == 100
    ensures c.gold == cls.startingGold && c.stats == cls.stats && c.skills == NoSkills
    ensures c.name == name && c.classKey == cls.key && c.classDisplayName == cls.name
  {
    var health := StartingHealth(cls);
    Character(name, cls.key, cls.name, appearance, backstory, 1, 0, 100, health, health, cls.startingGold, cls.stats, NoSkills)
  }

  /** The character of the initial game state. */
  const DefaultCharacter := Character("", "", "", "", "", 1, 0, 100, 100, 100, 50, Stats(12, 14, 13, 11, 12, 13), NoSkills)
}
