/**
 * The keyword reading of a chat message done by `processPlayerAction`,
 * `handleSkillCheck` and `handleCombatAction`: which enemy, skill, location,
 * NPC or quest a lower-cased message names, and the difficulty read from a
 * reply. All are first-match scans in a fixed table order, not in text order.
 */
module Actions {
  import opened Wrappers
  import opened Text
  import opened Characters
  import opened Ledger
  import opened Combat

  /** The message asks for a fight: it contains "attack", "fight" or "battle". */
  predicate AsksForCombat(lower: string) {
    Contains(lower, "attack") || Contains(lower, "fight") || Contains(lower, "battle")
  }

  /** During a fight the message is an attack: it contains "attack", "hit" or "strike". */
  predicate AsksToStrike(lower: string) {
    Contains(lower, "attack") || Contains(lower, "hit") || Contains(lower, "strike")
  }

  /** The message names this template, by its lower-cased name or by its key. */
  predicate NamesEnemy(lower: string, e: Enemy) {
    Contains(lower, Lower(e.name)) || Contains(lower, e.id)
  }

  /** The first template, in `enemyDatabase` order, that the message names. */
  function EnemyNamed(table: seq<Enemy>, lower: string): (r: Option<Enemy>)
    ensures r.Some? ==> (exists k :: 0 <= k < |table| && table[k] == r.value && NamesEnemy(lower, table[k])
                           && forall j :: 0 <= j < k ==> !NamesEnemy(lower, table[j]))
    ensures r.None? ==> forall k :: 0 <= k < |table| ==> !NamesEnemy(lower, table[k])
  {
    if table == [] then None
    else if NamesEnemy(lower, table[0]) then Some(table[0])
    else
      var r := EnemyNamed(table[1..], lower);
      assert r.Some? ==> (exists k :: 1 <= k < |table| && table[k] == r.value && NamesEnemy(lower, table[k])
                            && forall j :: 0 <= j < k ==> !NamesEnemy(lower, table[j]));
      r
  }

  lemma LowerBandit()
    ensures Lower("Bandit") == "bandit"
  {
    assert LowerChar('B') == 'b';
  }

  /**
   * Any message that names the bandit leader also contains "bandit", so the
   * plain bandit, listed first, is the one that is fought.
   */
  lemma LeaderMentionPicksBandit(lower: string)
    requires Contains(lower, "bandit leader") || Contains(lower, "bandit_leader")
    ensures EnemyNamed(EnemyDatabase, lower) == Some(EnemyDatabase[0])
  {
    LowerBandit();
    if Contains(lower, "bandit leader") {
      assert OccursAt("bandit leader", "bandit", 0);
      ContainsTransitive(lower, "bandit leader", "bandit");
    } else {
      assert OccursAt("bandit_leader", "bandit", 0);
      ContainsTransitive(lower, "bandit_leader", "bandit");
    }
    assert NamesEnemy(lower, EnemyDatabase[0]);
  }

  /** The first skill of the vocabulary that occurs in the message, in vocabulary order. */
  function SkillNamed(vocabulary: seq<string>, lower: string): (r: Option<string>)
    ensures r.Some? ==> (exists k :: 0 <= k < |vocabulary| && vocabulary[k] == r.value && Contains(lower, vocabulary[k])
                           && forall j :: 0 <= j < k ==> !Contains(lower, vocabulary[j]))
    ensures r.None? ==> forall k :: 0 <= k < |vocabulary| ==> !Contains(lower, vocabulary[k])
  {
    if vocabulary == [] then None
    else if Contains(lower, vocabulary[0]) then Some(vocabulary[0])
    else
      var r := SkillNamed(vocabulary[1..], lower);
      assert r.Some? ==> (exists k :: 1 <= k < |vocabulary| && vocabulary[k] == r.value && Contains(lower, vocabulary[k])
                            && forall j :: 0 <= j < k ==> !Contains(lower, vocabulary[j]));
      r
  }

  /** "perception" loses to "intimidation" wherever each stands in the message. */
  lemma SkillOrderIsVocabularyOrder(lower: string)
    requires Contains(lower, "perception") && Contains(lower, "intimidation")
    ensures SkillNamed(SkillVocabulary, lower) == Some("intimidation")
  {
  }

  /** A difficulty word: "8", "9" or "10" to "20". */
  function DifficultyWord(w: string): (r: Option<nat>)
    ensures r.Some? ==> 8 <= r.value <= 20
  {
    if |w| == 1 && (w[0] == '8' || w[0] == '9') then Some(DigitValue(w[0]))
    else if |w| == 2 && w[0] == '1' && IsDigit(w[1]) then Some(10 + DigitValue(w[1]))
    else if w == "20" then Some(20)
    else None
  }

  /**
   * A match of `/\b(1[0-9]|20|[8-9])\b/` starting at `p`: a word boundary at `p`,
   * and the whole run of word characters from `p` is a difficulty word.
   */
  function DifficultyAt(s: string, p: nat): Option<nat>
    requires p <= |s|
  {
    if p < |s| && (p == 0 || !IsWordChar(s[p - 1])) then DifficultyWord(s[p..WordRunEnd(s, p)])
    else None
  }

  /** The leftmost match at or after `p`. */
  function DifficultyFrom(s: string, p: nat): (r: Option<nat>)
    requires p <= |s|
    ensures r.Some? ==> 8 <= r.value <= 20
    ensures r.Some? ==> exists q :: p <= q < |s| && DifficultyAt(s, q) == r && forall j :: p <= j < q ==> DifficultyAt(s, j).None?
    ensures r.None? ==> forall j :: p <= j <= |s| ==> DifficultyAt(s, j).None?
    decreases |s| - p
  {
    if p == |s| then None
    else if DifficultyAt(s, p).Some? then DifficultyAt(s, p)
    else DifficultyFrom(s, p + 1)
  }

  /** The difficulty `handleSkillCheck` reads from the reply: the first match, or 12. */
  function ParseDifficulty(reply: string): (r: nat)
    ensures 8 <= r <= 20
  {
    DifficultyFrom(reply, 0).GetOr(12)
  }

  /** "15" reads as 15; "25" and "100" are not difficulty words and read as the default 12. */
  lemma ParseDifficultyExamples()
    ensures ParseDifficulty("15") == 15
    ensures ParseDifficulty("25") == 12
    ensures ParseDifficulty("100") == 12
  {
    assert WordRunEnd("15", 0) == 2;
    assert DifficultyAt("15", 0) == Some(15);
    assert WordRunEnd("25", 0) == 2 && WordRunEnd("25", 1) == 2;
    assert DifficultyAt("25", 1).None?;
    assert WordRunEnd("100", 0) == 3;
    assert DifficultyAt("100", 1).None? && DifficultyAt("100", 2).None?;
  }

  /** The message asks to travel: it contains "go to", "travel to" or "visit". */
  predicate AsksToTravel(lower: string) {
    Contains(lower, "go to") || Contains(lower, "travel to") || Contains(lower, "visit")
  }

  /** The first location, in `locationDatabase` order, named by its lower-cased name or key. */
  function LocationNamed(table: seq<(string, string)>, lower: string): (r: Option<string>)
    ensures r.Some? ==> (exists k :: 0 <= k < |table| && table[k].0 == r.value
                           && (Contains(lower, Lower(table[k].1)) || Contains(lower, table[k].0))
                           && forall j :: 0 <= j < k ==> !Contains(lower, Lower(table[j].1)) && !Contains(lower, table[j].0))
    ensures r.None? ==> forall k :: 0 <= k < |table| ==> !Contains(lower, Lower(table[k].1)) && !Contains(lower, table[k].0)
  {
    if table == [] then None
    else if Contains(lower, Lower(table[0].1)) || Contains(lower, table[0].0) then Some(table[0].0)
    else
      var r := LocationNamed(table[1..], lower);
      assert r.Some? ==> (exists k :: 1 <= k < |table| && table[k].0 == r.value
                            && (Contains(lower, Lower(table[k].1)) || Contains(lower, table[k].0))
                            && forall j :: 0 <= j < k ==> !Contains(lower, Lower(table[j].1)) && !Contains(lower, table[j].0));
      r
  }

  /** The first NPC, in `npcDatabase` order, whose lower-cased name the message contains. */
  function NpcNamed(table: seq<Npc>, lower: string): (r: Option<string>)
    ensures r.Some? ==> exists k :: 0 <= k < |table| && table[k].id == r.value && Contains(lower, Lower(table[k].name))
                          && forall j :: 0 <= j < k ==> !Contains(lower, Lower(table[j].name))
    ensures r.None? ==> forall k :: 0 <= k < |table| ==> !Contains(lower, Lower(table[k].name))
  {
    if table == [] then None
    else if Contains(lower, Lower(table[0].name)) then Some(table[0].id)
    else
      var r := NpcNamed(table[1..], lower);
      assert r.Some? ==> exists k :: 1 <= k < |table| && table[k].id == r.value && Contains(lower, Lower(table[k].name))
                           && forall j :: 0 <= j < k ==> !Contains(lower, Lower(table[j].name));
      r
  }

  /** The message asks to rest: it contains "rest" or "sleep". */
  predicate AsksToRest(lower: string) {
    Contains(lower, "rest") || Contains(lower, "sleep")
  }

  /** The substring test fires inside other words: travelling to the forest also rests. */
  lemma ForestRests()
    ensures AsksToRest("go to the forest")
  {
    assert OccursAt("go to the forest", "rest", 12);
  }

  /** The message asks to take a quest: it contains "accept quest" or "take quest". */
  predicate AsksForQuest(lower: string) {
    Contains(lower, "accept quest") || Contains(lower, "take quest")
  }

  /** One step of the chat's quest-taking loop: take `q` if its title is named and it is neither active nor completed. */
  function TakeIfNamed(active: seq<Quest>, q: Quest, completed: seq<string>, lower: string): seq<Quest> {
    if Contains(lower, Lower(q.title)) && !HasQuest(active, q.id) && q.id !in completed
    then active + [q.(currentCount := 0)]
    else active
  }

  /**
   * The chat's quest-taking loop over the database in order: every quest whose
   * title the message names, and that is neither active nor completed, is
   * added as a fresh copy; rumours are left alone.
   */
  function TakeNamedQuests(db: seq<Quest>, active: seq<Quest>, completed: seq<string>, lower: string): (r: seq<Quest>)
    decreases |db|
  {
    if db == [] then active
    else TakeIfNamed(TakeNamedQuests(db[..|db| - 1], active, completed, lower), db[|db| - 1], completed, lower)
  }

  /** Every quest of the database the message names that is not completed is active after the loop. */
  lemma {:induction false} TakeNamedQuestsComplete(db: seq<Quest>, active: seq<Quest>, completed: seq<string>, lower: string)
    ensures var r := TakeNamedQuests(db, active, completed, lower);
      forall k :: 0 <= k < |db| && Contains(lower, Lower(db[k].title)) && db[k].id !in completed ==> HasQuest(r, db[k].id)
    decreases |db|
  {
    if db != [] {
      var prior := TakeNamedQuests(db[..|db| - 1], active, completed, lower);
      TakeNamedQuestsComplete(db[..|db| - 1], active, completed, lower);
      var q := db[|db| - 1];
      var r := TakeNamedQuests(db, active, completed, lower);
      assert prior <= r;
      forall k | 0 <= k < |db| && Contains(lower, Lower(db[k].title)) && db[k].id !in completed
        ensures HasQuest(r, db[k].id)
      {
        if k < |db| - 1 {
          assert db[k] == db[..|db| - 1][k];
          var j :| 0 <= j < |prior| && prior[j].id == db[k].id;
          assert r[j] == prior[j];
        } else if HasQuest(prior, q.id) {
          var j :| 0 <= j < |prior| && prior[j].id == q.id;
          assert r[j] == prior[j];
        } else {
          assert r[|prior|].id == q.id;
        }
      }
    }
  }

  /** What the loop adds: named quests, at count 0, never a completed one, after the quests already active. */
  lemma {:induction false} TakeNamedQuestsAdds(db: seq<Quest>, active: seq<Quest>, completed: seq<string>, lower: string)
    ensures var r := TakeNamedQuests(db, active, completed, lower);
      && active <= r
      && forall k :: |active| <= k < |r| ==>
           (exists q :: q in db && r[k] == q.(currentCount := 0)) && Contains(lower, Lower(r[k].title)) && r[k].id !in completed && r[k].currentCount == 0
           && !HasQuest(r[..k], r[k].id)
    decreases |db|
  {
    if db != [] {
      var prior := TakeNamedQuests(db[..|db| - 1], active, completed, lower);
      TakeNamedQuestsAdds(db[..|db| - 1], active, completed, lower);
      var q := db[|db| - 1];
      if Contains(lower, Lower(q.title)) && !HasQuest(prior, q.id) && q.id !in completed {
        var r := prior + [q.(currentCount := 0)];
        assert r[..|prior|] == prior;
        forall k | |active| <= k < |r|
          ensures (exists q :: q in db && r[k] == q.(currentCount := 0)) && Contains(lower, Lower(r[k].title)) && r[k].id !in completed && r[k].currentCount == 0
                  && !HasQuest(r[..k], r[k].id)
        {
          if k < |prior| {
            assert r[k] == prior[k] && r[..k] == prior[..k];
            var p :| p in db[..|db| - 1] && prior[k] == p.(currentCount := 0);
            assert p in db;
          } else {
            assert r[k] == q.(currentCount := 0);
          }
        }
      } else {
        forall k | |active| <= k < |prior|
          ensures exists p :: p in db && prior[k] == p.(currentCount := 0)
        {
          var p :| p in db[..|db| - 1] && prior[k] == p.(currentCount := 0);
          assert p in db;
        }
      }
    }
  }

  /** The loop only appends. */
  lemma TakeNamedQuestsExtends(db: seq<Quest>, active: seq<Quest>, completed: seq<string>, lower: string)
    ensures active <= TakeNamedQuests(db, active, completed, lower)
  {
    TakeNamedQuestsAdds(db, active, completed, lower);
  }

  /** The enemy `handleCombatAction` targets: the LAST one whose lower-cased name the message contains, else 0. */
  function TargetIndex(enemies: seq<Enemy>, lower: string): (r: nat)
    ensures enemies != [] ==> r < |enemies|
    ensures (exists k :: 0 <= k < |enemies| && Contains(lower, Lower(enemies[k].name))) ==>
              Contains(lower, Lower(enemies[r].name)) && forall j :: r < j < |enemies| ==> !Contains(lower, Lower(enemies[j].name))
    ensures (forall k :: 0 <= k < |enemies| ==> !Contains(lower, Lower(enemies[k].name))) ==> r == 0
    decreases |enemies|
  {
    if enemies == [] then 0
    else if Contains(lower, Lower(enemies[|enemies| - 1].name)) then |enemies| - 1
    else
      var front := enemies[..|enemies| - 1];
      assert forall k :: 0 <= k < |front| ==> front[k] == enemies[k];
      TargetIndex(front, lower)
  }

  /** One more enemy: it becomes the target when the message names it. */
  lemma TargetIndexStep(enemies: seq<Enemy>, lower: string, k: nat)
    requires k < |enemies|
    ensures TargetIndex(enemies[..k + 1], lower)
      == if Contains(lower, Lower(enemies[k].name)) then k else TargetIndex(enemies[..k], lower)
  {
    assert enemies[..k + 1][..k] == enemies[..k];
  }
}
