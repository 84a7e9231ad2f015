/**
 * The dice engine (`DiceSystem`): die rolls, multi-die sums, d20 checks, damage
 * rolls parsed from an "NdM" formula, and the bounded roll history.
 *
 * Randomness is an input. Each call of `Math.random()` is one draw taken from a
 * stream `rand: nat -> nat`, and `Math.floor(Math.random() * n)` becomes
 * `Scaled(n, draw)`. That value ranges over exactly `0 .. n-1`, as the source's
 * does.
 */
module Dice {
  import opened Wrappers
  import opened Text

  /** `Math.floor(Math.random() * n)`, the draw standing for the `Math.random()` call. */
  function Scaled(n: nat, draw: nat): (r: nat)
    ensures n >= 1 ==> r < n
    ensures n == 0 ==> r == 0
  {
    if n == 0 then 0 else draw % n
  }

  /** Every value the source can produce is produced by some draw. */
  lemma ScaledCovers(n: nat, v: nat)
    requires v < n
    ensures Scaled(n, v) == v
  {
  }

  /** `rollDie(sides)`: a face in `[1, sides]` (a zero-sided die shows 1, as `floor(r * 0) + 1` does). */
  function Face(sides: nat, draw: nat): (r: int)
    ensures 1 <= r
    ensures sides >= 1 ==> r <= sides
    ensures sides == 0 ==> r == 1
  {
    Scaled(sides, draw) + 1
  }

  /** The faces of `count` dice of `sides` sides, rolled from the draws at `at`, `at + 1`, ... */
  function Rolls(count: nat, sides: nat, rand: nat -> nat, at: nat): (r: seq<int>)
    ensures |r| == count
    ensures forall k :: 0 <= k < count ==> 1 <= r[k] && (sides >= 1 ==> r[k] <= sides)
  {
    var r := seq(count, k requires 0 <= k < count => Face(sides, rand(at + k)));
    assert forall k :: 0 <= k < count ==> r[k] == Face(sides, rand(at + k));
    r
  }

  function Sum(s: seq<int>): int
    decreases |s|
  {
    if s == [] then 0 else Sum(s[..|s| - 1]) + s[|s| - 1]
  }

  lemma SumSnoc(s: seq<int>, x: int)
    ensures Sum(s + [x]) == Sum(s) + x
  {
    assert (s + [x])[..|s|] == s;
  }

  lemma {:induction false} SumAppend(s: seq<int>, t: seq<int>)
    ensures Sum(s + t) == Sum(s) + Sum(t)
    decreases |t|
  {
    if t == [] {
      assert s + t == s;
    } else {
      var u, last := t[..|t| - 1], t[|t| - 1];
      assert t == u + [last];
      assert s + t == (s + u) + [last];
      SumSnoc(s + u, last);
      SumSnoc(u, last);
      SumAppend(s, u);
    }
  }

  /** The sum of values in `[lo, hi]` lies between `|s| * lo` and `|s| * hi`. */
  lemma {:induction false} SumBounds(s: seq<int>, lo: int, hi: int)
    requires forall k :: 0 <= k < |s| ==> lo <= s[k] <= hi
    ensures |s| * lo <= Sum(s) <= |s| * hi
    decreases |s|
  {
    if s != [] {
      SumBounds(s[..|s| - 1], lo, hi);
      assert (|s| - 1) * lo + lo == |s| * lo;
      assert (|s| - 1) * hi + hi == |s| * hi;
    }
  }

  /**
   * `rollDice(count, sides)`: rolls `count` dice one after another, keeping each
   * face in roll order and the running total.
   */
  method RollDice(count: nat, sides: nat, rand: nat -> nat, at: nat) returns (total: int, rolls: seq<int>)
    ensures rolls == Rolls(count, sides, rand, at)
    ensures total == Sum(rolls)
  {
    total, rolls := 0, [];
    for i := 0 to count
      invariant rolls == Rolls(i, sides, rand, at)
      invariant total == Sum(rolls)
    {
      var roll := Face(sides, rand(at + i));
      SumSnoc(rolls, roll);
      rolls := rolls + [roll];
      total := total + roll;
    }
  }

  /** The record of a d20 check: `skillCheck`, `attackRoll`. */
  datatype Check = Check(roll: int, modifier: int, total: int, difficulty: int, success: bool, margin: int)

  /**
   * `skillCheck(modifier, difficulty)` with the d20 face `roll`: success is meeting
   * the difficulty, and the margin is the unsigned distance to it.
   */
  function SkillCheck(modifier: int, difficulty: int, roll: int): (c: Check)
    ensures c.roll == roll && c.modifier == modifier && c.difficulty == difficulty
    ensures c.total == roll + modifier
    ensures c.success <==> c.total >= difficulty
    ensures c.margin >= 0
    ensures c.success ==> c.total == difficulty + c.margin
    ensures !c.success ==> c.total == difficulty - c.margin && c.margin > 0
  {
    var total := roll + modifier;
    var success := total >= difficulty;
    Check(roll, modifier, total, difficulty, success, if success then total - difficulty else difficulty - total)
  }

  /** `attackRoll(attackModifier, armorClass)` is the skill check against the armour class. */
  function AttackRoll(attackModifier: int, armorClass: int, roll: int): (c: Check)
    ensures c == SkillCheck(attackModifier, armorClass, roll)
  {
    SkillCheck(attackModifier, armorClass, roll)
  }

  /** An attack lands when the check succeeds or the d20 shows a natural 20. */
  predicate Lands(c: Check) {
    c.success || c.roll == 20
  }

  /** A natural 20 lands whatever the modifier and the armour class. */
  lemma NaturalTwentyLands(attackModifier: int, armorClass: int)
    ensures Lands(AttackRoll(attackModifier, armorClass, 20))
    ensures AttackRoll(-5, 25, 20).success == false
  {
  }

  /** With modifier 3 against 15, a 12 succeeds and an 11 fails. */
  lemma SkillCheckThreshold()
    ensures SkillCheck(3, 15, 12).success && SkillCheck(3, 15, 12).total == 15
    ensures !SkillCheck(3, 15, 11).success && SkillCheck(3, 15, 11).total == 14
  {
  }

  /** One match of `/(\d+)d(\d+)/`: the two numbers and where the match starts and ends. */
  datatype DiceMatch = DiceMatch(count: nat, sides: nat, start: nat, end: nat)

  /**
   * The match of `/(\d+)d(\d+)/` that starts at `i`, if any. The first `\d+` must
   * take the whole digit run (a shorter one is followed by a digit, not `d`), and
   * the second takes the longest run.
   */
  function MatchDiceAt(s: string, i: nat): (r: Option<DiceMatch>)
    requires i <= |s|
    ensures r.Some? ==> r.value.start == i < r.value.end <= |s|
  {
    if i < |s| && IsDigit(s[i]) then
      var j := DigitRunEnd(s, i);
      if j + 1 < |s| && s[j] == 'd' && IsDigit(s[j + 1]) then
        var k := DigitRunEnd(s, j + 1);
        Some(DiceMatch(DigitsValue(s[i..j]), DigitsValue(s[j + 1..k]), i, k))
      else None
    else None
  }

  /** The leftmost match at or after `i`, as `String.prototype.match` finds it. */
  function FindDiceFrom(s: string, i: nat): (r: Option<DiceMatch>)
    requires i <= |s|
    ensures r.Some? ==> i <= r.value.start < |s| && MatchDiceAt(s, r.value.start) == r
    ensures r.Some? ==> forall j :: i <= j < r.value.start ==> MatchDiceAt(s, j).None?
    ensures r.None? ==> forall j :: i <= j <= |s| ==> MatchDiceAt(s, j).None?
    decreases |s| - i
  {
    if i == |s| then None
    else if MatchDiceAt(s, i).Some? then MatchDiceAt(s, i)
    else FindDiceFrom(s, i + 1)
  }

  /** `diceFormula.match(/(\d+)d(\d+)/)`. */
  function FindDice(s: string): Option<DiceMatch> {
    FindDiceFrom(s, 0)
  }

  /** The formula `${count}d${sides}` as the source writes it. */
  function DiceFormula(count: nat, sides: nat): string {
    NatToString(count) + "d" + NatToString(sides)
  }

  /**
   * Writing a formula and parsing it again gives back its two numbers, matched
   * from the start, whatever follows that does not begin with a digit.
   */
  lemma DiceFormulaRoundTrip(count: nat, sides: nat, rest: string)
    requires rest == [] || !IsDigit(rest[0])
    ensures FindDice(DiceFormula(count, sides) + rest) == Some(DiceMatch(count, sides, 0, |DiceFormula(count, sides)|))
  {
    var a, b := NatToString(count), NatToString(sides);
    var s := a + "d" + b + rest;
    var e := |a| + 1 + |b|;
    assert s[0..|a|] == a;
    assert s[|a|] == 'd';
    DigitRunEndAt(s, 0, |a|);
    assert s[|a| + 1..e] == b;
    assert s[|a| + 1] == b[0];
    assert e == |s| || s[e] == rest[0];
    DigitRunEndAt(s, |a| + 1, e);
    NatToStringRoundTrip(count);
    NatToStringRoundTrip(sides);
    assert MatchDiceAt(s, 0) == Some(DiceMatch(count, sides, 0, e));
  }

  /** The text of a match parses again to the same two numbers. */
  lemma MatchedTextReparses(s: string)
    requires FindDice(s).Some?
    ensures var m := FindDice(s).value;
      FindDice(s[m.start..m.end]) == Some(DiceMatch(m.count, m.sides, 0, m.end - m.start))
  {
    var m := FindDice(s).value;
    var i := m.start;
    var j := DigitRunEnd(s, i);
    var t := s[i..m.end];
    assert t[0..j - i] == s[i..j];
    assert t[j - i] == 'd';
    DigitRunEndAt(t, 0, j - i);
    assert t[j - i + 1..|t|] == s[j + 1..m.end];
    assert t[j - i + 1] == s[j + 1];
    DigitRunEndAt(t, j - i + 1, |t|);
    assert MatchDiceAt(t, 0) == Some(DiceMatch(m.count, m.sides, 0, |t|));
  }

  /** The result of `damageRoll`. */
  datatype Damage = Damage(rolls: seq<int>, modifier: int, total: int)

  /**
   * `damageRoll(formula, modifier)` rolled from the draws at `at`; it uses one
   * draw per die it lists. Without an "NdM" match it returns an empty roll and
   * drops the modifier.
   */
  function DamageOf(formula: string, modifier: int, rand: nat -> nat, at: nat): Damage {
    match FindDice(formula)
    case None => Damage([], 0, 0)
    case Some(m) =>
      var rolls := Rolls(m.count, m.sides, rand, at);
      Damage(rolls, modifier, Sum(rolls) + modifier)
  }

  /** What a damage roll contains, in both cases. */
  lemma DamageOfShape(formula: string, modifier: int, rand: nat -> nat, at: nat)
    ensures var d := DamageOf(formula, modifier, rand, at);
      match FindDice(formula)
      case None => d.total == 0 && d.rolls == [] && d.modifier == 0
      case Some(m) =>
        && |d.rolls| == m.count
        && d.modifier == modifier
        && d.total == Sum(d.rolls) + modifier
        && (m.sides >= 1 ==> m.count + modifier <= d.total <= m.count * m.sides + modifier)
  {
    match FindDice(formula)
    case None =>
    case Some(m) =>
      var rolls := Rolls(m.count, m.sides, rand, at);
      if m.sides >= 1 {
        SumBounds(rolls, 1, m.sides);
      }
  }

  /** `damageRoll("2d6", 3)`: two faces in `[1, 6]`, total in `[5, 15]`. */
  lemma TwoDSixPlusThree(rand: nat -> nat, at: nat)
    ensures var d := DamageOf("2d6", 3, rand, at);
      |d.rolls| == 2 && (forall k :: 0 <= k < 2 ==> 1 <= d.rolls[k] <= 6) && 5 <= d.total <= 15
  {
    assert DiceFormula(2, 6) + "" == "2d6";
    DiceFormulaRoundTrip(2, 6, "");
    DamageOfShape("2d6", 3, rand, at);
  }

  /** `damageRoll`: parses the formula and calls `rollDice` on a match. */
  method DamageRoll(formula: string, modifier: int, rand: nat -> nat, at: nat) returns (d: Damage)
    ensures d == DamageOf(formula, modifier, rand, at)
  {
    var m := FindDice(formula);
    if m.None? {
      return Damage([], 0, 0);
    }
    var total, rolls := RollDice(m.value.count, m.value.sides, rand, at);
    d := Damage(rolls, modifier, total + modifier);
  }

  /** One entry of `diceRollHistory` (its timestamp is not modelled). */
  datatype RollEntry =
    | Checked(kind: string, skill: Option<string>, check: Check)
    | Dealt(kind: string, damage: Damage)

  const HistoryLimit: nat := 20

  /**
   * `saveRoll`: the new entry goes in front (`unshift`), and when the history then
   * holds more than 20 entries the last, oldest one is dropped (`pop`).
   */
  function Recorded(history: seq<RollEntry>, e: RollEntry): (r: seq<RollEntry>)
    ensures |r| >= 1 && r[0] == e
    ensures |history| < HistoryLimit ==> |r| == |history| + 1
    ensures |history| >= HistoryLimit ==> |r| == |history|
    ensures |history| <= HistoryLimit ==> |r| <= HistoryLimit
    ensures forall k :: 0 <= k < |r| - 1 ==> r[k + 1] == history[k]
  {
    var grown := [e] + history;
    if |grown| > HistoryLimit then grown[..|grown| - 1] else grown
  }
}
