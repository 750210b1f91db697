/**
 * The combat rules shared by the arena (src/components/ArenaModal.jsx) and the
 * boss battle (src/components/BattleModal.jsx), which carry identical copies
 * of `calculateDamage` and `addLog`: the formula-string damage, the basic
 * attack, the hit count, the hp clamps, the AI's ability choice and the
 * five-entry battle log.
 */
module Combat {
  import opened Wrappers
  import Text
  import Abilities
  import Classes

  /** The combat stats of a party member. */
  datatype CombatStats = CombatStats(hp: int, maxHp: int, mana: int, maxMana: int,
                                     strength: int, agility: int, mindPower: int)

  datatype Member = Member(id: string, name: string, characterClass: string, isAI: bool,
                           stats: CombatStats, alive: bool)

  /** A battle-log line; the message text around the numbers is not modelled. */
  datatype LogEntry =
    | Started
    | Attacked(actor: string, damage: int)
    | UsedAbility(actor: string, ability: string, damage: int)
    | Restored(actor: string, ability: string, amount: int)
    | OutOfMana(actor: string)
    | Victory

  datatype Phase = Intro | Active | Won

  /**
   * An AI teammate's stats (`generateAITeammate` in both files): the class's
   * base hp, strength, agility and mind power, at full hp and full mana,
   * where maxMana is mindPower * 10.
   */
  function FreshStats(b: Classes.BaseStats): (s: CombatStats)
    ensures s.hp == s.maxHp == b.hp && s.mana == s.maxMana == 10 * b.mindPower
    ensures s.strength == b.strength && s.agility == b.agility && s.mindPower == b.mindPower
  {
    CombatStats(b.hp, b.hp, b.mindPower * 10, b.mindPower * 10, b.strength, b.agility, b.mindPower)
  }

  // ----- calculateDamage -----

  predicate AllDigits(s: string) { forall i | 0 <= i < |s| :: Text.IsDigit(s[i]) }

  /** The value of a run of decimal digits. */
  function DigitsValue(s: string): nat
    requires AllDigits(s)
  {
    if s == [] then 0 else DigitsValue(s[..|s| - 1]) * 10 + (s[|s| - 1] as int - '0' as int)
  }

  function Pow10(n: nat): (p: nat)
    ensures p >= 1
  {
    if n == 0 then 1 else 10 * Pow10(n - 1)
  }

  /** The end of the run of digits that starts at `k`. */
  function DigitRunEnd(s: string, k: nat): (e: nat)
    requires k <= |s|
    ensures k <= e <= |s|
    ensures forall j :: k <= j < e ==> Text.IsDigit(s[j])
    ensures e == |s| || !Text.IsDigit(s[e])
    decreases |s| - k
  {
    if k < |s| && Text.IsDigit(s[k]) then DigitRunEnd(s, k + 1) else k
  }

  /**
   * The number `\d+\.?\d*` reads at `k`, valued as parseFloat values it: the
   * digits, then a fraction when a '.' follows them.  None when no digit
   * stands at `k`.
   */
  function NumberAt(s: string, k: nat): (r: Option<real>)
    requires k <= |s|
    ensures r.Some? <==> k < |s| && Text.IsDigit(s[k])
    ensures r.Some? ==> r.value >= 0.0
  {
    var e := DigitRunEnd(s, k);
    if e == k then None
    else if e < |s| && s[e] == '.' then
      var f := DigitRunEnd(s, e + 1);
      Some(DigitsValue(s[k..e]) as real + DigitsValue(s[e + 1..f]) as real / Pow10(f - e - 1) as real)
    else Some(DigitsValue(s[k..e]) as real)
  }

  /** Whitespace, a '*', whitespace and a digit follow position `j`. */
  predicate TimesNumberFollows(s: string, j: int) {
    exists a, b | 0 <= j <= a < b < |s| ::
      && (forall t | j <= t < a :: Text.IsSpace(s[t]))
      && s[a] == '*'
      && (forall t | a < t < b :: Text.IsSpace(s[t]))
      && Text.IsDigit(s[b])
  }

  /** The capture `(\d+\.?\d*)` of `\s*\*\s*(\d+\.?\d*)` matched at `j`, if that part matches there. */
  function MultiplierAt(s: string, j: nat): Option<real>
    requires j <= |s|
  {
    var a := Text.SkipSpaces(s, j);
    if a < |s| && s[a] == '*' then NumberAt(s, Text.SkipSpaces(s, a + 1)) else None
  }

  /** The scan finds a multiplier exactly when the pattern's shape follows `j`. */
  lemma MultiplierAtMeaning(s: string, j: nat)
    requires j <= |s|
    ensures MultiplierAt(s, j).Some? <==> TimesNumberFollows(s, j)
  {
    var a := Text.SkipSpaces(s, j);
    if a < |s| && s[a] == '*' {
      var b := Text.SkipSpaces(s, a + 1);
      if b < |s| && Text.IsDigit(s[b]) {
        assert TimesNumberFollows(s, j);
      }
    }
  }

  /** `stat\s*\*\s*(\d+\.?\d*)` matches at `i`. */
  predicate MatchAt(s: string, stat: string, i: int) {
    Text.OccursAt(s, stat, i) && MultiplierAt(s, i + |stat|).Some?
  }

  /** The capture of the leftmost match at or after `from`, as `s.match(regex)?.[1]` finds it. */
  function FirstMatch(s: string, stat: string, from: nat): Option<real>
    decreases |s| - from
  {
    if from + |stat| > |s| then None
    else if MatchAt(s, stat, from) then MultiplierAt(s, from + |stat|)
    else FirstMatch(s, stat, from + 1)
  }

  /** `parseFloat(formula.match(regex)?.[1] || 1)`: the captured number, or 1 without a match. */
  function Multiplier(formula: string, stat: string): real {
    match FirstMatch(formula, stat, 0)
    case Some(m) => m
    case None => 1.0
  }

  /** The contribution of one stat: its value times its multiplier when the formula names it. */
  function Term(formula: string, stat: string, value: int): real {
    if Text.Contains(formula, stat) then value as real * Multiplier(formula, stat) else 0.0
  }

  /** The exact sum `calculateDamage` floors. */
  function RawDamage(formula: string, s: CombatStats): real {
    Term(formula, "strength", s.strength) + Term(formula, "agility", s.agility)
    + Term(formula, "mindPower", s.mindPower) + Term(formula, "maxHp", s.maxHp)
  }

  /** `calculateDamage(ability, casterStats)` for the ability's formula: the floor of the sum. */
  function CalculateDamage(formula: string, s: CombatStats): (d: int)
    ensures d as real <= RawDamage(formula, s) < d as real + 1.0
  {
    RawDamage(formula, s).Floor
  }

  /** Without a match at or after `from` there is no capture. */
  lemma {:induction false} FirstMatchNone(s: string, stat: string, from: nat)
    requires forall i :: from <= i ==> !MatchAt(s, stat, i)
    ensures FirstMatch(s, stat, from).None?
    decreases |s| - from
  {
    if from + |stat| <= |s| {
      FirstMatchNone(s, stat, from + 1);
    }
  }

  /** A stat named with no `* n` after any of its occurrences counts once. */
  lemma UnmultipliedStat(formula: string, stat: string, value: int)
    requires Text.Contains(formula, stat)
    requires forall i :: !MatchAt(formula, stat, i)
    ensures Term(formula, stat, value) == value as real
  {
    FirstMatchNone(formula, stat, 0);
  }

  /** A stat the formula does not name adds nothing. */
  lemma UnnamedStat(formula: string, stat: string, value: int)
    requires !Text.Contains(formula, stat)
    ensures Term(formula, stat, value) == 0.0
  {
  }

  /** A match at `i` with no match before it gives the multiplier. */
  lemma LeftmostMatch(formula: string, stat: string, i: nat, m: real)
    requires MatchAt(formula, stat, i) && MultiplierAt(formula, i + |stat|) == Some(m)
    requires forall i' :: 0 <= i' < i ==> !MatchAt(formula, stat, i')
    ensures Multiplier(formula, stat) == m
    ensures Text.Contains(formula, stat)
  {
    FirstMatchFrom(formula, stat, 0, i);
  }

  lemma {:induction false} FirstMatchFrom(formula: string, stat: string, from: nat, i: nat)
    requires from <= i && MatchAt(formula, stat, i)
    requires forall i' :: from <= i' < i ==> !MatchAt(formula, stat, i')
    ensures FirstMatch(formula, stat, from) == MultiplierAt(formula, i + |stat|)
    decreases i - from
  {
    if from < i {
      FirstMatchFrom(formula, stat, from + 1, i);
    }
  }

  /** `" * " + digit` at `j` gives that digit as the multiplier. */
  lemma SpacedTimesDigit(s: string, j: nat)
    requires j + 4 <= |s| && s[j] == ' ' && s[j + 1] == '*' && s[j + 2] == ' ' && Text.IsDigit(s[j + 3])
    requires j + 4 == |s| || (!Text.IsDigit(s[j + 4]) && s[j + 4] != '.')
    ensures MultiplierAt(s, j) == Some((s[j + 3] as int - '0' as int) as real)
  {
    assert Text.SkipSpaces(s, j) == j + 1;
    assert Text.SkipSpaces(s, j + 2) == j + 3;
    assert DigitRunEnd(s, j + 3) == j + 4;
    var d := s[j + 3..j + 4];
    assert d == [s[j + 3]] && d[..0] == [];
    assert DigitsValue(d) == s[j + 3] as int - '0' as int;
    assert NumberAt(s, j + 3) == Some(DigitsValue(d) as real);
  }

  /** `'(agility * 3) + strength'` (Rapid Shot) deals 3·agility + strength. */
  lemma RapidShotDamage(s: CombatStats)
    ensures CalculateDamage("(agility * 3) + strength", s) == 3 * s.agility + s.strength
  {
    var f := "(agility * 3) + strength";
    RapidShotAgility(f, s.agility);
    RapidShotStrength(s.strength);
    Text.AbsentByChar(f, "mindPower", 0);
    Text.AbsentByChar(f, "maxHp", 0);
  }

  lemma RapidShotAgility(f: string, agility: int)
    requires f == "(agility * 3) + strength"
    ensures Term(f, "agility", agility) == 3.0 * agility as real
  {
    Text.OccursAtByIndex(f, "agility", 1);
    SpacedTimesDigit(f, 8);
    assert MatchAt(f, "agility", 1);
    assert !MatchAt(f, "agility", 0) by {
      Text.NotOccursAt(f, "agility", 0, 0);
    }
    LeftmostMatch(f, "agility", 1, 3.0);
  }

  lemma RapidShotStrength(strength: int)
    ensures Term("(agility * 3) + strength", "strength", strength) == strength as real
  {
    var f := "(agility * 3) + strength";
    Text.OccursAtByIndex(f, "strength", 16);
    Text.OnlyOccurrence(f, "strength", 16);
    assert MultiplierAt(f, 24).None?;
    UnmultipliedStat(f, "strength", strength);
  }

  /** `'strength * 4'` (Double Slash) deals 4·strength per hit. */
  lemma DoubleSlashDamage(s: CombatStats)
    ensures CalculateDamage("strength * 4", s) == 4 * s.strength
  {
    var f := "strength * 4";
    Text.AbsentByChar(f, "agility", 0);
    Text.AbsentByChar(f, "mindPower", 0);
    Text.AbsentByChar(f, "maxHp", 0);
    Text.OccursAtByIndex(f, "strength", 0);
    SpacedTimesDigit(f, 8);
    LeftmostMatch(f, "strength", 0, 4.0);
  }

  /** `'mindPower * 6'` (Heal) restores 6·mindPower. */
  lemma HealAmount(s: CombatStats)
    ensures CalculateDamage("mindPower * 6", s) == 6 * s.mindPower
  {
    var f := "mindPower * 6";
    Text.AbsentByChar(f, "strength", 0);
    Text.AbsentByChar(f, "agility", 1);
    Text.AbsentByChar(f, "maxHp", 2);
    Text.OccursAtByIndex(f, "mindPower", 0);
    SpacedTimesDigit(f, 9);
    LeftmostMatch(f, "mindPower", 0, 6.0);
  }

  /** `'mindPower * 10'` (Fireball) deals 10·mindPower. */
  lemma FireballDamage(s: CombatStats)
    ensures CalculateDamage("mindPower * 10", s) == 10 * s.mindPower
  {
    var f := "mindPower * 10";
    Text.AbsentByChar(f, "strength", 0);
    Text.AbsentByChar(f, "agility", 1);
    Text.AbsentByChar(f, "maxHp", 2);
    Text.OccursAtByIndex(f, "mindPower", 0);
    assert Text.SkipSpaces(f, 9) == 10;
    assert Text.SkipSpaces(f, 11) == 12;
    assert DigitRunEnd(f, 12) == 14;
    assert f[12..14] == "10" && "10"[..1] == "1" && "1"[..0] == [];
    LeftmostMatch(f, "mindPower", 0, 10.0);
  }

  /** `'maxHp * 0.1'` (Stomp) gives a tenth of maxHp, rounded down. */
  lemma StompDamage(s: CombatStats)
    ensures CalculateDamage("maxHp * 0.1", s) == s.maxHp / 10
  {
    var f := "maxHp * 0.1";
    Text.AbsentByChar(f, "strength", 0);
    Text.AbsentByChar(f, "agility", 2);
    Text.AbsentByChar(f, "mindPower", 1);
    Text.OccursAtByIndex(f, "maxHp", 0);
    assert Text.SkipSpaces(f, 5) == 6;
    assert Text.SkipSpaces(f, 7) == 8;
    assert DigitRunEnd(f, 8) == 9;
    assert DigitRunEnd(f, 10) == 11;
    assert f[8..9] == "0" && "0"[..0] == [];
    assert f[10..11] == "1" && "1"[..0] == [];
    assert MultiplierAt(f, 5) == Some(0.1);
    LeftmostMatch(f, "maxHp", 0, 0.1);
    var q := s.maxHp / 10;
    assert s.maxHp as real * 0.1 == q as real + (s.maxHp % 10) as real / 10.0;
  }

  /** A formula naming no stat deals nothing. */
  lemma NoStatNoDamage(formula: string, s: CombatStats)
    requires !Text.Contains(formula, "strength") && !Text.Contains(formula, "agility")
    requires !Text.Contains(formula, "mindPower") && !Text.Contains(formula, "maxHp")
    ensures CalculateDamage(formula, s) == 0
  {
  }

  /** Every multiplier the scan captures is non-negative: the pattern has no minus sign. */
  lemma {:induction false} FirstMatchNonNegative(s: string, stat: string, from: nat)
    ensures FirstMatch(s, stat, from).Some? ==> FirstMatch(s, stat, from).value >= 0.0
    decreases |s| - from
  {
    if from + |stat| <= |s| && !MatchAt(s, stat, from) {
      FirstMatchNonNegative(s, stat, from + 1);
    }
  }

  lemma TermNonNegative(formula: string, stat: string, value: int)
    requires 0 <= value
    ensures Term(formula, stat, value) >= 0.0
  {
    FirstMatchNonNegative(formula, stat, 0);
    var m := Multiplier(formula, stat);
    assert m >= 0.0;
    assert value as real * m >= 0.0;
  }

  /** With no negative stat, no formula yields a negative amount. */
  lemma DamageNonNegative(formula: string, s: CombatStats)
    requires NonNegativeStats(s)
    ensures CalculateDamage(formula, s) >= 0
  {
    TermNonNegative(formula, "strength", s.strength);
    TermNonNegative(formula, "agility", s.agility);
    TermNonNegative(formula, "mindPower", s.mindPower);
    TermNonNegative(formula, "maxHp", s.maxHp);
  }

  // ----- Party generation and turn order -----

  /** `ai_${index}`. */
  function AiId(index: nat): string {
    "ai_" + Text.DecimalString(index)
  }

  /** The ids ai_1 to ai_9 differ from each other and from "player". */
  lemma AiIdsDiffer(i: nat, j: nat)
    requires 1 <= i < 10 && 1 <= j < 10
    ensures i != j ==> AiId(i) != AiId(j)
    ensures AiId(i) != "player"
  {
    assert AiId(i)[3] == ('0' as int + i) as char && AiId(j)[3] == ('0' as int + j) as char;
    assert AiId(i)[0] == 'a' != "player"[0];
  }

  /** The ids of a team: "player" and ai_1, ai_2, ai_3. */
  predicate TeamId(id: string) {
    id == "player" || id == AiId(1) || id == AiId(2) || id == AiId(3)
  }

  /** The lineup's ids are "player", ai_1, ai_2, ai_3, one each. */
  lemma LineupIds(r: seq<Member>)
    requires |r| == 4 && r[0].id == "player" && forall i | 1 <= i < 4 :: r[i].id == AiId(i)
    ensures DistinctIds(r) && forall i | 0 <= i < 4 :: TeamId(r[i].id)
  {
    AiIdsDiffer(1, 2);
    AiIdsDiffer(1, 3);
    AiIdsDiffer(2, 3);
    AiIdsDiffer(3, 1);
  }

  /** `Math.random()` draws: each in [0, 1). */
  predicate InUnit(picks: seq<real>) {
    forall i | 0 <= i < |picks| :: 0.0 <= picks[i] < 1.0
  }

  /** `Math.floor(r * len)` for a draw `r` in [0, 1): an index into a list of `len` entries. */
  function PickIndex(r: real, len: nat): (k: nat)
    requires 0.0 <= r < 1.0 && len > 0
    ensures k < len
  {
    var x := r * len as real;
    ScaledBelow(r, len as real);
    assert x < len as real;
    x.Floor
  }

  /** A draw in [0, 1) scaled by a positive length stays below the length. */
  lemma ScaledBelow(r: real, l: real)
    requires 0.0 <= r < 1.0 && l > 0.0
    ensures r * l < l
  {
    var gap := 1.0 - r;
    assert gap > 0.0;
    assert gap * l > 0.0;
    assert l - r * l == gap * l;
  }

  /** `y % n` for `y` below `2n`: `y` itself, or `y - n`. */
  lemma SmallMod(y: int, n: int)
    requires n > 0 && 0 <= y < 2 * n
    ensures y % n == if y < n then y else y - n
  {
    if y >= n {
      assert y == n * 1 + (y - n);
    }
  }

  /** The member after `y % n` is the member at `(y + 1) % n`. */
  lemma ModStep(y: nat, n: nat)
    requires n > 0 && y + 1 < 2 * n
    ensures (y % n + 1) % n == (y + 1) % n
  {
    SmallMod(y, n);
    SmallMod(y + 1, n);
    SmallMod(y % n + 1, n);
  }

  // ----- Attacks, hp and mana -----

  /** `Math.floor(strength + agility * 0.5)`. */
  function BasicAttackDamage(s: CombatStats): (d: int)
    ensures 2 * d <= 2 * s.strength + s.agility < 2 * d + 2
  {
    s.strength + s.agility / 2
  }

  /** A damage ability's total: the formula's damage times the hit count. */
  function AbilityDamage(e: Abilities.Effect, s: CombatStats): (d: int)
    requires e.formula.Some?
    ensures HitCount(e) >= 1 && NonNegativeStats(s) ==> d >= 0
  {
    var base := CalculateDamage(e.formula.value, s);
    if NonNegativeStats(s) then DamageNonNegative(e.formula.value, s); base * HitCount(e)
    else base * HitCount(e)
  }

  /** `ability.effect.hits || 1`: a missing or zero hit count means one hit. */
  function HitCount(e: Abilities.Effect): (h: int)
    ensures h != 0
    ensures e.hits.Some? && e.hits.value != 0 ==> h == e.hits.value
  {
    if e.hits.Some? && e.hits.value != 0 then e.hits.value else 1
  }

  /** `Math.max(0, hp - damage)`. */
  function ApplyDamage(hp: int, damage: int): (r: int)
    ensures r >= 0
    ensures r >= hp - damage
    ensures r == 0 || r == hp - damage
  {
    if hp - damage > 0 then hp - damage else 0
  }

  /** `Math.min(maxHp, hp + amount)`. */
  function ApplyHeal(hp: int, maxHp: int, amount: int): (r: int)
    ensures r <= maxHp
    ensures r <= hp + amount
    ensures r == maxHp || r == hp + amount
  {
    if hp + amount < maxHp then hp + amount else maxHp
  }

  /** `addLog(message)`: the new entry in front, at most five kept. */
  function AddLog(log: seq<LogEntry>, entry: LogEntry): (r: seq<LogEntry>)
    ensures |r| == if |log| < 5 then |log| + 1 else 5
    ensures r[0] == entry
    ensures r[1..] == log[..|r| - 1]
  {
    if |log| < 5 then [entry] + log else [entry] + log[..4]
  }

  /** The log never holds more than five entries, however many are added. */
  lemma {:induction false} LogBounded(log: seq<LogEntry>, entries: seq<LogEntry>)
    ensures |AddAll(log, entries)| <= if entries == [] then |log| else 5
    decreases |entries|
  {
    if entries != [] {
      LogBounded(AddLog(log, entries[0]), entries[1..]);
    }
  }

  function AddAll(log: seq<LogEntry>, entries: seq<LogEntry>): seq<LogEntry>
    decreases |entries|
  {
    if entries == [] then log else AddAll(AddLog(log, entries[0]), entries[1..])
  }

  /**
   * The abilities offered in combat: the class's level-1 abilities sorted by
   * slot (each class table is already in slot order).
   */
  function CombatAbilities(characterClass: string): seq<Abilities.Ability> {
    Abilities.GetUnlockedAbilities(characterClass, 1)
  }

  /** `abilities.find(ab => mana >= ab.manaCost)`: the first affordable ability. */
  function FirstAffordable(abilities: seq<Abilities.Ability>, mana: int): (r: Option<nat>)
    ensures r.None? <==> forall i :: 0 <= i < |abilities| ==> mana < abilities[i].manaCost
    ensures r.Some? ==> r.value < |abilities| && mana >= abilities[r.value].manaCost
                        && forall i :: 0 <= i < r.value ==> mana < abilities[i].manaCost
  {
    if abilities == [] then None
    else if mana >= abilities[0].manaCost then Some(0)
    else match FirstAffordable(abilities[1..], mana)
         case None => None
         case Some(i) => Some(i + 1)
  }

  /** `party.findIndex(p => p.id === id)`. */
  function FindById(party: seq<Member>, id: string): (r: int)
    ensures -1 <= r < |party|
    ensures r >= 0 ==> party[r].id == id && forall i :: 0 <= i < r ==> party[i].id != id
    ensures r == -1 ==> forall i :: 0 <= i < |party| ==> party[i].id != id
  {
    if party == [] then -1
    else if party[0].id == id then 0
    else var r := FindById(party[1..], id); if r == -1 then -1 else r + 1
  }

  // ----- useAbility -----

  /** The party, the enemy's hp and the log after an action. */
  datatype Outcome = Outcome(party: seq<Member>, enemyHp: int, log: seq<LogEntry>)

  /** Damage and heal abilities carry a formula (`calculateDamage` reads it unguarded). */
  predicate FormulaReady(a: Abilities.Ability) {
    (a.effect.effectType == Abilities.Damage || a.effect.effectType == Abilities.Heal) ==> a.effect.formula.Some?
  }

  /** An ability as the class tables define it: a formula, a cost that is not negative, and at least one hit. */
  predicate Fightable(a: Abilities.Ability) {
    a.effect.formula.Some? && FormulaReady(a) && 0 <= a.manaCost && HitCount(a.effect) >= 1
  }

  /** The member's stats with `mana` reduced by `cost`. */
  function PayMana(m: Member, cost: int): Member {
    m.(stats := m.stats.(mana := m.stats.mana - cost))
  }

  /** No two members share an id. */
  predicate DistinctIds(s: seq<Member>) {
    forall i, j | 0 <= i < j < |s| :: s[i].id != s[j].id
  }

  /** No stat a formula can name is negative. */
  predicate NonNegativeStats(s: CombatStats) {
    0 <= s.maxHp && 0 <= s.strength && 0 <= s.agility && 0 <= s.mindPower
  }

  /** A member's mana is never negative, its hp never above its maximum, and no formula stat is negative. */
  predicate MemberSound(m: Member) {
    0 <= m.stats.mana && m.stats.hp <= m.stats.maxHp && NonNegativeStats(m.stats)
  }

  /** Distinct ids and sound members. */
  predicate PartySound(party: seq<Member>) {
    DistinctIds(party) && forall i | 0 <= i < |party| :: MemberSound(party[i])
  }

  /** Two changes of stats alone are one change of stats alone. */
  lemma OnlyStatsTrans(p: seq<Member>, q: seq<Member>, r: seq<Member>)
    requires OnlyStatsChange(p, q) && OnlyStatsChange(q, r)
    ensures OnlyStatsChange(p, r)
  {
    forall i | 0 <= i < |p| ensures r[i] == p[i].(stats := r[i].stats) {
      assert q[i] == p[i].(stats := q[i].stats);
    }
  }

  /** Changing only stats keeps the ids distinct. */
  lemma OnlyStatsKeepIds(p: seq<Member>, q: seq<Member>)
    requires OnlyStatsChange(p, q) && DistinctIds(p)
    ensures DistinctIds(q)
  {
    forall i, j | 0 <= i < j < |q| ensures q[i].id != q[j].id {
      assert q[i].id == p[i].id && q[j].id == p[j].id;
    }
  }

  /** With distinct ids, looking a member up by its id finds that member. */
  lemma FindByIdOfMember(party: seq<Member>, i: int)
    requires DistinctIds(party) && 0 <= i < |party|
    ensures FindById(party, party[i].id) == i
  {
  }

  /** Only stats may differ between the two parties: ids, names, classes and roles stay. */
  predicate OnlyStatsChange(p: seq<Member>, q: seq<Member>) {
    |p| == |q| && forall i | 0 <= i < |p| :: q[i] == p[i].(stats := q[i].stats)
  }

  /**
   * The AI's payment: the member found by id pays `cost` mana; when no
   * member has the id, the party is unchanged.
   */
  function PayById(party: seq<Member>, id: string, cost: int): (r: seq<Member>)
    ensures OnlyStatsChange(party, r)
    ensures var ci := FindById(party, id);
      && (forall i | 0 <= i < |party| && i != ci :: r[i] == party[i])
      && (ci >= 0 ==> r[ci].stats == party[ci].stats.(mana := party[ci].stats.mana - cost))
  {
    var ci := FindById(party, id);
    if ci >= 0 then party[ci := PayMana(party[ci], cost)] else party
  }

  /** The member's hp raised by `amount`, capped at maxHp. */
  function Heal(m: Member, amount: int): Member {
    m.(stats := m.stats.(hp := ApplyHeal(m.stats.hp, m.stats.maxHp, amount)))
  }

  /**
   * `useAbility(ability)` by the member at `cur` once its mana covers the cost:
   * the member found by id pays the mana; a damage ability hits the enemy
   * `hits || 1` times; a heal restores that member up to its maxHp; any other
   * ability only costs mana.  Damage and heal are computed from the caster's
   * stats.
   */
  function UseAbilityEffect(party: seq<Member>, cur: int, enemyHp: int, log: seq<LogEntry>, ability: Abilities.Ability)
    : (o: Outcome)
    requires 0 <= cur < |party| && FormulaReady(ability)
  {
    var c := party[cur];
    var ci := FindById(party, c.id);
    var paid := party[ci := PayMana(party[ci], ability.manaCost)];
    if ability.effect.effectType == Abilities.Damage then
      var total := AbilityDamage(ability.effect, c.stats);
      Outcome(paid, ApplyDamage(enemyHp, total), AddLog(log, UsedAbility(c.name, ability.name, total)))
    else if ability.effect.effectType == Abilities.Heal then
      var amount := CalculateDamage(ability.effect.formula.value, c.stats);
      Outcome(paid[ci := Heal(paid[ci], amount)], enemyHp, AddLog(log, Restored(c.name, ability.name, amount)))
    else Outcome(paid, enemyHp, log)
  }

  /**
   * The bookkeeping of an ability: the caster (found by id) pays exactly the
   * mana cost and no other member changes; damage is the formula's damage
   * times the hit count with the enemy's hp clamped at 0; a heal never lifts
   * hp above maxHp; other abilities leave the enemy and the log alone.
   */
  lemma UseAbilityBookkeeping(party: seq<Member>, cur: int, enemyHp: int, log: seq<LogEntry>, ability: Abilities.Ability)
    requires 0 <= cur < |party| && FormulaReady(ability)
    ensures var o := UseAbilityEffect(party, cur, enemyHp, log, ability);
      var ci := FindById(party, party[cur].id);
      && 0 <= ci < |party| && |o.party| == |party|
      && o.party[ci].stats.mana == party[ci].stats.mana - ability.manaCost
      && (forall i | 0 <= i < |party| && i != ci :: o.party[i] == party[i])
      && (ability.effect.effectType == Abilities.Damage ==>
            var total := AbilityDamage(ability.effect, party[cur].stats);
            o.enemyHp == ApplyDamage(enemyHp, total) && o.log[0] == UsedAbility(party[cur].name, ability.name, total)
            && o.party[ci].stats.hp == party[ci].stats.hp)
      && (ability.effect.effectType == Abilities.Heal ==>
            && o.enemyHp == enemyHp
            && o.party[ci].stats.hp <= party[ci].stats.maxHp
            && o.party[ci].stats.hp <= party[ci].stats.hp + CalculateDamage(ability.effect.formula.value, party[cur].stats))
      && (ability.effect.effectType != Abilities.Damage && ability.effect.effectType != Abilities.Heal ==>
            o.enemyHp == enemyHp && o.log == log && o.party[ci].stats.hp == party[ci].stats.hp)
  {
  }

  /**
   * An ability the caster can afford keeps the party sound: the caster's
   * mana stays non-negative, a heal stops at maxHp, nothing but stats
   * changes, and the enemy's hp only falls, never below 0.
   */
  lemma UseAbilityKeepsSound(party: seq<Member>, cur: int, enemyHp: int, log: seq<LogEntry>, ability: Abilities.Ability)
    requires 0 <= cur < |party| && PartySound(party) && Fightable(ability)
    requires party[cur].stats.mana >= ability.manaCost && 0 <= enemyHp
    ensures var o := UseAbilityEffect(party, cur, enemyHp, log, ability);
      && PartySound(o.party) && OnlyStatsChange(party, o.party)
      && 0 <= o.enemyHp <= enemyHp
      && (|log| <= 5 ==> |o.log| <= 5)
  {
    FindByIdOfMember(party, cur);
    UseAbilityBookkeeping(party, cur, enemyHp, log, ability);
    var o := UseAbilityEffect(party, cur, enemyHp, log, ability);
    forall i | 0 <= i < |o.party| ensures MemberSound(o.party[i]) {
      assert MemberSound(party[i]);
    }
    OnlyStatsKeepIds(party, o.party);
  }

  /** Paying mana the member has, found by its own id, keeps the party sound. */
  lemma PayByIdKeepsSound(party: seq<Member>, i: int, cost: int)
    requires 0 <= i < |party| && PartySound(party) && 0 <= cost <= party[i].stats.mana
    ensures PartySound(PayById(party, party[i].id, cost))
  {
    FindByIdOfMember(party, i);
    var r := PayById(party, party[i].id, cost);
    forall k | 0 <= k < |r| ensures MemberSound(r[k]) {
      assert MemberSound(party[k]);
    }
    OnlyStatsKeepIds(party, r);
  }

  // ----- The abilities a class fights with -----

  /** Every class fights with its slot-1 ability alone, and that ability has a formula; an unknown class has none. */
  lemma CombatAbilitiesOfClass(characterClass: string)
    ensures Abilities.IsClassKey(characterClass) ==>
      && |CombatAbilities(characterClass)| == 1
      && CombatAbilities(characterClass)[0] == Abilities.GetClassAbilities(characterClass)[0].1
      && CombatAbilities(characterClass)[0].slot == 1
    ensures !Abilities.IsClassKey(characterClass) ==> CombatAbilities(characterClass) == []
    ensures forall a | a in CombatAbilities(characterClass) :: Fightable(a)
  {
    if Abilities.IsClassKey(characterClass) {
      Abilities.UnlockCounts(characterClass, 1);
      Abilities.TableWellFormed(characterClass);
      FirstAbilityHasFormula(characterClass);
    } else {
      Abilities.UnknownClassHasNone(characterClass, 1);
    }
  }

  lemma FirstAbilityHasFormula(characterClass: string)
    requires Abilities.IsClassKey(characterClass)
    ensures |Abilities.GetClassAbilities(characterClass)| > 0
    ensures Fightable(Abilities.GetClassAbilities(characterClass)[0].1)
  {
    Abilities.AbilitiesOfEach(characterClass);
    match characterClass
    case "paladin" =>
    case "warrior" =>
    case "archer" =>
    case "mage" =>
    case "cleric" =>
  }

  /**
   * The ability an AI member uses: the first of its class's level-1
   * abilities that its mana covers, or none when it cannot afford any.
   */
  function AIChoice(m: Member): (r: Option<Abilities.Ability>)
    ensures r.Some? ==> && r.value in CombatAbilities(m.characterClass)
                        && m.stats.mana >= r.value.manaCost
                        && Fightable(r.value)
    ensures r.None? <==> forall a | a in CombatAbilities(m.characterClass) :: m.stats.mana < a.manaCost
  {
    var abilities := CombatAbilities(m.characterClass);
    CombatAbilitiesOfClass(m.characterClass);
    match FirstAffordable(abilities, m.stats.mana)
    case Some(k) => Some(abilities[k])
    case None => None
  }

  /** An AI that can afford none of the abilities offered uses none. */
  lemma AIChoiceNone(m: Member)
    requires var abilities := CombatAbilities(m.characterClass);
      forall i | 0 <= i < |abilities| :: m.stats.mana < abilities[i].manaCost
    ensures AIChoice(m).None?
  {
    assert FirstAffordable(CombatAbilities(m.characterClass), m.stats.mana).None?;
  }

  /** The AI takes the first ability, in the order offered, that its mana covers. */
  lemma AIChoiceFirst(m: Member, k: nat)
    requires k < |CombatAbilities(m.characterClass)|
    requires m.stats.mana >= CombatAbilities(m.characterClass)[k].manaCost
    requires forall i | 0 <= i < k :: m.stats.mana < CombatAbilities(m.characterClass)[i].manaCost
    ensures AIChoice(m) == Some(CombatAbilities(m.characterClass)[k])
  {
    var abilities := CombatAbilities(m.characterClass);
    var j := FirstAffordable(abilities, m.stats.mana).value;
    assert j == k;
  }
}
