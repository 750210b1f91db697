/**
 * src/components/BattleModal.jsx: the boss battle against the Doom-Scroll
 * Hydra.  The player fights at the head of a party of four with three AI
 * teammates of other classes; every member acts with its level-1
 * abilities; the turn passes round the party in index order; the battle is
 * won when the boss's hp reaches 0.
 *
 * The component's React state (party, boss hp, current turn, log, battle
 * state) is the datatype `BattleState`; each handler is a function from the
 * state before to the state after, with the `setTimeout` delays collapsed
 * (a handler and the updates it schedules are one step).  `Math.random()`
 * draws are a parameter of reals in [0, 1).
 */
module Battle {
  import Classes
  import Abilities
  import opened Combat

  const BossMaxHp: int := 2500

  /** The class list `generateAITeammate` draws from. */
  const BattleClasses: seq<string> := ["paladin", "warrior", "mage", "archer", "cleric"]

  datatype BattleState = BattleState(party: seq<Member>, bossHp: int, currentTurn: int, log: seq<LogEntry>, phase: Phase)

  /** The state before the modal opens: no party, the boss at full hp, turn 0, an empty log. */
  const Initial: BattleState := BattleState([], BossMaxHp, 0, [], Intro)

  // ----- Building the party -----

  /** `s.filter(c => c !== x)`. */
  function Without(s: seq<string>, x: string): (r: seq<string>)
    ensures forall c :: c in r <==> c in s && c != x
    ensures x !in s ==> r == s
  {
    if s == [] then []
    else (if s[0] == x then [] else [s[0]]) + Without(s[1..], x)
  }

  /** `classes.filter(c => c !== playerClass)`: the four other classes, or all five for a class not in the list. */
  function AvailableFor(playerClass: string): (r: seq<string>)
    ensures forall c :: c in r <==> c in BattleClasses && c != playerClass
    ensures |r| == if playerClass in BattleClasses then 4 else 5
  {
    Without(BattleClasses, playerClass)
  }

  /**
   * `generateAITeammate(index, playerClass)` with the draw `pick`: an AI
   * "AI <Class>" of a class other than the player's, at its class's full hp
   * and mana.
   */
  function Teammate(index: nat, playerClass: string, pick: real): (m: Member)
    requires 0.0 <= pick < 1.0
    ensures m.isAI && m.alive && m.id == AiId(index)
    ensures m.characterClass != playerClass && m.characterClass in BattleClasses
    ensures Classes.IsClass(m.characterClass)
    ensures m.name == "AI " + Classes.ClassConfig(m.characterClass).value.name
    ensures m.stats == FreshStats(Classes.ClassConfig(m.characterClass).value.baseStats)
  {
    var available := AvailableFor(playerClass);
    var characterClass := available[PickIndex(pick, |available|)];
    Classes.ClassKeysExact(characterClass);
    var data := Classes.ClassConfig(characterClass).value;
    Member(AiId(index), "AI " + data.name, characterClass, true, FreshStats(data.baseStats), true)
  }

  /** The player's combatant: id "player", not AI, with the saved stats as they are. */
  function PlayerCombatant(username: string, characterClass: string, stats: CombatStats): Member {
    Member("player", username, characterClass, false, stats, true)
  }

  /**
   * The opening effect: when the party is still empty, the player and three
   * teammates with ids ai_1 to ai_3, a log holding only the start message,
   * and the battle active; otherwise nothing changes.
   */
  function Open(s: BattleState, username: string, characterClass: string, stats: CombatStats, picks: seq<real>)
    : BattleState
    requires |picks| == 3 && InUnit(picks)
  {
    if s.party != [] then s
    else
      var party := [PlayerCombatant(username, characterClass, stats), Teammate(1, characterClass, picks[0]),
                    Teammate(2, characterClass, picks[1]), Teammate(3, characterClass, picks[2])];
      s.(party := party, log := [Started], phase := Active)
  }

  /**
   * The battle a fresh modal opens: the boss at full hp, turn 0, the start
   * message alone in the log, the battle active, and a party of four: the
   * player first with its stats as saved, then three AI teammates, ids
   * "player", ai_1, ai_2, ai_3 one each, no teammate of the player's class,
   * each teammate at full hp and mana.
   */
  lemma OpenParty(username: string, characterClass: string, stats: CombatStats, picks: seq<real>)
    requires |picks| == 3 && InUnit(picks)
    ensures var r := Open(Initial, username, characterClass, stats, picks);
      var p := r.party;
      && r.bossHp == BossMaxHp && r.currentTurn == 0 && r.log == [Started] && r.phase == Active
      && |p| == 4 && p[0].id == "player" && !p[0].isAI && p[0].stats == stats && p[0].name == username
      && DistinctIds(p)
      && forall i | 1 <= i < 4 ::
           && p[i].isAI && p[i].characterClass != characterClass && Classes.IsClass(p[i].characterClass)
           && p[i].stats.hp == p[i].stats.maxHp && p[i].stats.mana == p[i].stats.maxMana
  {
    var p := Open(Initial, username, characterClass, stats, picks).party;
    TeammateReady(1, characterClass, picks[0]);
    TeammateReady(2, characterClass, picks[1]);
    TeammateReady(3, characterClass, picks[2]);
    LineupReady(p, username, characterClass, stats);
  }

  /** A teammate `index` of a player of class `playerClass`: an AI of another real class, at full hp and mana. */
  predicate ReadyTeammate(m: Member, index: nat, playerClass: string) {
    && m.isAI && m.id == AiId(index) && m.characterClass != playerClass && Classes.IsClass(m.characterClass)
    && m.stats.hp == m.stats.maxHp && m.stats.mana == m.stats.maxMana
  }

  lemma TeammateReady(index: nat, playerClass: string, pick: real)
    requires 0.0 <= pick < 1.0
    ensures ReadyTeammate(Teammate(index, playerClass, pick), index, playerClass)
  {
    var m := Teammate(index, playerClass, pick);
    var b := Classes.ClassConfig(m.characterClass).value.baseStats;
    assert m.stats == FreshStats(b);
  }

  /** The player followed by teammates 1 to 3 make a lineup with distinct ids. */
  lemma LineupReady(p: seq<Member>, username: string, characterClass: string, stats: CombatStats)
    requires |p| == 4 && p[0] == PlayerCombatant(username, characterClass, stats)
    requires forall i | 1 <= i < 4 :: ReadyTeammate(p[i], i, characterClass)
    ensures p[0].id == "player" && !p[0].isAI && p[0].stats == stats && p[0].name == username
    ensures DistinctIds(p)
    ensures forall i | 1 <= i < 4 ::
      && p[i].isAI && p[i].characterClass != characterClass && Classes.IsClass(p[i].characterClass)
      && p[i].stats.hp == p[i].stats.maxHp && p[i].stats.mana == p[i].stats.maxMana
  {
    LineupIds(p);
  }

  /** The opening effect runs once: a battle with a party is left alone. */
  lemma OpenOnce(s: BattleState, username: string, characterClass: string, stats: CombatStats, picks: seq<real>)
    requires |picks| == 3 && InUnit(picks) && s.party != []
    ensures Open(s, username, characterClass, stats, picks) == s
  {
  }

  /** A teammate is sound: its class's base stats are positive, and it starts at full hp and mana. */
  lemma TeammateSound(index: nat, playerClass: string, pick: real)
    requires 0.0 <= pick < 1.0
    ensures MemberSound(Teammate(index, playerClass, pick))
  {
    Classes.ClassBudget(Teammate(index, playerClass, pick).characterClass);
  }

  /** A battle opened for a sound player is sound. */
  lemma OpenSound(username: string, characterClass: string, stats: CombatStats, picks: seq<real>)
    requires |picks| == 3 && InUnit(picks)
    requires MemberSound(PlayerCombatant(username, characterClass, stats))
    ensures Sound(Open(Initial, username, characterClass, stats, picks))
  {
    var r := Open(Initial, username, characterClass, stats, picks);
    OpenParty(username, characterClass, stats, picks);
    TeammateSound(1, characterClass, picks[0]);
    TeammateSound(2, characterClass, picks[1]);
    TeammateSound(3, characterClass, picks[2]);
    assert forall i | 0 <= i < 4 :: MemberSound(r.party[i]);
  }

  // ----- Turns -----

  /** The battle is sound: a member holds the turn, the boss's hp is in range and 0 exactly when won, the log within five lines, the party sound. */
  predicate Sound(s: BattleState) {
    && 0 <= s.currentTurn < |s.party|
    && 0 <= s.bossHp <= BossMaxHp
    && s.phase != Intro
    && (s.phase == Won <==> s.bossHp == 0)
    && |s.log| <= 5
    && PartySound(s.party)
  }

  /** `nextTurn()`: the turn passes to the next member, the last one handing it back to the first. */
  function NextTurn(s: BattleState): (r: BattleState)
    requires |s.party| > 0
  {
    s.(currentTurn := (s.currentTurn + 1) % |s.party|)
  }

  /** The member holding the turn after `k` calls of `nextTurn`, from `cur` in a party of `n`. */
  function TurnAfter(cur: nat, n: nat, k: nat): nat
    requires n > 0
  {
    if k == 0 then cur else (TurnAfter(cur, n, k - 1) + 1) % n
  }

  /** Within one round, `k` calls of `nextTurn` from `cur` count `k` members on, wrapping past the last. */
  lemma {:induction false} TurnAfterWithinRound(cur: nat, n: nat, k: nat)
    requires cur < n && k < n
    ensures TurnAfter(cur, n, k) == if cur + k < n then cur + k else cur + k - n
  {
    if k > 0 {
      TurnAfterWithinRound(cur, n, k - 1);
      SmallMod(TurnAfter(cur, n, k - 1) + 1, n);
    }
  }

  /** Every member gets the turn within a round: from `cur`, member `j` holds it after fewer than `n` calls. */
  lemma EveryMemberPlays(cur: nat, n: nat, j: nat)
    requires cur < n && j < n
    ensures exists k | 0 <= k < n :: TurnAfter(cur, n, k) == j
  {
    var k := if j >= cur then j - cur else j + n - cur;
    TurnAfterWithinRound(cur, n, k);
  }

  // ----- useAbility -----

  /**
   * `useAbility(ability)`: refused, changing nothing, when no member holds
   * the turn or its mana is short of the cost; otherwise the ability's
   * effect (the caster pays the mana, a damage ability hits the boss, a
   * heal restores the caster), victory when a damage ability brings the
   * boss's hp to 0, and the turn passes on.
   */
  function UseAbility(s: BattleState, ability: Abilities.Ability): (r: BattleState)
    requires FormulaReady(ability)
    ensures !(0 <= s.currentTurn < |s.party|) || s.party[s.currentTurn].stats.mana < ability.manaCost ==> r == s
  {
    if !(0 <= s.currentTurn < |s.party|) || s.party[s.currentTurn].stats.mana < ability.manaCost then s
    else
      var cur := s.currentTurn;
      var o := UseAbilityEffect(s.party, cur, s.bossHp, s.log, ability);
      var won := ability.effect.effectType == Abilities.Damage && o.enemyHp <= 0;
      BattleState(o.party, o.enemyHp, (cur + 1) % |s.party|,
                  if won then AddLog(o.log, Victory) else o.log,
                  if won then Won else s.phase)
  }

  /**
   * An ability the caster can afford: the caster (found by id) pays exactly
   * the cost and no other member changes; the turn passes on; a damage
   * ability takes the formula's damage times the hit count off the boss's
   * hp, clamped at 0, and wins exactly when that reaches 0, the victory
   * message following the ability's; a heal leaves the boss alone and
   * never lifts the caster above its maxHp.
   */
  lemma UseAbilityOutcome(s: BattleState, ability: Abilities.Ability)
    requires FormulaReady(ability)
    requires 0 <= s.currentTurn < |s.party| && s.party[s.currentTurn].stats.mana >= ability.manaCost
    ensures var r := UseAbility(s, ability);
      var caster := s.party[s.currentTurn];
      var ci := FindById(s.party, caster.id);
      && 0 <= ci < |s.party| && |r.party| == |s.party|
      && r.party[ci].stats.mana == s.party[ci].stats.mana - ability.manaCost
      && (forall i | 0 <= i < |s.party| && i != ci :: r.party[i] == s.party[i])
      && r.currentTurn == (s.currentTurn + 1) % |s.party|
      && (ability.effect.effectType == Abilities.Damage ==>
            var total := AbilityDamage(ability.effect, caster.stats);
            && r.bossHp == ApplyDamage(s.bossHp, total)
            && (r.bossHp == 0 ==> r.phase == Won && r.log[0] == Victory && r.log[1] == UsedAbility(caster.name, ability.name, total))
            && (r.bossHp != 0 ==> r.phase == s.phase && r.log[0] == UsedAbility(caster.name, ability.name, total)))
      && (ability.effect.effectType == Abilities.Heal ==>
            && r.bossHp == s.bossHp && r.phase == s.phase
            && r.party[ci].stats.hp <= s.party[ci].stats.maxHp)
  {
    Combat.UseAbilityBookkeeping(s.party, s.currentTurn, s.bossHp, s.log, ability);
  }

  /** An ability the class tables define keeps the battle sound, changing only stats and only lowering the boss's hp. */
  lemma UseAbilityKeeps(s: BattleState, ability: Abilities.Ability)
    requires Sound(s) && Fightable(ability)
    ensures var r := UseAbility(s, ability);
      Sound(r) && OnlyStatsChange(s.party, r.party) && r.bossHp <= s.bossHp
  {
    var cur := s.currentTurn;
    if s.party[cur].stats.mana >= ability.manaCost {
      UseAbilityKeepsSound(s.party, cur, s.bossHp, s.log, ability);
    }
  }

  // ----- The AI's turn -----

  /**
   * The AI-turn effect: while the battle is active and an AI holds the
   * turn, it uses the first of its level-1 abilities its mana covers, or,
   * when it covers none, is reported out of mana and passes the turn.
   */
  function AITurn(s: BattleState): (r: BattleState)
    ensures s.phase != Active || !(0 <= s.currentTurn < |s.party|) || !s.party[s.currentTurn].isAI ==> r == s
  {
    if s.phase != Active || !(0 <= s.currentTurn < |s.party|) || !s.party[s.currentTurn].isAI then s
    else
      var m := s.party[s.currentTurn];
      match AIChoice(m)
      case Some(ability) => UseAbility(s, ability)
      case None => PassOutOfMana(s)
  }

  /** The AI holding the turn is reported out of mana and the turn passes on. */
  function PassOutOfMana(s: BattleState): BattleState
    requires 0 <= s.currentTurn < |s.party|
  {
    NextTurn(s.(log := AddLog(s.log, OutOfMana(s.party[s.currentTurn].name))))
  }

  /** An AI holding the turn uses the first of its level-1 abilities, in slot order, that its mana covers. */
  lemma AITurnUsesFirst(s: BattleState, k: nat)
    requires s.phase == Active && 0 <= s.currentTurn < |s.party| && s.party[s.currentTurn].isAI
    requires var m := s.party[s.currentTurn]; var abilities := CombatAbilities(m.characterClass);
      && k < |abilities| && m.stats.mana >= abilities[k].manaCost
      && forall i | 0 <= i < k :: m.stats.mana < abilities[i].manaCost
    ensures var m := s.party[s.currentTurn];
      && AIChoice(m) == Wrappers.Some(CombatAbilities(m.characterClass)[k])
      && AITurn(s) == UseAbility(s, AIChoice(m).value)
  {
    AIChoiceFirst(s.party[s.currentTurn], k);
  }

  /**
   * An AI holding the turn that can afford none of its abilities is reported
   * out of mana and passes the turn; party, boss and battle state stay.
   */
  lemma AITurnOutOfMana(s: BattleState)
    requires s.phase == Active && 0 <= s.currentTurn < |s.party| && s.party[s.currentTurn].isAI
    requires var m := s.party[s.currentTurn]; var abilities := CombatAbilities(m.characterClass);
      forall i | 0 <= i < |abilities| :: m.stats.mana < abilities[i].manaCost
    ensures var r := AITurn(s); var m := s.party[s.currentTurn];
      && r.party == s.party && r.bossHp == s.bossHp && r.phase == s.phase
      && r.log == AddLog(s.log, OutOfMana(m.name))
      && r.currentTurn == (s.currentTurn + 1) % |s.party|
  {
    var m := s.party[s.currentTurn];
    Combat.AIChoiceNone(m);
    assert AIChoice(m).None?;
    var r := PassOutOfMana(s);
    assert AITurn(s) == r;
    assert r.party == s.party && r.log == AddLog(s.log, OutOfMana(m.name));
  }

  /** An AI turn keeps the battle sound, changing only stats and only lowering the boss's hp. */
  lemma AITurnKeeps(s: BattleState)
    requires Sound(s)
    ensures var r := AITurn(s);
      Sound(r) && OnlyStatsChange(s.party, r.party) && r.bossHp <= s.bossHp
  {
    if s.phase == Active && s.party[s.currentTurn].isAI {
      var m := s.party[s.currentTurn];
      match AIChoice(m)
      case Some(ability) => UseAbilityKeeps(s, ability);
      case None =>
    }
  }
}
