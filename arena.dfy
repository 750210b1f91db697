/**
 * src/components/ArenaModal.jsx: the arena fight against the Orc Warrior.
 * The player is joined by AI teammates so that the party of four always
 * holds a paladin and a cleric; the party acts in order of agility; the
 * player's attack or ability is followed by the run of AI turns up to the
 * next human member, and the fight is won when the orc's hp reaches 0.
 *
 * The component's React state (party, enemy, current turn, log, battle
 * state) is the datatype `Arena`; each handler is a function or method from
 * the state before to the state after.  `Math.random()` draws are a
 * parameter `picks` of reals in [0, 1).
 */
module Arena {
  import opened Wrappers
  import Text
  import Classes
  import Abilities
  import opened Combat

  const OrcMaxHp: int := 800

  // ----- generateArenaTeam -----

  /** The stats a save carries; `mana` and `maxMana` may be missing from an older save. */
  datatype SavedStats = SavedStats(hp: int, maxHp: int, mana: Option<int>, maxMana: Option<int>,
                                   strength: int, agility: int, mindPower: int)

  /** The `playerStats` prop: the fields generateArenaTeam reads. */
  datatype PlayerStats = PlayerStats(username: string, characterClass: string, stats: SavedStats)

  /**
   * The player's combatant: id "player", not AI, its saved stats with maxMana
   * defaulting to mindPower * 10, and mana kept when the save has it,
   * otherwise full.
   */
  function PlayerCombatant(p: PlayerStats): (m: Member)
    ensures m.id == "player" && !m.isAI && m.alive
    ensures m.characterClass == p.characterClass && m.name == p.username
    ensures m.stats.maxMana == NumberOr(p.stats.maxMana, p.stats.mindPower * 10)
    ensures m.stats.mana == if p.stats.mana.Some? then p.stats.mana.value else m.stats.maxMana
    ensures m.stats.hp == p.stats.hp && m.stats.maxHp == p.stats.maxHp && m.stats.agility == p.stats.agility
  {
    var maxMana := NumberOr(p.stats.maxMana, p.stats.mindPower * 10);
    var mana := if p.stats.mana.Some? then p.stats.mana.value else NumberOr(p.stats.maxMana, p.stats.mindPower * 10);
    Member("player", p.username, p.characterClass, false,
           CombatStats(p.stats.hp, p.stats.maxHp, mana, maxMana, p.stats.strength, p.stats.agility, p.stats.mindPower),
           true)
  }

  /** `generateAITeammate(index, characterClass)`: an AI "<Class> Ally" of that class at full hp and mana. */
  function Teammate(index: nat, characterClass: string): (m: Member)
    requires Classes.IsClass(characterClass)
    ensures m.isAI && m.alive && m.id == AiId(index) && m.characterClass == characterClass
    ensures m.name == Classes.ClassConfig(characterClass).value.name + " Ally"
    ensures m.stats == FreshStats(Classes.ClassConfig(characterClass).value.baseStats)
  {
    var data := Classes.ClassConfig(characterClass).value;
    Member(AiId(index), data.name + " Ally", characterClass, true, FreshStats(data.baseStats), true)
  }

  const RequiredClasses: seq<string> := ["paladin", "cleric"]

  /** `requiredClasses.filter(c => c !== playerClass)`. */
  function NeededClasses(playerClass: string): (r: seq<string>)
    ensures r == if playerClass == "paladin" then ["cleric"]
                 else if playerClass == "cleric" then ["paladin"]
                 else RequiredClasses
  {
    if playerClass == "paladin" then ["cleric"]
    else if playerClass == "cleric" then ["paladin"]
    else RequiredClasses
  }

  /** The classes a random slot draws from: warrior, mage, archer, and each required class the player already covers. */
  function AvailableClasses(needed: seq<string>): seq<string> {
    ["warrior", "mage", "archer"]
    + (if "paladin" !in needed then ["paladin"] else [])
    + (if "cleric" !in needed then ["cleric"] else [])
  }

  /** The teammates the `forEach` over the needed classes adds: the first `n`, with ids ai_1, ai_2, ... */
  function RequiredTeammates(needed: seq<string>, n: nat): (r: seq<Member>)
    requires n <= |needed| && forall c | c in needed :: Classes.IsClass(c)
    ensures |r| == n
    ensures forall i | 0 <= i < n :: r[i] == Teammate(i + 1, needed[i])
  {
    if n == 0 then [] else RequiredTeammates(needed, n - 1) + [Teammate(n, needed[n - 1])]
  }

  /** An AI member of a class of the table at that class's full hp and mana. */
  predicate IsTeammate(m: Member) {
    && m.isAI && Classes.IsClass(m.characterClass)
    && m.stats == FreshStats(Classes.ClassConfig(m.characterClass).value.baseStats)
  }

  /** An AI teammate made by `generateAITeammate(index, c)` for a class `c` of the table. */
  predicate FreshTeammate(m: Member, index: nat) {
    IsTeammate(m) && m.id == AiId(index)
  }

  /** The `while (party.length < 4)` fill: each new teammate takes the next draw and the index `party.length`. */
  function Fill(party: seq<Member>, available: seq<string>, picks: seq<real>): (r: seq<Member>)
    requires |available| > 0 && forall c | c in available :: Classes.IsClass(c)
    requires InUnit(picks) && |party| + |picks| >= 4
    decreases 4 - |party|
  {
    if |party| >= 4 then party
    else Fill(party + [Teammate(|party|, available[PickIndex(picks[0], |available|)])], available, picks[1..])
  }

  /** The fill keeps the party it starts from and tops it up to four. */
  lemma {:induction false} FillPrefix(party: seq<Member>, available: seq<string>, picks: seq<real>)
    requires |available| > 0 && forall c | c in available :: Classes.IsClass(c)
    requires InUnit(picks) && |party| + |picks| >= 4
    ensures var r := Fill(party, available, picks);
      |r| == (if |party| < 4 then 4 else |party|) && r[..|party|] == party
    decreases 4 - |party|
  {
    if |party| < 4 {
      var next := Teammate(|party|, available[PickIndex(picks[0], |available|)]);
      FillPrefix(party + [next], available, picks[1..]);
      var r := Fill(party, available, picks);
      assert r[..|party|] == r[..|party| + 1][..|party|];
    }
  }

  /** Every member the fill adds is a fresh teammate of an available class, with the id of its position. */
  lemma {:induction false} FillTeammates(party: seq<Member>, available: seq<string>, picks: seq<real>)
    requires |available| > 0 && forall c | c in available :: Classes.IsClass(c)
    requires InUnit(picks) && |party| + |picks| >= 4
    ensures var r := Fill(party, available, picks);
      forall i | |party| <= i < |r| :: FreshTeammate(r[i], i) && r[i].characterClass in available
    decreases 4 - |party|
  {
    if |party| < 4 {
      var next := Teammate(|party|, available[PickIndex(picks[0], |available|)]);
      FillTeammates(party + [next], available, picks[1..]);
      FillPrefix(party + [next], available, picks[1..]);
      var r := Fill(party, available, picks);
      assert r[|party|] == r[..|party| + 1][|party|];
    }
  }

  /** Every class the team draws from is a class of the table, and the random draw has a choice. */
  lemma TeamClassesKnown(playerClass: string)
    ensures forall c | c in NeededClasses(playerClass) :: Classes.IsClass(c)
    ensures |AvailableClasses(NeededClasses(playerClass))| >= 3
    ensures forall c | c in AvailableClasses(NeededClasses(playerClass)) :: Classes.IsClass(c)
  {
    var needed := NeededClasses(playerClass);
    var known := ["paladin", "warrior", "mage", "archer", "cleric"];
    forall c | c in known ensures Classes.IsClass(c) {
      Classes.ClassKeysExact(c);
    }
    assert forall c | c in needed :: c in known;
    assert forall c | c in AvailableClasses(needed) :: c in known;
  }

  /**
   * The team before sorting, for the player's combatant, the needed classes
   * and the classes a random slot draws from: the player, one teammate per
   * needed class, then the random fill.
   */
  function Lineup(player: Member, needed: seq<string>, available: seq<string>, picks: seq<real>): seq<Member>
    requires 1 <= |needed| <= 2 && forall c | c in needed :: Classes.IsClass(c)
    requires |available| > 0 && forall c | c in available :: Classes.IsClass(c)
    requires InUnit(picks) && |picks| >= 2
  {
    Fill([player] + RequiredTeammates(needed, |needed|), available, picks)
  }

  /** The party `generateArenaTeam` builds before sorting it. */
  function Roster(p: PlayerStats, picks: seq<real>): seq<Member>
    requires InUnit(picks) && |picks| >= 2
  {
    TeamClassesKnown(p.characterClass);
    var needed := NeededClasses(p.characterClass);
    Lineup(PlayerCombatant(p), needed, AvailableClasses(needed), picks)
  }

  /**
   * `generateArenaTeam(playerStats)`: the roster, sorted by agility from
   * highest to lowest with ties in roster order.
   */
  method GenerateArenaTeam(p: PlayerStats, picks: seq<real>) returns (party: seq<Member>)
    requires InUnit(picks) && |picks| >= 2
    ensures party == SortByAgility(Roster(p, picks))
  {
    party := [PlayerCombatant(p)];
    var needed := NeededClasses(p.characterClass);
    TeamClassesKnown(p.characterClass);
    for index := 0 to |needed|
      invariant party == [PlayerCombatant(p)] + RequiredTeammates(needed, index)
    {
      party := party + [Teammate(index + 1, needed[index])];
    }
    party := FillParty(party, AvailableClasses(needed), picks);
    party := SortByAgility(party);
  }

  /** The random fill as the loop runs it. */
  method FillParty(party0: seq<Member>, available: seq<string>, picks: seq<real>) returns (party: seq<Member>)
    requires |available| > 0 && forall c | c in available :: Classes.IsClass(c)
    requires InUnit(picks) && |party0| + |picks| >= 4
    ensures party == Fill(party0, available, picks)
  {
    party := party0;
    var draw := 0;
    while |party| < 4
      invariant 0 <= draw <= |picks| && |party| + |picks| - draw >= 4
      invariant Fill(party, available, picks[draw..]) == Fill(party0, available, picks)
      decreases 4 - |party|
    {
      var randomClass := available[PickIndex(picks[draw], |available|)];
      assert picks[draw..][1..] == picks[draw + 1..];
      party := party + [Teammate(|party|, randomClass)];
      draw := draw + 1;
    }
  }

  /**
   * The lineup's shape: four members, the player first, then a fresh
   * teammate with id ai_i at each position i, the first ones of the needed
   * classes.
   */
  lemma LineupShape(player: Member, needed: seq<string>, available: seq<string>, picks: seq<real>)
    requires 1 <= |needed| <= 2 && forall c | c in needed :: Classes.IsClass(c)
    requires |available| > 0 && forall c | c in available :: Classes.IsClass(c)
    requires InUnit(picks) && |picks| >= 2
    ensures var r := Lineup(player, needed, available, picks);
      && |r| == 4
      && r[0] == player
      && (forall i | 1 <= i < 4 :: FreshTeammate(r[i], i))
      && (forall k | 0 <= k < |needed| :: r[k + 1].characterClass == needed[k])
  {
    var head := [player] + RequiredTeammates(needed, |needed|);
    var r := Lineup(player, needed, available, picks);
    FillPrefix(head, available, picks);
    FillTeammates(head, available, picks);
    assert r[..|head|] == head;
    assert forall i | 0 <= i < |head| :: r[i] == head[i];
  }

  /**
   * The team after sorting, for any player combatant: four members from
   * most to least agile, carrying the ids "player", ai_1, ai_2, ai_3 one
   * each; the player is present and every other member is a fresh
   * teammate; every needed class is present.
   */
  lemma SortedLineupShape(player: Member, needed: seq<string>, available: seq<string>, picks: seq<real>)
    requires 1 <= |needed| <= 2 && forall c | c in needed :: Classes.IsClass(c)
    requires |available| > 0 && forall c | c in available :: Classes.IsClass(c)
    requires InUnit(picks) && |picks| >= 2
    requires player.id == "player"
    ensures var t := SortByAgility(Lineup(player, needed, available, picks));
      && |t| == 4 && AgilityDescending(t) && DistinctIds(t)
      && (forall i | 0 <= i < 4 :: TeamId(t[i].id))
      && (forall i | 0 <= i < 4 :: t[i] == player || IsTeammate(t[i]))
      && (exists i | 0 <= i < 4 :: t[i] == player)
      && (forall k | 0 <= k < |needed| :: exists i | 0 <= i < 4 :: t[i].characterClass == needed[k])
  {
    var r := Lineup(player, needed, available, picks);
    var t := SortByAgility(r);
    LineupShape(player, needed, available, picks);
    LineupIds(r);
    var ok := (m: Member) => m == player || IsTeammate(m);
    assert forall j | 0 <= j < 4 :: ok(r[j]);
    SortedShape(r, ok);
    var i0 :| 0 <= i0 < 4 && t[i0] == r[0];
    forall k | 0 <= k < |needed|
      ensures exists i | 0 <= i < 4 :: t[i].characterClass == needed[k]
    {
      var i :| 0 <= i < 4 && t[i] == r[k + 1];
    }
  }

  /**
   * What sorting keeps of a lineup: its size, its distinct ids, every
   * member, and whatever property all members share.
   */
  lemma SortedShape(r: seq<Member>, ok: Member -> bool)
    requires |r| == 4 && DistinctIds(r)
    requires forall i | 0 <= i < 4 :: TeamId(r[i].id)
    requires forall j | 0 <= j < 4 :: ok(r[j])
    ensures var t := SortByAgility(r);
      && |t| == 4 && AgilityDescending(t) && DistinctIds(t)
      && (forall i | 0 <= i < 4 :: TeamId(t[i].id))
      && (forall i | 0 <= i < 4 :: ok(t[i]))
      && (forall j | 0 <= j < 4 :: exists i | 0 <= i < 4 :: t[i] == r[j])
  {
    var t := SortByAgility(r);
    SortByAgilitySpec(r);
    SortKeepsDistinctIds(r);
    SameMembers(r, t);
    SortedIds(r, t);
    SortedMembers(r, t, ok);
  }

  lemma SortedIds(r: seq<Member>, t: seq<Member>)
    requires |r| == |t| == 4 && forall i | 0 <= i < 4 :: TeamId(r[i].id)
    requires forall i | 0 <= i < |t| :: exists j | 0 <= j < |r| :: t[i] == r[j]
    ensures forall i | 0 <= i < 4 :: TeamId(t[i].id)
  {
    forall i | 0 <= i < 4 ensures TeamId(t[i].id) {
      var j :| 0 <= j < |r| && t[i] == r[j];
    }
  }

  /** A property every member of the original has, every member of the rearrangement has. */
  lemma SortedMembers(r: seq<Member>, t: seq<Member>, ok: Member -> bool)
    requires forall j | 0 <= j < |r| :: ok(r[j])
    requires forall i | 0 <= i < |t| :: exists j | 0 <= j < |r| :: t[i] == r[j]
    ensures forall i | 0 <= i < |t| :: ok(t[i])
  {
    forall i | 0 <= i < |t| ensures ok(t[i]) {
      var j :| 0 <= j < |r| && t[i] == r[j];
    }
  }

  /**
   * The team `generateArenaTeam` returns: four members from most to least
   * agile, the ids "player", ai_1, ai_2, ai_3 each carried by exactly one
   * member, the player's combatant the only member that is not AI, every
   * other member a fresh teammate, and a paladin and a cleric present.
   */
  lemma ArenaTeamShape(p: PlayerStats, picks: seq<real>)
    requires InUnit(picks) && |picks| >= 2
    ensures var t := SortByAgility(Roster(p, picks));
      && |t| == 4 && AgilityDescending(t) && DistinctIds(t)
      && (forall i | 0 <= i < 4 :: TeamId(t[i].id))
      && (forall i | 0 <= i < 4 :: t[i] == PlayerCombatant(p) || IsTeammate(t[i]))
      && (exists i | 0 <= i < 4 :: t[i] == PlayerCombatant(p))
      && (exists i | 0 <= i < 4 :: t[i].characterClass == "paladin")
      && (exists i | 0 <= i < 4 :: t[i].characterClass == "cleric")
  {
    TeamClassesKnown(p.characterClass);
    var needed := NeededClasses(p.characterClass);
    SortedLineupShape(PlayerCombatant(p), needed, AvailableClasses(needed), picks);
    var t := SortByAgility(Roster(p, picks));
    var i0 :| 0 <= i0 < 4 && t[i0] == PlayerCombatant(p);
    if p.characterClass == "paladin" {
      assert needed[0] == "cleric";
    } else if p.characterClass == "cleric" {
      assert needed[0] == "paladin";
    } else {
      assert needed[0] == "paladin" && needed[1] == "cleric";
    }
  }

  /** Each member of a rearrangement stands somewhere in the original. */
  lemma SameMembers(r: seq<Member>, t: seq<Member>)
    requires multiset(r) == multiset(t)
    ensures forall i | 0 <= i < |t| :: exists j | 0 <= j < |r| :: t[i] == r[j]
    ensures forall j | 0 <= j < |r| :: exists i | 0 <= i < |t| :: t[i] == r[j]
  {
    forall i | 0 <= i < |t| ensures exists j | 0 <= j < |r| :: t[i] == r[j] {
      assert t[i] in multiset(r);
    }
    forall j | 0 <= j < |r| ensures exists i | 0 <= i < |t| :: t[i] == r[j] {
      assert r[j] in multiset(t);
    }
  }

  // ----- party.sort((a, b) => b.stats.agility - a.stats.agility) -----

  /** Inserts `m` after every member at least as agile: before the first strictly slower one. */
  function InsertByAgility(m: Member, s: seq<Member>): seq<Member> {
    if s == [] then [m]
    else if s[0].stats.agility < m.stats.agility then [m] + s
    else [s[0]] + InsertByAgility(m, s[1..])
  }

  /**
   * The stable sort by agility, highest first (`Array.prototype.sort` is
   * stable): an insertion sort that places each later member after the
   * earlier ones of equal agility.
   */
  function SortByAgility(s: seq<Member>): seq<Member> {
    if s == [] then [] else InsertByAgility(s[|s| - 1], SortByAgility(s[..|s| - 1]))
  }

  predicate AgilityDescending(s: seq<Member>) {
    forall i, j | 0 <= i < j < |s| :: s[i].stats.agility >= s[j].stats.agility
  }

  /** The members of `s` with agility `v`, in order. */
  function WithAgility(s: seq<Member>, v: int): seq<Member> {
    if s == [] then [] else (if s[0].stats.agility == v then [s[0]] else []) + WithAgility(s[1..], v)
  }

  lemma {:induction false} InsertMembers(m: Member, s: seq<Member>)
    ensures multiset(InsertByAgility(m, s)) == multiset(s) + multiset{m}
  {
    if s != [] && s[0].stats.agility >= m.stats.agility {
      InsertMembers(m, s[1..]);
      assert s == [s[0]] + s[1..];
      assert InsertByAgility(m, s) == [s[0]] + InsertByAgility(m, s[1..]);
    }
  }

  lemma {:induction false} InsertSorted(m: Member, s: seq<Member>)
    requires AgilityDescending(s)
    ensures AgilityDescending(InsertByAgility(m, s))
  {
    if s != [] && s[0].stats.agility >= m.stats.agility {
      InsertSorted(m, s[1..]);
      InsertMembers(m, s[1..]);
      var t := InsertByAgility(m, s[1..]);
      forall j | 0 <= j < |t|
        ensures s[0].stats.agility >= t[j].stats.agility
      {
        assert t[j] in multiset(s[1..]) + multiset{m};
      }
    }
  }

  lemma {:induction false} InsertStable(m: Member, s: seq<Member>, v: int)
    requires AgilityDescending(s)
    ensures WithAgility(InsertByAgility(m, s), v) == WithAgility(s, v) + (if m.stats.agility == v then [m] else [])
  {
    if s == [] {
    } else if s[0].stats.agility < m.stats.agility {
      assert ([m] + s)[1..] == s;
      if m.stats.agility == v {
        NoneWithAgility(s, v);
      }
    } else {
      InsertStable(m, s[1..], v);
      assert ([s[0]] + InsertByAgility(m, s[1..]))[1..] == InsertByAgility(m, s[1..]);
    }
  }

  /** In a list sorted by agility whose head is slower than `v`, no member has agility `v`. */
  lemma NoneWithAgility(s: seq<Member>, v: int)
    requires AgilityDescending(s) && (s == [] || s[0].stats.agility < v)
    ensures WithAgility(s, v) == []
  {
    if s != [] {
      NoneWithAgility(s[1..], v);
    }
  }

  lemma WithAgilityAppend(s: seq<Member>, m: Member, v: int)
    ensures WithAgility(s + [m], v) == WithAgility(s, v) + (if m.stats.agility == v then [m] else [])
  {
    if s != [] {
      assert (s + [m])[1..] == s[1..] + [m];
      WithAgilityAppend(s[1..], m, v);
    }
  }

  /**
   * The agility sort orders the party from most to least agile, keeps
   * every member exactly once, and keeps members of equal agility in their
   * original order.
   */
  lemma {:induction false} SortByAgilitySpec(s: seq<Member>)
    ensures |SortByAgility(s)| == |s|
    ensures AgilityDescending(SortByAgility(s))
    ensures multiset(SortByAgility(s)) == multiset(s)
    ensures forall v :: WithAgility(SortByAgility(s), v) == WithAgility(s, v)
  {
    if s != [] {
      var init := s[..|s| - 1];
      var last := s[|s| - 1];
      SortByAgilitySpec(init);
      InsertMembers(last, SortByAgility(init));
      InsertSorted(last, SortByAgility(init));
      assert s == init + [last];
      forall v ensures WithAgility(SortByAgility(s), v) == WithAgility(s, v) {
        InsertStable(last, SortByAgility(init), v);
        WithAgilityAppend(init, last, v);
      }
      assert |SortByAgility(s)| == |multiset(SortByAgility(s))|;
    }
  }

  lemma {:induction false} InsertKeepsDistinctIds(m: Member, s: seq<Member>)
    requires DistinctIds(s) && forall x | x in s :: x.id != m.id
    ensures DistinctIds(InsertByAgility(m, s))
  {
    if s != [] && s[0].stats.agility >= m.stats.agility {
      InsertKeepsDistinctIds(m, s[1..]);
      InsertMembers(m, s[1..]);
      var t := InsertByAgility(m, s[1..]);
      forall j | 0 <= j < |t|
        ensures s[0].id != t[j].id
      {
        assert t[j] in multiset(s[1..]) + multiset{m};
      }
    }
  }

  /** Sorting never puts two members with one id side by side where there were none. */
  lemma {:induction false} SortKeepsDistinctIds(s: seq<Member>)
    requires DistinctIds(s)
    ensures DistinctIds(SortByAgility(s))
  {
    if s != [] {
      var init := s[..|s| - 1];
      SortKeepsDistinctIds(init);
      SortByAgilitySpec(init);
      forall x | x in SortByAgility(init)
        ensures x.id != s[|s| - 1].id
      {
        assert x in multiset(init);
      }
      InsertKeepsDistinctIds(s[|s| - 1], SortByAgility(init));
    }
  }

  // ----- The fight -----

  /** The component's fight state: the party, the orc's hp, whose turn it is, the log and the battle state. */
  datatype ArenaState = ArenaState(party: seq<Member>, enemyHp: int, currentTurn: int, log: seq<LogEntry>, phase: Phase)

  /** `party.findIndex(member => !member.isAI)`. */
  function FirstHuman(party: seq<Member>): (r: int)
    ensures -1 <= r < |party|
    ensures r >= 0 ==> !party[r].isAI && forall i | 0 <= i < r :: party[i].isAI
    ensures r == -1 ==> forall i | 0 <= i < |party| :: party[i].isAI
  {
    if party == [] then -1
    else if !party[0].isAI then 0
    else var r := FirstHuman(party[1..]); if r == -1 then -1 else r + 1
  }

  /** The opening effect: the orc at full hp, the turn on the first human member (or 0), one log line, the battle active. */
  function Start(party: seq<Member>): ArenaState {
    var h := FirstHuman(party);
    ArenaState(party, OrcMaxHp, if h >= 0 then h else 0, [Started], Active)
  }

  /**
   * The invariant of a fight under way: the turn points into the party, the
   * orc's hp stays within 0..800 and is 0 exactly when the fight is won, the
   * log holds at most five lines, ids are distinct and every member is sound.
   */
  predicate Sound(a: ArenaState) {
    && 0 <= a.currentTurn < |a.party|
    && 0 <= a.enemyHp <= OrcMaxHp
    && a.phase != Intro
    && (a.phase == Won <==> a.enemyHp == 0)
    && |a.log| <= 5
    && PartySound(a.party)
  }

  /**
   * The generated team opens on the player's turn, and the fight starts
   * sound when the save has no negative mana and no hp above its maximum.
   */
  lemma StartOnPlayer(p: PlayerStats, picks: seq<real>)
    requires InUnit(picks) && |picks| >= 2
    requires MemberSound(PlayerCombatant(p))
    ensures var a := Start(SortByAgility(Roster(p, picks)));
      Sound(a) && a.party[a.currentTurn] == PlayerCombatant(p)
  {
    ArenaTeamShape(p, picks);
    var t := SortByAgility(Roster(p, picks));
    var i0 :| 0 <= i0 < 4 && t[i0] == PlayerCombatant(p);
    var h := FirstHuman(t);
    assert h >= 0;
    forall i | 0 <= i < 4 ensures MemberSound(t[i]) {
      if t[i] != PlayerCombatant(p) {
        Classes.ClassBudget(t[i].characterClass);
      }
    }
  }

  /** `handleAttack`'s own effect: the basic attack on the orc, and victory when its hp reaches 0. */
  function AttackStep(a: ArenaState): ArenaState {
    if !(0 <= a.currentTurn < |a.party|) then a
    else
      var c := a.party[a.currentTurn];
      var damage := BasicAttackDamage(c.stats);
      var hp := ApplyDamage(a.enemyHp, damage);
      var log := AddLog(a.log, Attacked(c.name, damage));
      if hp <= 0 then a.(enemyHp := hp, log := AddLog(log, Victory), phase := Won)
      else a.(enemyHp := hp, log := log)
  }

  /**
   * `useAbility`'s own effect: nothing when the member's mana is short;
   * otherwise the ability's effect, and victory when a damage ability brings
   * the orc to 0.
   */
  function AbilityStep(a: ArenaState, ability: Abilities.Ability): ArenaState
    requires FormulaReady(ability)
  {
    if !(0 <= a.currentTurn < |a.party|) || a.party[a.currentTurn].stats.mana < ability.manaCost then a
    else
      var o := UseAbilityEffect(a.party, a.currentTurn, a.enemyHp, a.log, ability);
      if ability.effect.effectType == Abilities.Damage && o.enemyHp <= 0 then
        ArenaState(o.party, o.enemyHp, a.currentTurn, AddLog(o.log, Victory), Won)
      else ArenaState(o.party, o.enemyHp, a.currentTurn, o.log, a.phase)
  }

  // ----- executeAITurns -----

  /** The AI turns from offset `i` on: the members at cur+i, cur+i+1, ... (mod n) up to the first human. */
  function AIRunFrom(party: seq<Member>, cur: nat, i: nat): seq<nat>
    requires cur < |party|
    decreases |party| - i
  {
    if i >= |party| then []
    else if party[(cur + i) % |party|].isAI then [(cur + i) % |party|] + AIRunFrom(party, cur, i + 1)
    else []
  }

  /** The AI turns that follow the member at `cur`. */
  function AIRun(party: seq<Member>, cur: nat): seq<nat>
    requires cur < |party|
  {
    AIRunFrom(party, cur, 1)
  }

  lemma {:induction false} AIRunFromMeaning(party: seq<Member>, cur: nat, i: nat)
    requires cur < |party| && 1 <= i <= |party|
    ensures var run := AIRunFrom(party, cur, i);
      && |run| <= |party| - i
      && (forall t | 0 <= t < |run| :: run[t] == (cur + i + t) % |party| && party[run[t]].isAI)
      && (|run| < |party| - i ==> !party[(cur + i + |run|) % |party|].isAI)
    decreases |party| - i
  {
    if i < |party| && party[(cur + i) % |party|].isAI {
      AIRunFromMeaning(party, cur, i + 1);
      var rest := AIRunFrom(party, cur, i + 1);
      assert AIRunFrom(party, cur, i) == [(cur + i) % |party|] + rest;
      assert forall t | 0 <= t < |rest| :: ([(cur + i) % |party|] + rest)[t + 1] == rest[t];
    }
  }

  /**
   * The AI turns after `cur` are the maximal run of AI members that follow
   * it in cyclic order: each is AI, there are at most n - 1, and when fewer
   * the member after the last one is human.
   */
  lemma AIRunMeaning(party: seq<Member>, cur: nat)
    requires cur < |party|
    ensures var run := AIRun(party, cur);
      && |run| <= |party| - 1
      && (forall t | 0 <= t < |run| :: run[t] == (cur + 1 + t) % |party| && party[run[t]].isAI)
      && (|run| < |party| - 1 ==> !party[(cur + 1 + |run|) % |party|].isAI)
  {
    AIRunFromMeaning(party, cur, 1);
  }

  /** The loop collecting the AI turns, with its `break` at the first human. */
  method CollectAITurns(party: seq<Member>, cur: nat) returns (turns: seq<nat>)
    requires cur < |party|
    ensures turns == AIRun(party, cur)
  {
    turns := [];
    var i := 1;
    while i < |party|
      invariant 1 <= i <= |party|
      invariant turns + AIRunFrom(party, cur, i) == AIRun(party, cur)
    {
      var nextIndex := (cur + i) % |party|;
      if party[nextIndex].isAI {
        assert turns + AIRunFrom(party, cur, i) == (turns + [nextIndex]) + AIRunFrom(party, cur, i + 1);
        turns := turns + [nextIndex];
      } else {
        break;
      }
      i := i + 1;
    }
  }

  /**
   * One AI member's turn: the turn moves to it; it uses the first level-1
   * ability its mana covers, paying the mana and dealing the formula's
   * damage times the hit count whatever the ability's type, or else makes a
   * basic attack.  An index outside the party (which the turn order never
   * produces) leaves the state alone.
   */
  function AIAction(a: ArenaState, index: nat): ArenaState {
    if index >= |a.party| then a
    else
      var c := a.party[index];
      match AIChoice(c)
      case Some(ability) =>
        var total := AbilityDamage(ability.effect, c.stats);
        ArenaState(PayById(a.party, c.id, ability.manaCost), ApplyDamage(a.enemyHp, total), index, AddLog(a.log, UsedAbility(c.name, ability.name, total)), a.phase)
      case None =>
        var damage := BasicAttackDamage(c.stats);
        ArenaState(a.party, ApplyDamage(a.enemyHp, damage), index, AddLog(a.log, Attacked(c.name, damage)), a.phase)
  }

  /**
   * The `executeNextAI` chain over the collected turns, for a party of `n`
   * members, with `act` playing one member's turn: each AI acts in turn;
   * the chain stops with victory as soon as the orc's hp reaches 0; after
   * the last one the turn passes to the member after it (`last` is the
   * member before the remaining turns).
   */
  function Chain(act: (ArenaState, nat) -> ArenaState, n: nat, a: ArenaState, turns: seq<nat>, last: nat): ArenaState
    requires n > 0
    decreases |turns|
  {
    if turns == [] then a.(currentTurn := (last + 1) % n)
    else
      var b := act(a, turns[0]);
      if b.enemyHp <= 0 then b.(log := AddLog(b.log, Victory), phase := Won)
      else Chain(act, n, b, turns[1..], turns[0])
  }

  /** `executeAITurns()`: nothing unless a human holds the turn; then the run of AI turns that follows it. */
  function AITurns(a: ArenaState): ArenaState {
    if !(0 <= a.currentTurn < |a.party|) || a.party[a.currentTurn].isAI then a
    else Chain(AIAction, |a.party|, a, AIRun(a.party, a.currentTurn), a.currentTurn)
  }

  /** `executeAITurns()` as the source runs it: collect the turns, then play them one by one. */
  method ExecuteAITurns(a: ArenaState) returns (r: ArenaState)
    ensures r == AITurns(a)
  {
    if !(0 <= a.currentTurn < |a.party|) || a.party[a.currentTurn].isAI {
      return a;
    }
    var turns := CollectAITurns(a.party, a.currentTurn);
    if |turns| == 0 {
      return a.(currentTurn := (a.currentTurn + 1) % |a.party|);
    }
    r := PlayTurns(AIAction, |a.party|, a, turns, a.currentTurn);
  }

  /** The `executeNextAI` chain over a non-empty list of turns, one turn per step. */
  method PlayTurns(act: (ArenaState, nat) -> ArenaState, n: nat, a: ArenaState, turns: seq<nat>, before: nat)
    returns (r: ArenaState)
    requires n > 0 && |turns| > 0
    ensures r == Chain(act, n, a, turns, before)
  {
    r := a;
    ghost var last: nat := before;
    var k := 0;
    while k < |turns|
      invariant 0 <= k <= |turns|
      invariant k > 0 ==> last == turns[k - 1]
      invariant Chain(act, n, r, turns[k..], last) == Chain(act, n, a, turns, before)
      decreases |turns| - k
    {
      assert turns[k..][1..] == turns[k + 1..];
      r := act(r, turns[k]);
      if r.enemyHp <= 0 {
        r := r.(log := AddLog(r.log, Victory), phase := Won);
        return;
      }
      last := turns[k];
      k := k + 1;
    }
    r := r.(currentTurn := (turns[|turns| - 1] + 1) % n);
  }

  // ----- The player's actions -----

  /** The index of the first human member after `cur` in turn order (`cur` itself when all others are AI). */
  function NextHuman(party: seq<Member>, cur: nat): nat
    requires cur < |party|
  {
    (cur + 1 + |AIRun(party, cur)|) % |party|
  }

  /** Who plays after whom depends only on who is AI: a change of stats leaves the AI runs alone. */
  lemma {:induction false} AIRunFromSameRoles(p: seq<Member>, q: seq<Member>, cur: nat, i: nat)
    requires OnlyStatsChange(p, q) && cur < |p|
    ensures AIRunFrom(p, cur, i) == AIRunFrom(q, cur, i)
    decreases |p| - i
  {
    if i < |p| {
      var k := (cur + i) % |p|;
      assert q[k] == p[k].(stats := q[k].stats);
      AIRunFromSameRoles(p, q, cur, i + 1);
    }
  }

  lemma NextHumanSameRoles(p: seq<Member>, q: seq<Member>, cur: nat)
    requires OnlyStatsChange(p, q) && cur < |p|
    ensures NextHuman(p, cur) == NextHuman(q, cur)
  {
    AIRunFromSameRoles(p, q, cur, 1);
  }

  /** The member after the last of a list of turns, or after `last` when the list is empty. */
  function After(turns: seq<nat>, last: nat, n: nat): nat
    requires n > 0
  {
    if turns == [] then (last + 1) % n else (turns[|turns| - 1] + 1) % n
  }

  /** The stretch of a fight the AI turns run in: sound, the orc standing, the battle active. */
  predicate Fighting(a: ArenaState) {
    PartySound(a.party) && 0 < a.enemyHp <= OrcMaxHp && |a.log| <= 5 && a.phase == Active
  }

  /**
   * What one AI turn of member `i` does to a fight: the party stays sound,
   * only stats change and only the acting member's, the orc's hp only falls
   * and never below 0, the log keeps within five lines, the battle state
   * stays, and the turn moves to the acting member.
   */
  predicate TurnKeeps(b: ArenaState, i: nat, r: ArenaState) {
    && PartySound(r.party) && OnlyStatsChange(b.party, r.party)
    && (forall j | 0 <= j < |b.party| && j != i :: r.party[j] == b.party[j])
    && 0 <= r.enemyHp <= b.enemyHp && |r.log| <= 5 && r.phase == b.phase && r.currentTurn == i
  }

  /** A turn function that keeps every fight it plays in, for every member. */
  ghost predicate KeepsFight(act: (ArenaState, nat) -> ArenaState) {
    forall b: ArenaState, i: nat | i < |b.party| && Fighting(b) :: TurnKeeps(b, i, act(b, i))
  }

  /**
   * One AI turn keeps the party sound and leaves every other member as it
   * was: the AI pays only mana it has, from its own stats (ids are
   * distinct); the orc's hp only falls and never below 0.
   */
  lemma AIActionKeeps(a: ArenaState, index: nat)
    requires index < |a.party| && PartySound(a.party) && 0 <= a.enemyHp && |a.log| <= 5
    ensures TurnKeeps(a, index, AIAction(a, index))
  {
    var c := a.party[index];
    FindByIdOfMember(a.party, index);
    assert MemberSound(c);
    match AIChoice(c)
    case Some(ability) =>
      PayByIdKeepsSound(a.party, index, ability.manaCost);
    case None =>
  }

  lemma AIActionKeepsFight()
    ensures KeepsFight(AIAction)
  {
    forall b: ArenaState, i: nat | i < |b.party| && Fighting(b)
      ensures TurnKeeps(b, i, AIAction(b, i))
    {
      AIActionKeeps(b, i);
    }
  }

  /**
   * A chain of turns that each keep the fight keeps it sound, changes only
   * stats, and only lowers the orc's hp.
   */
  lemma {:induction false} ChainSound(act: (ArenaState, nat) -> ArenaState, a: ArenaState, turns: seq<nat>, last: nat)
    requires KeepsFight(act) && Fighting(a) && |a.party| > 0
    requires forall t | 0 <= t < |turns| :: turns[t] < |a.party|
    ensures var r := Chain(act, |a.party|, a, turns, last);
      Sound(r) && r.enemyHp <= a.enemyHp && OnlyStatsChange(a.party, r.party)
    decreases |turns|
  {
    if turns != [] {
      var b := act(a, turns[0]);
      assert TurnKeeps(a, turns[0], b);
      if b.enemyHp > 0 {
        var r := Chain(act, |a.party|, b, turns[1..], turns[0]);
        assert Chain(act, |a.party|, a, turns, last) == r;
        ChainSound(act, b, turns[1..], turns[0]);
        OnlyStatsTrans(a.party, b.party, r.party);
      }
    }
  }

  /** A chain of turns that ends without victory passes the turn to the member after the last one. */
  lemma {:induction false} ChainHandOver(act: (ArenaState, nat) -> ArenaState, n: nat, a: ArenaState, turns: seq<nat>, last: nat)
    requires n > 0
    ensures var r := Chain(act, n, a, turns, last);
      r.phase == Active ==> r.currentTurn == After(turns, last, n)
    decreases |turns|
  {
    if turns != [] {
      var b := act(a, turns[0]);
      if b.enemyHp > 0 {
        ChainHandOver(act, n, b, turns[1..], turns[0]);
        if turns[1..] != [] {
          assert turns[1..][|turns[1..]| - 1] == turns[|turns| - 1];
        }
      }
    }
  }

  /** A chain of turns that each keep the fight leaves every member whose index is not among the turns as it was. */
  lemma {:induction false} ChainLeaves(act: (ArenaState, nat) -> ArenaState, a: ArenaState, turns: seq<nat>, last: nat, i: int)
    requires KeepsFight(act) && Fighting(a) && |a.party| > 0
    requires forall t | 0 <= t < |turns| :: turns[t] < |a.party|
    requires 0 <= i < |a.party| && i !in turns
    ensures var r := Chain(act, |a.party|, a, turns, last);
      |r.party| == |a.party| && r.party[i] == a.party[i]
    decreases |turns|
  {
    if turns != [] {
      var b := act(a, turns[0]);
      assert TurnKeeps(a, turns[0], b);
      if b.enemyHp > 0 {
        assert i !in turns[1..];
        ChainLeaves(act, b, turns[1..], turns[0], i);
      }
    }
  }

  /** The turn after the last AI of the run that follows `cur` is the next human's. */
  lemma AfterRun(party: seq<Member>, cur: nat)
    requires cur < |party|
    ensures After(AIRun(party, cur), cur, |party|) == NextHuman(party, cur)
  {
    var run := AIRun(party, cur);
    AIRunMeaning(party, cur);
    if run != [] {
      var y := cur + |run|;
      assert run[|run| - 1] == y % |party|;
      ModStep(y, |party|);
    }
  }

  /** From a human's turn, the next human in turn order is a human: another one, or the same when all others are AI. */
  lemma NextHumanIsHuman(party: seq<Member>, cur: nat)
    requires cur < |party| && !party[cur].isAI
    ensures !party[NextHuman(party, cur)].isAI
  {
    var n := |party|;
    var run := AIRun(party, cur);
    AIRunMeaning(party, cur);
    if |run| == n - 1 {
      SmallMod(cur + 1 + |run|, n);
    }
  }

  /** The AI turns leave every human member as it was. */
  lemma AITurnsSpareHumans(a: ArenaState)
    requires Sound(a) && a.phase == Active && !a.party[a.currentTurn].isAI
    ensures var r := AITurns(a);
      |r.party| == |a.party| && forall i | 0 <= i < |a.party| && !a.party[i].isAI :: r.party[i] == a.party[i]
  {
    var cur := a.currentTurn;
    var run := AIRun(a.party, cur);
    AIRunMeaning(a.party, cur);
    AIActionKeepsFight();
    var r := Chain(AIAction, |a.party|, a, run, cur);
    assert AITurns(a) == r;
    ChainSound(AIAction, a, run, cur);
    forall i | 0 <= i < |a.party| && !a.party[i].isAI ensures r.party[i] == a.party[i] {
      ChainLeaves(AIAction, a, run, cur, i);
    }
  }

  /**
   * `executeAITurns` from a human's turn keeps the fight sound, changes
   * only stats and never a human member, only lowers the orc's hp, and
   * unless the orc falls hands the turn to the next human in turn order.
   */
  lemma AITurnsKeeps(a: ArenaState)
    requires Sound(a) && a.phase == Active && !a.party[a.currentTurn].isAI
    ensures var r := AITurns(a);
      && Sound(r) && r.enemyHp <= a.enemyHp && OnlyStatsChange(a.party, r.party)
      && (forall i | 0 <= i < |a.party| && !a.party[i].isAI :: r.party[i] == a.party[i])
      && (r.phase == Active ==> r.currentTurn == NextHuman(a.party, a.currentTurn) && !r.party[r.currentTurn].isAI)
  {
    var cur := a.currentTurn;
    var run := AIRun(a.party, cur);
    AIRunMeaning(a.party, cur);
    AIActionKeepsFight();
    var r := Chain(AIAction, |a.party|, a, run, cur);
    assert AITurns(a) == r;
    ChainSound(AIAction, a, run, cur);
    ChainHandOver(AIAction, |a.party|, a, run, cur);
    AITurnsSpareHumans(a);
    AfterRun(a.party, cur);
    NextHumanIsHuman(a.party, cur);
  }

  /**
   * `handleAttack()`: the basic attack, then, unless it wins, the AI turns.
   * The fight stays sound; the orc loses at least the attack's damage; and
   * when a human attacked and the fight goes on, the turn is with the next
   * human.
   */
  method HandleAttack(a: ArenaState) returns (r: ArenaState)
    requires Sound(a) && a.phase == Active
    ensures r == (if AttackStep(a).phase == Won then AttackStep(a) else AITurns(AttackStep(a)))
    ensures Sound(r) && OnlyStatsChange(a.party, r.party)
    ensures r.enemyHp <= ApplyDamage(a.enemyHp, BasicAttackDamage(a.party[a.currentTurn].stats))
    ensures !a.party[a.currentTurn].isAI && r.phase == Active ==>
              r.currentTurn == NextHuman(a.party, a.currentTurn) && !r.party[r.currentTurn].isAI
  {
    assert MemberSound(a.party[a.currentTurn]);
    r := AttackStep(a);
    if r.phase != Won {
      if !r.party[r.currentTurn].isAI {
        AITurnsKeeps(r);
      }
      r := ExecuteAITurns(r);
    }
  }

  /**
   * `useAbility(ability)` with one of the current member's abilities:
   * refused, changing nothing, when the member's mana is short; otherwise
   * the ability's effect, then, unless it wins, the AI turns.  (Every
   * combat ability has its formula ready, by CombatAbilitiesOfClass.)  The fight
   * stays sound, a human caster ends with exactly its mana less the cost,
   * and when a human acted and the fight goes on the turn is with the next
   * human.
   */
  method UseAbility(a: ArenaState, ability: Abilities.Ability) returns (r: ArenaState)
    requires Sound(a) && a.phase == Active
    requires ability in CombatAbilities(a.party[a.currentTurn].characterClass)
    ensures Sound(r) && OnlyStatsChange(a.party, r.party)
    ensures a.party[a.currentTurn].stats.mana < ability.manaCost ==> r == a
    ensures FormulaReady(ability) && a.party[a.currentTurn].stats.mana >= ability.manaCost ==>
              r == (if AbilityStep(a, ability).phase == Won then AbilityStep(a, ability) else AITurns(AbilityStep(a, ability)))
    ensures a.party[a.currentTurn].stats.mana >= ability.manaCost && !a.party[a.currentTurn].isAI ==>
              && r.party[a.currentTurn].stats.mana == a.party[a.currentTurn].stats.mana - ability.manaCost
              && (r.phase == Active ==> r.currentTurn == NextHuman(a.party, a.currentTurn) && !r.party[r.currentTurn].isAI)
  {
    CombatAbilitiesOfClass(a.party[a.currentTurn].characterClass);
    if a.party[a.currentTurn].stats.mana < ability.manaCost {
      return a;
    }
    AbilityStepKeeps(a, ability);
    var b := AbilityStep(a, ability);
    r := b;
    if b.phase != Won {
      if !b.party[b.currentTurn].isAI {
        AITurnsKeeps(b);
        OnlyStatsTrans(a.party, b.party, AITurns(b).party);
        NextHumanSameRoles(a.party, b.party, a.currentTurn);
      }
      r := ExecuteAITurns(b);
    }
  }

  /** The ability's own effect keeps the fight sound and charges the caster exactly the cost. */
  lemma AbilityStepKeeps(a: ArenaState, ability: Abilities.Ability)
    requires Sound(a) && a.phase == Active && Fightable(ability)
    requires a.party[a.currentTurn].stats.mana >= ability.manaCost
    ensures var r := AbilityStep(a, ability);
      && Sound(r) && r.currentTurn == a.currentTurn && OnlyStatsChange(a.party, r.party)
      && r.party[a.currentTurn].stats.mana == a.party[a.currentTurn].stats.mana - ability.manaCost
  {
    var cur := a.currentTurn;
    FindByIdOfMember(a.party, cur);
    UseAbilityBookkeeping(a.party, cur, a.enemyHp, a.log, ability);
    UseAbilityKeepsSound(a.party, cur, a.enemyHp, a.log, ability);
  }
}
