/**
 * src/config/abilities.js: each class's three abilities (basic, utility and
 * ultimate) and the level at which each slot unlocks.
 */
module Abilities {
  import opened Wrappers

  /** ABILITY_UNLOCK_LEVELS: slot 1 at level 1, slot 2 at level 3, slot 3 at level 15. */
  const Slot1Unlock: int := 1
  const Slot2Unlock: int := 3
  const Slot3Unlock: int := 15

  function UnlockLevelForSlot(slot: int): int {
    if slot == 1 then Slot1Unlock else if slot == 2 then Slot2Unlock else Slot3Unlock
  }

  datatype AbilityType = Basic | Utility | Ultimate

  datatype TargetType = SelfTarget | Ally | Enemy | AllAllies | AllEnemies

  /** The `effect.type` values the table uses. */
  datatype EffectType = Shield | Debuff | Redirect | Damage | Buff | Conversion | Heal | Revive

  /**
   * The parts of an ability's effect that combat reads: its type, the damage
   * or heal formula (absent on effects without one) and the hit count.
   */
  datatype Effect = Effect(effectType: EffectType, formula: Option<string>, hits: Option<int>)

  datatype Ability = Ability(
    id: string, name: string, abilityType: AbilityType, slot: int, unlockLevel: int,
    manaCost: int, cooldown: int, targetType: TargetType, effect: Effect)

  /** One class's entry of ABILITIES: (key, ability) pairs in declaration order. */
  type AbilityTable = seq<(string, Ability)>

  function PaladinAbilities(): AbilityTable {
    [ ("stomp", Ability("stomp", "Stomp", Basic, 1, 1, 20, 0, SelfTarget,
                        Effect(Shield, Some("maxHp * 0.1"), None))),
      ("roar", Ability("roar", "Roar", Utility, 2, 3, 25, 0, Enemy,
                       Effect(Debuff, None, None))),
      ("unbreakable", Ability("unbreakable", "Unbreakable", Ultimate, 3, 15, 50, 5, SelfTarget,
                              Effect(Redirect, None, None))) ]
  }

  function WarriorAbilities(): AbilityTable {
    [ ("doubleSlash", Ability("doubleSlash", "Double Slash", Basic, 1, 1, 0, 0, Enemy,
                              Effect(Damage, Some("strength * 4"), Some(2)))),
      ("adrenaline", Ability("adrenaline", "Adrenaline", Utility, 2, 3, 0, 0, SelfTarget,
                             Effect(Buff, None, None))),
      ("cyclone", Ability("cyclone", "Cyclone", Ultimate, 3, 15, 40, 5, Enemy,
                          Effect(Damage, Some("strength * 2"), Some(6)))) ]
  }

  function ArcherAbilities(): AbilityTable {
    [ ("rapidShot", Ability("rapidShot", "Rapid Shot", Basic, 1, 1, 0, 0, Enemy,
                            Effect(Damage, Some("(agility * 3) + strength"), None))),
      ("eagleEye", Ability("eagleEye", "Eagle Eye", Utility, 2, 3, 20, 0, AllAllies,
                           Effect(Buff, None, None))),
      ("arrowRain", Ability("arrowRain", "Arrow Rain", Ultimate, 3, 15, 50, 5, Enemy,
                            Effect(Damage, Some("agility * 10"), None))) ]
  }

  function MageAbilities(): AbilityTable {
    [ ("fireball", Ability("fireball", "Fireball", Basic, 1, 1, 40, 0, Enemy,
                           Effect(Damage, Some("mindPower * 10"), None))),
      ("battery", Ability("battery", "Battery", Utility, 2, 3, 0, 0, SelfTarget,
                          Effect(Conversion, None, None))),
      ("blackHole", Ability("blackHole", "Black Hole", Ultimate, 3, 15, 60, 5, Enemy,
                            Effect(Damage, Some("mindPower * 20"), None))) ]
  }

  function ClericAbilities(): AbilityTable {
    [ ("heal", Ability("heal", "Heal", Basic, 1, 1, 30, 0, Ally,
                       Effect(Heal, Some("mindPower * 6"), None))),
      ("halo", Ability("halo", "Halo", Utility, 2, 3, 35, 0, Ally,
                       Effect(Shield, None, None))),
      ("resurrection", Ability("resurrection", "Resurrection", Ultimate, 3, 15, 80, 5, Ally,
                               Effect(Revive, None, None))) ]
  }

  /** ABILITIES: the class keys with their tables, in declaration order. */
  function AbilityTables(): seq<(string, AbilityTable)> {
    [ ("paladin", PaladinAbilities()), ("warrior", WarriorAbilities()), ("archer", ArcherAbilities()),
      ("mage", MageAbilities()), ("cleric", ClericAbilities()) ]
  }

  /** `object[key]` on a list of entries: the value of the first entry with that key, if any. */
  function Lookup(entries: seq<(string, AbilityTable)>, key: string): (r: Option<AbilityTable>)
    ensures r.Some? ==> exists i | 0 <= i < |entries| :: entries[i] == (key, r.value)
    ensures r.None? ==> forall i | 0 <= i < |entries| :: entries[i].0 != key
  {
    if entries == [] then None
    else if entries[0].0 == key then Some(entries[0].1)
    else
      var r := Lookup(entries[1..], key);
      assert forall i | 0 <= i < |entries| - 1 :: entries[1..][i] == entries[i + 1];
      r
  }

  /** `ABILITIES[characterClass]`. */
  function AbilitiesOf(characterClass: string): Option<AbilityTable> {
    Lookup(AbilityTables(), characterClass)
  }

  /** The five entries of ABILITIES, looked up one by one. */
  lemma AbilitiesOfEach(c: string)
    ensures AbilitiesOf(c).Some? ==> c == "paladin" || c == "warrior" || c == "archer" || c == "mage" || c == "cleric"
    ensures c == "paladin" ==> AbilitiesOf(c) == Some(PaladinAbilities())
    ensures c == "warrior" ==> AbilitiesOf(c) == Some(WarriorAbilities())
    ensures c == "archer" ==> AbilitiesOf(c) == Some(ArcherAbilities())
    ensures c == "mage" ==> AbilitiesOf(c) == Some(MageAbilities())
    ensures c == "cleric" ==> AbilitiesOf(c) == Some(ClericAbilities())
  {
    var t := AbilityTables();
    assert Lookup(t, c) == if c == "paladin" then Some(PaladinAbilities()) else Lookup(t[1..], c);
    assert Lookup(t[1..], c) == if c == "warrior" then Some(WarriorAbilities()) else Lookup(t[2..], c);
    assert Lookup(t[2..], c) == if c == "archer" then Some(ArcherAbilities()) else Lookup(t[3..], c);
    assert Lookup(t[3..], c) == if c == "mage" then Some(MageAbilities()) else Lookup(t[4..], c);
    assert Lookup(t[4..], c) == if c == "cleric" then Some(ClericAbilities()) else Lookup(t[5..], c);
    assert t[5..] == [];
  }

  function Values(t: AbilityTable): (vs: seq<Ability>)
    ensures |vs| == |t| && forall i :: 0 <= i < |t| ==> vs[i] == t[i].1
  {
    if t == [] then [] else [t[0].1] + Values(t[1..])
  }

  /** `getClassAbilities(c)`: the class's table, or the empty object for any other class. */
  function GetClassAbilities(characterClass: string): (t: AbilityTable)
    ensures AbilitiesOf(characterClass).None? ==> t == []
    ensures AbilitiesOf(characterClass).Some? ==> t == AbilitiesOf(characterClass).value
  {
    match AbilitiesOf(characterClass)
    case Some(t) => t
    case None => []
  }

  /** `isAbilityUnlocked(a, level)`. */
  predicate IsAbilityUnlocked(a: Ability, level: int) {
    a.unlockLevel <= level
  }

  /** `abilities.filter(a => a.unlockLevel <= level)`. */
  function UnlockedOf(abilities: seq<Ability>, level: int): (r: seq<Ability>)
    ensures |r| <= |abilities|
  {
    if abilities == [] then []
    else (if IsAbilityUnlocked(abilities[0], level) then [abilities[0]] else []) + UnlockedOf(abilities[1..], level)
  }

  /** The filter keeps each unlocked ability as often as the list holds it, and drops every locked one. */
  lemma {:induction false} UnlockedOfCounts(abilities: seq<Ability>, level: int)
    ensures forall a :: multiset(UnlockedOf(abilities, level))[a]
                        == if IsAbilityUnlocked(a, level) then multiset(abilities)[a] else 0
    decreases |abilities|
  {
    if abilities != [] {
      UnlockedOfCounts(abilities[1..], level);
      assert abilities == [abilities[0]] + abilities[1..];
    }
  }

  /** `getUnlockedAbilities(c, level)`: `Object.values` of the class table, filtered. */
  function GetUnlockedAbilities(characterClass: string, level: int): (r: seq<Ability>)
    ensures forall a :: a in r <==> a in Values(GetClassAbilities(characterClass)) && IsAbilityUnlocked(a, level)
  {
    UnlockedOfCounts(Values(GetClassAbilities(characterClass)), level);
    UnlockedOf(Values(GetClassAbilities(characterClass)), level)
  }

  /** The filter keeps the original order: filtering a list extended at the end extends the result. */
  lemma {:induction false} UnlockedOfAppend(abilities: seq<Ability>, a: Ability, level: int)
    ensures UnlockedOf(abilities + [a], level)
         == UnlockedOf(abilities, level) + (if IsAbilityUnlocked(a, level) then [a] else [])
    decreases |abilities|
  {
    if abilities == [] {
      assert [] + [a] == [a];
    } else {
      assert (abilities + [a])[1..] == abilities[1..] + [a];
      UnlockedOfAppend(abilities[1..], a, level);
    }
  }

  /** Raising the level never locks an ability that was unlocked. */
  lemma UnlockedMonotone(characterClass: string, level: int, higher: int)
    requires level <= higher
    ensures forall a :: a in GetUnlockedAbilities(characterClass, level) ==> a in GetUnlockedAbilities(characterClass, higher)
  {
  }

  predicate IsClassKey(c: string) { AbilitiesOf(c).Some? }

  /** Table facts: ids equal keys, one ability per slot 1..3 in slot order, unlock level set by slot, no negative cost. */
  predicate WellFormedTable(t: AbilityTable) {
    && |t| == 3
    && (forall i :: 0 <= i < 3 ==> t[i].1.id == t[i].0)
    && (forall i :: 0 <= i < 3 ==> t[i].1.slot == i + 1)
    && (forall i :: 0 <= i < 3 ==> t[i].1.unlockLevel == UnlockLevelForSlot(t[i].1.slot))
    && (forall i :: 0 <= i < 3 ==> t[i].1.manaCost >= 0)
  }

  /** Every class table in ABILITIES is well formed. */
  lemma TableWellFormed(characterClass: string)
    requires IsClassKey(characterClass)
    ensures WellFormedTable(GetClassAbilities(characterClass))
  {
    AbilitiesOfEach(characterClass);
    if characterClass == "paladin" {
      PaladinWellFormed();
    } else if characterClass == "warrior" {
      WarriorWellFormed();
    } else if characterClass == "archer" {
      ArcherWellFormed();
    } else if characterClass == "mage" {
      MageWellFormed();
    } else {
      ClericWellFormed();
    }
  }

  lemma PaladinWellFormed() ensures WellFormedTable(PaladinAbilities()) { }
  lemma WarriorWellFormed() ensures WellFormedTable(WarriorAbilities()) { }
  lemma ArcherWellFormed() ensures WellFormedTable(ArcherAbilities()) { }
  lemma MageWellFormed() ensures WellFormedTable(MageAbilities()) { }
  lemma ClericWellFormed() ensures WellFormedTable(ClericAbilities()) { }

  /** A known class has exactly its basic ability at level 1 and all three from level 15 on. */
  lemma UnlockCounts(characterClass: string, level: int)
    requires IsClassKey(characterClass)
    ensures level < Slot1Unlock ==> GetUnlockedAbilities(characterClass, level) == []
    ensures Slot1Unlock <= level < Slot2Unlock ==>
      GetUnlockedAbilities(characterClass, level) == [GetClassAbilities(characterClass)[0].1]
    ensures Slot3Unlock <= level ==>
      GetUnlockedAbilities(characterClass, level) == Values(GetClassAbilities(characterClass))
  {
    var vs := Values(GetClassAbilities(characterClass));
    TableWellFormed(characterClass);
    assert vs == [vs[0], vs[1], vs[2]];
    UnlockedOfThree(vs[0], vs[1], vs[2], level);
  }

  lemma UnlockedOfThree(a: Ability, b: Ability, c: Ability, level: int)
    requires a.unlockLevel == Slot1Unlock && b.unlockLevel == Slot2Unlock && c.unlockLevel == Slot3Unlock
    ensures level < Slot1Unlock ==> UnlockedOf([a, b, c], level) == []
    ensures Slot1Unlock <= level < Slot2Unlock ==> UnlockedOf([a, b, c], level) == [a]
    ensures Slot3Unlock <= level ==> UnlockedOf([a, b, c], level) == [a, b, c]
  {
    assert [a, b, c][1..] == [b, c];
    assert [b, c][1..] == [c];
    assert [c][1..] == [];
    var rc := if IsAbilityUnlocked(c, level) then [c] else [];
    var rb := if IsAbilityUnlocked(b, level) then [b] else [];
    var ra := if IsAbilityUnlocked(a, level) then [a] else [];
    assert UnlockedOf([c], level) == rc + [];
    assert UnlockedOf([b, c], level) == rb + (rc + []);
    assert UnlockedOf([a, b, c], level) == ra + (rb + (rc + []));
  }

  /** An unknown class has no abilities at any level. */
  lemma UnknownClassHasNone(characterClass: string, level: int)
    requires !IsClassKey(characterClass)
    ensures GetClassAbilities(characterClass) == []
    ensures GetUnlockedAbilities(characterClass, level) == []
  {
    AbilitiesOfEach(characterClass);
  }
}
