/**
 * src/App.jsx: the handlers that change the player's record.  Submitting a
 * task applies `calculateLevelUp` and awards two stat points per level;
 * allocating a point raises one stat; New Game picks a save slot; loading
 * a save migrates old records; creating a character builds a level-1
 * record.  Each handler is a function from the app state before to the
 * state after; every `saveWithRetry` call it makes is appended to `saves`
 * (the save itself is the save manager's business).
 *
 * `getEquippedAbilitiesForLevel` is imported by the app but not defined in
 * the abilities configuration, so it is a parameter `equippedFor` here.
 */
module Game {
  import opened Wrappers
  import Leveling
  import Equipment
  import Appearance
  import Combat

  /** `equippedAbilities`: missing or null in an old save, an array in an older one, otherwise slot1..slot4. */
  datatype AbilityLoadout =
    | Unset
    | AbilityList(ids: seq<string>)
    | AbilitySlots(slots: seq<Option<string>>)

  /**
   * The equipment a save holds.  `offHand` is None when the key is absent
   * (an older save, which may carry `accessory` instead) and Some(None)
   * when it is null.
   */
  datatype SavedEquipment = SavedEquipment(weapon: Option<Equipment.Equipped>,
                                           offHand: Option<Option<Equipment.Equipped>>,
                                           hasAccessory: bool,
                                           armor: Option<Equipment.Equipped>)

  /** The player record (`playerStats`); its `stats` hold the same seven fields as a combatant's. */
  datatype PlayerRecord = PlayerRecord(
    username: string,
    characterClass: string,
    appearance: Option<Appearance.Look>,
    level: int,
    xp: int,
    xpToNextLevel: int,
    stats: Combat.CombatStats,
    inventory: seq<string>,
    equipment: Option<SavedEquipment>,
    equippedAbilities: AbilityLoadout,
    unspentStatPoints: Option<int>)

  /** `currentSaveSlot` and the `slotId` handed to `handleNewGame`: null, a slot number, or a click event. */
  datatype SlotChoice = NoSlot | SlotNumber(n: int) | ClickEvent

  predicate SlotTruthy(c: SlotChoice) {
    c.ClickEvent? || (c.SlotNumber? && c.n != 0)
  }

  /** `currentSaveSlot || 1`. */
  function SaveTarget(c: SlotChoice): (t: SlotChoice)
    ensures SlotTruthy(t)
    ensures SlotTruthy(c) ==> t == c
    ensures !SlotTruthy(c) ==> t == SlotNumber(1)
  {
    if SlotTruthy(c) then c else SlotNumber(1)
  }

  /** One `saveWithRetry(uid, slot, record, ...)` call. */
  datatype Save = Save(slot: SlotChoice, record: PlayerRecord)

  datatype AppState = AppState(
    playerStats: PlayerRecord,
    currentSaveSlot: SlotChoice,
    saveSlots: map<SlotChoice, Option<PlayerRecord>>,
    showMainMenu: bool,
    showCharacterCreation: bool,
    saves: seq<Save>)

  /** The record `saveWithRetry` was last asked to store, as this handler stored it. */
  predicate SavedLast(r: AppState, s: AppState, q: PlayerRecord) {
    r.saves == s.saves + [Save(SaveTarget(s.currentSaveSlot), q)]
  }

  // ----- handleTaskSubmit -----

  /**
   * `handleTaskSubmit(result)`: level, XP and XP-to-next from
   * `calculateLevelUp`, two stat points per level gained, the abilities for
   * the new level when a level was gained; then a save.
   */
  function TaskSubmit(s: AppState, gainedXp: int, equippedFor: (string, int) -> AbilityLoadout): AppState {
    var p := s.playerStats;
    var up := Leveling.LevelUp(p.level, p.xp, gainedXp);
    var levelsGained := up.newLevel - p.level;
    var abilities := if levelsGained > 0 then equippedFor(p.characterClass, up.newLevel) else p.equippedAbilities;
    var q := p.(level := up.newLevel, xp := up.remainingXp, xpToNextLevel := up.xpToNextLevel,
                unspentStatPoints := Some(NumberOr(p.unspentStatPoints, 0) + levelsGained * 2),
                equippedAbilities := abilities);
    s.(playerStats := q, saves := s.saves + [Save(SaveTarget(s.currentSaveSlot), q)])
  }

  /**
   * A task submission never lowers the level and stops at 50; the XP left
   * is below the next level's cost short of the cap and 0 at it; the points
   * awarded are exactly two per level gained; the abilities change only
   * when a level was gained; identity, stats and equipment stay; the new
   * record is saved.
   */
  lemma TaskSubmitProperties(s: AppState, gainedXp: int, equippedFor: (string, int) -> AbilityLoadout)
    ensures var p := s.playerStats;
      var r := TaskSubmit(s, gainedXp, equippedFor);
      var q := r.playerStats;
      && p.level <= q.level <= (if p.level >= Leveling.MaxLevel then p.level else Leveling.MaxLevel)
      && q.xpToNextLevel == Leveling.XpForNextLevel(q.level)
      && (q.level < Leveling.MaxLevel ==> q.xp < q.xpToNextLevel)
      && (q.level >= Leveling.MaxLevel ==> q.xp == 0)
      && q.unspentStatPoints == Some(NumberOr(p.unspentStatPoints, 0) + 2 * (q.level - p.level))
      && (q.level == p.level ==> q.equippedAbilities == p.equippedAbilities)
      && (q.level > p.level ==> q.equippedAbilities == equippedFor(p.characterClass, q.level))
      && q.username == p.username && q.characterClass == p.characterClass && q.stats == p.stats
      && q.equipment == p.equipment && q.inventory == p.inventory
      && SavedLast(r, s, q)
  {
    var p := s.playerStats;
    Leveling.LevelUpProperties(p.level, p.xp, gainedXp);
  }

  // ----- handleAllocateStat -----

  /** The stat a point goes to: a key of `stats`. */
  datatype StatKey = HpKey | MaxHpKey | ManaKey | MaxManaKey | StrengthKey | AgilityKey | MindPowerKey

  /** `stats[key] += 1`. */
  function Bump(st: Combat.CombatStats, key: StatKey): Combat.CombatStats {
    match key
    case HpKey => st.(hp := st.hp + 1)
    case MaxHpKey => st.(maxHp := st.maxHp + 1)
    case ManaKey => st.(mana := st.mana + 1)
    case MaxManaKey => st.(maxMana := st.maxMana + 1)
    case StrengthKey => st.(strength := st.strength + 1)
    case AgilityKey => st.(agility := st.agility + 1)
    case MindPowerKey => st.(mindPower := st.mindPower + 1)
  }

  /**
   * `handleAllocateStat(statKey)`: nothing without an unspent point;
   * otherwise one point is spent, 'hp' raises hp and maxHp by 50, any other
   * key raises that stat by 1, and raising mindPower resets maxMana to ten
   * times it and refills mana; then a save.
   */
  function AllocateStat(s: AppState, key: StatKey): AppState {
    var p := s.playerStats;
    if NumberOr(p.unspentStatPoints, 0) <= 0 then s
    else
      var st := p.stats;
      var raised :=
        if key == HpKey then st.(maxHp := st.maxHp + 50, hp := st.hp + 50)
        else
          var b := Bump(st, key);
          if key == MindPowerKey then b.(maxMana := b.mindPower * 10, mana := b.mindPower * 10) else b;
      var q := p.(unspentStatPoints := Some(p.unspentStatPoints.value - 1), stats := raised);
      s.(playerStats := q, saves := s.saves + [Save(SaveTarget(s.currentSaveSlot), q)])
  }

  /**
   * Without an unspent point nothing happens; with one exactly one point is
   * spent and nothing but the stats changes besides; 'hp' adds 50 to both
   * hp and maxHp; mindPower also sets maxMana to ten times the new mind
   * power and refills mana to it.
   */
  lemma AllocateStatEffect(s: AppState, key: StatKey)
    ensures var p := s.playerStats;
      var r := AllocateStat(s, key);
      && (NumberOr(p.unspentStatPoints, 0) <= 0 ==> r == s)
      && (NumberOr(p.unspentStatPoints, 0) > 0 ==>
            var q := r.playerStats;
            && q.unspentStatPoints.Some? && q.unspentStatPoints.value == NumberOr(p.unspentStatPoints, 0) - 1
            && q == p.(unspentStatPoints := q.unspentStatPoints, stats := q.stats)
            && SavedLast(r, s, q)
            && (key == HpKey ==> q.stats == p.stats.(hp := p.stats.hp + 50, maxHp := p.stats.maxHp + 50))
            && (key == StrengthKey ==> q.stats == p.stats.(strength := p.stats.strength + 1))
            && (key == AgilityKey ==> q.stats == p.stats.(agility := p.stats.agility + 1))
            && (key == MindPowerKey ==>
                  && q.stats.mindPower == p.stats.mindPower + 1
                  && q.stats.maxMana == 10 * q.stats.mindPower && q.stats.mana == q.stats.maxMana
                  && q.stats == p.stats.(mindPower := q.stats.mindPower, maxMana := q.stats.maxMana, mana := q.stats.mana)))
  {
  }

  /** The points a stat line is worth: one per 50 maxHp, one per point of strength, agility and mind power. */
  function StatPoints(st: Combat.CombatStats): int {
    st.maxHp / 50 + st.strength + st.agility + st.mindPower
  }

  /** Spending a point on hp, strength, agility or mind power moves it into the stat line: their sum stays. */
  lemma AllocateConserves(s: AppState, key: StatKey)
    requires key in {HpKey, StrengthKey, AgilityKey, MindPowerKey}
    requires NumberOr(s.playerStats.unspentStatPoints, 0) > 0
    ensures var q := AllocateStat(s, key).playerStats;
      q.unspentStatPoints.value + StatPoints(q.stats)
      == NumberOr(s.playerStats.unspentStatPoints, 0) + StatPoints(s.playerStats.stats)
  {
    var st := s.playerStats.stats;
    if key == HpKey {
      assert (st.maxHp + 50) / 50 == st.maxHp / 50 + 1;
    }
  }

  /** hp within maxHp and mana within maxMana survive every allocation but one to mana itself. */
  lemma AllocateKeepsBounds(s: AppState, key: StatKey)
    requires key != ManaKey
    requires s.playerStats.stats.hp <= s.playerStats.stats.maxHp && s.playerStats.stats.mana <= s.playerStats.stats.maxMana
    ensures var st := AllocateStat(s, key).playerStats.stats;
      st.hp <= st.maxHp && st.mana <= st.maxMana
  {
  }

  // ----- handleNewGame -----

  const MaxSlots: int := 2

  /** `saveSlots[i]` holds a record. */
  predicate Filled(slots: map<SlotChoice, Option<PlayerRecord>>, i: int) {
    SlotNumber(i) in slots && slots[SlotNumber(i)].Some?
  }

  /** The slot loop from slot `i` on: the first empty slot up to 2, or 1 when all are full. */
  function FirstEmptyFrom(slots: map<SlotChoice, Option<PlayerRecord>>, i: int): int
    decreases MaxSlots + 1 - i
  {
    if i > MaxSlots then 1
    else if !Filled(slots, i) then i
    else FirstEmptyFrom(slots, i + 1)
  }

  /** `slotToUse`: the slot given, when truthy; otherwise the lowest empty slot, or 1. */
  function NewGameSlot(slotId: SlotChoice, slots: map<SlotChoice, Option<PlayerRecord>>): SlotChoice {
    if SlotTruthy(slotId) then slotId else SlotNumber(FirstEmptyFrom(slots, 1))
  }

  lemma {:induction false} FirstEmptyFromMeaning(slots: map<SlotChoice, Option<PlayerRecord>>, i: int)
    requires 1 <= i
    ensures var k := FirstEmptyFrom(slots, i);
      && 1 <= k <= MaxSlots
      && ((exists j | i <= j <= MaxSlots :: !Filled(slots, j)) ==>
            i <= k && !Filled(slots, k) && forall j | i <= j < k :: Filled(slots, j))
      && ((forall j | i <= j <= MaxSlots :: Filled(slots, j)) ==> k == 1)
    decreases MaxSlots + 1 - i
  {
    if i <= MaxSlots && Filled(slots, i) {
      FirstEmptyFromMeaning(slots, i + 1);
    }
  }

  /**
   * Without a truthy slot, New Game takes the lowest empty slot among 1
   * and 2, or slot 1 when both are full; a truthy slot is taken as given.
   */
  lemma NewGameSlotMeaning(slotId: SlotChoice, slots: map<SlotChoice, Option<PlayerRecord>>)
    ensures SlotTruthy(slotId) ==> NewGameSlot(slotId, slots) == slotId
    ensures !SlotTruthy(slotId) ==>
      var c := NewGameSlot(slotId, slots);
      && c.SlotNumber? && 1 <= c.n <= MaxSlots
      && ((exists j | 1 <= j <= MaxSlots :: !Filled(slots, j)) ==>
            !Filled(slots, c.n) && forall j | 1 <= j < c.n :: Filled(slots, j))
      && ((forall j | 1 <= j <= MaxSlots :: Filled(slots, j)) ==> c.n == 1)
  {
    FirstEmptyFromMeaning(slots, 1);
  }

  /** The slot choice of `handleNewGame` as the source runs it: the `for` loop with its `break`. */
  method ChooseNewGameSlot(slotId: SlotChoice, slots: map<SlotChoice, Option<PlayerRecord>>) returns (slotToUse: SlotChoice)
    ensures slotToUse == NewGameSlot(slotId, slots)
  {
    slotToUse := slotId;
    if !SlotTruthy(slotToUse) {
      slotToUse := SlotNumber(1);
      var i := 1;
      while i <= MaxSlots
        invariant 1 <= i <= MaxSlots + 1
        invariant FirstEmptyFrom(slots, i) == FirstEmptyFrom(slots, 1)
        invariant slotToUse == SlotNumber(1)
        decreases MaxSlots + 1 - i
      {
        if !Filled(slots, i) {
          slotToUse := SlotNumber(i);
          return;
        }
        i := i + 1;
      }
    }
  }

  /** `handleNewGame(slotId)`: the chosen slot becomes current, the menu closes and character creation opens. */
  function NewGame(s: AppState, slotId: SlotChoice): (r: AppState)
    ensures r.currentSaveSlot == NewGameSlot(slotId, s.saveSlots)
    ensures !r.showMainMenu && r.showCharacterCreation
    ensures r.playerStats == s.playerStats && r.saveSlots == s.saveSlots && r.saves == s.saves
  {
    s.(currentSaveSlot := NewGameSlot(slotId, s.saveSlots), showMainMenu := false, showCharacterCreation := true)
  }

  // ----- handleCharacterCreation -----

  /** The stats the creation wizard hands over. */
  datatype CreatedStats = CreatedStats(maxHp: int, strength: int, agility: int, mindPower: int)

  /** The equipment record a class default loadout is written as. */
  function FromLoadout(d: Equipment.Loadout): SavedEquipment {
    SavedEquipment(d.weapon, Some(d.offHand), false, d.armor)
  }

  /**
   * `handleCharacterCreation(...)`: a level-1 record at full hp and mana
   * (maxMana is ten times mind power) in the class's default equipment,
   * saved and shown in the current slot (slot 1 when none is current).
   * The class must have defaults: the handler reads them unguarded.
   */
  function CreateCharacter(s: AppState, username: string, characterClass: string, stats: CreatedStats,
                           appearance: Option<Appearance.Look>, equippedFor: (string, int) -> AbilityLoadout): AppState
    requires Equipment.ClassDefaultEquipment(characterClass).Some?
  {
    var maxMana := stats.mindPower * 10;
    var defaults := Equipment.ClassDefaultEquipment(characterClass).value;
    var q := PlayerRecord(username, characterClass, appearance, 1, 0, Leveling.XpForNextLevel(1),
                          Combat.CombatStats(stats.maxHp, stats.maxHp, maxMana, maxMana, stats.strength, stats.agility, stats.mindPower),
                          [], Some(FromLoadout(defaults)), equippedFor(characterClass, 1), Some(0));
    var target := SaveTarget(s.currentSaveSlot);
    s.(playerStats := q, saves := s.saves + [Save(target, q)], saveSlots := s.saveSlots[target := Some(q)],
       showCharacterCreation := false)
  }

  /**
   * A created character is at level 1 with 0 XP and needs 10 XP next; it
   * is at full hp and full mana, with maxMana ten times its mind power; it
   * has no unspent points and an empty inventory; its equipment is the
   * class default; and the record is saved to, and shown in, the slot `currentSaveSlot || 1`.
   */
  lemma CreatedCharacter(s: AppState, username: string, characterClass: string, stats: CreatedStats,
                         appearance: Option<Appearance.Look>, equippedFor: (string, int) -> AbilityLoadout)
    requires Equipment.ClassDefaultEquipment(characterClass).Some?
    ensures var r := CreateCharacter(s, username, characterClass, stats, appearance, equippedFor);
      var q := r.playerStats;
      && q.level == 1 && q.xp == 0 && q.xpToNextLevel == 10
      && q.stats.hp == q.stats.maxHp == stats.maxHp
      && q.stats.mana == q.stats.maxMana == 10 * stats.mindPower
      && q.unspentStatPoints == Some(0) && q.inventory == []
      && q.equipment == Some(FromLoadout(Equipment.ClassDefaultEquipment(characterClass).value))
      && SavedLast(r, s, q)
      && SaveTarget(s.currentSaveSlot) in r.saveSlots && r.saveSlots[SaveTarget(s.currentSaveSlot)] == Some(q)
  {
  }

  /** The created character's equipment is its class default, every piece an existing item of the right slot. */
  lemma CreatedEquipmentFits(s: AppState, username: string, characterClass: string, stats: CreatedStats,
                             appearance: Option<Appearance.Look>, equippedFor: (string, int) -> AbilityLoadout)
    requires Equipment.ClassDefaultEquipment(characterClass).Some?
    ensures var d := Equipment.ClassDefaultEquipment(characterClass).value;
      && CreateCharacter(s, username, characterClass, stats, appearance, equippedFor).playerStats.equipment == Some(FromLoadout(d))
      && Equipment.LoadoutFits(d)
  {
    Equipment.DefaultsConsistent(characterClass);
  }

  // ----- handleLoadGame -----

  /** A save slot as the slot list hands it over. */
  datatype SlotData = SlotData(slotId: int, data: Option<PlayerRecord>)

  /** No piece equipped: weapon, off-hand (absent or null) and armor all empty. */
  predicate NothingEquipped(e: SavedEquipment) {
    e.weapon.None? && (e.offHand.None? || e.offHand.value.None?) && e.armor.None?
  }

  /** `accessory` without `offHand`: the old shape, rewritten with a null off-hand. */
  function MigrateAccessory(e: Option<SavedEquipment>): Option<SavedEquipment> {
    if e.Some? && e.value.hasAccessory && e.value.offHand.None?
    then Some(SavedEquipment(e.value.weapon, Some(None), false, e.value.armor))
    else e
  }

  /** An old save with nothing equipped gets its class's default equipment, when the class has one. */
  function BackfillEquipment(characterClass: string, e: Option<SavedEquipment>): Option<SavedEquipment> {
    if characterClass != "" && e.Some? && NothingEquipped(e.value)
       && Equipment.ClassDefaultEquipment(characterClass).Some?
    then Some(FromLoadout(Equipment.ClassDefaultEquipment(characterClass).value))
    else e
  }

  /**
   * The migrations `handleLoadGame` applies to a save: the old equipment
   * shape, default equipment for an all-empty one, unspent points
   * defaulting to 0, and abilities for `level || 1` when they are missing
   * or an array.
   */
  function Migrate(d: PlayerRecord, equippedFor: (string, int) -> AbilityLoadout): PlayerRecord {
    var equipment := BackfillEquipment(d.characterClass, MigrateAccessory(d.equipment));
    var unspent := if d.unspentStatPoints.None? then Some(0) else d.unspentStatPoints;
    var abilities := if d.equippedAbilities.AbilitySlots? then d.equippedAbilities
                     else equippedFor(d.characterClass, if d.level != 0 then d.level else 1);
    d.(equipment := equipment, unspentStatPoints := unspent, equippedAbilities := abilities)
  }

  /**
   * What loading promises: an old accessory shape gains a null off-hand and
   * loses the accessory; an all-empty equipment of a class with defaults
   * becomes those defaults; missing unspent points become 0 and present ones
   * stay; slot-shaped abilities stay and others are looked up for
   * `level || 1`; nothing else changes.
   */
  lemma MigrateProperties(d: PlayerRecord, equippedFor: (string, int) -> AbilityLoadout)
    ensures var m := Migrate(d, equippedFor);
      && m == d.(equipment := m.equipment, unspentStatPoints := m.unspentStatPoints, equippedAbilities := m.equippedAbilities)
      && (d.equipment.None? ==> m.equipment.None?)
      && (d.equipment.Some? && d.equipment.value.hasAccessory && d.equipment.value.offHand.None? ==>
            m.equipment.Some? && m.equipment.value.offHand.Some? && !m.equipment.value.hasAccessory)
      && (d.equipment.Some? && NothingEquipped(d.equipment.value) && d.characterClass != ""
          && Equipment.ClassDefaultEquipment(d.characterClass).Some? ==>
            m.equipment == Some(FromLoadout(Equipment.ClassDefaultEquipment(d.characterClass).value)))
      && (d.equipment.Some? && !NothingEquipped(d.equipment.value) ==>
            m.equipment.value.weapon == d.equipment.value.weapon && m.equipment.value.armor == d.equipment.value.armor)
      && m.unspentStatPoints == (if d.unspentStatPoints.None? then Some(0) else d.unspentStatPoints)
      && (d.equippedAbilities.AbilitySlots? ==> m.equippedAbilities == d.equippedAbilities)
      && (!d.equippedAbilities.AbilitySlots? ==>
            m.equippedAbilities == equippedFor(d.characterClass, if d.level != 0 then d.level else 1))
  {
  }

  /** Loading a save twice migrates it once: a migrated record is left as it is. */
  lemma MigrateIdempotent(d: PlayerRecord, equippedFor: (string, int) -> AbilityLoadout)
    ensures Migrate(Migrate(d, equippedFor), equippedFor) == Migrate(d, equippedFor)
  {
    var m := Migrate(d, equippedFor);
    var e1 := MigrateAccessory(d.equipment);
    assert MigrateAccessory(e1) == e1;
    if d.characterClass != "" && e1.Some? && NothingEquipped(e1.value)
       && Equipment.ClassDefaultEquipment(d.characterClass).Some? {
      Equipment.DefaultsConsistent(d.characterClass);
    }
  }

  /** `handleLoadGame(slot)`: a slot with data becomes current, its record migrated and loaded, the menu closed. */
  function LoadGame(s: AppState, slot: Option<SlotData>, equippedFor: (string, int) -> AbilityLoadout): (r: AppState)
    ensures slot.None? || slot.value.data.None? ==> r == s
    ensures slot.Some? && slot.value.data.Some? ==>
      && r.playerStats == Migrate(slot.value.data.value, equippedFor)
      && r.currentSaveSlot == SlotNumber(slot.value.slotId) && !r.showMainMenu
      && r.saves == s.saves && r.saveSlots == s.saveSlots
  {
    if slot.Some? && slot.value.data.Some?
    then s.(currentSaveSlot := SlotNumber(slot.value.slotId), playerStats := Migrate(slot.value.data.value, equippedFor),
            showMainMenu := false)
    else s
  }

  // ----- The New Game button -----

  /**
   * The New Game button as wired: it hands `onNewGame` its click event,
   * which `handleNewGame` takes as a truthy slot id.
   */
  function NewGameButtonAsWritten(s: AppState): AppState {
    NewGame(s, ClickEvent)
  }

  /**
   * With the button as wired, the slot loop never runs: the click event
   * becomes the current slot even when slot 1 is free, and the character
   * created next is saved, and shown, under neither slot 1 nor slot 2.
   */
  lemma NewGameButtonSkipsFreeSlot(s: AppState, username: string, characterClass: string, stats: CreatedStats,
                                   appearance: Option<Appearance.Look>, equippedFor: (string, int) -> AbilityLoadout)
    requires !Filled(s.saveSlots, 1)
    requires Equipment.ClassDefaultEquipment(characterClass).Some?
    ensures var b := NewGameButtonAsWritten(s);
      var r := CreateCharacter(b, username, characterClass, stats, appearance, equippedFor);
      && b.currentSaveSlot == ClickEvent
      && r.saves[|r.saves| - 1].slot == ClickEvent
      && r.saveSlots[ClickEvent] == Some(r.playerStats)
      && (SlotNumber(1) in r.saveSlots <==> SlotNumber(1) in s.saveSlots)
  {
  }

  /** The New Game button calling `onNewGame()` with no argument, as the slot loop expects. */
  function NewGameButton(s: AppState): AppState {
    NewGame(s, NoSlot)
  }

  /**
   * With the button calling `onNewGame()`, New Game takes the lowest free
   * slot, or slot 1 when both are full, and the character created next is
   * saved to that slot.
   */
  lemma NewGameButtonPicksFreeSlot(s: AppState, username: string, characterClass: string, stats: CreatedStats,
                                   appearance: Option<Appearance.Look>, equippedFor: (string, int) -> AbilityLoadout)
    requires Equipment.ClassDefaultEquipment(characterClass).Some?
    ensures var b := NewGameButton(s);
      var r := CreateCharacter(b, username, characterClass, stats, appearance, equippedFor);
      && b.currentSaveSlot.SlotNumber? && 1 <= b.currentSaveSlot.n <= MaxSlots
      && ((exists j | 1 <= j <= MaxSlots :: !Filled(s.saveSlots, j)) ==>
            !Filled(s.saveSlots, b.currentSaveSlot.n) && forall j | 1 <= j < b.currentSaveSlot.n :: Filled(s.saveSlots, j))
      && r.saves[|r.saves| - 1].slot == b.currentSaveSlot
      && Filled(r.saveSlots, b.currentSaveSlot.n)
  {
    NewGameSlotMeaning(NoSlot, s.saveSlots);
  }
}
