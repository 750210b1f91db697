/**
 * src/config/equipment.js: the item database (weapons, off-hands and armor),
 * each class's starting equipment, and the weapon-type to combat-page map.
 */
module Equipment {
  import opened Wrappers

  datatype Slot = Weapon | OffHand | Armor

  datatype Item = Item(
    id: string, name: string, slot: Slot, spriteId: string,
    combatType: Option<string>, description: string, colorVariants: seq<string>)

  /** An equipped item: `{ itemId, color }`. */
  datatype Equipped = Equipped(itemId: string, color: string)

  /** One class's `{ weapon, offHand, armor }`, each possibly null. */
  datatype Loadout = Loadout(weapon: Option<Equipped>, offHand: Option<Equipped>, armor: Option<Equipped>)

  const FiveColours: seq<string> := ["v01", "v02", "v03", "v04", "v05"]
  const QuiverColours: seq<string> := ["v01", "v02", "v03", "v04", "v05", "v06", "v07", "v08"]

  function WeaponItem(id: string, name: string, combatType: string, description: string): Item {
    Item(id, name, Weapon, id, Some(combatType), description, FiveColours)
  }

  /** EQUIPMENT_DATABASE[id]; None when the database has no such key. */
  function Database(id: string): Option<Item> {
    match id
    case "sw01" => Some(WeaponItem("sw01", "Iron Sword", "sword", "A reliable iron sword."))
    case "sw02" => Some(WeaponItem("sw02", "Twin Blade", "sword", "A double-edged blade for aggressive fighters."))
    case "ax01" => Some(WeaponItem("ax01", "Battle Axe", "sword", "A heavy axe that deals devastating blows."))
    case "mc01" => Some(WeaponItem("mc01", "Mace", "sword", "A sturdy mace favored by clerics and mages."))
    case "bo01" => Some(WeaponItem("bo01", "Short Bow", "bow", "A nimble bow for quick shots."))
    case "bo02" => Some(WeaponItem("bo02", "Long Bow", "bow", "A powerful long-range bow."))
    case "bo03" => Some(WeaponItem("bo03", "Composite Bow", "bow", "An advanced composite bow."))
    case "sp01" => Some(WeaponItem("sp01", "Spear", "spear", "A long spear with excellent reach."))
    case "sp02" => Some(WeaponItem("sp02", "Lance", "spear", "A heavy lance for charging attacks."))
    case "hb01" => Some(WeaponItem("hb01", "Halberd", "spear", "A polearm with an axe blade."))
    case "sh01" => Some(Item("sh01", "Wooden Shield", OffHand, "sh01", Some("sword"), "A sturdy wooden shield.", FiveColours))
    case "sh02" => Some(Item("sh02", "Iron Shield", OffHand, "sh02", Some("sword"), "A reinforced iron shield.", FiveColours))
    case "sh03" => Some(Item("sh03", "Tower Shield", OffHand, "sh03", Some("sword"), "A massive tower shield.", FiveColours))
    case "qv01" => Some(Item("qv01", "Quiver", OffHand, "qv01", Some("bow"), "A leather quiver for arrows.", QuiverColours))
    case "fstr" => Some(Item("fstr", "Adventurer Tunic", Armor, "fstr", None, "Standard adventurer outfit.", FiveColours))
    case "pfpn" => Some(Item("pfpn", "Padded Armor", Armor, "pfpn", None, "Light padded armor for agile fighters.", FiveColours))
    case _ => None
  }

  /** CLASS_DEFAULT_EQUIPMENT[characterClass]. */
  function ClassDefaultEquipment(characterClass: string): Option<Loadout> {
    match characterClass
    case "paladin" => Some(Loadout(Some(Equipped("sw01", "v01")), Some(Equipped("sh01", "v01")), Some(Equipped("fstr", "v04"))))
    case "warrior" => Some(Loadout(Some(Equipped("sw02", "v01")), None, Some(Equipped("fstr", "v01"))))
    case "archer" => Some(Loadout(Some(Equipped("bo01", "v01")), Some(Equipped("qv01", "v01")), Some(Equipped("fstr", "v05"))))
    case "mage" => Some(Loadout(Some(Equipped("mc01", "v01")), None, Some(Equipped("fstr", "v02"))))
    case "cleric" => Some(Loadout(Some(Equipped("mc01", "v01")), None, Some(Equipped("fstr", "v03"))))
    case _ => None
  }

  /** COMBAT_PAGE_MAP[combatType]. */
  function CombatPage(combatType: string): Option<string> {
    match combatType
    case "sword" => Some("pONE2")
    case "bow" => Some("pBOW2")
    case "spear" => Some("pPOL2")
    case _ => None
  }

  /** The item's fields together with `equippedColor`. */
  datatype DisplayInfo = DisplayInfo(item: Item, equippedColor: string)

  /** `getEquipmentDisplayInfo(equipped)`. */
  function GetEquipmentDisplayInfo(equipped: Option<Equipped>): (r: Option<DisplayInfo>)
    ensures equipped.None? ==> r.None?
    ensures equipped.Some? && Database(equipped.value.itemId).None? ==> r.None?
    ensures equipped.Some? && Database(equipped.value.itemId).Some? ==>
      r == Some(DisplayInfo(Database(equipped.value.itemId).value, equipped.value.color))
  {
    match equipped
    case None => None
    case Some(e) =>
      match Database(e.itemId)
      case None => None
      case Some(item) => Some(DisplayInfo(item, e.color))
  }

  /** `getCombatPageForWeapon(id)`: the page for the item's combat type, or null. */
  function GetCombatPageForWeapon(weaponItemId: string): (r: Option<string>)
    ensures r.Some? <==> Database(weaponItemId).Some? && Database(weaponItemId).value.combatType.Some?
                         && CombatPage(Database(weaponItemId).value.combatType.value).Some?
    ensures r.Some? ==> r == CombatPage(Database(weaponItemId).value.combatType.value)
  {
    match Database(weaponItemId)
    case None => None
    case Some(item) =>
      match item.combatType
      case None => None
      case Some(t) => CombatPage(t)
  }

  /** Every database entry is filed under its own id; weapons and off-hands have a combat page, armor has no combat type. */
  predicate WellFormedEntry(id: string, item: Item) {
    && item.id == id && item.spriteId == id
    && (item.slot == Armor <==> item.combatType.None?)
    && (item.slot != Armor ==> CombatPage(item.combatType.value).Some?)
    && |item.colorVariants| > 0
  }

  lemma DatabaseWellFormed(id: string)
    requires Database(id).Some?
    ensures WellFormedEntry(id, Database(id).value)
  {
    if id in ["sw01", "sw02", "ax01", "mc01", "bo01", "bo02", "bo03", "sp01"] {
      FirstEntriesWellFormed(id);
    } else {
      LastEntriesWellFormed(id);
    }
  }

  lemma FirstEntriesWellFormed(id: string)
    requires id in ["sw01", "sw02", "ax01", "mc01", "bo01", "bo02", "bo03", "sp01"]
    ensures Database(id).Some? && WellFormedEntry(id, Database(id).value)
  {
    match id
    case "sw01" =>
    case "sw02" =>
    case "ax01" =>
    case "mc01" =>
    case "bo01" =>
    case "bo02" =>
    case "bo03" =>
    case "sp01" =>
  }

  lemma LastEntriesWellFormed(id: string)
    requires Database(id).Some? && id !in ["sw01", "sw02", "ax01", "mc01", "bo01", "bo02", "bo03", "sp01"]
    ensures WellFormedEntry(id, Database(id).value)
  {
    match id
    case "sp02" =>
    case "hb01" =>
    case "sh01" =>
    case "sh02" =>
    case "sh03" =>
    case "qv01" =>
    case "fstr" =>
    case "pfpn" =>
    case _ =>
  }

  /** The armor items are the two outfit styles "fstr" and "pfpn", each in five colours. */
  lemma ArmorEntries(id: string)
    requires Database(id).Some? && Database(id).value.slot == Armor
    ensures id == "fstr" || id == "pfpn"
    ensures Database(id).value.colorVariants == FiveColours
  {
    if id in ["sw01", "sw02", "ax01", "mc01", "bo01", "bo02", "bo03", "sp01"] {
      FirstEntriesWellFormed(id);
    } else {
      match id
      case "sp02" =>
      case "hb01" =>
      case "sh01" =>
      case "sh02" =>
      case "sh03" =>
      case "qv01" =>
      case "fstr" =>
      case "pfpn" =>
      case _ =>
    }
  }

  /** Armor, having no combat type, never yields a combat page. */
  lemma ArmorHasNoCombatPage(id: string)
    requires Database(id).Some? && Database(id).value.slot == Armor
    ensures GetCombatPageForWeapon(id).None?
  {
    DatabaseWellFormed(id);
  }

  /** A default entry fits a slot when it names an item of that slot offering that colour. */
  predicate FitsSlot(e: Option<Equipped>, slot: Slot) {
    e.Some? ==>
      && Database(e.value.itemId).Some?
      && Database(e.value.itemId).value.slot == slot
      && e.value.color in Database(e.value.itemId).value.colorVariants
  }

  predicate LoadoutFits(d: Loadout) {
    && FitsSlot(d.weapon, Weapon) && FitsSlot(d.offHand, OffHand) && FitsSlot(d.armor, Armor)
    && d.weapon.Some? && d.armor.Some?
  }

  /** Every class default names an existing item of the right slot in one of its colours. */
  lemma DefaultsConsistent(characterClass: string)
    requires ClassDefaultEquipment(characterClass).Some?
    ensures LoadoutFits(ClassDefaultEquipment(characterClass).value)
  {
    match characterClass
    case "paladin" => PaladinDefaultsFit();
    case "warrior" => WarriorDefaultsFit();
    case "archer" => ArcherDefaultsFit();
    case "mage" => MageDefaultsFit();
    case "cleric" => ClericDefaultsFit();
  }

  lemma PaladinDefaultsFit()
    ensures LoadoutFits(ClassDefaultEquipment("paladin").value)
  {
  }

  lemma WarriorDefaultsFit()
    ensures LoadoutFits(ClassDefaultEquipment("warrior").value)
  {
  }

  lemma ArcherDefaultsFit()
    ensures LoadoutFits(ClassDefaultEquipment("archer").value)
  {
  }

  lemma MageDefaultsFit()
    ensures LoadoutFits(ClassDefaultEquipment("mage").value)
  {
  }

  lemma ClericDefaultsFit()
    ensures LoadoutFits(ClassDefaultEquipment("cleric").value)
  {
  }
}
