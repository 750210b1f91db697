/**
 * src/config/classes.js: the five playable classes and their base stats.
 * Each class spends a budget of 20 points, where one point is 50 HP or one
 * point of strength, agility or mind power.
 */
module Classes {
  import opened Wrappers

  datatype BaseStats = BaseStats(hp: int, strength: int, agility: int, mindPower: int)

  datatype ClassData = ClassData(name: string, description: string, color: string, baseStats: BaseStats)

  /** The keys of CLASS_CONFIG, in the order Object.entries lists them. */
  const ClassKeys: seq<string> := ["paladin", "warrior", "mage", "archer", "cleric"]

  const StatBudget: int := 20
  const HpPerPoint: int := 50

  /** CLASS_CONFIG[key]; None for a key the table does not list. */
  function ClassConfig(key: string): Option<ClassData> {
    match key
    case "paladin" => Some(ClassData("Paladin", "Heavily armored tank with high HP and defense", "#f59e0b",
                                     BaseStats(350, 8, 3, 2)))
    case "warrior" => Some(ClassData("Warrior", "Fierce melee fighter with devastating strength", "#dc2626",
                                     BaseStats(200, 12, 3, 1)))
    case "mage" => Some(ClassData("Mage", "Powerful spellcaster with immense mind power", "#3b82f6",
                                  BaseStats(100, 2, 2, 14)))
    case "archer" => Some(ClassData("Archer", "Swift ranged attacker with deadly precision", "#10b981",
                                    BaseStats(150, 4, 11, 2)))
    case "cleric" => Some(ClassData("Cleric", "Holy support with healing and balanced stats", "#8b5cf6",
                                    BaseStats(150, 2, 5, 10)))
    case _ => None
  }

  predicate IsClass(key: string) { ClassConfig(key).Some? }

  /** The points a stat line costs: hp/50 + strength + agility + mindPower. */
  function Points(s: BaseStats): int { s.hp / HpPerPoint + s.strength + s.agility + s.mindPower }

  /** Exactly the five listed keys are classes. */
  lemma ClassKeysExact(key: string)
    ensures IsClass(key) <==> key in ClassKeys
  {
  }

  /** Every class spends exactly the 20-point budget, with HP in whole points and every stat positive. */
  lemma ClassBudget(key: string)
    requires IsClass(key)
    ensures SpendsBudget(ClassConfig(key).value.baseStats)
  {
    match key
    case "paladin" =>
    case "warrior" =>
    case "mage" =>
    case "archer" =>
    case "cleric" =>
  }

  predicate SpendsBudget(s: BaseStats) {
    && Points(s) == StatBudget
    && s.hp % HpPerPoint == 0
    && s.hp > 0 && s.strength > 0 && s.agility > 0 && s.mindPower > 0
  }
}
