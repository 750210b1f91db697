# Scrolls of Doom: a verified model of the game rules

Scrolls of Doom is a productivity RPG: the player submits real-world tasks,
a small Express server grades each one into an XP tier, and the XP levels up
a character who spends stat points and fights in an arena and a boss battle.
Three Python scripts prepare the sprite sheets by turning a checkerboard
background transparent. This project models the rule-like core of the game
in Dafny and proves what those rules promise.

What is modelled, one Dafny module per source file:

- **Transparency**, **ClassHuds**, **ScrollsTitle** (`convert_transparency.py`,
  `extract_class_huds.py`, `extract_scrolls_title.py`): an image is an
  `array2` of RGBA pixels indexed `[x, y]`, as PIL's pixel access is.
  - The transparency pass is a nested loop that clears in place the alpha of
    every near-white or near-192-gray pixel.
  - The HUD extractor cuts five bands of `height // 5` rows.
  - The title extractor crops from row `floor(height * 0.45)`, computed as
    `height * 45 / 100`.
- **Leveling** (`levelingSystem.js`): the XP table, `getXpForNextLevel` and
  the `calculateLevelUp` loop with its conservation invariant.
- **Classes**, **Abilities**, **Equipment**, **Appearance** (`src/config/`):
  - the static tables and their lookups;
  - the 20-point class budget and ability unlocks by slot and level;
  - equipment display and class defaults;
  - the sprite path and texture-key builders, checked against the preload
    table that `getAllSpriteSheets` fills.
- **Combat**, **Arena**, **Battle** (`ArenaModal.jsx`, `BattleModal.jsx`):
  - the formula-string damage calculation;
  - hp and mana bookkeeping;
  - the five-line log;
  - arena party generation and its agility sort, with the random draws as
    parameters;
  - the collection and play of AI turns;
  - the boss battle's turn cycle and AI choice.
  - Each handler is a function from the component's state before to its
    state after, with timers collapsed.
- **Game** (`App.jsx`): the player-record handlers. Task submission,
  stat allocation, the New Game slot choice, save migration on load and
  character creation.
- **TaskServer** (`server.js`): the demo keyword grader, the tier-marker
  parser of the model's reply, and the missing-description checks.
- **Auth**, **AuthForm** (`useAuth.jsx`, `AuthModal.jsx`):
  - the error-message table;
  - registration and login over two maps standing for the `usernames` and
    `users` collections;
  - the form validators;
  - the routing of error codes to form fields.
- **CharacterCreation** (`CharacterCreationModal.jsx`): the name rules and
  the three-stage wizard, as a class whose handlers update its fields.
- **SaveManager** (`saveManager.js`): slot loading from the document list,
  and the retry schedule of a save as a sequence of events.
- **SessionLock** (`useSessionLock.jsx`): the one-device-per-account lock.
  The sessions collection is an object shared by the hooks of all devices.
  The hook is a class holding its flags and heartbeat.

**Wrappers** holds `Option` and `Result`. **Text** holds the JavaScript string
operations the source relies on: `trim`, `toLowerCase`, `includes`,
`indexOf`, `split(m)[1]`, `String(n)` and `length`, which counts UTF-16 code
units. Its `toLowerCase` lower-cases the ASCII letters only, where
JavaScript's applies the full Unicode case mapping (see "Left out").

`saveWithRetry`'s doc comment (`src/utils/saveManager.js:51-56`) says "up to 3 attempts". The code retries after attempts 0, 1 and 2 and gives up only after attempt 3. That is up to four save calls, which is what the model follows and what SaveManager.SaveChainFromStart states.

## Model

| member | source | states |
|---|---|---|
| Transparency.Cleared | convert_transparency.py:42-46 | a pixel's colour is never altered; a white or light-gray pixel comes back with alpha 0, any other pixel comes back exactly as it was |
| Transparency.MakeTransparent | convert_transparency.py:31-46 | after the nested row/column pass over the buffer, every pixel at every (x, y) is the cleared form of the pixel that was there before |
| Transparency.CropRows | extract_class_huds.py:36 | cropping whole rows [top, bottom) gives a fresh buffer of the same width and bottom - top rows whose row y is row top + y of the image |
| Transparency.ClearedIdempotent | convert_transparency.py:37-46 | classification reads colour only, so clearing an already cleared pixel changes nothing |
| Transparency.NonPositiveThresholdChangesNothing | convert_transparency.py:42-43 | with threshold <= 0 no 8-bit pixel is white or light gray, so the pass leaves every pixel as it was |
| Transparency.BackgroundMonotone | convert_transparency.py:42-43 | a pixel cleared at threshold t is background, and cleared, at every threshold t' >= t |
| Transparency.ConvertExamples | convert_transparency.py:42-46 | at threshold 30, (255,255,255,255) and (192,192,192,255) lose their alpha and (100,100,100,255) is unchanged |
| ClassHuds.HudFileNameRoundTrip | extract_class_huds.py:57 | the file name band i is written to carries the `-hud.png` suffix and strips back to band i's class |
| ClassHuds.HudFileNames | extract_class_huds.py:57-87 | the bands, top to bottom, go to paladin-hud.png, warrior-hud.png, archer-hud.png, mage-hud.png and cleric-hud.png |
| ClassHuds.HudFilesDistinct | extract_class_huds.py:81-87 | no two bands are written to the same file |
| ClassHuds.BandInsideImage | extract_class_huds.py:29-33 | each of the five bands ends no lower than 5 * (height // 5), which is no lower than the image height |
| ClassHuds.BandsContiguous | extract_class_huds.py:32-33 | band i ends exactly where band i + 1 starts |
| ClassHuds.BandsDisjoint | extract_class_huds.py:32-33 | an earlier band lies wholly above a later one, so no row is in two bands |
| ClassHuds.RowInBand | extract_class_huds.py:29-33 | a row lies in some band if and only if it is above 5 * (height // 5), and then it lies in band y / (height // 5) |
| ClassHuds.TrailingRowsDropped | extract_class_huds.py:29-33 | the rows below the last band number height % 5, at most 4 |
| ClassHuds.HundredRowSheet | extract_class_huds.py:29-33 | a 100-row sheet gives 20-row bands starting at rows 0, 20, 40, 60 and 80 and ending at 100 |
| ClassHuds.ExtractClassHud | extract_class_huds.py:26-61 | the HUD is a fresh buffer of the sheet's width and height // 5 rows whose pixel (x, y) is the cleared form of sheet pixel (x, top of the band + y), and the file it is saved to names the band's class |
| ScrollsTitle.CropTopIsFloor | extract_scrolls_title.py:35-36 | the crop top is the floor of 45% of the height, never past the height, and strictly above it for any height >= 1, so the crop keeps a row |
| ScrollsTitle.HundredRowTitle | extract_scrolls_title.py:35-38 | a 100-row image is cropped from row 45, keeping 55 rows |
| ScrollsTitle.ExtractAndMakeTransparent | extract_scrolls_title.py:30-54 | the logo is a fresh buffer of the image's width and height - crop top rows whose pixel (x, y) is the cleared form of image pixel (x, y + crop top) |
| Leveling.XpForNextLevel | src/config/levelingSystem.js:60-67 | the XP needed for the next level is always positive |
| Leveling.XpTableIncreasing | src/config/levelingSystem.js:2-53 | the table lists exactly levels 1..50, every entry positive and each larger than the one before |
| Leveling.XpForNextLevelCases | src/config/levelingSystem.js:60-67 | from level 50 up the answer is the level-50 entry 155500, for levels 1..49 it is the table entry, and below level 1 it is the fallback 100 |
| Leveling.Climb | src/config/levelingSystem.js:78-86 | the while loop over level, xp and xpNeeded, for any cost per level, terminates where the level-up recursion stops |
| Leveling.CalculateLevelUp | src/config/levelingSystem.js:76-93 | the loop run on the XP table returns the result of the level-up recursion, with the XP reset at level 50 |
| Leveling.AdvanceStep | src/config/levelingSystem.js:82-86 | for any cost per level, a turn of the loop buys one level while the XP pays for it below 50; otherwise the climb ends where it stands |
| Leveling.LevelUpOfStop | src/config/levelingSystem.js:88-92 | the result is the level where the climb stops, its XP left (0 at the cap) and the XP that level needs |
| Leveling.AdvanceBounds | src/config/levelingSystem.js:82-86 | for any cost per level, the loop never lowers the level and never climbs past 50 (a level already above 50 is kept) |
| Leveling.AdvanceConserves | src/config/levelingSystem.js:78-86 | for any cost per level, the XP left plus the cost of every level climbed equals the XP the loop started with |
| Leveling.AdvanceStopsShort | src/config/levelingSystem.js:82 | for any cost per level, below level 50 the loop stops only when the XP left cannot pay for the next level |
| Leveling.AdvancePaysEachLevel | src/config/levelingSystem.js:82-86 | for any cost per level, every level climbed was paid for out of the XP available |
| Leveling.LevelUpProperties | src/config/levelingSystem.js:76-93 | currentLevel <= newLevel <= max(currentLevel, 50); xpToNextLevel is getXpForNextLevel(newLevel); at 50 the XP is 0; below 50 remainingXp < xpToNextLevel and currentXp + xpGained equals remainingXp plus the cost of the levels climbed |
| Leveling.FirstLevelUp | src/config/levelingSystem.js:76-93 | a level-1 character with 0 XP earning 10 reaches level 2 with 0 XP and needs 20 next; earning 9 it stays at level 1 with 9 |
| Classes.ClassKeysExact | src/config/classes.js:1-63 | a key names a class if and only if it is one of paladin, warrior, mage, archer, cleric |
| Classes.ClassBudget | src/config/classes.js:7-60 | every class's base stats cost exactly 20 points (hp/50 + strength + agility + mindPower), its hp is a whole number of 50-HP points, and every stat is positive |
| Abilities.Lookup | src/config/abilities.js:303-305 | looking a key up in the entries of an object yields a value only for a key some entry carries, and nothing when no entry carries it |
| Abilities.AbilitiesOfEach | src/config/abilities.js:25-300 | ABILITIES has a table for paladin, warrior, archer, mage and cleric, each the one declared for it, and for no other key |
| Abilities.GetClassAbilities | src/config/abilities.js:303-305 | getClassAbilities gives the class's table, or the empty object for a class ABILITIES does not list |
| Abilities.UnlockedOfCounts | src/config/abilities.js:308-311 | the unlock filter keeps every unlocked ability as many times as the list holds it and drops every locked one |
| Abilities.GetUnlockedAbilities | src/config/abilities.js:308-311 | an ability is in getUnlockedAbilities exactly when it is one of the class's abilities and its unlock level is at most the level |
| Abilities.UnlockedOfAppend | src/config/abilities.js:310 | the filter keeps the table's order: filtering a list extended by one ability extends the result by that ability when it is unlocked |
| Abilities.UnlockedMonotone | src/config/abilities.js:308-316 | raising the level never locks an ability that was unlocked |
| Abilities.TableWellFormed | src/config/abilities.js:25-300 | every class table holds three abilities, in slot order 1, 2, 3, each id equal to its key, each unlock level the one its slot calls for (1, 3, 15), no negative mana cost |
| Abilities.PaladinWellFormed | src/config/abilities.js:27-81 | the paladin table is well formed in the sense above |
| Abilities.WarriorWellFormed | src/config/abilities.js:82-139 | the warrior table is well formed |
| Abilities.ArcherWellFormed | src/config/abilities.js:140-194 | the archer table is well formed |
| Abilities.MageWellFormed | src/config/abilities.js:195-248 | the mage table is well formed |
| Abilities.ClericWellFormed | src/config/abilities.js:249-299 | the cleric table is well formed |
| Abilities.UnlockCounts | src/config/abilities.js:308-311 | for a known class nothing is unlocked below level 1, exactly the slot-1 ability at levels 1 and 2, and all three abilities, in order, from level 15 |
| Abilities.UnknownClassHasNone | src/config/abilities.js:303-311 | an unknown class has an empty table and no unlocked ability at any level |
| Equipment.GetEquipmentDisplayInfo | src/config/equipment.js:152-157 | nothing equipped, or an id the database lacks, gives null; a known item gives that item's fields with the equipped colour |
| Equipment.GetCombatPageForWeapon | src/config/equipment.js:160-164 | a page comes back exactly when the id names an item whose combat type has a page, and it is that type's page |
| Equipment.DatabaseWellFormed | src/config/equipment.js:7-148 | every database entry is filed under its own id and sprite id, has at least one colour, has a combat type unless it is armor, and every weapon or off-hand combat type has a combat page |
| Equipment.FirstEntriesWellFormed | src/config/equipment.js:9-56 | the eight weapon entries sw01 to sp01 exist and are well formed |
| Equipment.LastEntriesWellFormed | src/config/equipment.js:57-108 | every other database entry is well formed |
| Equipment.ArmorEntries | src/config/equipment.js:97-108 | the only armor items are fstr and pfpn, each offered in the five colours v01 to v05 |
| Equipment.ArmorHasNoCombatPage | src/config/equipment.js:160-164 | an armor id never yields a combat page |
| Equipment.DefaultsConsistent | src/config/equipment.js:114-140 | every class default names a weapon and an armor, and every item it names exists in the database, in the slot it fills, in the colour chosen |
| Equipment.PaladinDefaultsFit | src/config/equipment.js:115-119 | the paladin default loadout fits in the sense above |
| Equipment.WarriorDefaultsFit | src/config/equipment.js:120-124 | the warrior default loadout fits |
| Equipment.ArcherDefaultsFit | src/config/equipment.js:125-129 | the archer default loadout fits |
| Equipment.MageDefaultsFit | src/config/equipment.js:130-134 | the mage default loadout fits |
| Equipment.ClericDefaultsFit | src/config/equipment.js:135-139 | the cleric default loadout fits |
| Appearance.OutfitStyleOf | src/config/appearance.js:68-81 | the outfit style is the look's own when that is a non-empty string, and 'fstr' otherwise |
| Appearance.GetEffectiveAppearance | src/config/appearance.js:56-64 | no appearance gives null; with armor equipped the outfit style becomes the armor's item id and the outfit its colour, every other field copied; without armor the look comes back unchanged |
| Appearance.GetAppearancePaths | src/config/appearance.js:67-77 | the base, outfit and hair paths are built from the skin, the outfit style (defaulted) and colour, and the hair style and colour; the hat path is null exactly when the hat style is falsy |
| Appearance.GetAppearanceTextureKeys | src/config/appearance.js:80-90 | the texture keys are built the same way under the ms_ prefixes; the hat key is null exactly when the hat style is falsy |
| Appearance.KeptHatIds | src/config/appearance.js:113-114 | the hat styles the preload loop keeps are those with a non-empty id, never more than the list holds |
| Appearance.OptionListsGood | src/config/appearance.js:6-43 | the option lists have distinct entries of the widths the keys rely on, the kept hat ids are pnty and pfht, and the outfit styles offer 12 colours in all |
| Appearance.GetAllSpriteSheets | src/config/appearance.js:93-121 | the loops fill exactly the preload table: every listed base, every outfit style in each of its own colours, every hair style in every hair colour, every non-null hat in every hat colour, each under its path and nothing else; 11 + 12 + 98 + 10 = 131 entries |
| Appearance.AddBaseSheets | src/config/appearance.js:96-98 | the skin-tone loop writes one base sheet per tone, under its key and path, and nothing else |
| Appearance.AddOutfitRow | src/config/appearance.js:102-104 | the inner outfit loop adds style i in each of its colours, one new entry per colour, keeping all earlier entries |
| Appearance.AddOutfitSheets | src/config/appearance.js:101-105 | the outfit loops add every style in each of its own colours, one new entry each, keeping the base entries |
| Appearance.AddGridRow | src/config/appearance.js:108-117 | the inner loop of a style-by-colour layer adds style i in every colour, one new entry each |
| Appearance.AddGrid | src/config/appearance.js:107-118 | a style-by-colour layer adds every style in every colour, ids times colours new entries, keeping the earlier layers |
| Appearance.AddHairSheets | src/config/appearance.js:107-111 | the hair loops add every hair style in every hair colour |
| Appearance.AddHatSheets | src/config/appearance.js:113-118 | the hat loops skip the null style and add every other hat in every hat colour |
| Appearance.TextureKeysPreloaded | src/config/appearance.js:67-121 | for a look drawn from the option lists, every texture key the look asks for is in the preload table and maps to the path getAppearancePaths gives for the same layer |
| Appearance.BasePreloaded | src/config/appearance.js:83-98 | a listed skin's base key is preloaded under its path |
| Appearance.OutfitPreloaded | src/config/appearance.js:84-105 | an outfit style in one of its own colours is preloaded under its path |
| Appearance.HairPreloaded | src/config/appearance.js:85-111 | a listed hair style in a listed colour is preloaded under its path |
| Appearance.HatPreloaded | src/config/appearance.js:86-118 | a listed hat in a listed hat colour is preloaded under its path |
| Appearance.ClassDefaultsFromLists | src/config/appearance.js:46-52 | every class's default look is drawn from the option lists |
| Appearance.EffectiveAppearanceFromLists | src/config/appearance.js:56-64 | putting on armor from the equipment database keeps a look drawn from the option lists |
| Combat.FreshStats | src/components/BattleModal.jsx:27-44 | an AI teammate starts at full hp (hp = maxHp = base hp) and full mana (mana = maxMana = 10 * mindPower), with the class's strength, agility and mind power |
| Combat.NumberAt | src/components/ArenaModal.jsx:150 | the captured number `\d+\.?\d*` reads a value exactly when a digit stands at the position, and that value is never negative |
| Combat.MultiplierAtMeaning | src/components/ArenaModal.jsx:150-165 | the scan for `\s*\*\s*(\d+\.?\d*)` finds a multiplier exactly when spaces, a '*', spaces and a digit follow the position |
| Combat.CalculateDamage | src/components/ArenaModal.jsx:145-170 | the damage is the floor of the sum, over the four stats the formula names, of stat times its multiplier |
| Combat.FirstMatchNone | src/components/ArenaModal.jsx:150 | without a match at or after a position the regex captures nothing |
| Combat.UnmultipliedStat | src/components/ArenaModal.jsx:149-151 | a stat the formula names with no `* n` after any occurrence counts once (multiplier 1) |
| Combat.UnnamedStat | src/components/ArenaModal.jsx:149-167 | a stat the formula does not name adds nothing |
| Combat.LeftmostMatch | src/components/ArenaModal.jsx:150 | the multiplier is the capture of the leftmost match |
| Combat.SpacedTimesDigit | src/components/ArenaModal.jsx:150 | " * " followed by a lone digit gives that digit as the multiplier |
| Combat.RapidShotDamage | src/components/ArenaModal.jsx:145-170 | '(agility * 3) + strength' deals 3 * agility + strength |
| Combat.RapidShotAgility | src/components/ArenaModal.jsx:154-157 | in '(agility * 3) + strength' agility counts three times |
| Combat.RapidShotStrength | src/components/ArenaModal.jsx:149-152 | in '(agility * 3) + strength' strength counts once |
| Combat.DoubleSlashDamage | src/components/ArenaModal.jsx:145-170 | 'strength * 4' deals 4 * strength per hit |
| Combat.HealAmount | src/components/ArenaModal.jsx:145-170 | 'mindPower * 6' restores 6 * mindPower |
| Combat.FireballDamage | src/components/ArenaModal.jsx:145-170 | 'mindPower * 10' deals 10 * mindPower, the two-digit multiplier read whole |
| Combat.StompDamage | src/components/ArenaModal.jsx:145-170 | 'maxHp * 0.1' deals a tenth of maxHp rounded down |
| Combat.NoStatNoDamage | src/components/ArenaModal.jsx:145-170 | a formula naming none of the four stats deals 0 |
| Combat.FirstMatchNonNegative | src/components/ArenaModal.jsx:150 | a captured multiplier is never negative: the pattern has no minus sign |
| Combat.TermNonNegative | src/components/ArenaModal.jsx:149-167 | a stat that is not negative contributes nothing negative |
| Combat.DamageNonNegative | src/components/ArenaModal.jsx:145-170 | with no negative stat, no formula yields a negative amount |
| Combat.AiIdsDiffer | src/components/ArenaModal.jsx:127 | the ids ai_1 to ai_9 differ from each other and from "player" |
| Combat.LineupIds | src/components/BattleModal.jsx:90-105 | a lineup of "player" and ai_1, ai_2, ai_3 has four distinct team ids |
| Combat.PickIndex | src/components/ArenaModal.jsx:111 | Math.floor(r * len) for a draw r in [0, 1) is an index into the list |
| Combat.SmallMod | src/components/ArenaModal.jsx:303-313 | y % n for y below 2n is y itself or y - n |
| Combat.ModStep | src/components/ArenaModal.jsx:303-327 | the member after y % n is the one at (y + 1) % n |
| Combat.BasicAttackDamage | src/components/ArenaModal.jsx:215-217 | the basic attack deals floor(strength + agility / 2) |
| Combat.AbilityDamage | src/components/ArenaModal.jsx:257-259 | a damage ability's total is the formula's damage times the hit count, never negative for non-negative stats and at least one hit |
| Combat.HitCount | src/components/ArenaModal.jsx:258 | a missing or zero hit count means one hit; otherwise the ability's own count |
| Combat.ApplyDamage | src/components/ArenaModal.jsx:220 | hp after damage is hp - damage, clamped at 0 |
| Combat.ApplyHeal | src/components/ArenaModal.jsx:278-281 | hp after a heal is hp + amount, capped at maxHp |
| Combat.AddLog | src/components/ArenaModal.jsx:412-414 | the new entry goes in front, followed by the newest earlier entries, five at most |
| Combat.LogBounded | src/components/ArenaModal.jsx:412-414 | however many entries are added, the log holds at most five |
| Combat.FirstAffordable | src/components/BattleModal.jsx:179-188 | the first ability whose cost the mana covers, with every earlier one too dear; none exactly when none is affordable |
| Combat.FindById | src/components/ArenaModal.jsx:253 | findIndex gives the first member with the id, or -1 when no member has it |
| Combat.OnlyStatsTrans | src/components/ArenaModal.jsx:252-254 | two changes of stats alone make one change of stats alone |
| Combat.OnlyStatsKeepIds | src/components/ArenaModal.jsx:252-254 | changing only stats keeps member ids distinct |
| Combat.FindByIdOfMember | src/components/ArenaModal.jsx:253 | with distinct ids, looking a member up by its own id finds that member |
| Combat.PayById | src/components/ArenaModal.jsx:253-254 | the member found by id pays the cost in mana, every other member is unchanged, and only stats change |
| Combat.UseAbilityBookkeeping | src/components/ArenaModal.jsx:252-285 | the caster pays exactly the mana cost and nobody else changes; damage is formula damage times hits with the enemy's hp clamped at 0 and logged; a heal never lifts hp above maxHp; other abilities touch neither enemy nor log |
| Combat.UseAbilityKeepsSound | src/components/ArenaModal.jsx:245-285 | an affordable ability keeps mana non-negative and hp within maxHp for every member, changes only stats, lowers the enemy's hp without passing 0, and keeps the log at five |
| Combat.PayByIdKeepsSound | src/components/ArenaModal.jsx:253-254 | paying mana the member has keeps the party sound |
| Combat.CombatAbilitiesOfClass | src/components/ArenaModal.jsx:201-206 | at level 1 every class fights with its slot-1 ability alone, which carries a formula; an unknown class has none |
| Combat.FirstAbilityHasFormula | src/config/abilities.js:25-300 | each class's slot-1 ability has a formula, a non-negative cost and at least one hit |
| Combat.AIChoice | src/components/BattleModal.jsx:179-188 | the AI's ability is one of its class's combat abilities that its mana covers; there is none exactly when every one is too dear |
| Combat.AIChoiceNone | src/components/BattleModal.jsx:179-181 | an AI that can afford none of the abilities offered uses none |
| Combat.AIChoiceFirst | src/components/BattleModal.jsx:182 | the AI takes the first ability, in slot order, that its mana covers |
| Arena.PlayerCombatant | src/components/ArenaModal.jsx:69-86 | the player's combatant is the human "player", alive, with the save's class and name, hp, maxHp and agility; maxMana is the saved maxMana or else mindPower * 10, and mana the saved mana when present or else maxMana |
| Arena.Teammate | src/components/ArenaModal.jsx:122-142 | a generated teammate is an alive AI with id ai_index, named after its class with " Ally", starting at its class's base stats with full hp and mana |
| Arena.NeededClasses | src/components/ArenaModal.jsx:92-93 | the classes still needed are paladin and cleric less the player's own class |
| Arena.RequiredTeammates | src/components/ArenaModal.jsx:96-98 | one teammate per needed class, the k-th with id ai_(k+1) |
| Arena.FillPrefix | src/components/ArenaModal.jsx:110-113 | the random fill keeps the party it starts from and tops it up to exactly four |
| Arena.FillTeammates | src/components/ArenaModal.jsx:110-113 | every member the fill adds is a fresh teammate whose id is its position and whose class is one of the available classes |
| Arena.TeamClassesKnown | src/components/ArenaModal.jsx:97-107 | the needed classes and the at least three available classes are all real classes |
| Arena.FillParty | src/components/ArenaModal.jsx:110-113 | the while loop builds exactly the fill its specification function describes |
| Arena.GenerateArenaTeam | src/components/ArenaModal.jsx:65-119 | the team is the roster sorted by agility |
| Arena.LineupShape | src/components/ArenaModal.jsx:65-113 | before sorting, the roster has four members: the player first, then fresh teammates with id ai_i at position i, the needed classes first |
| Arena.SortedLineupShape | src/components/ArenaModal.jsx:65-116 | after sorting, four members from most to least agile with distinct team ids; each is the player or a teammate; the player and every needed class are present |
| Arena.ArenaTeamShape | src/components/ArenaModal.jsx:65-119 | the generated team has four members, most agile first, ids player and ai_1 to ai_3 once each, the player's combatant present and all others fresh teammates, and both a paladin and a cleric |
| Arena.SortByAgilitySpec | src/components/ArenaModal.jsx:116 | the agility sort is a permutation, ordered from highest to lowest agility, and stable: members of equal agility keep their roster order |
| Arena.SortKeepsDistinctIds | src/components/ArenaModal.jsx:116 | sorting keeps the member ids distinct |
| Arena.FirstHuman | src/components/ArenaModal.jsx:189-190 | findIndex of the first non-AI member: a human with only AI before it, or -1 exactly when every member is AI |
| Arena.StartOnPlayer | src/components/ArenaModal.jsx:182-195 | the fight opens on the player's turn, and it starts sound when the save's stats are sound |
| Arena.AIRunMeaning | src/components/ArenaModal.jsx:300-313 | the AI turns after the current one are the maximal run of AI members following it in cyclic order: at most n - 1, each at (cur + 1 + t) mod n, the next one human when the run is shorter |
| Arena.CollectAITurns | src/components/ArenaModal.jsx:300-313 | the collecting loop, with its break at the first human, returns exactly that run |
| Arena.ExecuteAITurns | src/components/ArenaModal.jsx:297-410 | executing the AI turns one after the other gives the state the AI-turns function describes |
| Arena.PlayTurns | src/components/ArenaModal.jsx:322-409 | the recursive executeNextAI plays the turns in order, stopping at victory, exactly as the chain function does |
| Arena.AIActionKeeps | src/components/ArenaModal.jsx:330-393 | one AI turn keeps the party sound, changes only the acting member's stats, pays only mana it has, lowers the orc's hp but never below 0, and hands the turn to the actor |
| Arena.ChainSound | src/components/ArenaModal.jsx:322-409 | a chain of such turns keeps the fight sound, changes only stats and only lowers the orc's hp |
| Arena.ChainHandOver | src/components/ArenaModal.jsx:397-405 | a chain that ends without victory passes the turn to the member after the last one to act |
| Arena.ChainLeaves | src/components/ArenaModal.jsx:322-409 | a member who does not act in the chain is left exactly as it was |
| Arena.AfterRun | src/components/ArenaModal.jsx:327 | the turn after the last AI of the run is the next human's |
| Arena.NextHumanIsHuman | src/components/ArenaModal.jsx:300-313 | from a human's turn, the next human in turn order is indeed human |
| Arena.AITurnsSpareHumans | src/components/ArenaModal.jsx:297-410 | the AI turns leave every human member unchanged |
| Arena.AITurnsKeeps | src/components/ArenaModal.jsx:297-410 | from a human's turn, the AI turns keep the fight sound, change only stats and no human, only lower the orc's hp, and unless the orc falls hand the turn to the next human |
| Arena.HandleAttack | src/components/ArenaModal.jsx:209-241 | the new state is exactly the attack step, followed by the AI turns unless the attack wins; the fight stays sound, the orc loses at least the attack's damage, and the turn comes back to the next human |
| Arena.UseAbility | src/components/ArenaModal.jsx:244-294 | an ability the caster cannot afford changes nothing; otherwise the new state is exactly the ability's step, followed by the AI turns unless it wins; the caster pays exactly its cost, the fight stays sound, and the turn comes back to the next human |
| Arena.AbilityStepKeeps | src/components/ArenaModal.jsx:252-285 | the ability's own effect keeps the fight sound and the turn where it is, and charges the caster exactly the cost |
| Battle.Without | src/components/BattleModal.jsx:24 | filtering out a class keeps exactly the other classes, and changes nothing when the class is absent |
| Battle.AvailableFor | src/components/BattleModal.jsx:22-24 | a teammate draws from the five battle classes other than the player's: four of them, or all five for a class not in the list |
| Battle.Teammate | src/components/BattleModal.jsx:21-46 | a generated teammate is an alive AI with id ai_index, of a real class other than the player's, named "AI " and the class name, at its class's full hp and mana |
| Battle.OpenParty | src/components/BattleModal.jsx:87-109 | the opened battle has the boss at full hp, turn 0, the start message alone in the log, the battle active, and four members: the player first with its saved stats, then three AI teammates of other classes at full hp and mana, with distinct ids |
| Battle.OpenOnce | src/components/BattleModal.jsx:88 | the opening effect leaves a battle that already has a party alone |
| Battle.TeammateReady | src/components/BattleModal.jsx:21-46 | a generated teammate is an AI with id ai_index, of a real class other than the player's, at full hp and mana |
| Battle.LineupReady | src/components/BattleModal.jsx:105 | the player followed by teammates 1 to 3 form a party with distinct ids, the player first and unchanged |
| Battle.TeammateSound | src/components/BattleModal.jsx:27-45 | a teammate starts sound: positive base stats, full hp and mana |
| Battle.OpenSound | src/components/BattleModal.jsx:87-109 | a battle opened for a sound player is sound |
| Battle.TurnAfterWithinRound | src/components/BattleModal.jsx:197-199 | k calls of nextTurn within one round move the turn k members on, wrapping past the last |
| Battle.EveryMemberPlays | src/components/BattleModal.jsx:197-199 | every member holds the turn within fewer than n calls of nextTurn |
| Battle.UseAbility | src/components/BattleModal.jsx:123-126 | with no member holding the turn or its mana short of the cost, the ability changes nothing |
| Battle.UseAbilityOutcome | src/components/BattleModal.jsx:123-172 | an affordable ability charges the caster exactly the cost and changes no one else, passes the turn on, takes damage times hits off the boss clamped at 0 and wins exactly when it reaches 0 with the victory message after the ability's; a heal leaves the boss alone and never lifts the caster above maxHp |
| Battle.UseAbilityKeeps | src/components/BattleModal.jsx:123-172 | an ability the class tables define keeps the battle sound, changes only stats and only lowers the boss's hp |
| Battle.AITurn | src/components/BattleModal.jsx:175-176 | nothing happens unless the battle is active and an AI holds the turn |
| Battle.AITurnUsesFirst | src/components/BattleModal.jsx:179-183 | an AI holding the turn uses the first of its abilities, in slot order, that its mana covers |
| Battle.AITurnOutOfMana | src/components/BattleModal.jsx:184-188 | an AI that can afford none of its abilities is reported out of mana and passes the turn; party, boss hp and phase stay |
| Battle.AITurnKeeps | src/components/BattleModal.jsx:175-191 | an AI turn keeps the battle sound, changes only stats and only lowers the boss's hp |
| Game.SaveTarget | src/App.jsx:254 | the slot a save goes to is the current slot when it is truthy, and slot 1 otherwise; it is always truthy |
| Game.TaskSubmitProperties | src/App.jsx:222-255 | a task submission never lowers the level and stops at 50, leaves XP below the next level's cost (0 at the cap), awards exactly two points per level gained, changes the abilities only when a level was gained, keeps identity, stats, inventory and equipment, and saves the new record |
| Game.AllocateStatEffect | src/App.jsx:260-283 | without an unspent point nothing happens; with one, exactly one point is spent and only the stats change: hp adds 50 to hp and maxHp, strength and agility add 1, mind power adds 1 and sets maxMana to ten times it with mana refilled; the record is saved |
| Game.AllocateConserves | src/App.jsx:260-283 | spending a point on hp, strength, agility or mind power keeps unspent points plus stat points constant |
| Game.AllocateKeepsBounds | src/App.jsx:260-283 | hp stays within maxHp and mana within maxMana after any allocation but one to mana itself |
| Game.FirstEmptyFromMeaning | src/App.jsx:288-295 | the slot loop returns the first empty slot from i up to 2, or 1 when all are full |
| Game.NewGameSlotMeaning | src/App.jsx:285-299 | a truthy slot id is used as given; otherwise New Game takes the lowest empty slot of 1 and 2, or slot 1 when both are full |
| Game.ChooseNewGameSlot | src/App.jsx:286-295 | the for loop with its break picks exactly the slot its specification function names |
| Game.NewGame | src/App.jsx:285-299 | the chosen slot becomes current, the menu closes and character creation opens; the record, the slots and the saves are untouched |
| Game.CreatedCharacter | src/App.jsx:339-380 | a created character is at level 1 with 0 XP and needs 10 XP next, at full hp and mana with maxMana ten times mind power, with no unspent points, an empty inventory and its class's default equipment; it is saved to and shown in the slot currentSaveSlot or 1 |
| Game.CreatedEquipmentFits | src/App.jsx:339-380 | the created character's equipment is its class default, and every piece of it is an existing item of the right slot |
| Game.MigrateProperties | src/App.jsx:301-337 | loading rewrites an old accessory shape with a null off-hand, gives an all-empty equipment its class defaults, defaults missing unspent points to 0, keeps slot-shaped abilities and looks up others for level or 1, and changes nothing else |
| Game.MigrateIdempotent | src/App.jsx:301-337 | migrating a migrated record changes nothing |
| Game.LoadGame | src/App.jsx:301-337 | a slot without data changes nothing; a slot with data becomes current, its record migrated and loaded, the menu closed, with no save made |
| Game.NewGameButtonSkipsFreeSlot | src/components/MainMenu.jsx:48 | with the button handing over its click event, the click event becomes the current slot even when slot 1 is free, and the next character is saved under it rather than under slot 1 or 2 |
| Game.NewGameButtonPicksFreeSlot | src/components/MainMenu.jsx:48 | with the button calling onNewGame without an argument, New Game takes the lowest free slot (or 1) and the next character is saved there |
| TaskServer.Marker | server.js:201-214 | every tier marker the parser looks for ends in a colon |
| TaskServer.XpFollowsRank | server.js:28-33 | a higher-ranked tier grants strictly more XP |
| TaskServer.ContainsAny | server.js:40-53 | a chain of includes tests is true exactly when some keyword occurs in the text |
| TaskServer.MockEvaluateHighest | server.js:36-59 | the demo grade is the highest tier, from Legendary down, any of whose keywords occurs in the lower-cased description, and Common when none does |
| TaskServer.MockEvaluateIgnoresCase | server.js:37 | a description and its lower-cased form get the same demo grade |
| TaskServer.ParseReplyHighest | server.js:198-214 | the parsed tier is that of the highest-ranked marker anywhere in the reply; with no marker it is Common and the explanation is the whole reply |
| TaskServer.ParseReplyPicks | server.js:201-213 | with any marker present, the reply is graded by a marker it contains, the explanation taken after that marker |
| TaskServer.PieceLacksMarker | server.js:204 | the trimmed text between a marker's first and second occurrence does not contain the marker |
| TaskServer.ParseReplyExplanation | server.js:201-214 | with a marker found, the explanation is the trimmed text after its first occurrence, up to the next, with no whitespace at either end and no copy of the marker |
| TaskServer.EvaluateTaskReply | server.js:102-224 | a missing description, and nothing else, is refused with 400; every answer's name, XP and colour are one tier's entry, the XP one of 10, 25, 50 and 150, and the description is echoed |
| TaskServer.GenerateVerification | server.js:62-100 | a missing description, and nothing else, is refused with 400; otherwise the answer is the model's text with no whitespace at either end |
| Auth.UsernameFormatLower | src/hooks/useAuth.jsx:59-64 | lower-casing keeps a well-formed username well-formed |
| Auth.ErrorMessage | src/hooks/useAuth.jsx:29-31 | the message shown for an error is never empty |
| Auth.CredentialErrorsAlike | src/hooks/useAuth.jsx:100-108 | an unknown name and a wrong password read the same, whatever message comes with the code |
| Auth.InvalidUsernameFallsBack | src/hooks/useAuth.jsx:15-31 | the invalid-username error has no table entry, so it reads as the generic fallback and not as its own message |
| Auth.ErrorKeyChoice | src/hooks/useAuth.jsx:30 | with a code present the message is never consulted; without one the message is the lookup key |
| Auth.RegisterOutcomes | src/hooks/useAuth.jsx:58-98 | a failed registration leaves both stores alone; a bad format fails whatever the stores hold; a reserved lower-cased name fails as taken; a success reserves exactly the lower-cased name and writes exactly one profile |
| Auth.RegisterKeepsConsistent | src/hooks/useAuth.jsx:75-91 | with a fresh uid, registration keeps every reserved name lower-case and pointing at a profile that records it |
| Auth.LoginIgnoresCase | src/hooks/useAuth.jsx:103-116 | a name and its lower-cased form log in alike |
| Auth.RegisterThenLogin | src/hooks/useAuth.jsx:58-116 | after a registration, the name in any case logs in with the registered email, and registering it again in any case is refused |
| Auth.AuthProvider.constructor | src/hooks/useAuth.jsx:36 | the provider starts with the given stores and no profile |
| Auth.AuthProvider.Register | src/hooks/useAuth.jsx:58-98 | register updates the stores as the registration function says and sets the profile on success only |
| Auth.AuthProvider.Logout | src/hooks/useAuth.jsx:119-125 | logout clears the profile and leaves the stores |
| AuthForm.PasswordLength | src/components/AuthModal.jsx:69 | the password length counts UTF-16 code units: three emoji pass, a password within U+FFFF passes iff it has six characters, six characters always pass and fewer than three never do |
| AuthForm.EmailPatternIffShape | src/components/AuthModal.jsx:64 | the email pattern accepts exactly the addresses with no whitespace, exactly one '@' not first, and a '.' inside the domain that is neither its first nor its last character |
| AuthForm.RegistrationChecksIndependent | src/components/AuthModal.jsx:56-77 | each field's error depends only on its own inputs, the general field is never set by the checks, and the form is clean exactly when all four checks pass |
| AuthForm.ValidateRegistration | src/components/AuthModal.jsx:56-77 | the step-by-step checks build exactly the four-field error record, and the flag is raised exactly when some field is set |
| AuthForm.HandleRegisterOutcome | src/components/AuthModal.jsx:53-108 | a failing check shows exactly the failed checks and calls nothing; a server error is shown in exactly the one field its code routes to, with the looked-up message |
| AuthForm.ErrorRouting | src/components/AuthModal.jsx:98-106 | username codes go to the username field, email codes to the email field, the weak password to the password field, everything else to general |
| AuthForm.HandleForgot | src/components/AuthModal.jsx:127-146 | a bad address sets only the email error and sends nothing; otherwise the errors are cleared and a failure of the reset is shown under email, a success as the reset message |
| CharacterCreation.NameErrorMeaning | src/components/CharacterCreationModal.jsx:12-28 | a name passes exactly when its trimmed form has 3 to 16 letters, digits and spaces; too short and too long, in UTF-16 code units, are reported before a bad character |
| CharacterCreation.EmojiNameHasBadChar | src/components/CharacterCreationModal.jsx:14-25 | two emoji count as four code units, so they pass the length checks and get the bad-character error |
| CharacterCreation.AcceptedNameStable | src/components/CharacterCreationModal.jsx:49 | the trimmed name handed on passes the check again and has no space at either end |
| CharacterCreation.Wizard.constructor | src/components/CharacterCreationModal.jsx:6-9 | the wizard opens on the name stage with no name, class or error |
| CharacterCreation.Wizard.Type | src/components/CharacterCreationModal.jsx:76 | typing changes only the name |
| CharacterCreation.Wizard.ValidateUsername | src/components/CharacterCreationModal.jsx:12-28 | the result is true exactly when the name passes, and the error left is that of the first failing check |
| CharacterCreation.Wizard.UsernameNext | src/components/CharacterCreationModal.jsx:30-34 | the wizard moves to the class stage exactly when the name passes |
| CharacterCreation.Wizard.SelectClass | src/components/CharacterCreationModal.jsx:36-38 | selecting a class changes only the class chosen |
| CharacterCreation.Wizard.ClassConfirm | src/components/CharacterCreationModal.jsx:40-44 | the wizard moves to confirmation exactly when a class is chosen |
| CharacterCreation.Wizard.BackToUsername | src/components/CharacterCreationModal.jsx:133 | going back keeps the name and the class chosen |
| CharacterCreation.Wizard.BackToClass | src/components/CharacterCreationModal.jsx:187 | going back keeps the name and the class chosen |
| CharacterCreation.Wizard.Complete | src/components/CharacterCreationModal.jsx:46-59 | the completed character has the trimmed accepted name, a real class and that class's base stats with hp equal to maxHp, which spend the stat budget |
| SaveManager.DigitsOfDecimal | src/utils/saveManager.js:30 | the decimal spelling of a number is all digits and reads back as the number |
| SaveManager.NumberOfDigits | src/utils/saveManager.js:30 | Number of a non-empty run of digits is its value |
| SaveManager.NumberOfString | src/utils/saveManager.js:30 | the id a save writes for slot n reads back as n |
| SaveManager.LoadCharacterSlots | src/utils/saveManager.js:26-36 | the forEach over the documents builds exactly the slots its specification function names |
| SaveManager.SlotsByMeaning | src/utils/saveManager.js:26-36 | the slots have exactly the keys 1 and 2; a slot is empty exactly when no document names it, and otherwise holds the data of the last document that does |
| SaveManager.OtherIdsIgnored | src/utils/saveManager.js:31 | a document whose id names neither slot changes nothing |
| SaveManager.ChainLast | src/utils/saveManager.js:66-78 | a successful attempt, or a failed attempt 3, is one save call followed by the warning callback, with true exactly when it failed |
| SaveManager.ChainNextShape | src/utils/saveManager.js:70-75 | a failed attempt before 3 is one save call, a wait of 2^attempt seconds and the chain from the next attempt |
| SaveManager.ChainNextCalls | src/utils/saveManager.js:70-75 | after a failed attempt before 3 the save calls are that attempt, then those of the chain from the next attempt |
| SaveManager.ChainNextWaits | src/utils/saveManager.js:71-75 | after a failed attempt before 3 the waits are 2^attempt seconds, then those of the chain from the next attempt |
| SaveManager.ChainNextWarnings | src/utils/saveManager.js:70-75 | after a failed attempt before 3 the warnings are those of the chain from the next attempt |
| SaveManager.ChainNextLast | src/utils/saveManager.js:70-75 | after a failed attempt before 3 the last event is that of the chain from the next attempt |
| SaveManager.WaitsOfChain | src/utils/saveManager.js:70-75 | the waits of a chain are 2^k seconds for each failed attempt k before the last, in order |
| SaveManager.ChainWaitsDelays | src/utils/saveManager.js:71-75 | a chain making n save calls waits n - 1 times, the k-th wait being 2^(a+k) seconds |
| SaveManager.TriesMeaning | src/utils/saveManager.js:65-80 | from attempt a a chain tries between 1 and 4 - a times; every attempt but the last failed, and the last succeeded unless it was attempt 3 |
| SaveManager.CallsOfChain | src/utils/saveManager.js:65-75 | a chain from attempt a calls save once per try, for attempts a, a+1, ... in turn |
| SaveManager.RetryCalls | src/utils/saveManager.js:65-80 | from attempt a, the calls are for attempts a, a+1, ... in turn, between 1 and 4 - a of them; every call but the last failed, and the last succeeded unless it was attempt 3 |
| SaveManager.RetryWaits | src/utils/saveManager.js:71-75 | between consecutive calls the chain waits 2^k seconds after failed attempt k |
| SaveManager.FinalAttemptIsLastTry | src/utils/saveManager.js:67-78 | the attempt a chain ends on (the first success, or attempt 3) is the last one tried |
| SaveManager.WarningsOfChain | src/utils/saveManager.js:67-78 | the warning callback is called once per chain, with true exactly when the final attempt failed |
| SaveManager.LastOfChain | src/utils/saveManager.js:67-78 | the last thing a chain does is call the warning callback for its final attempt |
| SaveManager.RetryWarnings | src/utils/saveManager.js:67-78 | the warning callback is called exactly once, last, with true exactly when the last call failed |
| SaveManager.SaveChainFromStart | src/utils/saveManager.js:50-80 | a save makes at most 4 calls, waits 1, 2 and 4 seconds in that order, and calls the warning once, showing it exactly when all four calls failed |
| SessionLock.SecondDeviceBlocked | src/hooks/useSessionLock.jsx:36-61 | once device a holds the lock from t1, another device is refused exactly while less than five minutes have passed, and a itself is never refused and rewrites the lock |
| SessionLock.HeartbeatKeepsLock | src/hooks/useSessionLock.jsx:5-6 | a lock refreshed at most one heartbeat interval ago blocks any other device, the two-minute interval being shorter than the five-minute timeout |
| SessionLock.MissingTimeIsStale | src/hooks/useSessionLock.jsx:43 | a lock without a time counts as written at the epoch, so it blocks no one after the first five minutes |
| SessionLock.ReleaseFrees | src/hooks/useSessionLock.jsx:63-71 | once a lock is released, any device acquires it |
| SessionLock.SessionLockHook.constructor | src/hooks/useSessionLock.jsx:9-12 | a hook starts unblocked, checking, with no heartbeat |
| SessionLock.SessionLockHook.ClearHeartbeat | src/hooks/useSessionLock.jsx:14-19 | clearing stops the heartbeat and touches neither flag |
| SessionLock.SessionLockHook.AcquireLock | src/hooks/useSessionLock.jsx:36-61 | a failed read changes nothing; a live lock of another device blocks and writes nothing; a failed write changes nothing; otherwise this device's lock is written, the hook unblocked and the heartbeat started for the account; the check always ends |
| SessionLock.SessionLockHook.HeartbeatTick | src/hooks/useSessionLock.jsx:21-34 | a tick rewrites this device's lock with the current time, unless no heartbeat runs or the write fails |
| SessionLock.SessionLockHook.ReleaseLock | src/hooks/useSessionLock.jsx:63-71 | release stops the heartbeat and deletes the account's lock, unless there is no account or the delete fails |
| SessionLock.SessionLockHook.OnAccount | src/hooks/useSessionLock.jsx:73-88 | with no account both flags clear and nothing else changes; with one, a successful acquire leaves the store as acquireLock writes it, is blocked exactly when another device's lock is live, and starts the heartbeat only when not blocked; a failed read or write leaves the store and heartbeat alone |

## Left out

- The Python scripts' image decoding and encoding, file-existence checks, `.backup` copies, console output and batch `main` drivers are file I/O. The pixel buffer is a parameter; the class order and thresholds of `main` are modelled.
- `src/scenes/MainScene.js` is not part of this model. It is the Phaser scene: rendering, tweens and floating-point movement.
- JSX rendering, CSS bars, the `animating` flag and every `setTimeout` delay in the modals are left out. Each handler and the updates it schedules form one step.
- The modals' `handleClose` resets are left out, as are the boss `moves` list and the `defeat` state, which no code uses.
- Battle-log entries keep the numbers they report; the wording of the message around them is not modelled.
- `useAbility` in both modals writes mana and hp through `newParty[charIndex].stats`. That object is shared with the previous party array. The model is on values: the new party is a new sequence, and that aliasing is not captured.
- Arena.AIAction: an index outside the party leaves the state alone. The turn order never produces such an index, and the source would throw there.
- Firebase and Firestore calls are replaced by maps and outcome parameters:
  - `saveCharacter`, `deleteCharacterSlot` and `onAuthStateChanged`;
  - the deletion of an orphaned account after a failed batch commit, and the `createdAt` timestamps.
- Auth.LoginOn stops at the email lookup. `signInWithEmailAndPassword` is a foreign call.
- Auth.LoginOn: only ASCII letters are lower-cased before the username lookup. JavaScript's `toLowerCase` also maps other letters, such as the Kelvin sign U+212A to `k`, so a login name with such a letter finds a different entry in the source.
- TaskServer.MockEvaluate: only ASCII letters are lower-cased before the keyword search. JavaScript's `toLowerCase` also maps other letters, so "wor\u212Aout" (with the Kelvin sign) contains "workout" in the source and is graded higher there than here.
- AuthModal's `handleLogin` is not modelled: it shows any login error under the general field.
- `logout` also clears the `saveSlot1..3` entries of `localStorage`. Local storage is not modelled.
- SessionLock: the server timestamp and `Date.now()` are one clock parameter. The heartbeat's `setInterval` becomes a tick method.
- SessionLock: each call of `acquireLock` runs as one atomic step. Two devices interleaving between the read and the write are not modelled.
- SessionLock: `deviceId` is module-level, one per device. Here it is a constructor parameter of the hook. The effect's cleanup is the separate `ReleaseLock` call.
- Express routing, multer image uploads and the Anthropic API calls in `server.js` are left out, and so is the 500 answer to a failed API call.
  - The model's reply text is a parameter.
  - The demo-mode constant (fixed to false in the source) is a parameter.
- `getEquippedAbilitiesForLevel` is imported by `App.jsx` but not defined in the abilities configuration. It is a function parameter `equippedFor`, and nothing is assumed about it.
- Game.AllocateStat: only the seven stat keys of the character's stats are modelled. The source would add 1 to any key it is given, and an unknown key would create a NaN field. The component that calls `onAllocateStat` (App.jsx:538) is not part of this model, so which keys reach it is not known here.
- The `icon` fields of classes, abilities and equipment, and the abilities' `description` text, are display-only and are not modelled.
- The `xp-gained` and `update-stats` events sent to the game scene are left out.
- SaveManager.NumberOf reads only blank strings and runs of decimal digits. Other spellings that `Number` accepts read as NaN here: `1.0`, `+1`, `0x1`, `1e0`. The app only writes ids with `String(slot)`.
- CharacterCreation.Wizard.Type accepts any text. The input box's `maxLength` of 16 is a rendering attribute that the name check repeats.
- Fractional multipliers are kept exact, as rationals, up to `Math.floor`. Floating-point rounding of products such as `maxHp * 0.1` is not modelled. The title crop uses `height * 45 / 100` for `int(height * 0.45)`; the two agree for image heights in use.

## Findings

| source | as written | input that shows it | evidently intended | confidence | as-written member | corrected member |
|---|---|---|---|---|---|---|
| src/components/MainMenu.jsx:48 | the New Game button passes its click event to `onNewGame`, so `handleNewGame` receives a truthy `slotId` and skips the lowest-empty-slot loop; the event becomes `currentSaveSlot` and the next character is saved under it | New Game clicked while slot 1 is empty | `onNewGame()` with no argument, so that the lowest empty slot (or slot 1) is used | not executed | Game.NewGameButtonSkipsFreeSlot | Game.NewGameButtonPicksFreeSlot |
