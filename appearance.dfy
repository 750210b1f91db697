/**
 * src/config/appearance.js: the paper-doll option lists, each class's default
 * look, and the builders of sprite-sheet paths and texture keys, together
 * with the preload table that must contain every key a look can ask for.
 */
module Appearance {
  import opened Wrappers
  import Equipment

  const MsPath: string := "/assets/sprites/manaseed"

  datatype NamedStyle = NamedStyle(id: string, name: string)
  datatype OutfitStyle = OutfitStyle(id: string, name: string, colors: seq<string>)
  /** A hat style; the first entry has a null id and stands for "no hat". */
  datatype HatStyle = HatStyle(id: Option<string>, name: string)

  const SkinTones: seq<string> := ["v00", "v01", "v02", "v03", "v04", "v05", "v06", "v07", "v08", "v09", "v10"]

  const HairStyles: seq<NamedStyle> := [
    NamedStyle("dap1", "Short"), NamedStyle("bob1", "Bob"), NamedStyle("bob2", "Bob 2"),
    NamedStyle("flat", "Flat"), NamedStyle("fro1", "Afro"), NamedStyle("pon1", "Ponytail"),
    NamedStyle("spk2", "Spiky")]

  const HairColors: seq<string> := [
    "v00", "v01", "v02", "v03", "v04", "v05", "v06", "v07", "v08", "v09", "v10", "v11", "v12", "v13"]

  const OutfitStyles: seq<OutfitStyle> := [
    OutfitStyle("fstr", "Adventurer Tunic", ["v01", "v02", "v03", "v04", "v05"]),
    OutfitStyle("pfpn", "Padded Armor", ["v01", "v02", "v03", "v04", "v05"]),
    OutfitStyle("boxr", "Boxer", ["v01"]),
    OutfitStyle("undi", "Undergarments", ["v01"])]

  const OutfitColors: seq<string> := ["v01", "v02", "v03", "v04", "v05"]

  const HatStyles: seq<HatStyle> := [
    HatStyle(None, "None"), HatStyle(Some("pnty"), "Wizard"), HatStyle(Some("pfht"), "Ranger")]

  const HatColors: seq<string> := ["v01", "v02", "v03", "v04", "v05"]

  const DefaultOutfitStyle: string := "fstr"

  /**
   * An appearance record.  `outfitStyle` is absent from the class defaults
   * and set from equipped armor; `hatStyle` is null when there is no hat.
   */
  datatype Look = Look(
    skin: string, hairStyle: string, hairColor: string, outfit: string,
    outfitStyle: Option<string>, hatStyle: Option<string>, hatColor: string)

  /** CLASS_DEFAULT_APPEARANCE[characterClass]. */
  function ClassDefaultAppearance(characterClass: string): Option<Look> {
    match characterClass
    case "paladin" => Some(Look("v01", "dap1", "v01", "v04", None, None, "v01"))
    case "warrior" => Some(Look("v01", "bob1", "v05", "v01", None, None, "v01"))
    case "mage" => Some(Look("v01", "dap1", "v08", "v02", None, Some("pnty"), "v03"))
    case "archer" => Some(Look("v01", "bob1", "v09", "v05", None, None, "v01"))
    case "cleric" => Some(Look("v01", "dap1", "v11", "v03", None, None, "v01"))
    case _ => None
  }

  /** A JavaScript string value that is truthy: present and non-empty. */
  predicate Truthy(s: Option<string>) { s.Some? && s.value != "" }

  /** `appearance.outfitStyle || 'fstr'`. */
  function OutfitStyleOf(a: Look): (s: string)
    ensures Truthy(a.outfitStyle) ==> s == a.outfitStyle.value
    ensures !Truthy(a.outfitStyle) ==> s == DefaultOutfitStyle
  {
    if Truthy(a.outfitStyle) then a.outfitStyle.value else DefaultOutfitStyle
  }

  /** `getEffectiveAppearance(appearance, equipment)`: equipped armor replaces the outfit. */
  function GetEffectiveAppearance(appearance: Option<Look>, equipment: Option<Equipment.Loadout>): (r: Option<Look>)
    ensures appearance.None? ==> r.None?
    ensures appearance.Some? ==> r.Some?
    ensures appearance.Some? && equipment.Some? && equipment.value.armor.Some? ==>
      var armor := equipment.value.armor.value;
      r.value == appearance.value.(outfitStyle := Some(armor.itemId), outfit := armor.color)
    ensures appearance.Some? && (equipment.None? || equipment.value.armor.None?) ==> r == appearance
  {
    match appearance
    case None => None
    case Some(a) =>
      if equipment.Some? && equipment.value.armor.Some? then
        Some(a.(outfitStyle := Some(equipment.value.armor.value.itemId), outfit := equipment.value.armor.value.color))
      else Some(a)
  }

  function BaseKey(skin: string): string { "ms_base_" + skin }
  function BasePath(skin: string): string { "char_a_p1/char_a_p1_0bas_humn_" + skin + ".png" }

  /** The key and path shapes shared by the outfit, hair and hat layers. */
  function StyleKey(prefix: string, style: string, color: string): string { prefix + style + "_" + color }
  function StylePath(prefix: string, style: string, color: string): string { prefix + style + "_" + color + ".png" }

  const OutfitKeyPrefix: string := "ms_out_"
  const OutfitPathPrefix: string := "char_a_p1/1out/char_a_p1_1out_"
  const HairKeyPrefix: string := "ms_hair_"
  const HairPathPrefix: string := "char_a_p1/4har/char_a_p1_4har_"
  const HatKeyPrefix: string := "ms_hat_"
  const HatPathPrefix: string := "char_a_p1/5hat/char_a_p1_5hat_"

  function OutfitKey(style: string, color: string): string { StyleKey(OutfitKeyPrefix, style, color) }
  function OutfitPath(style: string, color: string): string { StylePath(OutfitPathPrefix, style, color) }
  function HairKey(style: string, color: string): string { StyleKey(HairKeyPrefix, style, color) }
  function HairPath(style: string, color: string): string { StylePath(HairPathPrefix, style, color) }
  function HatKey(style: string, color: string): string { StyleKey(HatKeyPrefix, style, color) }
  function HatPath(style: string, color: string): string { StylePath(HatPathPrefix, style, color) }

  /** The four layers of a look: a path or texture key each, the hat absent without a hat. */
  datatype Layers = Layers(base: string, outfit: string, hair: string, hat: Option<string>)

  /** `getAppearancePaths(appearance)`. */
  function GetAppearancePaths(a: Look): (p: Layers)
    ensures p.base == BasePath(a.skin)
    ensures p.outfit == OutfitPath(OutfitStyleOf(a), a.outfit)
    ensures p.hair == HairPath(a.hairStyle, a.hairColor)
    ensures p.hat.Some? <==> Truthy(a.hatStyle)
    ensures p.hat.Some? ==> p.hat.value == HatPath(a.hatStyle.value, a.hatColor)
  {
    Layers(BasePath(a.skin), OutfitPath(OutfitStyleOf(a), a.outfit), HairPath(a.hairStyle, a.hairColor),
           if Truthy(a.hatStyle) then Some(HatPath(a.hatStyle.value, a.hatColor)) else None)
  }

  /** `getAppearanceTextureKeys(appearance)`. */
  function GetAppearanceTextureKeys(a: Look): (k: Layers)
    ensures k.base == BaseKey(a.skin)
    ensures k.outfit == OutfitKey(OutfitStyleOf(a), a.outfit)
    ensures k.hair == HairKey(a.hairStyle, a.hairColor)
    ensures k.hat.Some? <==> Truthy(a.hatStyle)
    ensures k.hat.Some? ==> k.hat.value == HatKey(a.hatStyle.value, a.hatColor)
  {
    Layers(BaseKey(a.skin), OutfitKey(OutfitStyleOf(a), a.outfit), HairKey(a.hairStyle, a.hairColor),
           if Truthy(a.hatStyle) then Some(HatKey(a.hatStyle.value, a.hatColor)) else None)
  }

  // ----- The preload table -----

  /** The ids of the outfit styles, in list order. */
  function OutfitIds(styles: seq<OutfitStyle>): (ids: seq<string>)
    ensures |ids| == |styles| && forall q | 0 <= q < |styles| :: ids[q] == styles[q].id
  {
    seq(|styles|, q requires 0 <= q < |styles| => styles[q].id)
  }

  /**
   * The same projection as OutfitIds for the hair lists.  The hair entries
   * have no colour list, so they are a record type of their own, and Dafny
   * has no common supertype of the two to project from once.
   */
  function NamedIds(styles: seq<NamedStyle>): (ids: seq<string>)
    ensures |ids| == |styles| && forall q | 0 <= q < |styles| :: ids[q] == styles[q].id
  {
    seq(|styles|, q requires 0 <= q < |styles| => styles[q].id)
  }

  /** The ids of the hat styles the preload loop does not skip, in order. */
  function KeptHatIds(styles: seq<HatStyle>): (ids: seq<string>)
    ensures |ids| <= |styles|
    ensures forall q | 0 <= q < |ids| :: ids[q] != ""
  {
    if styles == [] then []
    else
      var last := styles[|styles| - 1];
      KeptHatIds(styles[..|styles| - 1]) + if Truthy(last.id) then [last.id.value] else []
  }

  /** The number of outfit sheets of the first `n` styles: their colour counts, summed. */
  function ColorCount(styles: seq<OutfitStyle>, n: nat): nat
    requires n <= |styles|
  {
    if n == 0 then 0 else ColorCount(styles, n - 1) + |styles[n - 1].colors|
  }

  /** The first index of `x` in `l`, or |l| when it is absent. */
  function Position(x: string, l: seq<string>): (p: nat)
    ensures p <= |l|
    ensures p < |l| ==> l[p] == x
    ensures forall q :: 0 <= q < p ==> l[q] != x
  {
    if l == [] then 0 else if l[0] == x then 0 else 1 + Position(x, l[1..])
  }

  predicate Distinct(l: seq<string>) { forall i, j | 0 <= i < j < |l| :: l[i] != l[j] }

  lemma PositionOfDistinct(l: seq<string>, i: int)
    requires Distinct(l) && 0 <= i < |l|
    ensures Position(l[i], l) == i
  {
  }

  /** Style ids have 4 characters and colours 3, so a key splits back into its parts. */
  predicate Widths(ids: seq<string>, colors: seq<string>) {
    (forall q | 0 <= q < |ids| :: |ids[q]| == 4) && (forall c | 0 <= c < |colors| :: |colors[c]| == 3)
  }

  predicate GoodList(ids: seq<string>, colors: seq<string>) {
    Distinct(ids) && Distinct(colors) && Widths(ids, colors)
  }

  predicate GoodOutfits(styles: seq<OutfitStyle>) {
    && Distinct(OutfitIds(styles))
    && forall q | 0 <= q < |styles| :: GoodList([styles[q].id], styles[q].colors)
  }

  lemma BaseKeyParts(skin: string)
    requires |skin| == 3
    ensures var k := BaseKey(skin); |k| == 11 && k[..8] == "ms_base_" && k[8..] == skin
  {
  }

  lemma StyleKeyParts(prefix: string, style: string, color: string)
    requires |style| == 4 && |color| == 3
    ensures var k := StyleKey(prefix, style, color);
      && |k| == |prefix| + 8 && k[..|prefix|] == prefix && k[|prefix|..|prefix| + 4] == style
      && k[|prefix| + 4] == '_' && k[|prefix| + 5..] == color
  {
    var k := StyleKey(prefix, style, color);
    assert k[..|prefix|] == prefix;
    assert k[|prefix|..|prefix| + 4] == style;
    assert k[|prefix| + 5..] == color;
  }

  /*
   * Keys decode by length and prefix: base keys have 11 characters, outfit and
   * hat keys 15 (prefixes "ms_out_" and "ms_hat_"), hair keys 16.  The
   * predicates below say a key is one the loops have already written: of a
   * style before `i`, or of style `i` with a colour before `j`.
   */
  predicate BaseKeyBefore(k: string, skins: seq<string>, n: int) {
    |k| == 11 && k[..8] == "ms_base_" && Position(k[8..], skins) < n
  }

  predicate OutfitKeyBefore(k: string, styles: seq<OutfitStyle>, i: int, j: int) {
    && |k| == 15 && k[..7] == OutfitKeyPrefix && k[11] == '_'
    && var p := Position(k[7..11], OutfitIds(styles));
       p < |styles| && (p < i || (p == i && Position(k[12..], styles[p].colors) < j))
  }

  predicate GridKeyBefore(k: string, prefix: string, ids: seq<string>, colors: seq<string>, i: int, j: int) {
    && |k| == |prefix| + 8 && k[..|prefix|] == prefix && k[|prefix| + 4] == '_'
    && var p := Position(k[|prefix|..|prefix| + 4], ids);
       p < |ids| && (p < i || (p == i && Position(k[|prefix| + 5..], colors) < j))
  }

  predicate BasesIn(sheets: map<string, string>, skins: seq<string>, n: int) {
    forall q | 0 <= q < n && q < |skins| ::
      BaseKey(skins[q]) in sheets && sheets[BaseKey(skins[q])] == BasePath(skins[q])
  }

  /** Outfit sheets of styles before `i`, and of style `i` in its colours before `j`. */
  predicate OutfitsIn(sheets: map<string, string>, styles: seq<OutfitStyle>, i: int, j: int) {
    forall q, c | 0 <= q < |styles| && 0 <= c < |styles[q].colors| && (q < i || (q == i && c < j)) ::
      var k := OutfitKey(styles[q].id, styles[q].colors[c]);
      k in sheets && sheets[k] == OutfitPath(styles[q].id, styles[q].colors[c])
  }

  /** Sheets of every style before `i` in every colour, and of style `i` in colours before `j`. */
  predicate GridIn(sheets: map<string, string>, keyPrefix: string, pathPrefix: string,
                   ids: seq<string>, colors: seq<string>, i: int, j: int) {
    forall q, c | 0 <= q < |ids| && 0 <= c < |colors| && (q < i || (q == i && c < j)) ::
      var k := StyleKey(keyPrefix, ids[q], colors[c]);
      k in sheets && sheets[k] == StylePath(pathPrefix, ids[q], colors[c])
  }

  /** `sheets` keeps every entry of `before`. */
  predicate Extends(sheets: map<string, string>, before: map<string, string>) {
    forall k | k in before :: k in sheets && sheets[k] == before[k]
  }

  /** The full table: every listed base, outfit, hair and hat sheet, and nothing else. */
  predicate PreloadTable(sheets: map<string, string>) {
    && BasesIn(sheets, SkinTones, |SkinTones|)
    && OutfitsIn(sheets, OutfitStyles, |OutfitStyles|, 0)
    && GridIn(sheets, HairKeyPrefix, HairPathPrefix, NamedIds(HairStyles), HairColors, |HairStyles|, 0)
    && GridIn(sheets, HatKeyPrefix, HatPathPrefix, KeptHatIds(HatStyles), HatColors, |KeptHatIds(HatStyles)|, 0)
    && (forall k | k in sheets ::
          || BaseKeyBefore(k, SkinTones, |SkinTones|)
          || OutfitKeyBefore(k, OutfitStyles, |OutfitStyles|, 0)
          || GridKeyBefore(k, HairKeyPrefix, NamedIds(HairStyles), HairColors, |HairStyles|, 0)
          || GridKeyBefore(k, HatKeyPrefix, KeptHatIds(HatStyles), HatColors, |KeptHatIds(HatStyles)|, 0))
  }

  /** The option lists meet the requirements of the preload loops. */
  lemma OptionListsGood()
    ensures Distinct(SkinTones) && forall q | 0 <= q < |SkinTones| :: |SkinTones[q]| == 3
    ensures GoodOutfits(OutfitStyles)
    ensures GoodList(NamedIds(HairStyles), HairColors)
    ensures KeptHatIds(HatStyles) == ["pnty", "pfht"]
    ensures GoodList(KeptHatIds(HatStyles), HatColors)
    ensures ColorCount(OutfitStyles, |OutfitStyles|) == 12
  {
    SkinTonesGood();
    OutfitStylesGood();
    HairListsGood();
    HatListsGood();
  }

  lemma SkinTonesGood()
    ensures Distinct(SkinTones) && forall q | 0 <= q < |SkinTones| :: |SkinTones[q]| == 3
  {
  }

  /** A style with the five standard colours and a 4-character id is a good list. */
  lemma FiveColorsGood(id: string, colors: seq<string>)
    requires |id| == 4 && colors == OutfitColors
    ensures GoodList([id], colors)
  {
  }

  lemma OutfitStylesGood()
    ensures GoodOutfits(OutfitStyles)
    ensures ColorCount(OutfitStyles, |OutfitStyles|) == 12
  {
    FiveColorsGood(OutfitStyles[0].id, OutfitStyles[0].colors);
    FiveColorsGood(OutfitStyles[1].id, OutfitStyles[1].colors);
    assert GoodList([OutfitStyles[2].id], OutfitStyles[2].colors);
    assert GoodList([OutfitStyles[3].id], OutfitStyles[3].colors);
    assert ColorCount(OutfitStyles, 2) == 10;
  }

  lemma HairListsGood()
    ensures GoodList(NamedIds(HairStyles), HairColors)
  {
  }

  lemma HatListsGood()
    ensures KeptHatIds(HatStyles) == ["pnty", "pfht"]
    ensures GoodList(KeptHatIds(HatStyles), HatColors)
  {
    assert HatStyles[..2][..1] == [HatStyles[0]];
    assert HatStyles[..1][..0] == [];
  }

  /** `getAllSpriteSheets()`: the preload table, filled layer by layer in nested loops. */
  method GetAllSpriteSheets() returns (sheets: map<string, string>)
    ensures PreloadTable(sheets)
    ensures |sheets| == |SkinTones| + ColorCount(OutfitStyles, |OutfitStyles|) + |HairStyles| * |HairColors|
                       + |KeptHatIds(HatStyles)| * |HatColors|
    ensures |sheets| == 131
  {
    OptionListsGood();
    var bases := AddBaseSheets(SkinTones);
    var outfits := AddOutfitSheets(bases, OutfitStyles);
    OutfitLayerNotHair(bases, outfits);
    var hairs := AddHairSheets(outfits, HairStyles, HairColors);
    HairLayerNotHat(bases, outfits, hairs);
    sheets := AddHatSheets(hairs, HatStyles, HatColors);
    PreloadTableAssembled(bases, outfits, hairs, sheets);
  }

  /** No base or outfit key has the shape of a hair key. */
  lemma OutfitLayerNotHair(bases: map<string, string>, outfits: map<string, string>)
    requires forall k | k in bases :: BaseKeyBefore(k, SkinTones, |SkinTones|)
    requires forall k | k in outfits :: k in bases || OutfitKeyBefore(k, OutfitStyles, |OutfitStyles|, 0)
    ensures forall k | k in outfits :: |k| != 16 || k[..8] != HairKeyPrefix
  {
  }

  /** No base, outfit or hair key has the shape of a hat key. */
  lemma HairLayerNotHat(bases: map<string, string>, outfits: map<string, string>, hairs: map<string, string>)
    requires forall k | k in bases :: BaseKeyBefore(k, SkinTones, |SkinTones|)
    requires forall k | k in outfits :: k in bases || OutfitKeyBefore(k, OutfitStyles, |OutfitStyles|, 0)
    requires forall k | k in hairs :: k in outfits || GridKeyBefore(k, HairKeyPrefix, NamedIds(HairStyles), HairColors, |HairStyles|, 0)
    ensures forall k | k in hairs :: |k| != 15 || k[..7] != HatKeyPrefix
  {
    forall k | k in hairs && |k| == 15
      ensures k[..7] != HatKeyPrefix
    {
      assert k in outfits;
      assert k[..7] == OutfitKeyPrefix;
    }
  }

  /** The four layers together make the preload table. */
  lemma PreloadTableAssembled(bases: map<string, string>, outfits: map<string, string>,
                              hairs: map<string, string>, sheets: map<string, string>)
    requires BasesIn(bases, SkinTones, |SkinTones|)
    requires forall k | k in bases :: BaseKeyBefore(k, SkinTones, |SkinTones|)
    requires OutfitLoop(outfits, bases, OutfitStyles, |OutfitStyles|, 0)
    requires GridLoop(hairs, outfits, HairKeyPrefix, HairPathPrefix, NamedIds(HairStyles), HairColors, |HairStyles|, 0)
    requires GridLoop(sheets, hairs, HatKeyPrefix, HatPathPrefix, KeptHatIds(HatStyles), HatColors, |KeptHatIds(HatStyles)|, 0)
    ensures PreloadTable(sheets)
  {
    assert BasesIn(sheets, SkinTones, |SkinTones|);
    assert OutfitsIn(sheets, OutfitStyles, |OutfitStyles|, 0);
    assert GridIn(sheets, HairKeyPrefix, HairPathPrefix, NamedIds(HairStyles), HairColors, |HairStyles|, 0);
  }

  /** The skin-tone loop of `getAllSpriteSheets`. */
  method AddBaseSheets(skins: seq<string>) returns (sheets: map<string, string>)
    requires Distinct(skins) && forall q | 0 <= q < |skins| :: |skins[q]| == 3
    ensures BasesIn(sheets, skins, |skins|)
    ensures |sheets| == |skins|
    ensures forall k | k in sheets :: BaseKeyBefore(k, skins, |skins|)
  {
    sheets := map[];
    for i := 0 to |skins|
      invariant |sheets| == i
      invariant BasesIn(sheets, skins, i)
      invariant forall k | k in sheets :: BaseKeyBefore(k, skins, i)
    {
      var skin := skins[i];
      BaseKeyParts(skin);
      PositionOfDistinct(skins, i);
      sheets := sheets[BaseKey(skin) := BasePath(skin)];
    }
  }

  /** The state of the outfit loops after styles before `i` and, of style `i`, the colours before `j`. */
  predicate OutfitLoop(sheets: map<string, string>, before: map<string, string>, styles: seq<OutfitStyle>, i: int, j: int) {
    && Extends(sheets, before)
    && OutfitsIn(sheets, styles, i, j)
    && forall k | k in sheets :: k in before || OutfitKeyBefore(k, styles, i, j)
  }

  lemma OutfitStep(sheets: map<string, string>, before: map<string, string>, styles: seq<OutfitStyle>, i: int, j: int)
    requires GoodOutfits(styles) && 0 <= i < |styles| && 0 <= j < |styles[i].colors|
    requires forall k | k in before :: |k| == 11
    requires OutfitLoop(sheets, before, styles, i, j)
    ensures var k := OutfitKey(styles[i].id, styles[i].colors[j]);
      var next := sheets[k := OutfitPath(styles[i].id, styles[i].colors[j])];
      && |next| == |sheets| + 1
      && OutfitLoop(next, before, styles, i, j + 1)
  {
    var k := OutfitKey(styles[i].id, styles[i].colors[j]);
    var next := sheets[k := OutfitPath(styles[i].id, styles[i].colors[j])];
    OutfitKeyFresh(sheets, before, styles, i, j);
    OutfitsInAfterStep(sheets, styles, i, j);
    OutfitKeysAfterStep(sheets, before, styles, i, j, k);
  }

  lemma OutfitsInAfterStep(sheets: map<string, string>, styles: seq<OutfitStyle>, i: int, j: int)
    requires 0 <= i < |styles| && 0 <= j < |styles[i].colors|
    requires OutfitsIn(sheets, styles, i, j)
    requires OutfitKey(styles[i].id, styles[i].colors[j]) !in sheets
    ensures OutfitsIn(sheets[OutfitKey(styles[i].id, styles[i].colors[j]) := OutfitPath(styles[i].id, styles[i].colors[j])],
                      styles, i, j + 1)
  {
  }

  lemma OutfitKeyFresh(sheets: map<string, string>, before: map<string, string>, styles: seq<OutfitStyle>, i: int, j: int)
    requires GoodOutfits(styles) && 0 <= i < |styles| && 0 <= j < |styles[i].colors|
    requires forall k | k in before :: |k| == 11
    requires forall k | k in sheets :: k in before || OutfitKeyBefore(k, styles, i, j)
    ensures OutfitKey(styles[i].id, styles[i].colors[j]) !in sheets
  {
    assert GoodList([styles[i].id], styles[i].colors);
    assert [styles[i].id][0] == styles[i].id;
    StyleKeyParts(OutfitKeyPrefix, styles[i].id, styles[i].colors[j]);
    PositionOfDistinct(OutfitIds(styles), i);
    PositionOfDistinct(styles[i].colors, j);
  }

  lemma OutfitKeysAfterStep(sheets: map<string, string>, before: map<string, string>, styles: seq<OutfitStyle>,
                            i: int, j: int, k: string)
    requires GoodOutfits(styles) && 0 <= i < |styles| && 0 <= j < |styles[i].colors|
    requires k == OutfitKey(styles[i].id, styles[i].colors[j])
    requires forall k' | k' in sheets :: k' in before || OutfitKeyBefore(k', styles, i, j)
    ensures forall k' | k' in sheets || k' == k :: k' in before || OutfitKeyBefore(k', styles, i, j + 1)
  {
    assert GoodList([styles[i].id], styles[i].colors);
    assert [styles[i].id][0] == styles[i].id;
    StyleKeyParts(OutfitKeyPrefix, styles[i].id, styles[i].colors[j]);
    PositionOfDistinct(OutfitIds(styles), i);
    PositionOfDistinct(styles[i].colors, j);
  }

  lemma OutfitNextStyle(sheets: map<string, string>, before: map<string, string>, styles: seq<OutfitStyle>, i: int)
    requires 0 <= i < |styles|
    requires OutfitLoop(sheets, before, styles, i, |styles[i].colors|)
    ensures OutfitLoop(sheets, before, styles, i + 1, 0)
  {
  }

  /** The inner outfit loop: style `i` in each of its colours. */
  method AddOutfitRow(sheets0: map<string, string>, before: map<string, string>, styles: seq<OutfitStyle>, i: int)
    returns (sheets: map<string, string>)
    requires GoodOutfits(styles) && 0 <= i < |styles|
    requires forall k | k in before :: |k| == 11
    requires OutfitLoop(sheets0, before, styles, i, 0)
    ensures OutfitLoop(sheets, before, styles, i + 1, 0)
    ensures |sheets| == |sheets0| + |styles[i].colors|
  {
    var style := styles[i];
    sheets := sheets0;
    for j := 0 to |style.colors|
      invariant OutfitLoop(sheets, before, styles, i, j)
      invariant |sheets| == |sheets0| + j
    {
      var color := style.colors[j];
      OutfitStep(sheets, before, styles, i, j);
      sheets := sheets[OutfitKey(style.id, color) := OutfitPath(style.id, color)];
    }
    OutfitNextStyle(sheets, before, styles, i);
  }

  /** The outfit loops of `getAllSpriteSheets`: every style in each of its own colours. */
  method AddOutfitSheets(before: map<string, string>, styles: seq<OutfitStyle>) returns (sheets: map<string, string>)
    requires forall k | k in before :: |k| == 11
    requires GoodOutfits(styles)
    ensures OutfitLoop(sheets, before, styles, |styles|, 0)
    ensures |sheets| == |before| + ColorCount(styles, |styles|)
  {
    sheets := before;
    for i := 0 to |styles|
      invariant OutfitLoop(sheets, before, styles, i, 0)
      invariant |sheets| == |before| + ColorCount(styles, i)
    {
      sheets := AddOutfitRow(sheets, before, styles, i);
    }
  }

  /** The state of a style-by-colour loop after styles before `i` and, of style `i`, the colours before `j`. */
  predicate GridLoop(sheets: map<string, string>, before: map<string, string>, keyPrefix: string, pathPrefix: string,
                     ids: seq<string>, colors: seq<string>, i: int, j: int) {
    && Extends(sheets, before)
    && GridIn(sheets, keyPrefix, pathPrefix, ids, colors, i, j)
    && forall k | k in sheets :: k in before || GridKeyBefore(k, keyPrefix, ids, colors, i, j)
  }

  /** One step of a style-by-colour loop keeps its state predicate and adds one sheet. */
  lemma GridStep(sheets: map<string, string>, before: map<string, string>, keyPrefix: string, pathPrefix: string,
                 ids: seq<string>, colors: seq<string>, i: int, j: int)
    requires GoodList(ids, colors) && 0 <= i < |ids| && 0 <= j < |colors|
    requires forall k | k in before :: |k| != |keyPrefix| + 8 || k[..|keyPrefix|] != keyPrefix
    requires GridLoop(sheets, before, keyPrefix, pathPrefix, ids, colors, i, j)
    ensures var k := StyleKey(keyPrefix, ids[i], colors[j]);
      var next := sheets[k := StylePath(pathPrefix, ids[i], colors[j])];
      && |next| == |sheets| + 1
      && GridLoop(next, before, keyPrefix, pathPrefix, ids, colors, i, j + 1)
  {
    var k := StyleKey(keyPrefix, ids[i], colors[j]);
    var next := sheets[k := StylePath(pathPrefix, ids[i], colors[j])];
    GridKeyFresh(sheets, before, keyPrefix, ids, colors, i, j);
    GridInAfterStep(sheets, keyPrefix, pathPrefix, ids, colors, i, j);
    GridKeysAfterStep(sheets, before, keyPrefix, ids, colors, i, j, k);
  }

  lemma GridInAfterStep(sheets: map<string, string>, keyPrefix: string, pathPrefix: string,
                        ids: seq<string>, colors: seq<string>, i: int, j: int)
    requires 0 <= i < |ids| && 0 <= j < |colors|
    requires GridIn(sheets, keyPrefix, pathPrefix, ids, colors, i, j)
    requires StyleKey(keyPrefix, ids[i], colors[j]) !in sheets
    ensures GridIn(sheets[StyleKey(keyPrefix, ids[i], colors[j]) := StylePath(pathPrefix, ids[i], colors[j])],
                   keyPrefix, pathPrefix, ids, colors, i, j + 1)
  {
  }

  lemma GridKeyFresh(sheets: map<string, string>, before: map<string, string>, keyPrefix: string,
                     ids: seq<string>, colors: seq<string>, i: int, j: int)
    requires GoodList(ids, colors) && 0 <= i < |ids| && 0 <= j < |colors|
    requires forall k | k in before :: |k| != |keyPrefix| + 8 || k[..|keyPrefix|] != keyPrefix
    requires forall k | k in sheets :: k in before || GridKeyBefore(k, keyPrefix, ids, colors, i, j)
    ensures StyleKey(keyPrefix, ids[i], colors[j]) !in sheets
  {
    StyleKeyParts(keyPrefix, ids[i], colors[j]);
    PositionOfDistinct(ids, i);
    PositionOfDistinct(colors, j);
  }

  lemma GridKeysAfterStep(sheets: map<string, string>, before: map<string, string>, keyPrefix: string,
                          ids: seq<string>, colors: seq<string>, i: int, j: int, k: string)
    requires GoodList(ids, colors) && 0 <= i < |ids| && 0 <= j < |colors|
    requires k == StyleKey(keyPrefix, ids[i], colors[j])
    requires forall k' | k' in sheets :: k' in before || GridKeyBefore(k', keyPrefix, ids, colors, i, j)
    ensures forall k' | k' in sheets || k' == k :: k' in before || GridKeyBefore(k', keyPrefix, ids, colors, i, j + 1)
  {
    StyleKeyParts(keyPrefix, ids[i], colors[j]);
    PositionOfDistinct(ids, i);
    PositionOfDistinct(colors, j);
  }

  /** Finishing the colours of style `i` is starting style `i + 1`. */
  lemma GridNextStyle(sheets: map<string, string>, before: map<string, string>, keyPrefix: string, pathPrefix: string,
                      ids: seq<string>, colors: seq<string>, i: int)
    requires GridLoop(sheets, before, keyPrefix, pathPrefix, ids, colors, i, |colors|)
    ensures GridLoop(sheets, before, keyPrefix, pathPrefix, ids, colors, i + 1, 0)
  {
  }

  /** The inner loop of a style-by-colour layer: style `i` in every colour. */
  method AddGridRow(sheets0: map<string, string>, before: map<string, string>, keyPrefix: string, pathPrefix: string,
                    ids: seq<string>, colors: seq<string>, id: string, ghost i: int)
    returns (sheets: map<string, string>)
    requires GoodList(ids, colors) && 0 <= i < |ids| && id == ids[i]
    requires forall k | k in before :: |k| != |keyPrefix| + 8 || k[..|keyPrefix|] != keyPrefix
    requires GridLoop(sheets0, before, keyPrefix, pathPrefix, ids, colors, i, 0)
    ensures GridLoop(sheets, before, keyPrefix, pathPrefix, ids, colors, i + 1, 0)
    ensures |sheets| == |sheets0| + |colors|
  {
    sheets := sheets0;
    for j := 0 to |colors|
      invariant GridLoop(sheets, before, keyPrefix, pathPrefix, ids, colors, i, j)
      invariant |sheets| == |sheets0| + j
    {
      var color := colors[j];
      GridStep(sheets, before, keyPrefix, pathPrefix, ids, colors, i, j);
      sheets := sheets[StyleKey(keyPrefix, id, color) := StylePath(pathPrefix, id, color)];
    }
    GridNextStyle(sheets, before, keyPrefix, pathPrefix, ids, colors, i);
  }

  /** A style-by-colour layer: every style id in every colour, under the layer's key and path prefixes. */
  method AddGrid(before: map<string, string>, keyPrefix: string, pathPrefix: string, ids: seq<string>, colors: seq<string>)
    returns (sheets: map<string, string>)
    requires forall k | k in before :: |k| != |keyPrefix| + 8 || k[..|keyPrefix|] != keyPrefix
    requires GoodList(ids, colors)
    ensures GridLoop(sheets, before, keyPrefix, pathPrefix, ids, colors, |ids|, 0)
    ensures |sheets| == |before| + |ids| * |colors|
  {
    sheets := before;
    for i := 0 to |ids|
      invariant GridLoop(sheets, before, keyPrefix, pathPrefix, ids, colors, i, 0)
      invariant |sheets| == |before| + GridCount(i, |colors|)
    {
      assert GridCount(i + 1, |colors|) == GridCount(i, |colors|) + |colors|;
      sheets := AddGridRow(sheets, before, keyPrefix, pathPrefix, ids, colors, ids[i], i);
    }
    GridCountIsProduct(|ids|, |colors|);
  }

  /** The hair loops of `getAllSpriteSheets`: every style in every hair colour. */
  method AddHairSheets(before: map<string, string>, styles: seq<NamedStyle>, colors: seq<string>)
    returns (sheets: map<string, string>)
    requires forall k | k in before :: |k| != 16 || k[..8] != HairKeyPrefix
    requires GoodList(NamedIds(styles), colors)
    ensures GridLoop(sheets, before, HairKeyPrefix, HairPathPrefix, NamedIds(styles), colors, |styles|, 0)
    ensures |sheets| == |before| + |styles| * |colors|
  {
    sheets := AddGrid(before, HairKeyPrefix, HairPathPrefix, NamedIds(styles), colors);
  }

  /** The hat loops of `getAllSpriteSheets`: a style whose id is null is skipped. */
  method AddHatSheets(before: map<string, string>, styles: seq<HatStyle>, colors: seq<string>)
    returns (sheets: map<string, string>)
    requires forall k | k in before :: |k| != 15 || k[..7] != HatKeyPrefix
    requires GoodList(KeptHatIds(styles), colors)
    ensures GridLoop(sheets, before, HatKeyPrefix, HatPathPrefix, KeptHatIds(styles), colors, |KeptHatIds(styles)|, 0)
    ensures |sheets| == |before| + |KeptHatIds(styles)| * |colors|
  {
    var ids := KeptHatIds(styles);
    sheets := before;
    ghost var h := 0;
    for i := 0 to |styles|
      invariant h <= |ids| && KeptHatIds(styles[..i]) == ids[..h]
      invariant GridLoop(sheets, before, HatKeyPrefix, HatPathPrefix, ids, colors, h, 0)
      invariant |sheets| == |before| + GridCount(h, |colors|)
    {
      KeptHatIdsStep(styles, i, h);
      if Truthy(styles[i].id) {
        assert GridCount(h + 1, |colors|) == GridCount(h, |colors|) + |colors|;
        sheets := AddGridRow(sheets, before, HatKeyPrefix, HatPathPrefix, ids, colors, styles[i].id.value, h);
        h := h + 1;
      }
    }
    assert styles[..|styles|] == styles;
    assert h == |ids|;
    GridCountIsProduct(h, |colors|);
  }

  /** The number of sheets of `rows` styles in `n` colours each, counted row by row. */
  function GridCount(rows: nat, n: nat): nat {
    if rows == 0 then 0 else GridCount(rows - 1, n) + n
  }

  lemma {:induction false} GridCountIsProduct(rows: nat, n: nat)
    ensures GridCount(rows, n) == rows * n
  {
    if rows > 0 {
      GridCountIsProduct(rows - 1, n);
    }
  }

  /** One more style of the hat loop: a kept id is the next of all kept ids, a null one adds nothing. */
  lemma KeptHatIdsStep(styles: seq<HatStyle>, i: nat, h: nat)
    requires i < |styles| && h <= |KeptHatIds(styles)| && KeptHatIds(styles[..i]) == KeptHatIds(styles)[..h]
    ensures Truthy(styles[i].id) ==>
      && h < |KeptHatIds(styles)| && KeptHatIds(styles)[h] == styles[i].id.value
      && KeptHatIds(styles[..i + 1]) == KeptHatIds(styles)[..h + 1]
    ensures !Truthy(styles[i].id) ==> KeptHatIds(styles[..i + 1]) == KeptHatIds(styles)[..h]
  {
    var all := KeptHatIds(styles);
    assert styles[..i + 1][..i] == styles[..i];
    assert KeptHatIds(styles[..i + 1]) == all[..h] + if Truthy(styles[i].id) then [styles[i].id.value] else [];
    KeptHatIdsPrefix(styles, i + 1);
    if Truthy(styles[i].id) {
      assert KeptHatIds(styles[..i + 1])[h] == all[h];
    }
  }

  /** The kept ids of a prefix of the styles are a prefix of all kept ids. */
  lemma {:induction false} KeptHatIdsPrefix(styles: seq<HatStyle>, n: nat)
    requires n <= |styles|
    ensures |KeptHatIds(styles[..n])| <= |KeptHatIds(styles)|
    ensures KeptHatIds(styles[..n]) == KeptHatIds(styles)[..|KeptHatIds(styles[..n])|]
    decreases |styles| - n
  {
    if n < |styles| {
      KeptHatIdsPrefix(styles, n + 1);
      assert styles[..n + 1][..n] == styles[..n];
    } else {
      assert styles[..n] == styles;
    }
  }

  // ----- Looks drawn from the option lists -----

  /**
   * A look every field of which is taken from the option lists: a listed skin
   * tone, an outfit style in one of its own colours, a listed hair style and
   * colour, and either no hat or a listed hat in a listed hat colour.
   */
  predicate FromOptionLists(a: Look) {
    && a.skin in SkinTones
    && (exists q | 0 <= q < |OutfitStyles| :: OutfitStyles[q].id == OutfitStyleOf(a) && a.outfit in OutfitStyles[q].colors)
    && (exists q | 0 <= q < |HairStyles| :: HairStyles[q].id == a.hairStyle)
    && a.hairColor in HairColors
    && (Truthy(a.hatStyle) ==> (exists q | 0 <= q < |HatStyles| :: HatStyles[q].id == a.hatStyle) && a.hatColor in HatColors)
  }

  /** Every texture key of a look drawn from the option lists is preloaded, under the sheet the paths name. */
  lemma TextureKeysPreloaded(a: Look, sheets: map<string, string>)
    requires PreloadTable(sheets) && FromOptionLists(a)
    ensures var k := GetAppearanceTextureKeys(a); var p := GetAppearancePaths(a);
      && k.base in sheets && sheets[k.base] == p.base
      && k.outfit in sheets && sheets[k.outfit] == p.outfit
      && k.hair in sheets && sheets[k.hair] == p.hair
      && (k.hat.Some? ==> k.hat.value in sheets && sheets[k.hat.value] == p.hat.value)
  {
    BasePreloaded(a, sheets);
    OutfitPreloaded(a, sheets);
    HairPreloaded(a, sheets);
    HatPreloaded(a, sheets);
  }

  lemma BasePreloaded(a: Look, sheets: map<string, string>)
    requires BasesIn(sheets, SkinTones, |SkinTones|) && a.skin in SkinTones
    ensures BaseKey(a.skin) in sheets && sheets[BaseKey(a.skin)] == BasePath(a.skin)
  {
    var skin := Position(a.skin, SkinTones);
    assert BaseKey(SkinTones[skin]) in sheets;
  }

  lemma OutfitPreloaded(a: Look, sheets: map<string, string>)
    requires OutfitsIn(sheets, OutfitStyles, |OutfitStyles|, 0)
    requires exists q | 0 <= q < |OutfitStyles| :: OutfitStyles[q].id == OutfitStyleOf(a) && a.outfit in OutfitStyles[q].colors
    ensures var k := OutfitKey(OutfitStyleOf(a), a.outfit); k in sheets && sheets[k] == OutfitPath(OutfitStyleOf(a), a.outfit)
  {
    var q :| 0 <= q < |OutfitStyles| && OutfitStyles[q].id == OutfitStyleOf(a) && a.outfit in OutfitStyles[q].colors;
    var c := Position(a.outfit, OutfitStyles[q].colors);
    assert OutfitKey(OutfitStyles[q].id, OutfitStyles[q].colors[c]) in sheets;
  }

  lemma HairPreloaded(a: Look, sheets: map<string, string>)
    requires GridIn(sheets, HairKeyPrefix, HairPathPrefix, NamedIds(HairStyles), HairColors, |HairStyles|, 0)
    requires (exists q | 0 <= q < |HairStyles| :: HairStyles[q].id == a.hairStyle) && a.hairColor in HairColors
    ensures var k := HairKey(a.hairStyle, a.hairColor); k in sheets && sheets[k] == HairPath(a.hairStyle, a.hairColor)
  {
    var h :| 0 <= h < |HairStyles| && HairStyles[h].id == a.hairStyle;
    var c := Position(a.hairColor, HairColors);
    assert NamedIds(HairStyles)[h] == a.hairStyle;
    assert StyleKey(HairKeyPrefix, NamedIds(HairStyles)[h], HairColors[c]) in sheets;
  }

  lemma HatPreloaded(a: Look, sheets: map<string, string>)
    requires GridIn(sheets, HatKeyPrefix, HatPathPrefix, KeptHatIds(HatStyles), HatColors, |KeptHatIds(HatStyles)|, 0)
    requires Truthy(a.hatStyle) ==> (exists q | 0 <= q < |HatStyles| :: HatStyles[q].id == a.hatStyle) && a.hatColor in HatColors
    ensures Truthy(a.hatStyle) ==>
      var k := HatKey(a.hatStyle.value, a.hatColor); k in sheets && sheets[k] == HatPath(a.hatStyle.value, a.hatColor)
  {
    if Truthy(a.hatStyle) {
      HatListsGood();
      var t :| 0 <= t < |HatStyles| && HatStyles[t].id == a.hatStyle;
      var kept := KeptHatIds(HatStyles);
      var u := if t == 1 then 0 else 1;
      assert kept[u] == a.hatStyle.value;
      var c := Position(a.hatColor, HatColors);
      assert StyleKey(HatKeyPrefix, kept[u], HatColors[c]) in sheets;
    }
  }

  /** The class defaults are drawn from the option lists (with the default outfit style). */
  lemma ClassDefaultsFromLists(characterClass: string)
    requires ClassDefaultAppearance(characterClass).Some?
    ensures FromOptionLists(ClassDefaultAppearance(characterClass).value)
  {
    var a := ClassDefaultAppearance(characterClass).value;
    assert OutfitStyles[0].id == OutfitStyleOf(a);
    assert a.hairStyle == HairStyles[0].id || a.hairStyle == HairStyles[1].id;
    assert Truthy(a.hatStyle) ==> HatStyles[1].id == a.hatStyle;
  }

  /** Wearing armor from the equipment database keeps a look drawn from the option lists. */
  lemma EffectiveAppearanceFromLists(a: Look, loadout: Equipment.Loadout)
    requires FromOptionLists(a)
    requires Equipment.FitsSlot(loadout.armor, Equipment.Armor)
    ensures FromOptionLists(GetEffectiveAppearance(Some(a), Some(loadout)).value)
  {
    if loadout.armor.Some? {
      var armor := loadout.armor.value;
      Equipment.ArmorEntries(armor.itemId);
      var e := GetEffectiveAppearance(Some(a), Some(loadout)).value;
      var q := if armor.itemId == "fstr" then 0 else 1;
      assert OutfitStyles[q].id == OutfitStyleOf(e) && e.outfit in OutfitStyles[q].colors;
    }
  }
}
