/**
 * extract_class_huds.py: a vertical sheet of five class HUD panels is cut
 * into five equal full-width bands of `height // 5` rows, top to bottom, and
 * each band goes through the same background-to-alpha pass.
 */
module ClassHuds {
  import opened Transparency

  /** The threshold `main` passes to `extract_class_hud`. */
  const HudThreshold: int := 35

  /** The classes of the five bands, top to bottom. */
  const ClassOrder: seq<string> := ["paladin", "warrior", "archer", "mage", "cleric"]

  const BandCount: nat := 5

  /** Rows per band: height // 5. */
  function HudHeight(height: nat): nat { height / BandCount }

  function BandTop(height: nat, i: nat): nat { i * HudHeight(height) }

  function BandBottom(height: nat, i: nat): nat { BandTop(height, i) + HudHeight(height) }

  const HudSuffix: string := "-hud.png"

  /** The class a HUD file is named after: the name without its suffix, or "" for any other file. */
  function HudClassOf(file: string): string {
    if |file| >= |HudSuffix| && file[|file| - |HudSuffix|..] == HudSuffix then file[..|file| - |HudSuffix|] else ""
  }

  /** The name `extract_class_hud` writes band `i` to. */
  function HudFileName(i: nat): string
    requires i < |ClassOrder|
  {
    ClassOrder[i] + HudSuffix
  }

  /** A HUD file name carries the suffix and strips back to its band's class. */
  lemma HudFileNameRoundTrip(i: nat)
    requires i < |ClassOrder|
    ensures HudClassOf(HudFileName(i)) == ClassOrder[i]
  {
    var f := HudFileName(i);
    assert f[|f| - |HudSuffix|..] == HudSuffix && f[..|f| - |HudSuffix|] == ClassOrder[i];
  }

  /** The five files, top band to bottom, are paladin, warrior, archer, mage and cleric's. */
  lemma HudFileNames()
    ensures HudFileName(0) == "paladin-hud.png" && HudFileName(1) == "warrior-hud.png"
    ensures HudFileName(2) == "archer-hud.png" && HudFileName(3) == "mage-hud.png"
    ensures HudFileName(4) == "cleric-hud.png"
  {
  }

  /** Distinct bands are written to distinct files: the classes start with distinct letters. */
  lemma HudFilesDistinct(i: nat, j: nat)
    requires i < j < BandCount
    ensures HudFileName(i) != HudFileName(j)
  {
    HudFileNameRoundTrip(i);
    HudFileNameRoundTrip(j);
    assert ClassOrder[i][0] != ClassOrder[j][0];
  }

  /** Band i ends at or above band i+1's start, and no lower than the image. */
  lemma {:induction false} BandInsideImage(height: nat, i: nat)
    requires i < BandCount
    ensures BandBottom(height, i) <= BandCount * HudHeight(height) <= height
  {
    var h := HudHeight(height);
    assert (i + 1) * h <= BandCount * h by {
      assert BandCount * h - (i + 1) * h == (BandCount - (i + 1)) * h;
    }
  }

  /** Band i's last row is directly followed by band i+1's first row. */
  lemma BandsContiguous(height: nat, i: nat)
    ensures BandBottom(height, i) == BandTop(height, i + 1)
  {
  }

  /** Earlier bands lie wholly above later ones, so no row is in two bands. */
  lemma {:induction false} BandsDisjoint(height: nat, i: nat, j: nat)
    requires i < j
    ensures BandBottom(height, i) <= BandTop(height, j)
  {
    var h := HudHeight(height);
    assert j * h - (i + 1) * h == (j - (i + 1)) * h;
  }

  /**
   * A row belongs to some band exactly when it lies above 5 * (height // 5);
   * then it belongs to band y / (height // 5).
   */
  lemma {:induction false} RowInBand(height: nat, y: nat)
    ensures y < BandCount * HudHeight(height) ==>
      var i := y / HudHeight(height);
      i < BandCount && BandTop(height, i) <= y < BandBottom(height, i)
    ensures (exists i :: 0 <= i < BandCount && BandTop(height, i) <= y < BandBottom(height, i)) <==>
      y < BandCount * HudHeight(height)
  {
    var h := HudHeight(height);
    if y < BandCount * h {
      var i := y / h;
      assert i * h <= y < (i + 1) * h;
    }
    forall i | 0 <= i < BandCount && BandTop(height, i) <= y < BandBottom(height, i)
      ensures y < BandCount * h
    {
      BandInsideImage(height, i);
    }
  }

  /** The rows below band 4 that no band takes: height % 5 of them, at most 4. */
  lemma TrailingRowsDropped(height: nat)
    ensures height - BandBottom(height, BandCount - 1) == height % BandCount <= 4
  {
  }

  /** The scenario of a 100-row sheet: bands of 20 rows starting at rows 0, 20, 40, 60, 80. */
  lemma HundredRowSheet()
    ensures HudHeight(100) == 20
    ensures BandTop(100, 0) == 0 && BandTop(100, 1) == 20 && BandTop(100, 2) == 40
    ensures BandTop(100, 3) == 60 && BandTop(100, 4) == 80 && BandBottom(100, 4) == 100
  {
  }

  /**
   * extract_class_hud: crop band `classIndex` at full width, then clear its
   * background pixels in place; the file it is saved to names the band's class.
   */
  method ExtractClassHud(img: array2<Pixel>, classIndex: nat, threshold: int) returns (hud: array2<Pixel>, file: string)
    requires classIndex < BandCount
    ensures HudClassOf(file) == ClassOrder[classIndex]
    ensures fresh(hud)
    ensures hud.Length0 == img.Length0 && hud.Length1 == HudHeight(img.Length1)
    ensures forall x, y | 0 <= x < hud.Length0 && 0 <= y < hud.Length1 ::
      hud[x, y] == Cleared(img[x, BandTop(img.Length1, classIndex) + y], threshold)
  {
    var height := img.Length1;
    var hudHeight := height / 5;
    var top := classIndex * hudHeight;
    var bottom := top + hudHeight;
    BandInsideImage(height, classIndex);
    hud := CropRows(img, top, bottom);
    MakeTransparent(hud, threshold);
    file := HudFileName(classIndex);
    HudFileNameRoundTrip(classIndex);
  }
}
