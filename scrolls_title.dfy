/**
 * extract_scrolls_title.py: keep the rows from 45% of the height down to the
 * bottom, at full width, and clear the background pixels of that crop.
 */
module ScrollsTitle {
  import opened Transparency

  /** The threshold `main` passes to `extract_and_make_transparent`. */
  const TitleThreshold: int := 35

  /** int(height * 0.45), in integer arithmetic. */
  function CropTop(height: nat): nat { height * 45 / 100 }

  /** CropTop is the floor of 45% of the height, and the crop keeps at least one row. */
  lemma {:induction false} CropTopIsFloor(height: nat)
    ensures CropTop(height) * 100 <= height * 45 < (CropTop(height) + 1) * 100
    ensures CropTop(height) <= height
    ensures height >= 1 ==> CropTop(height) < height
  {
    var c := CropTop(height);
    assert c * 100 <= height * 45;
    if height >= 1 {
      assert c * 100 < height * 100;
    }
  }

  /** The scenario of a 100-row image: the crop starts at row 45 and keeps 55 rows. */
  lemma HundredRowTitle()
    ensures CropTop(100) == 45 && 100 - CropTop(100) == 55
  {
  }

  /**
   * extract_and_make_transparent: crop rows [CropTop(height), height) and
   * clear the background pixels of the crop in place.
   */
  method ExtractAndMakeTransparent(img: array2<Pixel>, threshold: int) returns (logo: array2<Pixel>)
    ensures fresh(logo)
    ensures logo.Length0 == img.Length0 && logo.Length1 == img.Length1 - CropTop(img.Length1)
    ensures forall x, y | 0 <= x < logo.Length0 && 0 <= y < logo.Length1 ::
      logo[x, y] == Cleared(img[x, y + CropTop(img.Length1)], threshold)
  {
    var height := img.Length1;
    var cropTop := height * 45 / 100;
    CropTopIsFloor(height);
    logo := CropRows(img, cropTop, height);
    MakeTransparent(logo, threshold);
  }
}
