/**
 * The background scale: while the sheet's top edge is above the medium
 * detent and below the screen top, the content behind it shrinks toward its
 * bottom edge.
 */
module Scale {
  import opened Detents

  /** Points by which the shrink at the large detent falls short of the gap above the sheet. */
  const Inset: real := 8.0

  /** Top-edge position below which the background starts to shrink: the medium detent. */
  function StartingHeight(height: real): real {
    height * (1.0 - Value(Medium))
  }

  /** The gap left above a sheet resting at the large detent. */
  function MaxPadding(height: real): real {
    height * (1.0 - Value(Large))
  }

  /** Whether the live top edge `minY` lies strictly inside the shrinking range. */
  predicate InRange(minY: real, height: real) {
    0.0 < minY < StartingHeight(height)
  }

  /** How far the background is pulled in, for a top edge inside the range. */
  function Padding(minY: real, height: real): real
    requires InRange(minY, height)
  {
    (MaxPadding(height) - Inset) * (StartingHeight(height) - minY) / StartingHeight(height)
  }

  /** The scale factor for the background, from the sheet's live top edge. */
  function ScaleFactor(minY: real, height: real): (scale: real)
    ensures !InRange(minY, height) ==> scale == 1.0
  {
    if InRange(minY, height) then 1.0 - Padding(minY, height) / height else 1.0
  }

  /** The smallest scale the background reaches, approached as the top edge nears 0. */
  function MinScale(height: real): real
    requires height > 0.0
  {
    1.0 - (MaxPadding(height) - Inset) / height
  }

  /**
   * A container is tall enough when the gap above the large detent is at
   * least the inset, that is height >= 8 / 0.07; below that the formula
   * would enlarge the background instead of shrinking it.
   */
  predicate TallEnough(height: real) {
    MaxPadding(height) >= Inset
  }

  lemma TallEnoughPositive(height: real)
    requires TallEnough(height)
    ensures height > 0.0
    ensures 0.0 < MinScale(height) <= 1.0
  {}

  lemma DivMonotone(a: real, b: real, d: real)
    requires a <= b && d > 0.0
    ensures a / d <= b / d
  {}

  lemma MulMonotone(p: real, a: real, b: real)
    requires p >= 0.0 && a <= b
    ensures p * a <= p * b
  {}

  /** Inside the range the padding never exceeds `MaxPadding - Inset`, and is never negative. */
  lemma PaddingBounds(minY: real, height: real)
    requires TallEnough(height)
    requires InRange(minY, height)
    ensures 0.0 <= Padding(minY, height) <= MaxPadding(height) - Inset
  {}

  /** In a tall-enough container the scale stays within [MinScale, 1]. */
  lemma ScaleFactorBounds(minY: real, height: real)
    requires TallEnough(height)
    ensures MinScale(height) <= ScaleFactor(minY, height) <= 1.0
  {
    TallEnoughPositive(height);
    if InRange(minY, height) {
      PaddingBounds(minY, height);
    }
  }

  /**
   * In a container strictly taller than 8 / 0.07 the background shrinks
   * exactly while the top edge is inside the range.
   */
  lemma ShrinksIffInRange(minY: real, height: real)
    requires MaxPadding(height) > Inset
    ensures ScaleFactor(minY, height) < 1.0 <==> InRange(minY, height)
  {
    TallEnoughPositive(height);
    if InRange(minY, height) {
      var s := StartingHeight(height);
      var p := MaxPadding(height) - Inset;
      assert p * (s - minY) > 0.0;
      assert Padding(minY, height) > 0.0;
      assert Padding(minY, height) / height > 0.0;
    }
  }

  /** For top edges below the screen top, a lower sheet never shrinks the background more. */
  lemma ScaleFactorMonotone(a: real, b: real, height: real)
    requires TallEnough(height)
    requires 0.0 < a <= b
    ensures ScaleFactor(a, height) <= ScaleFactor(b, height)
  {
    TallEnoughPositive(height);
    if !InRange(b, height) {
      ScaleFactorBounds(a, height);
    } else {
      var s := StartingHeight(height);
      var p := MaxPadding(height) - Inset;
      MulMonotone(p, s - b, s - a);
      DivMonotone(p * (s - b), p * (s - a), s);
      DivMonotone(Padding(b, height), Padding(a, height), height);
    }
  }

  /** Worked example: height 1000, top edge at 200. */
  lemma ScaleFactorExample()
    ensures StartingHeight(1000.0) == 450.0
    ensures MaxPadding(1000.0) == 70.0
    ensures ScaleFactor(200.0, 1000.0) == 1.0 - 15500.0 / 450000.0
  {}

  /** The dim overlay is drawn over the background while it is shrunk below 0.99. */
  predicate DimOverlay(scale: real) {
    scale < 0.99
  }

  /** Corner radius of the background's mask. */
  function CornerRadius(scale: real): real {
    if scale < 1.0 then 12.0 else 0.0
  }

  /**
   * Whether the container forces the dark colour scheme. The three display
   * effects nest: a dimmed background is dark, and a dark one has rounded corners.
   */
  function DarkScheme(scale: real): (dark: bool)
    ensures DimOverlay(scale) ==> dark
    ensures dark ==> CornerRadius(scale) == 12.0
    ensures scale > 0.99 ==> !dark
  {
    !(scale > 0.99)
  }

  /** At exactly 0.99 the scheme is already dark while the overlay is not yet drawn. */
  lemma DarkWithoutOverlayAtThreshold()
    ensures DarkScheme(0.99) && !DimOverlay(0.99)
  {}

  /** A background at rest (scale 1) is neither dimmed, darkened nor rounded. */
  lemma DisplayAtRest(minY: real, height: real)
    requires !InRange(minY, height)
    ensures !DimOverlay(ScaleFactor(minY, height))
    ensures !DarkScheme(ScaleFactor(minY, height))
    ensures CornerRadius(ScaleFactor(minY, height)) == 0.0
  {}
}
