/**
 * Wrap-around of a layer's horizontal offset.
 *
 * A layer scrolling left keeps its offset in the band [-w, 0]; one scrolling
 * right keeps it in [0, w + M], where w is the texture width and M the
 * viewport width. After each move the offset is brought back by whole texture
 * widths, as few as needed. This module states that re-normalisation
 * declaratively, as the unique number of whole widths that "lands" the offset,
 * so that the layer's while loops can be proved against it.
 */
module Wrap {

  /** Adding `k` whole widths brings `y` to `-w` or above, and `k - 1` would not. */
  ghost predicate LandsLeft(y: real, w: int, k: nat)
    requires w > 0
  {
    var x := y + (k * w) as real;
    -(w as real) <= x && (k > 0 ==> x < 0.0)
  }

  /** Taking `k` whole widths from `y` brings it to `hi` or below, and `k - 1` would not. */
  ghost predicate LandsRight(y: real, w: int, hi: real, k: nat)
    requires w > 0
  {
    var x := y - (k * w) as real;
    x <= hi && (k > 0 ==> x > hi - w as real)
  }

  lemma MulAtLeast(d: int, w: int)
    requires d >= 1 && w > 0
    ensures d * w >= w
  {
    if d > 1 {
      MulAtLeast(d - 1, w);
      assert d * w == (d - 1) * w + w;
    }
  }

  /** Two distinct whole numbers of widths are at least one width apart. */
  lemma StepApart(j: nat, k: nat, w: int)
    requires j < k && w > 0
    ensures k * w - j * w >= w
  {
    MulAtLeast(k - j, w);
    assert k * w - j * w == (k - j) * w;
  }

  /** Some number of whole widths lands `y` in the left band. */
  lemma {:induction false} LeftLandingExists(y: real, w: int)
    requires w > 0
    ensures exists k: nat :: LandsLeft(y, w, k)
    decreases (-(w as real) - y).Floor
  {
    if y >= -(w as real) {
      assert LandsLeft(y, w, 0);
    } else {
      LeftLandingExists(y + w as real, w);
      var k: nat :| LandsLeft(y + w as real, w, k);
      assert (k + 1) * w == k * w + w;
      assert LandsLeft(y, w, k + 1);
    }
  }

  /** Some number of whole widths lands `y` in the right band. */
  lemma {:induction false} RightLandingExists(y: real, w: int, hi: real)
    requires w > 0
    ensures exists k: nat :: LandsRight(y, w, hi, k)
    decreases (y - hi).Floor
  {
    if y <= hi {
      assert LandsRight(y, w, hi, 0);
    } else {
      RightLandingExists(y - w as real, w, hi);
      var k: nat :| LandsRight(y - w as real, w, hi, k);
      assert (k + 1) * w == k * w + w;
      assert LandsRight(y, w, hi, k + 1);
    }
  }

  /** At most one number of whole widths lands `y` in the left band. */
  lemma LandsLeftUnique(y: real, w: int, j: nat, k: nat)
    requires w > 0
    requires LandsLeft(y, w, j) && LandsLeft(y, w, k)
    ensures j == k
  {
    if j < k {
      StepApart(j, k, w);
    } else if k < j {
      StepApart(k, j, w);
    }
  }

  /** At most one number of whole widths lands `y` in the right band. */
  lemma LandsRightUnique(y: real, w: int, hi: real, j: nat, k: nat)
    requires w > 0
    requires LandsRight(y, w, hi, j) && LandsRight(y, w, hi, k)
    ensures j == k
  {
    if j < k {
      StepApart(j, k, w);
    } else if k < j {
      StepApart(k, j, w);
    }
  }

  /** The number of whole widths the left wrap adds to `y`. */
  ghost function LeftWraps(y: real, w: int): (k: nat)
    requires w > 0
    ensures LandsLeft(y, w, k)
  {
    LeftLandingExists(y, w);
    var k: nat :| LandsLeft(y, w, k);
    k
  }

  /** The number of whole widths the right wrap takes from `y`. */
  ghost function RightWraps(y: real, w: int, hi: real): (k: nat)
    requires w > 0
    ensures LandsRight(y, w, hi, k)
  {
    RightLandingExists(y, w, hi);
    var k: nat :| LandsRight(y, w, hi, k);
    k
  }

  /** Offset after the left wrap: `y` moved up by the fewest whole widths that bring it to `-w` or above. */
  ghost function WrapLeft(y: real, w: int): (x: real)
    requires w > 0
    ensures -(w as real) <= x
    ensures y < -(w as real) ==> x < 0.0
    ensures y >= -(w as real) ==> x == y
  {
    y + (LeftWraps(y, w) * w) as real
  }

  /** Offset after the right wrap: `y` moved down by the fewest whole widths that bring it to `hi` or below. */
  ghost function WrapRight(y: real, w: int, hi: real): (x: real)
    requires w > 0
    ensures x <= hi
    ensures y > hi ==> x > hi - w as real
    ensures y <= hi ==> x == y
  {
    y - (RightWraps(y, w, hi) * w) as real
  }

  /** Any landing count is the one the left wrap uses. */
  lemma WrapLeftBy(y: real, w: int, k: nat)
    requires w > 0 && LandsLeft(y, w, k)
    ensures WrapLeft(y, w) == y + (k * w) as real
  {
    LandsLeftUnique(y, w, k, LeftWraps(y, w));
  }

  /** Any landing count is the one the right wrap uses. */
  lemma WrapRightBy(y: real, w: int, hi: real, k: nat)
    requires w > 0 && LandsRight(y, w, hi, k)
    ensures WrapRight(y, w, hi) == y - (k * w) as real
  {
    LandsRightUnique(y, w, hi, k, RightWraps(y, w, hi));
  }

  /**
   * Moving left by a distance of at most one width from inside [-w, 0] and
   * wrapping stays in [-w, 0], and the wrap adds at most one width.
   */
  lemma LeftBandKept(x: real, w: int, distance: real)
    requires w > 0 && -(w as real) <= x <= 0.0 && 0.0 <= distance <= w as real
    ensures -(w as real) <= WrapLeft(x - distance, w) <= 0.0
    ensures LeftWraps(x - distance, w) <= 1
  {
    var y := x - distance;
    if y < -(w as real) {
      assert LandsLeft(y, w, 1);
      LandsLeftUnique(y, w, 1, LeftWraps(y, w));
    }
  }

  /**
   * Moving right by a distance of at most one width from inside [0, w + M]
   * (M >= 0) and wrapping stays in [0, w + M], and the wrap removes at most
   * one width.
   */
  lemma RightBandKept(x: real, w: int, maxWidth: real, distance: real)
    requires w > 0 && maxWidth >= 0.0
    requires 0.0 <= x <= w as real + maxWidth && 0.0 <= distance <= w as real
    ensures 0.0 <= WrapRight(x + distance, w, w as real + maxWidth) <= w as real + maxWidth
    ensures RightWraps(x + distance, w, w as real + maxWidth) <= 1
  {
    var hi := w as real + maxWidth;
    var y := x + distance;
    if y > hi {
      assert y - (1 * w) as real <= hi;
      assert LandsRight(y, w, hi, 1);
      LandsRightUnique(y, w, hi, 1, RightWraps(y, w, hi));
    }
  }

  /** A full width of leftward travel from inside [-w, 0) comes back to the same offset. */
  lemma LeftFullTurn(x: real, w: int)
    requires w > 0 && -(w as real) <= x < 0.0
    ensures WrapLeft(x - w as real, w) == x
  {
    assert LandsLeft(x - w as real, w, 1);
    LandsLeftUnique(x - w as real, w, 1, LeftWraps(x - w as real, w));
  }

  /** A full width of rightward travel from inside (M, w + M] comes back to the same offset. */
  lemma RightFullTurn(x: real, w: int, maxWidth: real)
    requires w > 0 && maxWidth < x <= w as real + maxWidth
    ensures WrapRight(x + w as real, w, w as real + maxWidth) == x
  {
    var hi := w as real + maxWidth;
    assert LandsRight(x + w as real, w, hi, 1);
    LandsRightUnique(x + w as real, w, hi, 1, RightWraps(x + w as real, w, hi));
  }
}
