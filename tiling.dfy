/**
 * Tile lists: the x positions at which a layer's texture is blitted so that
 * the viewport [0, M) is covered.
 *
 * A left-scrolling layer starts at its offset and steps right by the texture
 * width w until the next tile would start at or past M. A right-scrolling
 * layer starts at M - w + offset and steps left by w until a tile starts at
 * or before 0.
 */
module Tiling {

  /** Consecutive positions differ by exactly `step` (ascending when step > 0). */
  ghost predicate Steps(ts: seq<real>, step: real) {
    forall i :: 0 < i < |ts| ==> ts[i] == ts[i - 1] + step
  }

  /**
   * The tile list of a left-scrolling layer with offset `x0`: it starts at
   * `x0`, steps right by `w`, every tile after the first starts inside the
   * viewport, and the last tile reaches `M`.
   */
  ghost predicate LeftTiling(ts: seq<real>, x0: real, w: real, M: real) {
    |ts| >= 1 && ts[0] == x0 && Steps(ts, w)
    && (forall i :: 0 < i < |ts| ==> ts[i] < M)
    && ts[|ts| - 1] + w >= M
  }

  /**
   * The tile list of a right-scrolling layer with offset `x0`: it starts at
   * `M - w + x0`, steps left by `w`, every tile but the last starts right of
   * 0, and the last starts at or left of 0.
   */
  ghost predicate RightTiling(ts: seq<real>, x0: real, w: real, M: real) {
    |ts| >= 1 && ts[0] == M - w + x0 && Steps(ts, -w)
    && (forall i :: 0 <= i < |ts| - 1 ==> ts[i] > 0.0)
    && ts[|ts| - 1] <= 0.0
  }

  /** In an ascending list with step `w`, the point `p` lies in some tile [ts[i], ts[i] + w). */
  lemma {:induction false} AscendingCover(ts: seq<real>, w: real, p: real) returns (i: nat)
    requires |ts| >= 1 && Steps(ts, w)
    requires ts[0] <= p < ts[|ts| - 1] + w
    ensures i < |ts| && ts[i] <= p < ts[i] + w
  {
    if p < ts[0] + w {
      i := 0;
    } else {
      assert |ts| > 1;
      assert ts[1] == ts[0] + w;
      var j := AscendingCover(ts[1..], w, p);
      i := j + 1;
    }
  }

  /** In a descending list with step `w`, the point `p` lies in some tile [ts[i], ts[i] + w). */
  lemma {:induction false} DescendingCover(ts: seq<real>, w: real, p: real) returns (i: nat)
    requires |ts| >= 1 && Steps(ts, -w)
    requires ts[|ts| - 1] <= p < ts[0] + w
    ensures i < |ts| && ts[i] <= p < ts[i] + w
  {
    if ts[0] <= p {
      i := 0;
    } else {
      assert |ts| > 1;
      assert ts[1] + w == ts[0];
      var j := DescendingCover(ts[1..], w, p);
      i := j + 1;
    }
  }

  /** A left tiling from an offset at or left of 0 covers every point of [0, M). */
  lemma LeftTilesCover(ts: seq<real>, x0: real, w: real, M: real, p: real) returns (i: nat)
    requires LeftTiling(ts, x0, w, M) && x0 <= 0.0
    requires 0.0 <= p < M
    ensures i < |ts| && ts[i] <= p < ts[i] + w
  {
    i := AscendingCover(ts, w, p);
  }

  /** A right tiling from an offset at or right of 0 covers every point of [0, M). */
  lemma RightTilesCover(ts: seq<real>, x0: real, w: real, M: real, p: real) returns (i: nat)
    requires RightTiling(ts, x0, w, M) && x0 >= 0.0
    requires 0.0 <= p < M
    ensures i < |ts| && ts[i] <= p < ts[i] + w
  {
    i := DescendingCover(ts, w, p);
  }

  /** Two lists with the same first element and the same step agree wherever both are defined. */
  lemma {:induction false} PrefixAgree(ts: seq<real>, us: seq<real>, step: real, i: nat)
    requires |ts| >= 1 && |us| >= 1 && ts[0] == us[0] && Steps(ts, step) && Steps(us, step)
    requires i < |ts| && i < |us|
    ensures ts[i] == us[i]
  {
    if i > 0 {
      PrefixAgree(ts, us, step, i - 1);
    }
  }

  lemma StepAt(ts: seq<real>, step: real, i: nat)
    requires Steps(ts, step) && 0 < i < |ts|
    ensures ts[i] == ts[i - 1] + step
  {
  }

  lemma LeftTilingLength(ts: seq<real>, us: seq<real>, x0: real, w: real, M: real)
    requires LeftTiling(ts, x0, w, M) && LeftTiling(us, x0, w, M) && |ts| <= |us|
    ensures |ts| == |us|
  {
    if |ts| < |us| {
      StepAt(us, w, |ts|);
      PrefixAgree(ts, us, w, |ts| - 1);
    }
  }

  lemma RightTilingLength(ts: seq<real>, us: seq<real>, x0: real, w: real, M: real)
    requires RightTiling(ts, x0, w, M) && RightTiling(us, x0, w, M) && |ts| <= |us|
    ensures |ts| == |us|
  {
    if |ts| < |us| {
      PrefixAgree(ts, us, -w, |ts| - 1);
    }
  }

  /** In a list with a constant step, the tile at index `i` lies `i` steps from the first. */
  lemma {:induction false} StepsFrom(ts: seq<real>, step: real, i: nat)
    requires Steps(ts, step) && i < |ts|
    ensures ts[i] == ts[0] + (i as real) * step
  {
    if i > 0 {
      StepsFrom(ts, step, i - 1);
      assert (i as real) * step == ((i - 1) as real) * step + step;
    }
  }

  /**
   * From an offset in the left band [-w, 0], a left tiling has at most
   * ceil(M / w) + 1 tiles: all tiles but the last two fit side by side inside
   * the viewport.
   */
  lemma LeftTilingBound(ts: seq<real>, x0: real, w: real, M: real)
    requires LeftTiling(ts, x0, w, M) && w > 0.0 && -w <= x0 <= 0.0 && |ts| >= 2
    ensures ((|ts| - 2) as real) * w < M
  {
    var n := |ts|;
    StepsFrom(ts, w, n - 1);
    assert ((n - 1) as real) * w == ((n - 2) as real) * w + w;
  }

  /**
   * From an offset in [0, w], a right tiling has at most ceil(M / w) + 1
   * tiles. The right band of the code reaches w + M, beyond this range.
   */
  lemma RightTilingBound(ts: seq<real>, x0: real, w: real, M: real)
    requires RightTiling(ts, x0, w, M) && w > 0.0 && 0.0 <= x0 <= w && |ts| >= 2
    ensures ((|ts| - 2) as real) * w < M
  {
    var n := |ts|;
    StepsFrom(ts, -w, n - 2);
    assert ((n - 2) as real) * -w == -(((n - 2) as real) * w);
  }

  /** The left tiling is determined by the offset, the width and the viewport: two such lists are equal. */
  lemma LeftTilingUnique(ts: seq<real>, us: seq<real>, x0: real, w: real, M: real)
    requires LeftTiling(ts, x0, w, M) && LeftTiling(us, x0, w, M)
    ensures ts == us
  {
    if |ts| <= |us| {
      LeftTilingLength(ts, us, x0, w, M);
    } else {
      LeftTilingLength(us, ts, x0, w, M);
    }
    forall i | 0 <= i < |ts| ensures ts[i] == us[i] {
      PrefixAgree(ts, us, w, i);
    }
  }

  /** The right tiling is determined by the offset, the width and the viewport: two such lists are equal. */
  lemma RightTilingUnique(ts: seq<real>, us: seq<real>, x0: real, w: real, M: real)
    requires RightTiling(ts, x0, w, M) && RightTiling(us, x0, w, M)
    ensures ts == us
  {
    if |ts| <= |us| {
      RightTilingLength(ts, us, x0, w, M);
    } else {
      RightTilingLength(us, ts, x0, w, M);
    }
    forall i | 0 <= i < |ts| ensures ts[i] == us[i] {
      PrefixAgree(ts, us, -w, i);
    }
  }
}
