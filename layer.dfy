/**
 * One parallax layer: a repeating texture that scrolls horizontally at its
 * own speed (a fraction of its width per second of animation time).
 *
 * The three layer classes of the library (`_HParallaxLayer`,
 * `_ParallaxScrollLayer`, `ParallaxLayer`) share this engine. Its state is
 * given as a value (`LayerState`) with the specification functions `Resolve`
 * and `Advance`; the class `Layer` holds the same state in fields and updates
 * it with the library's while loops, proved against those functions.
 */
module LayerEngine {
  import opened Host
  import opened Wrap
  import opened Tiling

  /** Raised when the layer's displayable renders with a zero width or height. */
  datatype LayerError = DegenerateImage

  /** The fields a layer updates: lazily resolved size, scroll offset and time of the last update. */
  datatype LayerState = LayerState(width: int, height: int, xoffset: real, lastTime: real)

  /** The fields fixed at construction. */
  datatype LayerConfig = LayerConfig(image: Image, speed: real, maxWidth: real, left: bool)

  /** A new layer: size unresolved (-1), offset 0, last update at time 0. */
  const Initial := LayerState(-1, -1, 0.0, 0.0)

  /** `_clamp`: the fraction of a width one update moves, limited to [0, 1]. */
  function Clamp(percent: real): (r: real)
    ensures 0.0 <= r <= 1.0
    ensures 0.0 <= percent <= 1.0 ==> r == percent
    ensures percent <= 0.0 ==> r == 0.0
    ensures percent >= 1.0 ==> r == 1.0
  {
    if percent < 0.0 then 0.0
    else if percent > 1.0 then 1.0
    else percent
  }

  /** Clamp picks the point of [0, 1] nearest to its argument. */
  lemma ClampIsNearest(percent: real, q: real)
    requires 0.0 <= q <= 1.0
    ensures Abs(Clamp(percent) - q) <= Abs(percent - q)
  {
  }

  function Abs(x: real): (r: real) {
    if x < 0.0 then -x else x
  }

  /**
   * `_lazy_dimensions` on values: while the width is not positive, take the
   * size of the image (width first, then height) and fail if either is 0.
   */
  function Resolve(image: Image, s: LayerState): (r: (LayerState, Outcome<LayerError>))
    ensures s.width > 0 ==> r == (s, Pass)
    ensures s.width <= 0 ==> r.0 == s.(width := image.width, height := image.height)
    ensures r.1.Pass? <==> s.width > 0 || (image.width > 0 && image.height > 0)
    ensures r.1.Pass? ==> r.0.width > 0
  {
    if s.width > 0 then (s, Pass)
    else
      var resolved := s.(width := image.width, height := image.height);
      if image.width == 0 || image.height == 0 then (resolved, Fail(DegenerateImage))
      else (resolved, Pass)
  }

  /** The fraction of its width a layer moves when advanced from `lastTime` to `at`. */
  function Percent(speed: real, lastTime: real, at: real): (r: real)
    ensures 0.0 <= r <= 1.0
    ensures speed >= 0.0 && (at <= lastTime || speed == 0.0) ==> r == 0.0
  {
    NoTimeNoMotion(speed, at - lastTime);
    Clamp((at - lastTime) * speed)
  }

  lemma NoTimeNoMotion(speed: real, delta: real)
    ensures speed >= 0.0 && (delta <= 0.0 || speed == 0.0) ==> delta * speed <= 0.0
  {
  }

  /** How far a layer of width `w` moves for a clamped fraction `percent`: never more than one width. */
  function Distance(w: int, percent: real): (d: real)
    ensures w >= 0 && 0.0 <= percent <= 1.0 ==> 0.0 <= d <= w as real
    ensures percent == 0.0 ==> d == 0.0
  {
    FractionWithin(w as real, percent);
    (w as real) * percent
  }

  lemma FractionWithin(a: real, p: real)
    ensures a >= 0.0 && 0.0 <= p <= 1.0 ==> 0.0 <= a * p <= a
  {
    if a >= 0.0 && 0.0 <= p <= 1.0 {
      assert a - a * p == a * (1.0 - p);
    }
  }

  /**
   * The move of `_update_left` / `_update_right` for a resolved layer: by
   * `distance` (left: down, right: up), then wrapped back by whole widths.
   */
  ghost function Scroll(cfg: LayerConfig, s: LayerState, distance: real): (r: LayerState)
    requires s.width > 0
    ensures r == s.(xoffset := r.xoffset)
  {
    var w := s.width;
    if cfg.left then s.(xoffset := WrapLeft(s.xoffset - distance, w))
    else s.(xoffset := WrapRight(s.xoffset + distance, w, w as real + cfg.maxWidth))
  }

  /** `update(at)` on values: store `at`, resolve the size, then scroll by width * the clamped fraction. */
  ghost function Advance(cfg: LayerConfig, s: LayerState, at: real): (r: (LayerState, Outcome<LayerError>))
    ensures r.0.lastTime == at
    ensures r.1.Pass? <==> Resolvable(cfg, s)
    ensures r.1.Pass? ==> r.0.width > 0
  {
    var resolved := Resolve(cfg.image, s.(lastTime := at));
    if resolved.1.Fail? then resolved
    else (Scroll(cfg, resolved.0, Distance(resolved.0.width, Percent(cfg.speed, s.lastTime, at))), Pass)
  }

  /** An update succeeds exactly when the size is already resolved or the image has no zero side. */
  predicate Resolvable(cfg: LayerConfig, s: LayerState) {
    s.width > 0 || (cfg.image.width > 0 && cfg.image.height > 0)
  }

  /** The band the offset is kept in: [-w, 0] scrolling left, [0, w + M] scrolling right. */
  ghost predicate InBand(cfg: LayerConfig, s: LayerState) {
    if cfg.left then -(s.width as real) <= s.xoffset <= 0.0
    else 0.0 <= s.xoffset <= s.width as real + cfg.maxWidth
  }

  /**
   * The layer invariant: the offset stays 0 until the width is resolved, and
   * afterwards lies in its band (for a right-scrolling layer, when the viewport
   * width is not negative).
   */
  ghost predicate Inv(cfg: LayerConfig, s: LayerState) {
    (s.width <= 0 ==> s.xoffset == 0.0)
    && (s.width > 0 && (cfg.left || cfg.maxWidth >= 0.0) ==> InBand(cfg, s))
  }

  /** The tile list a layer in state `s` blits: `_render_left` or `_render_right`. */
  ghost predicate Tiled(cfg: LayerConfig, s: LayerState, ts: seq<real>) {
    if cfg.left then LeftTiling(ts, s.xoffset, s.width as real, cfg.maxWidth)
    else RightTiling(ts, s.xoffset, s.width as real, cfg.maxWidth)
  }

  /** The initial offset 0 lies in the left band and in the right band of any resolved width. */
  lemma InitialInBothBands(cfg: LayerConfig, w: int)
    requires w > 0 && cfg.maxWidth >= 0.0
    ensures Inv(cfg, Initial)
    ensures InBand(cfg.(left := true), Initial.(width := w))
    ensures InBand(cfg.(left := false), Initial.(width := w))
  {
  }

  /** Scrolling a resolved layer by at most one width keeps the invariant. */
  lemma ScrollKeepsInvariant(cfg: LayerConfig, s: LayerState, distance: real)
    requires s.width > 0 && Inv(cfg, s) && 0.0 <= distance <= s.width as real
    ensures Inv(cfg, Scroll(cfg, s, distance))
  {
    if cfg.left {
      LeftBandKept(s.xoffset, s.width, distance);
    } else if cfg.maxWidth >= 0.0 {
      RightBandKept(s.xoffset, s.width, cfg.maxWidth, distance);
    }
  }

  /** `update` keeps the layer invariant: the wrap loops keep the offset in its band. */
  lemma AdvanceKeepsInvariant(cfg: LayerConfig, s: LayerState, at: real)
    requires Inv(cfg, s)
    ensures Inv(cfg, Advance(cfg, s, at).0)
  {
    var resolved := Resolve(cfg.image, s.(lastTime := at));
    if resolved.1.Pass? {
      var w := resolved.0.width;
      ScrollKeepsInvariant(cfg, resolved.0, Distance(w, Percent(cfg.speed, s.lastTime, at)));
    }
  }

  /** Scrolling moves the offset by `distance` and then by whole widths; inside the band by at most one. */
  lemma ScrollDisplacement(cfg: LayerConfig, s: LayerState, distance: real) returns (wraps: nat)
    requires s.width > 0
    ensures var w := s.width; var x := Scroll(cfg, s, distance).xoffset;
      if cfg.left then x == s.xoffset - distance + (wraps * w) as real
      else x == s.xoffset + distance - (wraps * w) as real
    ensures Inv(cfg, s) && 0.0 <= distance <= s.width as real && (cfg.left || cfg.maxWidth >= 0.0) ==> wraps <= 1
  {
    var w := s.width;
    if cfg.left {
      wraps := LeftWraps(s.xoffset - distance, w);
      if Inv(cfg, s) && 0.0 <= distance <= w as real {
        LeftBandKept(s.xoffset, w, distance);
      }
    } else {
      wraps := RightWraps(s.xoffset + distance, w, w as real + cfg.maxWidth);
      if Inv(cfg, s) && 0.0 <= distance <= w as real && cfg.maxWidth >= 0.0 {
        RightBandKept(s.xoffset, w, cfg.maxWidth, distance);
      }
    }
  }

  /**
   * One update moves the offset by at most one texture width before wrapping:
   * the new offset is the old one moved by width * percent, with percent in
   * [0, 1] whatever the speed and the elapsed time, plus or minus whole
   * widths; inside the band at most one.
   */
  lemma AdvanceMovesAtMostOneWidth(cfg: LayerConfig, s: LayerState, at: real) returns (percent: real, wraps: nat)
    requires Resolvable(cfg, s)
    ensures percent == Percent(cfg.speed, s.lastTime, at) && 0.0 <= percent <= 1.0
    ensures var s' := Advance(cfg, s, at).0; var d := Distance(s'.width, percent);
      if cfg.left then s'.xoffset == s.xoffset - d + (wraps * s'.width) as real
      else s'.xoffset == s.xoffset + d - (wraps * s'.width) as real
    ensures Inv(cfg, s) && (cfg.left || cfg.maxWidth >= 0.0) ==> wraps <= 1
  {
    percent := Percent(cfg.speed, s.lastTime, at);
    var resolved := Resolve(cfg.image, s.(lastTime := at)).0;
    wraps := ScrollDisplacement(cfg, resolved, Distance(resolved.width, percent));
  }

  /**
   * With a non-negative speed, an update that sees no time pass (or a layer
   * of speed 0) leaves the offset where it was.
   */
  lemma AdvanceWithoutMotion(cfg: LayerConfig, s: LayerState, at: real)
    requires Inv(cfg, s) && (cfg.left || cfg.maxWidth >= 0.0) && cfg.speed >= 0.0
    requires at <= s.lastTime || cfg.speed == 0.0
    ensures Advance(cfg, s, at).0.xoffset == s.xoffset
  {
    assert Percent(cfg.speed, s.lastTime, at) == 0.0;
  }

  /** Updating twice with the same time changes nothing the second time. */
  lemma AdvanceIdempotent(cfg: LayerConfig, s: LayerState, at: real)
    requires Inv(cfg, s) && (cfg.left || cfg.maxWidth >= 0.0)
    requires Resolvable(cfg, s)
    ensures Advance(cfg, Advance(cfg, s, at).0, at) == (Advance(cfg, s, at).0, Pass)
  {
    var s1 := Advance(cfg, s, at).0;
    AdvanceKeepsInvariant(cfg, s, at);
    assert Percent(cfg.speed, s1.lastTime, at) == 0.0;
  }

  /**
   * The size is resolved once: a zero height is reported on the first update
   * only, since the width is stored before the check and later updates see it
   * as resolved.
   */
  lemma ZeroHeightReportedOnce(speed: real, maxWidth: real, left: bool)
    ensures var cfg := LayerConfig(Image(100, 0), speed, maxWidth, left);
      var first := Advance(cfg, Initial, 1.0);
      first.1 == Fail(DegenerateImage)
      && first.0.width == 100 && first.0.height == 0
      && Advance(cfg, first.0, 2.0).1 == Pass
  {
  }

  /** Under the invariant, a resolved layer's tiles leave no gap in the viewport [0, M). */
  lemma TilesCoverViewport(cfg: LayerConfig, s: LayerState, ts: seq<real>, p: real) returns (i: nat)
    requires Inv(cfg, s) && s.width > 0 && Tiled(cfg, s, ts)
    requires 0.0 <= p < cfg.maxWidth
    ensures i < |ts| && ts[i] <= p < ts[i] + s.width as real
  {
    if cfg.left {
      i := LeftTilesCover(ts, s.xoffset, s.width as real, cfg.maxWidth, p);
    } else {
      i := RightTilesCover(ts, s.xoffset, s.width as real, cfg.maxWidth, p);
    }
  }

  /** A layer object: `_HParallaxLayer`, `_ParallaxScrollLayer` and `ParallaxLayer`. */
  class Layer {
    const image: Image
    const speed: real
    const maxWidth: real
    const left: bool

    var width: int
    var height: int
    var xoffset: real
    var lastTime: real

    function Config(): (cfg: LayerConfig) {
      LayerConfig(image, speed, maxWidth, left)
    }

    function State(): (s: LayerState)
      reads this
    {
      LayerState(width, height, xoffset, lastTime)
    }

    ghost predicate Valid()
      reads this
    {
      Inv(Config(), State())
    }

    constructor (image: Image, speed: real, maxWidth: real, left: bool)
      ensures Config() == LayerConfig(image, speed, maxWidth, left)
      ensures State() == Initial && Valid()
    {
      this.image := image;
      this.speed := speed;
      this.maxWidth := maxWidth;
      this.left := left;
      width, height := -1, -1;
      xoffset, lastTime := 0.0, 0.0;
    }

    /** `_lazy_dimensions`: resolve the size unless the width is already positive. */
    method LazyDimensions() returns (outcome: Outcome<LayerError>)
      modifies this
      ensures (State(), outcome) == Resolve(image, old(State()))
    {
      if width > 0 {
        return Pass;
      }
      width := image.width;
      height := image.height;
      if width == 0 || height == 0 {
        return Fail(DegenerateImage);
      }
      return Pass;
    }

    /** `_update_left`: move down by width * percent, then add widths while below -width. */
    method UpdateLeft(percent: real)
      requires width > 0
      modifies this`xoffset
      ensures xoffset == WrapLeft(old(xoffset) - Distance(width, percent), width)
    {
      var w := width;
      var offset := xoffset - Distance(w, percent);
      ghost var moved := offset;
      ghost var wraps: nat := 0;
      ghost var total := LeftWraps(moved, w);
      while offset < -(w as real)
        invariant offset == moved + (wraps * w) as real
        invariant wraps > 0 ==> offset < 0.0
        invariant wraps <= total
        decreases total - wraps
      {
        offset := offset + w as real;
        wraps := wraps + 1;
        assert wraps * w == (wraps - 1) * w + w;
      }
      WrapLeftBy(moved, w, wraps);
      xoffset := offset;
    }

    /** `_update_right`: move up by width * percent, then take widths while above width + max_width. */
    method UpdateRight(percent: real)
      requires width > 0
      modifies this`xoffset
      ensures xoffset == WrapRight(old(xoffset) + Distance(width, percent), width, width as real + maxWidth)
    {
      var w := width;
      var offset := xoffset + Distance(w, percent);
      var x := w as real + maxWidth;
      ghost var moved := offset;
      ghost var wraps: nat := 0;
      ghost var total := RightWraps(moved, w, x);
      while offset > x
        invariant offset == moved - (wraps * w) as real
        invariant wraps > 0 ==> offset > x - w as real
        invariant wraps <= total
        decreases total - wraps
      {
        offset := offset - w as real;
        wraps := wraps + 1;
        assert wraps * w == (wraps - 1) * w + w;
      }
      WrapRightBy(moved, w, x, wraps);
      xoffset := offset;
    }

    /** `update(at)`: store the time, resolve the size, then scroll in the layer's direction. */
    method Update(at: real) returns (outcome: Outcome<LayerError>)
      requires Valid()
      modifies this
      ensures Valid()
      ensures (State(), outcome) == Advance(Config(), old(State()), at)
    {
      ghost var before := State();
      var delta := at - lastTime;
      lastTime := at;
      var percent := Clamp(delta * speed);
      assert delta == at - before.lastTime;
      assert percent == Percent(speed, before.lastTime, at);
      assert State() == before.(lastTime := at);
      outcome := LazyDimensions();
      ghost var resolved := State();
      if outcome.Fail? {
        AdvanceKeepsInvariant(Config(), before, at);
        return;
      }
      if left {
        UpdateLeft(percent);
      } else {
        UpdateRight(percent);
      }
      assert State() == Scroll(Config(), resolved, Distance(resolved.width, percent));
      AdvanceKeepsInvariant(Config(), before, at);
    }

    /** `_render_left`: blit at the offset, then every width further right while inside the viewport. */
    method TilesLeft() returns (ts: seq<real>)
      requires width > 0
      ensures LeftTiling(ts, xoffset, width as real, maxWidth)
    {
      ts := [xoffset];
      var next := width as real + xoffset;
      while next < maxWidth
        invariant |ts| >= 1 && ts[0] == xoffset && Steps(ts, width as real)
        invariant forall i :: 0 < i < |ts| ==> ts[i] < maxWidth
        invariant next == ts[|ts| - 1] + width as real
        decreases (maxWidth - next).Floor
      {
        ts := ts + [next];
        next := next + width as real;
      }
    }

    /** `_render_right`: blit at max_width - width + offset, then every width further left until at or past 0. */
    method TilesRight() returns (ts: seq<real>)
      requires width > 0
      ensures RightTiling(ts, xoffset, width as real, maxWidth)
    {
      var position := maxWidth - width as real + xoffset;
      ts := [position];
      while position > 0.0
        invariant |ts| >= 1 && ts[0] == maxWidth - width as real + xoffset && Steps(ts, -(width as real))
        invariant forall i :: 0 <= i < |ts| - 1 ==> ts[i] > 0.0
        invariant position == ts[|ts| - 1]
        decreases position.Floor
      {
        position := position - width as real;
        ts := ts + [position];
      }
    }

    /** `render`: the tile list in the layer's direction. */
    method Tiles() returns (ts: seq<real>)
      requires width > 0
      ensures Tiled(Config(), State(), ts)
    {
      if left {
        ts := TilesLeft();
      } else {
        ts := TilesRight();
      }
    }

    /** The `width` property of `_HParallaxLayer`: resolves the size first. */
    method ResolvedWidth() returns (r: Result<int, LayerError>)
      modifies this
      ensures old(Valid()) ==> Valid()
      ensures (State(), if r.Success? then Pass else Fail(r.error)) == Resolve(image, old(State()))
      ensures r.Success? ==> r.value == width && r.value > 0
    {
      var outcome := LazyDimensions();
      if outcome.Fail? {
        return Failure(outcome.error);
      }
      return Success(width);
    }

    /** The `height` property of `_HParallaxLayer`: resolves the size first. */
    method ResolvedHeight() returns (r: Result<int, LayerError>)
      modifies this
      ensures old(Valid()) ==> Valid()
      ensures (State(), if r.Success? then Pass else Fail(r.error)) == Resolve(image, old(State()))
      ensures r.Success? ==> r.value == height
    {
      var outcome := LazyDimensions();
      if outcome.Fail? {
        return Failure(outcome.error);
      }
      return Success(height);
    }
  }
}
