/**
 * Concrete consequences of the model: one second of scrolling for a single
 * layer in each direction, and the one validation rule on which the three
 * copies of the engine disagree.
 */
module Scenarios {
  import opened Host
  import opened Validation
  import opened LayerEngine
  import opened Tiling
  import HParallax
  import ParallaxScroll
  import Parallax

  /**
   * A 400-pixel texture at speed 0.1 in an 800-pixel viewport, scrolling left,
   * updated at time 1: it has moved 40 pixels and is blitted at exactly
   * -40, 360 and 760.
   */
  lemma LeftScrollAfterOneSecond()
    ensures var cfg := LayerConfig(Image(400, 300), 0.1, 800.0, true);
      var (s, outcome) := Advance(cfg, Initial, 1.0);
      outcome == Pass && s.width == 400 && s.xoffset == -40.0 && s.lastTime == 1.0
      && Tiled(cfg, s, [-40.0, 360.0, 760.0])
      && forall ts :: Tiled(cfg, s, ts) ==> ts == [-40.0, 360.0, 760.0]
  {
    var cfg := LayerConfig(Image(400, 300), 0.1, 800.0, true);
    var s := Advance(cfg, Initial, 1.0).0;
    assert Distance(400, 0.1) == 40.0;
    assert s.xoffset == -40.0;
    var expected := [-40.0, 360.0, 760.0];
    assert LeftTiling(expected, -40.0, 400.0, 800.0);
    forall ts | Tiled(cfg, s, ts)
      ensures ts == expected
    {
      LeftTilingUnique(ts, expected, -40.0, 400.0, 800.0);
    }
  }

  /**
   * The same layer scrolling right: it has moved 40 pixels the other way and
   * is blitted at exactly 440, 40 and -360.
   */
  lemma RightScrollAfterOneSecond()
    ensures var cfg := LayerConfig(Image(400, 300), 0.1, 800.0, false);
      var (s, outcome) := Advance(cfg, Initial, 1.0);
      outcome == Pass && s.width == 400 && s.xoffset == 40.0 && s.lastTime == 1.0
      && Tiled(cfg, s, [440.0, 40.0, -360.0])
      && forall ts :: Tiled(cfg, s, ts) ==> ts == [440.0, 40.0, -360.0]
  {
    var cfg := LayerConfig(Image(400, 300), 0.1, 800.0, false);
    var s := Advance(cfg, Initial, 1.0).0;
    assert Distance(400, 0.1) == 40.0;
    assert s.xoffset == 40.0;
    var expected := [440.0, 40.0, -360.0];
    assert RightTiling(expected, 40.0, 400.0, 800.0);
    forall ts | Tiled(cfg, s, ts)
      ensures ts == expected
    {
      RightTilingUnique(ts, expected, 40.0, 400.0, 800.0);
    }
  }

  /**
   * A right-scrolling layer is kept in [0, w + M], not in [0, w]: the same
   * layer at offset 400, updated one second later, moves to 440 without
   * wrapping and is blitted at exactly 840, 440, 40 and -360. The first tile
   * lies wholly right of the viewport [0, 800), and the list is not the
   * mirror image of the left layer's [-40, 360, 760].
   */
  lemma RightTilesPastEdge()
    ensures var cfg := LayerConfig(Image(400, 300), 0.1, 800.0, false);
      var s := LayerState(400, 300, 400.0, 10.0);
      var (s', outcome) := Advance(cfg, s, 11.0);
      Inv(cfg, s) && Inv(cfg, s')
      && outcome == Pass && s'.xoffset == 440.0
      && Tiled(cfg, s', [840.0, 440.0, 40.0, -360.0])
      && (forall ts :: Tiled(cfg, s', ts) ==> ts == [840.0, 440.0, 40.0, -360.0])
  {
    var cfg := LayerConfig(Image(400, 300), 0.1, 800.0, false);
    var s := LayerState(400, 300, 400.0, 10.0);
    AdvanceKeepsInvariant(cfg, s, 11.0);
    var s' := Advance(cfg, s, 11.0).0;
    assert Distance(400, 0.1) == 40.0;
    assert s'.xoffset == 440.0;
    var expected := [840.0, 440.0, 40.0, -360.0];
    assert RightTiling(expected, 440.0, 400.0, 800.0);
    forall ts | Tiled(cfg, s', ts)
      ensures ts == expected
    {
      RightTilingUnique(ts, expected, 440.0, 400.0, 800.0);
    }
  }

  /** At the top of the right band, offset w + M, five tiles are blitted, three of them outside [0, M). */
  lemma RightTilesAtBandTop()
    ensures var cfg := LayerConfig(Image(400, 300), 0.1, 800.0, false);
      var s := LayerState(400, 300, 1200.0, 0.0);
      Inv(cfg, s)
      && Tiled(cfg, s, [1600.0, 1200.0, 800.0, 400.0, 0.0])
      && (forall ts :: Tiled(cfg, s, ts) ==> ts == [1600.0, 1200.0, 800.0, 400.0, 0.0])
  {
    var expected := [1600.0, 1200.0, 800.0, 400.0, 0.0];
    assert RightTiling(expected, 1200.0, 400.0, 800.0);
    forall ts | RightTiling(ts, 1200.0, 400.0, 800.0)
      ensures ts == expected
    {
      RightTilingUnique(ts, expected, 1200.0, 400.0, 800.0);
    }
  }

  /**
   * A layer faster than one width per second is accepted by the parallax
   * displayable but rejected, as layer number 1, by the two transforms.
   */
  lemma SpeedCapDiffersBetweenCopies(image: Image, kwargs: map<string, Value>)
    requires "crop" !in kwargs && "width" !in kwargs && "height" !in kwargs
    requires DirectionOk(kwargs) && RenderDelayOk(kwargs)
    ensures var layers := [Tuple([Displayable(image), Float(1.5)])];
      var dimensions := Tuple([Int(800), Int(600)]);
      Parallax.Arguments(dimensions, layers, kwargs).Success?
      && ParallaxScroll.Arguments(dimensions, layers, kwargs) == Failure(SpeedAboveOne(1))
      && HParallax.Arguments(layers, kwargs, 800, 600) == Failure(SpeedAboveOne(1))
  {
    var layers := [Tuple([Displayable(image), Float(1.5)])];
    assert LayersOk(layers, NonNegative);
    assert !LayerOk(layers[0], UnitInterval);
  }
}
