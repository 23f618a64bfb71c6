/**
 * The `ParallaxDisplayable` of parallax/parallax_ren.py: it checks that
 * `dimensions` is a pair (without checking its values), validates layers with
 * any non-negative speed, checks `render_delay` without keeping it, and reads
 * `direction`. It always asks to be redrawn after 0.01 seconds.
 */
module Parallax {
  import opened Host
  import opened Validation

  /** The redraw delay this displayable always uses, whatever `render_delay` says. */
  const FixedRedrawDelay: real := 0.01

  /**
   * `ParallaxDisplayable.__init__`: every check in the order the source makes
   * it, the first failure reported.
   */
  function Arguments(dimensions: Value, layers: seq<Value>, kwargs: map<string, Value>)
    : (r: Result<Settings, ConfigError>)
    ensures r.Success? <==>
      dimensions.Tuple? && |dimensions.items| == 2
      && LayersOk(layers, NonNegative) && RenderDelayOk(kwargs) && DirectionOk(kwargs)
    ensures r.Success? ==>
      r.value.layers == layers
      && r.value.width == dimensions.items[0] && r.value.height == dimensions.items[1]
      && r.value.left == ("direction" !in kwargs || kwargs["direction"] == Str("left"))
      && r.value.redrawDelay == FixedRedrawDelay
    ensures !(dimensions.Tuple? && |dimensions.items| == 2) ==> r == Failure(DimensionsNotPair)
    ensures dimensions.Tuple? && |dimensions.items| == 2 ==>
      (!LayersOk(layers, NonNegative) ==> r == Failure(LayersVerdict(layers, NonNegative).error))
      && (LayersOk(layers, NonNegative) && !RenderDelayOk(kwargs) ==> r == Failure(RenderDelayNotNumber))
      && (LayersOk(layers, NonNegative) && RenderDelayOk(kwargs) && !DirectionOk(kwargs) ==> r == Failure(DirectionInvalid))
  {
    if !(dimensions.Tuple? && |dimensions.items| == 2) then Failure(DimensionsNotPair)
    else
      var verdict := LayersVerdict(layers, NonNegative);
      if verdict.Fail? then Failure(verdict.error)
      else if RequireRenderDelay(kwargs).Failure? then Failure(RenderDelayNotNumber)
      else
        var left := RequireIsLeft(kwargs);
        if left.Failure? then Failure(left.error)
        else Success(Settings(layers, left.value, FixedRedrawDelay, dimensions.items[0], dimensions.items[1]))
  }
}
