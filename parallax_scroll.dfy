/**
 * The `ParallaxScroll` transform of parallax_scroll/parallax_ren.py: it checks
 * its `dimensions` pair and rejects `crop`, builds the container (which
 * validates layers with speeds in [0, 1], then `render_delay`, then
 * `direction`), and forwards the remaining options to the transform.
 */
module ParallaxScroll {
  import opened Host
  import opened Validation

  /** A `dimensions` argument the transform accepts: a pair of ints or floats. */
  predicate DimensionsOk(dimensions: Value) {
    dimensions.Tuple? && |dimensions.items| == 2
    && dimensions.items[0].IsNumber() && dimensions.items[1].IsNumber()
  }

  /** The dimension checks, in order: a 2-tuple, then its first value numeric, then its second. */
  function CheckDimensions(dimensions: Value): (r: Outcome<ConfigError>)
    ensures r.Pass? <==> DimensionsOk(dimensions)
    ensures !(dimensions.Tuple? && |dimensions.items| == 2) ==> r == Fail(DimensionsNotPair)
    ensures r.Fail? && dimensions.Tuple? && |dimensions.items| == 2 ==>
      r.error.DimensionNotNumber? && 1 <= r.error.position <= 2
      && !dimensions.items[r.error.position - 1].IsNumber()
      && (r.error.position == 2 ==> dimensions.items[0].IsNumber())
  {
    if !(dimensions.Tuple? && |dimensions.items| == 2) then Fail(DimensionsNotPair)
    else if !dimensions.items[0].IsNumber() then Fail(DimensionNotNumber(1))
    else if !dimensions.items[1].IsNumber() then Fail(DimensionNotNumber(2))
    else Pass
  }

  /**
   * `ParallaxScroll.__init__` with `_ParallaxScrollContainer.__init__`: every
   * check in the order the source makes it, the first failure reported.
   */
  function Arguments(dimensions: Value, layers: seq<Value>, kwargs: map<string, Value>)
    : (r: Result<Settings, ConfigError>)
    ensures r.Success? <==>
      DimensionsOk(dimensions) && "crop" !in kwargs && LayersOk(layers, UnitInterval)
      && RenderDelayOk(kwargs) && DirectionOk(kwargs)
    ensures r.Success? ==>
      r.value.layers == layers
      && r.value.width == dimensions.items[0] && r.value.height == dimensions.items[1]
      && r.value.left == ("direction" !in kwargs || kwargs["direction"] == Str("left"))
      && r.value.redrawDelay == RequireRenderDelay(kwargs).value
    ensures !DimensionsOk(dimensions) ==> r == Failure(CheckDimensions(dimensions).error)
    ensures DimensionsOk(dimensions) ==>
      ("crop" in kwargs ==> r == Failure(CropNotPermitted))
      && ("crop" !in kwargs && !LayersOk(layers, UnitInterval) ==> r == Failure(LayersVerdict(layers, UnitInterval).error))
      && ("crop" !in kwargs && LayersOk(layers, UnitInterval) && !RenderDelayOk(kwargs) ==> r == Failure(RenderDelayNotNumber))
      && ("crop" !in kwargs && LayersOk(layers, UnitInterval) && RenderDelayOk(kwargs) && !DirectionOk(kwargs)
          ==> r == Failure(DirectionInvalid))
  {
    var shape := CheckDimensions(dimensions);
    if shape.Fail? then Failure(shape.error)
    else if "crop" in kwargs then Failure(CropNotPermitted)
    else
      var verdict := LayersVerdict(layers, UnitInterval);
      if verdict.Fail? then Failure(verdict.error)
      else
        var delay := RequireRenderDelay(kwargs);
        if delay.Failure? then Failure(delay.error)
        else
          var left := RequireIsLeft(kwargs);
          if left.Failure? then Failure(left.error)
          else Success(Settings(layers, left.value, delay.value, dimensions.items[0], dimensions.items[1]))
  }

  /** The options the container consumes and the transform does not receive. */
  const Consumed: set<string> := {"direction", "render_delay"}

  /** The options forwarded to the transform: all but `direction` and `render_delay`. */
  function ForwardedOptions(kwargs: map<string, Value>): (r: map<string, Value>)
    ensures forall k :: k in r <==> k in kwargs && k != "direction" && k != "render_delay"
    ensures forall k :: k in r ==> r[k] == kwargs[k]
  {
    kwargs - Consumed
  }
}
