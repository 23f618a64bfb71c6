/**
 * The `HParallax` transform of h_parallax/parallax_ren.py: it coerces its
 * `width` and `height` options to ints, rejects `crop`, builds the container
 * (which validates layers with speeds in [0, 1], then `direction`, then
 * `render_delay`), and forwards the remaining options to the transform.
 */
module HParallax {
  import opened Host
  import opened Validation

  /** Python's `int(f)` on a float: the integer part, truncated toward zero. */
  function Truncate(f: real): (n: int)
    ensures 0.0 <= f ==> 0 <= n && n as real <= f < n as real + 1.0
    ensures f < 0.0 ==> n <= 0 && n as real - 1.0 < f <= n as real
  {
    if f >= 0.0 then f.Floor else -((-f).Floor)
  }

  /** A `width` or `height` option: an int as given, a float truncated, anything else rejected with `error`. */
  function Dimension(v: Value, error: ConfigError): (r: Result<int, ConfigError>)
    ensures r.Success? <==> v.IsNumber()
    ensures r.Failure? ==> r.error == error
    ensures v.Int? ==> r == Success(v.i)
    ensures v.Float? ==> r.Success? && r.value == Truncate(v.f)
  {
    if v.Int? then Success(v.i)
    else if v.Float? then Success(Truncate(v.f))
    else Failure(error)
  }

  /** The option `key`, or the screen size when it is absent. */
  function Option(kwargs: map<string, Value>, key: string, screen: int): (v: Value)
  {
    if key in kwargs then kwargs[key] else Int(screen)
  }

  /**
   * `HParallax.__init__` up to the container's creation: every check in the
   * order the source makes it, the first failure reported.
   */
  function Arguments(layers: seq<Value>, kwargs: map<string, Value>, screenWidth: int, screenHeight: int)
    : (r: Result<Settings, ConfigError>)
    ensures var width := Option(kwargs, "width", screenWidth); var height := Option(kwargs, "height", screenHeight);
      r.Success? <==>
        width.IsNumber() && height.IsNumber() && "crop" !in kwargs
        && LayersOk(layers, UnitInterval) && DirectionOk(kwargs) && RenderDelayOk(kwargs)
    ensures var width := Option(kwargs, "width", screenWidth); var height := Option(kwargs, "height", screenHeight);
      r.Success? ==>
        r.value.layers == layers
        && r.value.width == Int(Dimension(width, WidthNotInt).value)
        && r.value.height == Int(Dimension(height, HeightNotInt).value)
        && r.value.left == ("direction" !in kwargs || kwargs["direction"] == Str("left"))
        && r.value.redrawDelay == RequireRenderDelay(kwargs).value
    ensures !Option(kwargs, "width", screenWidth).IsNumber() ==> r == Failure(WidthNotInt)
    ensures Option(kwargs, "width", screenWidth).IsNumber() && !Option(kwargs, "height", screenHeight).IsNumber()
      ==> r == Failure(HeightNotInt)
    ensures Option(kwargs, "width", screenWidth).IsNumber() && Option(kwargs, "height", screenHeight).IsNumber() ==>
      ("crop" in kwargs ==> r == Failure(CropNotPermitted))
      && ("crop" !in kwargs && !LayersOk(layers, UnitInterval) ==> r == Failure(LayersVerdict(layers, UnitInterval).error))
      && ("crop" !in kwargs && LayersOk(layers, UnitInterval) && !DirectionOk(kwargs) ==> r == Failure(DirectionInvalid))
      && ("crop" !in kwargs && LayersOk(layers, UnitInterval) && DirectionOk(kwargs) && !RenderDelayOk(kwargs)
          ==> r == Failure(RenderDelayNotNumber))
  {
    var width := Dimension(Option(kwargs, "width", screenWidth), WidthNotInt);
    if width.Failure? then Failure(width.error)
    else
      var height := Dimension(Option(kwargs, "height", screenHeight), HeightNotInt);
      if height.Failure? then Failure(height.error)
      else if "crop" in kwargs then Failure(CropNotPermitted)
      else
        var verdict := LayersVerdict(layers, UnitInterval);
        if verdict.Fail? then Failure(verdict.error)
        else
          var left := RequireIsLeft(kwargs);
          if left.Failure? then Failure(left.error)
          else
            var delay := RequireRenderDelay(kwargs);
            if delay.Failure? then Failure(delay.error)
            else Success(Settings(layers, left.value, delay.value, Int(width.value), Int(height.value)))
  }

  /** The options the container consumes and the transform does not receive. */
  const Consumed: set<string> := {"direction", "render_delay", "width", "height"}

  /** The options forwarded to the transform: all but `direction`, `render_delay`, `width` and `height`. */
  function ForwardedOptions(kwargs: map<string, Value>): (r: map<string, Value>)
    ensures forall k :: k in r <==> k in kwargs && k != "direction" && k != "render_delay" && k != "width" && k != "height"
    ensures forall k :: k in r ==> r[k] == kwargs[k]
  {
    kwargs - Consumed
  }
}
