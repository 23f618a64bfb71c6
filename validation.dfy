/**
 * Argument validation shared by the three parallax constructors: the layer
 * tuples, the `direction` option and the `render_delay` option.
 *
 * Each check raises on the first argument it rejects; here it returns the
 * error instead. Layer errors carry the 1-based number of the offending layer,
 * as the messages do.
 */
module Validation {
  import opened Host

  datatype ConfigError =
    | WidthNotInt
    | HeightNotInt
    | DimensionsNotPair
    | DimensionNotNumber(position: nat)
    | CropNotPermitted
    | NoLayers
    | LayerNotPair(number: nat)
    | LayerSourceInvalid(number: nat)
    | SpeedNotNumber(number: nat)
    | SpeedBelowZero(number: nat)
    | SpeedAboveOne(number: nat)
    | DirectionInvalid
    | RenderDelayNotNumber
  {
    /** An error about one layer, naming it by number. */
    predicate IsLayerFault() {
      LayerNotPair? || LayerSourceInvalid? || SpeedNotNumber? || SpeedBelowZero? || SpeedAboveOne?
    }
  }

  /** Which speeds a constructor accepts: [0, 1], or any non-negative number. */
  datatype SpeedPolicy = UnitInterval | NonNegative

  /** The arguments a constructor accepted, ready to build the container from. */
  datatype Settings = Settings(layers: seq<Value>, left: bool, redrawDelay: real, width: Value, height: Value)

  /** An acceptable layer: a pair of a displayable (or image name) and a speed the policy allows. */
  predicate LayerOk(v: Value, policy: SpeedPolicy) {
    v.Tuple? && |v.items| == 2
    && (v.items[0].Displayable? || v.items[0].Str?)
    && v.items[1].IsNumber()
    && v.items[1].Number() >= 0.0
    && (policy == UnitInterval ==> v.items[1].Number() <= 1.0)
  }

  /** A layer list the constructor accepts: non-empty, every layer acceptable. */
  predicate LayersOk(layers: seq<Value>, policy: SpeedPolicy) {
    |layers| >= 1 && forall i :: 0 <= i < |layers| ==> LayerOk(layers[i], policy)
  }

  /** A speed within [0, 1] is also non-negative: the stricter policy accepts fewer lists. */
  lemma UnitIntervalIsStricter(layers: seq<Value>)
    requires LayersOk(layers, UnitInterval)
    ensures LayersOk(layers, NonNegative)
  {
  }

  /** `_validate_layer(i, layer)`: the checks on the layer at index `i`, in their order. */
  function CheckLayer(i: nat, v: Value, policy: SpeedPolicy): (r: Outcome<ConfigError>)
    ensures r.Pass? <==> LayerOk(v, policy)
    ensures r.Fail? ==> r.error.IsLayerFault() && r.error.number == i + 1
    ensures !(v.Tuple? && |v.items| == 2) ==> r == Fail(LayerNotPair(i + 1))
    ensures v.Tuple? && |v.items| == 2 && !(v.items[0].Displayable? || v.items[0].Str?)
      ==> r == Fail(LayerSourceInvalid(i + 1))
    ensures v.Tuple? && |v.items| == 2 && (v.items[0].Displayable? || v.items[0].Str?) ==>
      (!v.items[1].IsNumber() ==> r == Fail(SpeedNotNumber(i + 1)))
      && (v.items[1].IsNumber() && v.items[1].Number() < 0.0 ==> r == Fail(SpeedBelowZero(i + 1)))
    ensures r == Fail(SpeedAboveOne(i + 1)) <==>
      policy == UnitInterval && LayerOk(v, NonNegative) && v.items[1].Number() > 1.0
  {
    if !(v.Tuple? && |v.items| == 2) then Fail(LayerNotPair(i + 1))
    else if !(v.items[0].Displayable? || v.items[0].Str?) then Fail(LayerSourceInvalid(i + 1))
    else if !v.items[1].IsNumber() then Fail(SpeedNotNumber(i + 1))
    else if v.items[1].Number() < 0.0 then Fail(SpeedBelowZero(i + 1))
    else if policy == UnitInterval && v.items[1].Number() > 1.0 then Fail(SpeedAboveOne(i + 1))
    else Pass
  }

  /** The outcome of checking the layers from index `from` on: the first failure, if any. */
  function FirstLayerError(layers: seq<Value>, from: nat, policy: SpeedPolicy): (r: Outcome<ConfigError>)
    requires from <= |layers|
    ensures r.Pass? <==> forall i :: from <= i < |layers| ==> LayerOk(layers[i], policy)
    ensures r.Fail? ==> r.error.IsLayerFault()
    ensures r.Fail? ==>
      var k := r.error.number - 1;
      from <= k < |layers|
      && r == CheckLayer(k, layers[k], policy)
      && forall i :: from <= i < k ==> LayerOk(layers[i], policy)
    decreases |layers| - from
  {
    if from == |layers| then Pass
    else
      var here := CheckLayer(from, layers[from], policy);
      if here.Fail? then here else FirstLayerError(layers, from + 1, policy)
  }

  /**
   * The outcome of validating a layer list: no layers at all, or the first
   * layer that fails its checks, named by its 1-based number.
   */
  function LayersVerdict(layers: seq<Value>, policy: SpeedPolicy): (r: Outcome<ConfigError>)
    ensures r.Pass? <==> LayersOk(layers, policy)
    ensures |layers| == 0 ==> r == Fail(NoLayers)
    ensures r.Fail? && |layers| > 0 ==> r.error.IsLayerFault()
    ensures r.Fail? && |layers| > 0 ==>
      var k := r.error.number - 1;
      0 <= k < |layers|
      && r == CheckLayer(k, layers[k], policy)
      && !LayerOk(layers[k], policy)
      && forall i :: 0 <= i < k ==> LayerOk(layers[i], policy)
  {
    if |layers| < 1 then Fail(NoLayers) else FirstLayerError(layers, 0, policy)
  }

  /** `_validate_layers` and the constructors' layer loops: reject an empty list, then check each layer in order. */
  method ValidateLayers(layers: seq<Value>, policy: SpeedPolicy) returns (r: Outcome<ConfigError>)
    ensures r == LayersVerdict(layers, policy)
  {
    if |layers| < 1 {
      return Fail(NoLayers);
    }
    for i := 0 to |layers|
      invariant forall j :: 0 <= j < i ==> LayerOk(layers[j], policy)
      invariant FirstLayerError(layers, i, policy) == FirstLayerError(layers, 0, policy)
    {
      var here := CheckLayer(i, layers[i], policy);
      if here.Fail? {
        return here;
      }
    }
    return Pass;
  }

  /** A `direction` the constructors accept: absent, "left" or "right". */
  predicate DirectionOk(kwargs: map<string, Value>) {
    "direction" in kwargs ==> kwargs["direction"] == Str("left") || kwargs["direction"] == Str("right")
  }

  /** `_require_is_left`: whether the layers scroll left; absent means left. */
  function RequireIsLeft(kwargs: map<string, Value>): (r: Result<bool, ConfigError>)
    ensures r.Success? <==> DirectionOk(kwargs)
    ensures r.Failure? ==> r.error == DirectionInvalid
    ensures r.Success? ==> (r.value <==> "direction" !in kwargs || kwargs["direction"] == Str("left"))
  {
    if "direction" in kwargs then
      if kwargs["direction"] != Str("left") && kwargs["direction"] != Str("right") then
        Failure(DirectionInvalid)
      else
        Success(kwargs["direction"] == Str("left"))
    else
      Success(true)
  }

  /** The redraw delay used when none is given. */
  const DefaultRenderDelay: real := 0.01

  /** A `render_delay` the constructors accept: absent, or an int or float. */
  predicate RenderDelayOk(kwargs: map<string, Value>) {
    "render_delay" in kwargs ==> kwargs["render_delay"].IsNumber()
  }

  /** `_require_render_delay`: the numeric delay between redraws; absent means 0.01. */
  function RequireRenderDelay(kwargs: map<string, Value>): (r: Result<real, ConfigError>)
    ensures r.Success? <==> RenderDelayOk(kwargs)
    ensures r.Failure? ==> r.error == RenderDelayNotNumber
    ensures "render_delay" !in kwargs ==> r == Success(DefaultRenderDelay)
    ensures "render_delay" in kwargs && r.Success? ==> r.value == kwargs["render_delay"].Number()
  {
    if "render_delay" in kwargs then
      if !kwargs["render_delay"].IsNumber() then Failure(RenderDelayNotNumber)
      else Success(kwargs["render_delay"].Number())
    else
      Success(DefaultRenderDelay)
  }
}
