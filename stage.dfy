/**
 * The container displayable (`_HParallaxContainer`, `_ParallaxScrollContainer`,
 * `ParallaxDisplayable`): the ordered layer list, the viewport it fills and
 * the delay after which it asks to be redrawn.
 *
 * A render advances every layer to the same animation time and collects the
 * positions at which each layer's texture is blitted, back to front.
 */
module Stage {
  import opened Host
  import opened Validation
  import opened LayerEngine

  /** What one render produces: each layer's blit positions, in layer order, and the redraw delay. */
  datatype Frame = Frame(tiles: seq<seq<real>>, redrawAfter: real)

  /** The image a validated layer source stands for: the displayable itself, or what the host resolves a name to. */
  function SourceImage(source: Value, lookup: string -> Image): (image: Image)
    requires source.Displayable? || source.Str?
  {
    if source.Displayable? then source.image else lookup(source.s)
  }

  /** The fixed part of the layer built from a validated `(displayable, speed)` pair. */
  function LayerConfigOf(v: Value, maxWidth: real, left: bool, lookup: string -> Image): (cfg: LayerConfig)
    requires LayerOk(v, NonNegative)
    ensures cfg.speed == v.items[1].Number() && cfg.speed >= 0.0
    ensures cfg.image == SourceImage(v.items[0], lookup)
    ensures cfg.maxWidth == maxWidth && cfg.left == left
  {
    LayerConfig(SourceImage(v.items[0], lookup), v.items[1].Number(), maxWidth, left)
  }

  class Container {
    const width: real
    const height: real
    const redrawDelay: real
    const left: bool
    const layers: seq<Layer>
    ghost const Repr: set<Layer>

    /** The layers are distinct objects, each in a consistent state, all sharing the viewport width and direction. */
    ghost predicate Valid()
      reads this, Repr
    {
      (forall i :: 0 <= i < |layers| ==> layers[i] in Repr)
      && (forall i, j :: 0 <= i < j < |layers| ==> layers[i] != layers[j])
      && (forall i :: 0 <= i < |layers| ==> layers[i].Valid())
      && (forall i :: 0 <= i < |layers| ==> layers[i].maxWidth == width && layers[i].left == left)
    }

    /** The container's `__init__` after validation: one fresh layer per `(displayable, speed)` pair, in order. */
    constructor (settings: Settings, lookup: string -> Image)
      requires LayersOk(settings.layers, NonNegative)
      requires settings.width.IsNumber() && settings.height.IsNumber()
      ensures Valid() && fresh(Repr)
      ensures width == settings.width.Number() && height == settings.height.Number()
      ensures left == settings.left && redrawDelay == settings.redrawDelay
      ensures |layers| == |settings.layers|
      ensures forall i :: 0 <= i < |layers| ==>
        layers[i].Config() == LayerConfigOf(settings.layers[i], width, left, lookup)
        && layers[i].State() == Initial
    {
      var maxWidth := settings.width.Number();
      var built: seq<Layer> := [];
      for i := 0 to |settings.layers|
        invariant |built| == i
        invariant forall j :: 0 <= j < i ==> fresh(built[j])
        invariant forall j, k :: 0 <= j < k < i ==> built[j] != built[k]
        invariant forall j :: 0 <= j < i ==>
          built[j].Config() == LayerConfigOf(settings.layers[j], maxWidth, settings.left, lookup)
          && built[j].State() == Initial && built[j].Valid()
      {
        var cfg := LayerConfigOf(settings.layers[i], maxWidth, settings.left, lookup);
        var layer := new Layer(cfg.image, cfg.speed, cfg.maxWidth, cfg.left);
        built := built + [layer];
      }
      width := maxWidth;
      height := settings.height.Number();
      left := settings.left;
      redrawDelay := settings.redrawDelay;
      layers := built;
      Repr := set l | l in built;
    }

    /**
     * `render(width, height, st, at)`: advance each layer to `at` and list its
     * tiles, in layer order; an error from a layer stops the render there.
     */
    method Render(at: real) returns (r: Result<Frame, LayerError>)
      requires Valid()
      modifies Repr
      ensures Valid()
      ensures r.Success? ==> r.value.redrawAfter == redrawDelay && |r.value.tiles| == |layers|
      ensures r.Success? ==> forall i :: 0 <= i < |layers| ==>
        (layers[i].State(), Pass) == Advance(layers[i].Config(), old(layers[i].State()), at)
        && Tiled(layers[i].Config(), layers[i].State(), r.value.tiles[i])
      ensures r.Failure? ==> exists k :: (0 <= k < |layers|
        && (layers[k].State(), Fail(r.error)) == Advance(layers[k].Config(), old(layers[k].State()), at)
        && (forall i :: 0 <= i < k ==>
             (layers[i].State(), Pass) == Advance(layers[i].Config(), old(layers[i].State()), at))
        && (forall i :: k < i < |layers| ==> layers[i].State() == old(layers[i].State())))
    {
      var tiles: seq<seq<real>> := [];
      for i := 0 to |layers|
        invariant Valid()
        invariant |tiles| == i
        invariant forall j :: 0 <= j < i ==>
          (layers[j].State(), Pass) == Advance(layers[j].Config(), old(layers[j].State()), at)
          && Tiled(layers[j].Config(), layers[j].State(), tiles[j])
        invariant forall j :: i <= j < |layers| ==> layers[j].State() == old(layers[j].State())
      {
        var layer := layers[i];
        var outcome := layer.Update(at);
        if outcome.Fail? {
          return Failure(outcome.error);
        }
        var ts := layer.Tiles();
        tiles := tiles + [ts];
      }
      return Success(Frame(tiles, redrawDelay));
    }
  }
}
