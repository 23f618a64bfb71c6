# Horizontal parallax layers, modelled in Dafny

This project models the engine behind the library's three parallax displayables:
`HParallax` (game/lib/fxcpds/h_parallax), `ParallaxScroll`
(game/lib/fxcpds/parallax_scroll) and `ParallaxDisplayable`
(game/lib/fxcpds/parallax). Each is a stack of layers. A layer is a texture that
scrolls horizontally at its own speed, given as a fraction of its width per second
of animation time.

The three files hold near-identical copies of the same engine. The shared part is
modelled once:

- `wrap.dfy` (module `Wrap`): the wrap-around of a layer's offset, stated as the
  unique number of whole texture widths the wrap loop adds or removes.
- `tiling.dfy` (module `Tiling`): the x positions at which a layer is blitted, and
  the proof that they cover the viewport `[0, max_width)` without gaps.
- `layer.dfy` (module `LayerEngine`): the layer.
  - `Clamp`, `Resolve` (`_lazy_dimensions`) and `Advance` (`update`) are functions
    on a `LayerState` value.
  - The class `Layer` holds the same state in fields. It runs the source's while
    loops (`UpdateLeft`, `UpdateRight`, `TilesLeft`, `TilesRight`), and each loop
    is proved against those functions.
- `validation.dfy` (module `Validation`): the layer, `direction` and
  `render_delay` checks.
  - A layer error names the layer by its 1-based number.
  - The speed cap is a parameter (`SpeedPolicy`).
- `stage.dfy` (module `Stage`): the container class. Its `Render(at)` advances
  every layer to the same time and collects their tile lists, back to front.

What differs between the copies is kept per file:

- `hparallax.dfy`: width/height coercion, the `crop` check, speeds in `[0, 1]`, and
  `direction` checked before `render_delay`.
- `parallax_scroll.dfy`: the `dimensions` checks, the `crop` check, speeds in
  `[0, 1]`, and `render_delay` checked before `direction`.
- `parallax.dfy`: no upper speed bound, and a redraw delay that is always 0.01.

`scenarios.dfy` works through one second of scrolling in each direction, and the
rule on which the copies disagree.

Each constructor's argument checks are modelled as a function that returns the first
error instead of raising it. A rendered frame is the list of blit positions per
layer plus the redraw delay. A displayable is seen only through the size its render
reports (`Host.Image`). An image name is resolved by a `lookup` function, which is a
parameter.

Notes on what the code does:

- Scrolling left, the offset stays in `-width <= offset <= 0`. The upper bound 0 is
  included: it is the initial offset, and a speed-0 layer stays there.
- Scrolling right, the offset stays in `0 <= offset <= width + max_width`. The
  docstring of `_xoffset` (game/lib/fxcpds/h_parallax/parallax_ren.py:292-295)
  gives `width` as the maximum, but the wrap loop only removes a width once the
  offset is above `width + max_width`: for a 400-pixel layer in an 800-pixel
  viewport an offset of 440 is left unwrapped (`Wrap.WrapRight`,
  `Wrap.RightBandKept`).
- Because of that wider band, a right-scrolling layer can blit tiles wholly right
  of the viewport. A 400-pixel layer at speed 0.1 in an 800-pixel viewport, at
  offset 400 and updated one second later, sits at 440 and is blitted at 840, 440, 40 and -360; at offset 1200 it is blitted at
  five positions, three of them outside `[0, 800)` (`Scenarios.RightTilesPastEdge`,
  `Scenarios.RightTilesAtBandTop`). So the right list is not always the mirror
  image of the left list; it is after one second from the initial state
  (`[-40, 360, 760]` and `[440, 40, -360]`), but not at offset 440. The bound of
  `ceil(max_width / width) + 1` tiles is proved for a right-scrolling layer while
  its offset is at most `width` (`Tiling.RightTilingBound`); above that it can
  fail, as at offsets 440 and 1200. A left-scrolling layer always meets it
  (`Tiling.LeftTilingBound`).
- For an 800-pixel viewport and a 400-pixel layer at speed 0.1, scrolling left,
  the code blits at 0 and 400 at time 0, and at -40, 360 and 760 after one second.
  The loop stops at the first position at or past `max_width` and does not blit
  it. `Scenarios.LeftScrollAfterOneSecond` proves that list is the only one.
- A zero-width image is re-resolved and reported on every update. An image of
  non-zero width and zero height is reported once: the width is stored before the
  check, so later updates treat the layer as resolved
  (`LayerEngine.ZeroHeightReportedOnce`).

The layer members (`update`, `_update_left`, `_update_right`, `_render_left`,
`_render_right`, `_lazy_dimensions` and `_clamp`) do the same in all three copies
(only the exception messages differ); their rows below cite one copy. The argument
checks differ between the copies and are modelled per file, each row citing its
own file:

- `_validate_layers`, `_validate_layer`, `_require_is_left` and
  `_require_render_delay` exist only in the h_parallax copy. The other two copies
  inline the same checks in their constructors (`Validation` models them once).
- The parallax copy has no upper speed bound (`SpeedPolicy`), and its container
  always redraws after 0.01 seconds (`Parallax.FixedRedrawDelay`).
- The parallax_scroll copy checks `render_delay` before `direction`.
- Only the h_parallax layer's `width` and `height` properties resolve the size
  first (`LayerEngine.Layer.ResolvedWidth`, `LayerEngine.Layer.ResolvedHeight`).

## Model

| member | source | states |
|---|---|---|
| `Wrap.LeftLandingExists` | game/lib/fxcpds/h_parallax/parallax_ren.py:433-434 | for any offset, some number of added widths brings it to `-width` or above, with the step before still below; so the left wrap loop terminates |
| `Wrap.RightLandingExists` | game/lib/fxcpds/h_parallax/parallax_ren.py:448-451 | for any offset, some number of removed widths brings it to `width + max_width` or below, with the step before still above; so the right wrap loop terminates |
| `Wrap.LandsLeftUnique` | game/lib/fxcpds/h_parallax/parallax_ren.py:433-434 | the number of widths the left loop adds is determined by where it starts |
| `Wrap.LandsRightUnique` | game/lib/fxcpds/h_parallax/parallax_ren.py:448-451 | the number of widths the right loop removes is determined by where it starts |
| `Wrap.LeftWraps` | game/lib/fxcpds/h_parallax/parallax_ren.py:433-434 | the count of widths the left loop adds is a landing count |
| `Wrap.RightWraps` | game/lib/fxcpds/h_parallax/parallax_ren.py:448-451 | the count of widths the right loop removes is a landing count |
| `Wrap.WrapLeft` | game/lib/fxcpds/h_parallax/parallax_ren.py:433-434 | the wrapped offset is at least `-width`; it is negative when any width was added; it is unchanged when already at or above `-width` |
| `Wrap.WrapRight` | game/lib/fxcpds/h_parallax/parallax_ren.py:448-451 | the wrapped offset is at most `width + max_width`; it lies above `max_width` when any width was removed; it is unchanged when already within |
| `Wrap.WrapLeftBy` | game/lib/fxcpds/parallax/parallax_ren.py:198-199 | wherever the left loop stops, the result is the left wrap |
| `Wrap.WrapRightBy` | game/lib/fxcpds/parallax/parallax_ren.py:206-207 | wherever the right loop stops, the result is the right wrap |
| `Wrap.LeftBandKept` | game/lib/fxcpds/h_parallax/parallax_ren.py:421-434 | moving left by at most one width from `[-width, 0]` and wrapping stays in `[-width, 0]`, adding at most one width |
| `Wrap.RightBandKept` | game/lib/fxcpds/h_parallax/parallax_ren.py:436-451 | with `max_width >= 0`, moving right by at most one width from `[0, width + max_width]` and wrapping stays there, removing at most one width |
| `Wrap.LeftFullTurn` | game/lib/fxcpds/h_parallax/parallax_ren.py:431-434 | a full width of leftward travel from `[-width, 0)` returns to the same offset |
| `Wrap.RightFullTurn` | game/lib/fxcpds/h_parallax/parallax_ren.py:446-451 | a full width of rightward travel from `(max_width, width + max_width]` returns to the same offset |
| `Tiling.AscendingCover` | game/lib/fxcpds/h_parallax/parallax_ren.py:465-469 | in a list stepping right by `width`, every point between the first tile and the last tile's right edge lies in some tile |
| `Tiling.DescendingCover` | game/lib/fxcpds/h_parallax/parallax_ren.py:485-487 | in a list stepping left by `width`, every point between the last tile and the first tile's right edge lies in some tile |
| `Tiling.LeftTilesCover` | game/lib/fxcpds/h_parallax/parallax_ren.py:453-469 | with the offset at or left of 0, the left tiles cover every point of `[0, max_width)` |
| `Tiling.RightTilesCover` | game/lib/fxcpds/h_parallax/parallax_ren.py:471-487 | with the offset at or right of 0, the right tiles cover every point of `[0, max_width)` |
| `Tiling.PrefixAgree` | game/lib/fxcpds/h_parallax/parallax_ren.py:465-469 | two lists with the same start and step agree wherever both are defined |
| `Tiling.LeftTilingLength` | game/lib/fxcpds/h_parallax/parallax_ren.py:467 | the loop's stopping test fixes the length of the left tile list |
| `Tiling.RightTilingLength` | game/lib/fxcpds/h_parallax/parallax_ren.py:485 | the loop's stopping test fixes the length of the right tile list |
| `Tiling.LeftTilingBound` | game/lib/fxcpds/h_parallax/parallax_ren.py:465-469 | from an offset in `[-width, 0]`, all left tiles but the last two fit side by side in the viewport, so there are at most `ceil(max_width / width) + 1` |
| `Tiling.RightTilingBound` | game/lib/fxcpds/h_parallax/parallax_ren.py:481-487 | from an offset in `[0, width]`, the right list meets the same bound |
| `Tiling.LeftTilingUnique` | game/lib/fxcpds/h_parallax/parallax_ren.py:453-469 | the left tile list is determined by offset, width and viewport width |
| `Tiling.RightTilingUnique` | game/lib/fxcpds/h_parallax/parallax_ren.py:471-487 | the right tile list is determined by offset, width and viewport width |
| `LayerEngine.Clamp` | game/lib/fxcpds/h_parallax/parallax_ren.py:504-511 | the result lies in `[0, 1]`; it equals the argument inside `[0, 1]`, 0 below and 1 above |
| `LayerEngine.ClampIsNearest` | game/lib/fxcpds/h_parallax/parallax_ren.py:504-511 | the clamped value is the point of `[0, 1]` nearest to the argument |
| `LayerEngine.Percent` | game/lib/fxcpds/h_parallax/parallax_ren.py:371-373 | the fraction moved per update lies in `[0, 1]`; with a non-negative speed it is 0 when no time has passed or the speed is 0 |
| `LayerEngine.Distance` | game/lib/fxcpds/h_parallax/parallax_ren.py:431 | `width * percent` lies between 0 and one width, and is 0 for percent 0 |
| `LayerEngine.Resolve` | game/lib/fxcpds/h_parallax/parallax_ren.py:489-502 | a positive width is never re-resolved; otherwise width and height are taken from the image; it fails exactly when unresolved and a size is 0; on success the width is positive |
| `LayerEngine.Scroll` | game/lib/fxcpds/h_parallax/parallax_ren.py:377-380 | scrolling changes only the offset |
| `LayerEngine.Advance` | game/lib/fxcpds/h_parallax/parallax_ren.py:360-380 | an update always stores `at` as the last time; it succeeds exactly when the width is already positive or the image has no zero side, and then the width is positive |
| `LayerEngine.InitialInBothBands` | game/lib/fxcpds/parallax_scroll/parallax_ren.py:220-226 | a new layer satisfies the invariant; its offset 0 lies in the left band and in the right band of any resolved width |
| `LayerEngine.ScrollKeepsInvariant` | game/lib/fxcpds/parallax_scroll/parallax_ren.py:261-273 | scrolling a resolved layer by at most one width keeps the offset in its band |
| `LayerEngine.AdvanceKeepsInvariant` | game/lib/fxcpds/h_parallax/parallax_ren.py:360-380 | every update, failed or not, keeps the layer invariant |
| `LayerEngine.ScrollDisplacement` | game/lib/fxcpds/h_parallax/parallax_ren.py:421-451 | scrolling moves the offset by the distance and then by a whole number of widths, at most one inside the band |
| `LayerEngine.AdvanceMovesAtMostOneWidth` | game/lib/fxcpds/parallax/parallax_ren.py:174-184 | whatever the speed and elapsed time, an update moves the offset by `width * percent`, where percent is the clamped fraction `_clamp((at - last_time) * speed)` and so lies in `[0, 1]`, plus or minus whole widths; at most one width inside the band |
| `LayerEngine.AdvanceWithoutMotion` | game/lib/fxcpds/h_parallax/parallax_ren.py:371-380 | with a non-negative speed, no elapsed time or speed 0 leaves the offset unchanged |
| `LayerEngine.AdvanceIdempotent` | game/lib/fxcpds/h_parallax/parallax_ren.py:360-380 | a second update at the same time changes nothing and succeeds |
| `LayerEngine.ZeroHeightReportedOnce` | game/lib/fxcpds/h_parallax/parallax_ren.py:494-502 | an image of width 100 and height 0 fails the first update, leaves the size stored, and passes the next |
| `LayerEngine.TilesCoverViewport` | game/lib/fxcpds/parallax_scroll/parallax_ren.py:275-291 | under the invariant, a resolved layer's tiles leave no gap in `[0, max_width)` |
| `LayerEngine.Layer.constructor` | game/lib/fxcpds/h_parallax/parallax_ren.py:315-335 | a new layer has width and height -1, offset 0 and last time 0, with the given image, speed, viewport width and direction |
| `LayerEngine.Layer.LazyDimensions` | game/lib/fxcpds/h_parallax/parallax_ren.py:489-502 | the new state and outcome are those of `Resolve` |
| `LayerEngine.Layer.UpdateLeft` | game/lib/fxcpds/h_parallax/parallax_ren.py:421-434 | the loop leaves the offset at the left wrap of `offset - width * percent` |
| `LayerEngine.Layer.UpdateRight` | game/lib/fxcpds/h_parallax/parallax_ren.py:436-451 | the loop leaves the offset at the right wrap of `offset + width * percent` |
| `LayerEngine.Layer.Update` | game/lib/fxcpds/h_parallax/parallax_ren.py:360-380 | the new state and outcome are those of `Advance`, and the invariant is kept |
| `LayerEngine.Layer.TilesLeft` | game/lib/fxcpds/h_parallax/parallax_ren.py:453-469 | the blit positions form the left tiling from the current offset |
| `LayerEngine.Layer.TilesRight` | game/lib/fxcpds/h_parallax/parallax_ren.py:471-487 | the blit positions form the right tiling from the current offset |
| `LayerEngine.Layer.Tiles` | game/lib/fxcpds/h_parallax/parallax_ren.py:382-418 | the blit positions are the tiling for the layer's direction |
| `LayerEngine.Layer.ResolvedWidth` | game/lib/fxcpds/h_parallax/parallax_ren.py:337-343 | the property resolves the size first and returns the positive stored width; a valid layer stays valid |
| `LayerEngine.Layer.ResolvedHeight` | game/lib/fxcpds/h_parallax/parallax_ren.py:345-351 | the property resolves the size first and returns the stored height; a valid layer stays valid |
| `Validation.UnitIntervalIsStricter` | game/lib/fxcpds/parallax/parallax_ren.py:85-90 | every layer list accepted with the `[0, 1]` cap is accepted without it |
| `Validation.CheckLayer` | game/lib/fxcpds/h_parallax/parallax_ren.py:219-255 | a layer passes exactly when it is a pair of a displayable or name and a speed the policy allows; otherwise the first failing check names its own error for layer `i + 1`: not a pair, then a bad source, then a non-numeric speed, then a negative speed, then (under the cap only) a speed above 1 |
| `Validation.FirstLayerError` | game/lib/fxcpds/h_parallax/parallax_ren.py:216-217 | checking from an index passes exactly when every later layer is acceptable; otherwise it reports the first failing layer, all before it acceptable |
| `Validation.LayersVerdict` | game/lib/fxcpds/h_parallax/parallax_ren.py:207-217 | a list passes exactly when it is non-empty and every layer is acceptable; an empty list is `NoLayers`; otherwise the error is the first bad layer's |
| `Validation.ValidateLayers` | game/lib/fxcpds/parallax_scroll/parallax_ren.py:107-151 | the loop's outcome is the layer verdict |
| `Validation.RequireIsLeft` | game/lib/fxcpds/h_parallax/parallax_ren.py:257-266 | passes exactly when `direction` is absent, "left" or "right"; the layers scroll left exactly when it is absent or "left" |
| `Validation.RequireRenderDelay` | game/lib/fxcpds/h_parallax/parallax_ren.py:268-276 | passes exactly when `render_delay` is absent or numeric; the delay is 0.01 when absent, the given number otherwise |
| `Stage.LayerConfigOf` | game/lib/fxcpds/h_parallax/parallax_ren.py:188-191 | a layer takes its pair's image and speed, and the container's width and direction |
| `Stage.Container.constructor` | game/lib/fxcpds/h_parallax/parallax_ren.py:179-191 | one fresh, distinct layer per pair, in order, all in their initial state, sharing the viewport width and direction |
| `Stage.Container.Render` | game/lib/fxcpds/parallax_scroll/parallax_ren.py:181-190 | each layer, in order, is advanced once to the same time, and its tiles are listed; the redraw delay is the container's; an error stops the render at the failing layer and leaves later layers untouched |
| `HParallax.Truncate` | game/lib/fxcpds/h_parallax/parallax_ren.py:78-79 | `int()` of a float drops the fractional part toward zero |
| `HParallax.Dimension` | game/lib/fxcpds/h_parallax/parallax_ren.py:77-87 | a width or height is accepted exactly when it is an int or a float; an int is kept and a float truncated |
| `HParallax.Arguments` | game/lib/fxcpds/h_parallax/parallax_ren.py:74-92 | accepted exactly when width and height are numeric, `crop` is absent, the layers pass with the `[0, 1]` cap, and the direction and delay are valid; errors in that order |
| `HParallax.ForwardedOptions` | game/lib/fxcpds/h_parallax/parallax_ren.py:94-103 | the transform receives every option except `direction`, `render_delay`, `width` and `height`, unchanged |
| `ParallaxScroll.CheckDimensions` | game/lib/fxcpds/parallax_scroll/parallax_ren.py:68-82 | the dimensions pass exactly when they are a pair of numbers; otherwise the first bad check is reported, naming the value's position |
| `ParallaxScroll.Arguments` | game/lib/fxcpds/parallax_scroll/parallax_ren.py:68-179 | accepted exactly when the dimensions pass, `crop` is absent, the layers pass with the `[0, 1]` cap, and the delay and direction are valid; errors in that order |
| `ParallaxScroll.ForwardedOptions` | game/lib/fxcpds/parallax_scroll/parallax_ren.py:89-95 | the transform receives every option except `direction` and `render_delay`, unchanged |
| `Parallax.Arguments` | game/lib/fxcpds/parallax/parallax_ren.py:47-113 | accepted exactly when the dimensions are a pair, the layers pass with any non-negative speed, and the delay and direction are valid; the redraw delay is always 0.01 |
| `Scenarios.LeftScrollAfterOneSecond` | game/lib/fxcpds/h_parallax/parallax_ren.py:360-469 | a 400-pixel layer at speed 0.1 in an 800-pixel viewport, scrolling left, is at -40 after one second and blitted exactly at -40, 360 and 760 |
| `Scenarios.RightScrollAfterOneSecond` | game/lib/fxcpds/h_parallax/parallax_ren.py:436-487 | the same layer scrolling right is at 40 and blitted exactly at 440, 40 and -360 |
| `Scenarios.RightTilesPastEdge` | game/lib/fxcpds/h_parallax/parallax_ren.py:436-487 | a right-scrolling 400-pixel layer at offset 400 in an 800-pixel viewport, updated one second later at speed 0.1, is at 440 unwrapped and blitted exactly at 840, 440, 40 and -360 |
| `Scenarios.RightTilesAtBandTop` | game/lib/fxcpds/h_parallax/parallax_ren.py:471-487 | the same layer at offset 1200, the top of its band, is blitted exactly at 1600, 1200, 800, 400 and 0 |
| `Scenarios.SpeedCapDiffersBetweenCopies` | game/lib/fxcpds/parallax/parallax_ren.py:85-90 | a speed of 1.5 is accepted by the parallax displayable and rejected as layer 1 by both transforms |

## Left out

- Host rendering calls are not modelled: `renpy.render`, `Render.blit` and
  `renpy.Render`. Blits are the returned lists of x positions (y is always 0). An
  image's size is the `Host.Image` it is given.
- `renpy.redraw` is not called: a frame records only the delay it asks for.
- `renpy.displayable` name lookup is a `lookup` function parameter. The layer
  constructor's "invalid state" branch is excluded by validation, which is why
  `Stage.LayerConfigOf` requires a validated pair.
- The `isinstance(..., Displayable)` tests are reduced to the `Host.Value`
  variants. A Python `bool` counts as an `int` there; the model has no booleans.
- The transform plumbing is not modelled: the `Transform` super-calls, the
  `crop=(0, 0, width, height)` box they add, the `super().__init__(**kwargs)` of
  the containers, and `visit()`.
- The `config.screen_width/height` defaults are the parameters of
  `HParallax.Arguments`.
- `_render_layer` in the parallax_scroll and parallax copies is not modelled. No
  method calls it.
- Floats are exact `real`s, with no IEEE rounding. Image sizes are natural
  numbers. NaN and infinity cannot be represented. In the source a NaN speed
  passes every speed check (both comparisons are false), `_clamp` returns NaN and
  the offset stays NaN; an infinite speed passes the parallax copy's check, and
  an update with no elapsed time then computes `0 * inf`, which is NaN. The
  model's promises that an accepted speed is non-negative (`Validation.CheckLayer`)
  and that an update moves at most one width do not cover these values.
- Stage.Container.constructor: it requires numeric width and height. The parallax
  copy checks only that `dimensions` is a pair, so a non-numeric value there is
  never built into a container in the model. The source would fail later, when it
  first computes with it.
- The `width` and `height` properties of the parallax_scroll and parallax layers
  return the raw fields without resolving. In the model these are the `width` and
  `height` fields of `LayerEngine.Layer`, which `LayerEngine.Layer.constructor`
  sets to -1.
