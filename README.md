# Split pane: sizing model

A model of the sizing logic of `ui.splitpane.js`, a jQuery UI widget that
divides a host element into two panes separated by a draggable grab handle.
Either a horizontal split (panes stacked top to bottom, dragged along `y`)
or a vertical split (panes side by side, dragged along `x`).

- `geometry.dfy`, module `Geometry`: the orientation strategy. It covers
  normalising the `orientation` option, the property map (`axis`,
  `position`, `dimension`), the axis picked by the dimension getter/setter
  (main or cross axis), reading and resetting the handle's offset along the
  drag axis, the `min_width`/`min_height` floor lookup, and applying the
  `width`/`height` options to the host.
- `balancer.dfy`, module `Balancer`: the per-pane balancer `_balance`, the
  resize that a drag-end applies to both panes, and a sequence of drags.
  Clamping to the interval `[min, total - min]` is the reference definition
  the balancer is proved against.
- `splitpane.dfy`, module `SplitPaneWidget`: the widget as a class. Its
  fields are the host box, the main-axis sizes of pane one, the handle and
  pane two, the handle's offset and the host's class names. The constructor
  writes the sizes step by step as `_create` does. `DragStop` is the
  `dragstop` resize handler. Three client methods replay a horizontal
  scenario, construction with the default options and an unknown
  orientation.

The handler computes pane one from `one + p`, so moving the handle up
shrinks pane one. From 195/195 with floor 50, moving the handle up by 160
gives pane one 50 and pane two 340 (`SplitPaneWidget.HorizontalScenario`).

## Model

| member | source | states |
|---|---|---|
| Geometry.Normalize | ui.splitpane.js:62-64 | the orientation is vertical exactly when the option is the string "vertical"; every other value gives horizontal |
| Geometry.NormalizeIdempotent | ui.splitpane.js:62-64 | the normalised orientation stored back into the options normalises to itself |
| Geometry.UnknownOrientationIsHorizontal | ui.splitpane.js:62-64 | any option other than "vertical" (such as "diagonal") gives the same orientation as "horizontal" |
| Geometry.PropertiesOf | ui.splitpane.js:187-193 | the property map is total, and its three names always describe one direction: x/left/width for a vertical split, y/top/height for a horizontal one |
| Geometry.Property | ui.splitpane.js:187-193 | looking up "axis", "position" or "dimension" (the only names any caller passes) gives that entry of the map |
| Geometry.PropertiesDistinguishOrientations | ui.splitpane.js:187-193 | the two orientations differ in each of the three entries |
| Geometry.DimensionAxis | ui.splitpane.js:178-183 | without `invert` the chosen axis is the one the property map names as `dimension`; with `invert` it is the other one |
| Geometry.Dimension | ui.splitpane.js:178-183 | reading a box along the main axis gives the width for a vertical split and the height for a horizontal one; `invert` swaps them |
| Geometry.WithDimension | ui.splitpane.js:178-183 | setting a size along the chosen axis reads back as the value set, and leaves the other axis unchanged |
| Geometry.PositionAlong | ui.splitpane.js:133-134 | the displacement is the handle's `left` offset when the position property is left, and its `top` offset when it is top |
| Geometry.WithPositionAlong | ui.splitpane.js:138-140 | writing the offset along the position property reads back as the value written, and leaves the other coordinate unchanged |
| Geometry.DefaultOptions | ui.splitpane.js:52-59 | by default the split is horizontal and both floors are 0 |
| Geometry.MinKey | ui.splitpane.js:156 | the floor's option key is "min_" plus the dimension: "min_width" exactly for a vertical split, otherwise "min_height" |
| Geometry.MinOption | ui.splitpane.js:156 | the keys "min_width" and "min_height" (the only keys the balancer builds) give their options |
| Geometry.PaneFloor | ui.splitpane.js:156-160 | the balancer's floor is `min_width` for a vertical split and `min_height` for a horizontal one |
| Geometry.ApplySizeOptions | ui.splitpane.js:65-66 | a `width` or `height` option that is set and not zero replaces the host's size on that axis; otherwise the measured size stays |
| Balancer.Balance | ui.splitpane.js:151-164 | a prospective size below the floor gives the floor; otherwise, if the partner is below the floor, the result is everything but the floor; otherwise the size is unchanged. When the two sizes add up to the total and the floor fits twice, the result is the size clamped to `[min, total - min]` |
| Balancer.DragEnd | ui.splitpane.js:133-137 | when twice the floor fits in the pre-drag total, the new sizes add up to that total, both meet the floor, and pane one is `one + p` clamped to `[min, total - min]`. When `one + p` and `two - p` both meet the floor, they are the new sizes |
| Balancer.DragEndZeroIsIdentity | ui.splitpane.js:133-137 | a zero displacement leaves panes that meet the floor unchanged |
| Balancer.DragEndUndo | ui.splitpane.js:133-137 | when no clamping is needed, dragging by `-p` after dragging by `p` restores the sizes |
| Balancer.DragEndMonotone | ui.splitpane.js:133-137 | when twice the floor fits in the total, a larger displacement never gives pane one a smaller size or pane two a larger one |
| Balancer.DragSession | ui.splitpane.js:130-142 | over any sequence of drag-ends, if twice the floor fits in the total then the total is kept, and after at least one drag both panes meet the floor |
| Balancer.ZeroDragsChangeNothing | ui.splitpane.js:130-142 | from panes that meet the floor, any number of zero-displacement drags changes nothing |
| SplitPaneWidget.SplitPane.constructor | ui.splitpane.js:61-146 | the orientation is normalised and stored back, and the size options are applied to the host. Pane one is `ratio` of the host less half the handle, and pane one, handle and pane two fill the host exactly. The handle's offset is zero, and the host loses the "majik_split_pane" class and keeps its other classes |
| SplitPaneWidget.SplitPane.DragStop | ui.splitpane.js:130-142 | the new sizes are `DragEnd` of the pre-drag sizes, with the displacement read along the position property and the floor of the orientation. The handle's offset along the drag axis becomes zero. When twice the floor fits in the total, both panes meet the floor and the host stays exactly filled |

## Left out

- The DOM work of `_append_node`, clearing the host's content and the CSS classes given to the panes and handle (`pane_class`, `grab_class`, the orientation class). These are DOM plumbing. The panes are plain main-axis sizes, so the cross-axis height that `_append_node` gives new nodes in a vertical split is not modelled.
- The `draggable` set-up and the visual-feedback `dragstart`/`dragstop` handlers (opacity, cursor, z-index, resizing classes). They are cosmetic and carry no invariant.
- Resetting the host's dimension to `auto` after construction. It is a CSS layout effect, so the model's host keeps the size it had before the reset.
- Re-measuring the host between the panes. The source reads the host's size once for `ratio` and again for pane two, after pane one and the handle are appended. The model reads it once. The two reads differ when the host's size follows its content, such as a horizontal split with no fixed height.
- Changing options after construction. The model fixes the options when the widget is built, while the source reads `min_width` or `min_height` afresh on every drag.
- Lookups of other names in the property map or the options. The source uses plain object lookups, so an inherited name such as "toString" would give a function. Every call site passes one of the literal keys, so `Geometry.Property` and `Geometry.MinOption` accept only those.
- Pointer-event delivery and jQuery UI's containment. The handle's position at drag end is an input of `DragStop`.
- SplitPaneWidget.SplitPane.constructor: `dimension(host) * ratio` is a floating-point product whose rounding is left to jQuery and the browser. The model rounds it down to whole pixels, and rounds half the handle's thickness down too. Sizes are unbounded integers, and jQuery's handling of negative sizes is not modelled.
- Geometry.ApplySizeOptions: the options are CSS values in the source. The model takes them as pixel counts, with zero standing for an unset option.
- Balancer.DragEnd: no guarantee is stated when twice the floor exceeds the total. The code then sets both panes to the floor whenever both prospective sizes fall below it, so the total is not kept. When only one prospective size falls below the floor, the total is kept but the other pane can end below the floor: 8/2 with floor 6 and no displacement gives 4/6.
