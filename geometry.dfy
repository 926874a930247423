/** The orientation strategy of the split pane: which axis the panes are
    sized along, which axis the grab handle is dragged along, and which
    position property the handle's offset is read from. Every other part of
    the model consults these functions instead of branching on the
    orientation itself. */
module Geometry {

  datatype Option<T> = None | Some(value: T)

  /** The two orientations the widget knows. A horizontal split stacks its
      panes top to bottom (the divider is a horizontal bar); a vertical split
      places them side by side. */
  datatype Orientation = Horizontal | Vertical

  /** The option string the widget stores back after normalising. */
  function OrientationName(o: Orientation): string
  {
    match o
    case Horizontal => "horizontal"
    case Vertical => "vertical"
  }

  /** Normalisation of the `orientation` option at construction: exactly the
      string "vertical" selects a vertical split, anything else (including
      an unknown word or the empty string) falls back to horizontal. */
  function Normalize(option: string): (o: Orientation)
    ensures o == Vertical <==> option == "vertical"
    ensures o == Horizontal <==> option != "vertical"
  {
    if option == "vertical" then Vertical else Horizontal
  }

  /** The option string the widget stores back normalises to the same
      orientation, so normalising twice changes nothing. */
  lemma NormalizeIdempotent(option: string)
    ensures Normalize(OrientationName(Normalize(option))) == Normalize(option)
  {
  }

  /** An unknown orientation behaves exactly as "horizontal" does. */
  lemma UnknownOrientationIsHorizontal(option: string)
    requires option != "vertical"
    ensures Normalize(option) == Normalize("horizontal") == Horizontal
  {
  }

  /** The three names the property map yields for one orientation. */
  datatype Properties = Properties(axis: string, position: string, dimension: string)

  /** The three names belong to the same geometric direction: the handle is
      dragged along `axis`, its offset along that axis is the CSS property
      `position`, and the extent along that axis is `dimension`. */
  predicate Agree(p: Properties)
  {
    (p.axis == "x" && p.position == "left" && p.dimension == "width") ||
    (p.axis == "y" && p.position == "top" && p.dimension == "height")
  }

  /** The property map as a whole record. */
  function PropertiesOf(o: Orientation): (p: Properties)
    ensures Agree(p)
    ensures p.axis == "x" <==> o == Vertical
  {
    if o == Vertical then Properties("x", "left", "width")
    else Properties("y", "top", "height")
  }

  /** Lookup of one named entry of the property map. Every caller passes
      one of the map's three keys. */
  function Property(o: Orientation, name: string): (r: string)
    requires name == "axis" || name == "position" || name == "dimension"
    ensures name == "axis" ==> r == PropertiesOf(o).axis
    ensures name == "position" ==> r == PropertiesOf(o).position
    ensures name == "dimension" ==> r == PropertiesOf(o).dimension
  {
    var p := PropertiesOf(o);
    if name == "axis" then p.axis
    else if name == "position" then p.position
    else p.dimension
  }

  /** The two orientations never share an entry of the property map, so a
      mix-up between them is always visible. */
  lemma PropertiesDistinguishOrientations(o: Orientation, o': Orientation)
    requires o != o'
    ensures PropertiesOf(o).axis != PropertiesOf(o').axis
    ensures PropertiesOf(o).position != PropertiesOf(o').position
    ensures PropertiesOf(o).dimension != PropertiesOf(o').dimension
  {
  }

  datatype Axis = Width | Height

  function AxisName(a: Axis): string
  {
    match a
    case Width => "width"
    case Height => "height"
  }

  /** The axis chosen by the dimension getter/setter: the main axis of the
      split, or the cross axis when `invert` is set. */
  function DimensionAxis(o: Orientation, invert: bool): (a: Axis)
    ensures !invert ==> AxisName(a) == PropertiesOf(o).dimension
    ensures invert ==> AxisName(a) != PropertiesOf(o).dimension
  {
    if OrientationName(o) == (if invert then "horizontal" else "vertical") then Width else Height
  }

  /** The width and height of an element, in pixels. */
  datatype Box = Box(width: int, height: int)

  /** Reading an element's size along the chosen axis. */
  function Dimension(b: Box, o: Orientation, invert: bool): (v: int)
    ensures !invert ==> v == if PropertiesOf(o).dimension == "width" then b.width else b.height
    ensures invert ==> v == if PropertiesOf(o).dimension == "width" then b.height else b.width
  {
    if DimensionAxis(o, invert) == Width then b.width else b.height
  }

  /** Setting an element's size along the chosen axis; the other axis keeps
      its size, and reading back gives the value just set. */
  function WithDimension(b: Box, o: Orientation, invert: bool, v: int): (r: Box)
    ensures Dimension(r, o, invert) == v
    ensures Dimension(r, o, !invert) == Dimension(b, o, !invert)
  {
    if DimensionAxis(o, invert) == Width then b.(width := v) else b.(height := v)
  }

  /** An element's CSS offset from its resting place (`left`, `top`). */
  datatype Position = Position(left: int, top: int)

  /** The handle's displacement along the drag axis: the coordinate named by
      the `position` entry of the property map. */
  function PositionAlong(pos: Position, o: Orientation): (d: int)
    ensures PropertiesOf(o).position == "left" ==> d == pos.left
    ensures PropertiesOf(o).position == "top" ==> d == pos.top
  {
    if Property(o, "position") == "left" then pos.left else pos.top
  }

  /** Writing the coordinate named by the `position` entry; the other
      coordinate is not touched. */
  function WithPositionAlong(pos: Position, o: Orientation, d: int): (r: Position)
    ensures PositionAlong(r, o) == d
    ensures PropertiesOf(o).position == "left" ==> r.top == pos.top
    ensures PropertiesOf(o).position == "top" ==> r.left == pos.left
  {
    if Property(o, "position") == "left" then pos.(left := d) else pos.(top := d)
  }

  /** The options the core reads. `width` and `height` are the total size
      to give the host, in pixels, when set; `minWidth` and `minHeight` are
      the `min_width` and `min_height` floors. */
  datatype Options = Options(
    orientation: string,
    ratio: real,
    width: Option<int>,
    height: Option<int>,
    minWidth: int,
    minHeight: int)

  /** The defaults of the widget's option table. */
  function DefaultOptions(): (opts: Options)
    ensures Normalize(opts.orientation) == Horizontal
    ensures opts.minWidth == 0 && opts.minHeight == 0
  {
    Options("horizontal", 0.5, None, None, 0, 0)
  }

  /** The option key holding the floor: "min_" followed by the dimension. */
  function MinKey(o: Orientation): (key: string)
    ensures key == "min_width" || key == "min_height"
    ensures key == "min_width" <==> o == Vertical
  {
    "min_" + Property(o, "dimension")
  }

  /** Looking up a floor option by its key. Every caller passes a key built
      by MinKey. */
  function MinOption(opts: Options, key: string): (r: int)
    requires key == "min_width" || key == "min_height"
    ensures key == "min_width" ==> r == opts.minWidth
    ensures key == "min_height" ==> r == opts.minHeight
  {
    if key == "min_width" then opts.minWidth else opts.minHeight
  }

  /** The floor the balancer uses: the option named by MinKey, which is
      `min_width` for a vertical split and `min_height` for a horizontal one. */
  function PaneFloor(opts: Options, o: Orientation): (m: int)
    ensures o == Vertical ==> m == opts.minWidth
    ensures o == Horizontal ==> m == opts.minHeight
  {
    MinOption(opts, MinKey(o))
  }

  /** A size option is applied only when it is set and not zero, as the
      source tests the option's truthiness. */
  function ApplySizeOptions(b: Box, opts: Options): (r: Box)
    ensures opts.width.Some? && opts.width.value != 0 ==> r.width == opts.width.value
    ensures opts.width.None? || opts.width.value == 0 ==> r.width == b.width
    ensures opts.height.Some? && opts.height.value != 0 ==> r.height == opts.height.value
    ensures opts.height.None? || opts.height.value == 0 ==> r.height == b.height
  {
    var w := if opts.width.Some? && opts.width.value != 0 then opts.width.value else b.width;
    var h := if opts.height.Some? && opts.height.value != 0 then opts.height.value else b.height;
    Box(w, h)
  }
}
