/** The split-pane widget: construction of the two panes and the grab handle
    inside a host element, and the resize applied when a drag of the handle
    ends. Sizes are along the split's main axis, in whole pixels. */
module SplitPaneWidget {
  import opened Geometry
  import opened Balancer

  /** The class name that marks an element as a styled split pane. */
  const PaneMarker: string := "majik_split_pane"

  class SplitPane {
    /** The normalised orientation, fixed at construction. */
    const orientation: Orientation
    /** The options as stored back by construction (orientation normalised). */
    const options: Options

    /** The host element's box, after the `width` and `height` options. */
    var host: Box
    /** Main-axis sizes of pane one, the grab handle and pane two. */
    var one: int
    var grab: int
    var two: int
    /** The handle's CSS offset from its resting slot. */
    var grabOffset: Position
    /** The class names carried by the host element. */
    var hostClasses: set<string>

    /** The floor the balancer applies to both panes. */
    function MinSize(): int
    {
      PaneFloor(options, orientation)
    }

    function Sizes(): Panes
      reads this
    {
      Panes(one, two)
    }

    /** The two panes and the handle fill the host along the main axis. */
    ghost predicate Valid()
      reads this
    {
      one + grab + two == Dimension(host, orientation, false)
    }

    /** Construction. `hostBox` is the host's measured box, `grabThickness`
        the handle's main-axis thickness as its style gives it, and
        `hostClassNames` the host's class names. Pane one starts at `ratio`
        of the host, rounded down to a whole pixel, less half the handle;
        pane two takes the rest. */
    constructor (opts: Options, hostBox: Box, hostClassNames: set<string>, grabThickness: nat)
      ensures orientation == Normalize(opts.orientation)
      ensures options == opts.(orientation := OrientationName(orientation))
      ensures MinSize() == if orientation == Vertical then opts.minWidth else opts.minHeight
      ensures host == ApplySizeOptions(hostBox, opts)
      ensures grab == grabThickness
      ensures one == (Dimension(host, orientation, false) as real * opts.ratio).Floor - grabThickness / 2
      ensures Valid()
      ensures grabOffset == Position(0, 0)
      ensures hostClasses == hostClassNames - {PaneMarker}
    {
      orientation := Normalize(opts.orientation);
      options := opts.(orientation := OrientationName(Normalize(opts.orientation)));
      host := ApplySizeOptions(hostBox, opts);
      one := 0;
      grab := grabThickness;
      two := 0;
      grabOffset := Position(0, 0);
      hostClasses := hostClassNames;
      new;
      one := (Dimension(host, orientation, false) as real * options.ratio).Floor;
      one := one - grab / 2;
      two := Dimension(host, orientation, false) - (one + grab);
      if PaneMarker in hostClasses {
        hostClasses := hostClasses - {PaneMarker};
      }
    }

    /** The resize when a drag of the handle ends at offset `pos`. The
        displacement is the offset along the drag axis; the balancer's
        inputs are all computed before either pane is written; the handle's
        offset along the drag axis is then reset to zero. */
    method DragStop(pos: Position)
      modifies this`one, this`two, this`grabOffset
      ensures Sizes() == DragEnd(old(Sizes()), PositionAlong(pos, orientation), MinSize())
      ensures grabOffset == WithPositionAlong(old(grabOffset), orientation, 0)
      ensures PositionAlong(grabOffset, orientation) == 0
      ensures 2 * MinSize() <= old(one + two) ==> Settled(Sizes(), MinSize())
      ensures 2 * MinSize() <= old(one + two) && old(Valid()) ==> Valid()
    {
      var p := PositionAlong(pos, orientation);
      var deltaOne := two - p;
      var deltaTwo := one + p;
      var total := two + one;
      one := Balance(deltaTwo, deltaOne, total, MinSize());
      two := Balance(deltaOne, deltaTwo, total, MinSize());
      grabOffset := WithPositionAlong(grabOffset, orientation, 0);
    }
  }

  /** A horizontal split of a 400-pixel host, half and half, with a
      10-pixel handle and a 50-pixel floor, nested inside another split;
      the handle is then dragged 160 pixels up. */
  method HorizontalScenario()
  {
    var opts := Options("horizontal", 0.5, None, Some(400), 0, 50);
    var w := new SplitPane(opts, Box(300, 120), {PaneMarker, "sidebar"}, 10);
    assert w.orientation == Horizontal;
    assert w.one == 195 && w.two == 195;
    assert w.one + w.grab + w.two == 400;
    assert w.hostClasses == {"sidebar"};
    assert w.MinSize() == 50;
    assert PositionAlong(Position(0, -160), w.orientation) == -160;
    w.DragStop(Position(0, -160));
    assert w.one == 50 && w.two == 340;
    assert w.grabOffset == Position(0, 0);
  }

  /** With the default options the split is horizontal, halves the host
      and has no floor, so any drag that keeps both panes non-negative is
      applied unclamped. */
  method DefaultOptionsScenario()
  {
    var w := new SplitPane(DefaultOptions(), Box(300, 120), {}, 6);
    assert w.orientation == Horizontal;
    assert w.MinSize() == 0;
    assert w.one == 57 && w.two == 57;
    assert PositionAlong(Position(0, 30), w.orientation) == 30;
    w.DragStop(Position(0, 30));
    assert w.one == 87 && w.two == 27;
  }

  /** An unknown orientation builds a horizontal split. */
  method UnknownOrientationScenario()
  {
    var opts := Options("diagonal", 0.25, None, None, 0, 0);
    var w := new SplitPane(opts, Box(300, 120), {}, 4);
    assert w.orientation == Horizontal;
    assert w.one == 28 && w.two == 88;
  }
}
