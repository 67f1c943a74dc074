/**
 * The placement engine of the dropdown (MaterialDropdown/Dropdown.cs): where
 * the table of rows goes relative to its anchor, how wide and how tall it is,
 * how much of it falls off screen, and whether it can be shown at all.
 *
 * Each step of the source is a function here; `Layout` composes them in the
 * order `ComputeLayout` runs them. The class in dropdown.dfy performs the same
 * steps imperatively on its fields and is proved equal to `Layout`.
 */
module LayoutEngine {
  import opened Wrappers
  import opened Geometry

  /** Gap kept between the table and the keyboard, or the top of the window. */
  const HeightPadding: real := 20.0

  /** Row height of a freshly created dropdown. */
  const DefaultRowHeight: real := 44.0

  /** Where the table goes relative to the anchor. */
  datatype Direction = Any | Top | Bottom

  /**
   * The implementations of the `AnchorView` interface: the library's wrapper
   * of a plain view, its wrapper of a bar-button item, and any other class a
   * client writes, which may or may not itself be a `UIBarButtonItem`.
   */
  datatype AnchorKind =
    | ViewAnchor
    | BarButtonItemAnchor
    | CustomAnchor(isBarButtonItem: bool)

  /**
   * What the layout reads of an anchor's `PlainView`: its `Frame` (in its
   * superview), the width of its `Bounds`, and its frame converted to window
   * coordinates, which is absent when the view has no superview.
   */
  datatype Anchor = Anchor(kind: AnchorKind, frame: Rect, boundsWidth: real, windowFrame: Option<Rect>)

  /** `anchorView as UIBarButtonItemAnchorView` succeeds. */
  predicate IsBarButtonItemAnchorView(a: Anchor) {
    a.kind.BarButtonItemAnchor?
  }

  /** `AnchorView as UIBarButtonItem` succeeds: only a client class can be both. */
  predicate IsBarButtonItem(a: Anchor) {
    a.kind.CustomAnchor? && a.kind.isBarButtonItem
  }

  /** The visible window: its `Frame` and its `Bounds`. */
  datatype Window = Window(frame: Rect, bounds: Rect)

  /** The shared keyboard listener's last observation. */
  datatype Keyboard = Keyboard(isVisible: bool, frame: Rect)

  /** The dropdown fields the layout reads. `rowCount` is the length of the data source. */
  datatype LayoutConfig = LayoutConfig(
    direction: Direction,
    topOffset: Point,
    bottomOffset: Point,
    width: Option<real>,
    rowHeight: real,
    rowCount: nat)

  /** `ComputeLayoutTuple`: a placement before the final verdict. */
  datatype Placement = Placement(x: real, y: real, width: real, offscreenHeight: real)

  /** `LayoutResult`. */
  datatype LayoutResult = LayoutResult(
    x: real,
    y: real,
    width: real,
    offscreenHeight: real,
    visibleHeight: real,
    canBeDisplayed: bool,
    direction: Direction)

  /** Height needed to show every row at once. */
  function TableHeight(cfg: LayoutConfig): real {
    cfg.rowHeight * cfg.rowCount as real
  }

  /** Largest of the measured row widths, and 0 when there are none. */
  function MaxWidth(widths: seq<real>): real {
    if |widths| == 0 then 0.0
    else
      var m := MaxWidth(widths[..|widths| - 1]);
      if widths[|widths| - 1] > m then widths[|widths| - 1] else m
  }

  lemma {:induction false} MaxWidthIsLeastUpperBound(widths: seq<real>)
    ensures MaxWidth(widths) >= 0.0
    ensures forall i :: 0 <= i < |widths| ==> widths[i] <= MaxWidth(widths)
    ensures MaxWidth(widths) == 0.0 || exists i :: 0 <= i < |widths| && widths[i] == MaxWidth(widths)
  {
    if |widths| > 0 {
      var prefix := widths[..|widths| - 1];
      MaxWidthIsLeastUpperBound(prefix);
      assert forall i :: 0 <= i < |prefix| ==> widths[i] == prefix[i];
      if MaxWidth(widths) != 0.0 && MaxWidth(widths) != widths[|widths| - 1] {
        var i :| 0 <= i < |prefix| && prefix[i] == MaxWidth(prefix);
        assert widths[i] == MaxWidth(widths);
      }
    }
  }

  /** The window frame of the anchor's plain view, when there is an anchor and it is in a view tree. */
  function AnchorWindowFrame(anchor: Option<Anchor>): Option<Rect> {
    if anchor.Some? then anchor.value.windowFrame else None
  }

  /**
   * `width ?? (anchorView?.PlainView.Bounds.Width ?? FittingWidth()) - offsetX`:
   * the explicit width, or the anchor's (else the content's) width less the offset.
   */
  function DefaultWidth(cfg: LayoutConfig, anchor: Option<Anchor>, offsetX: real, fitting: real): real {
    if cfg.width.Some? then cfg.width.value
    else (if anchor.Some? then anchor.value.boundsWidth else fitting) - offsetX
  }

  /** The lowest y the bottom of the table may reach while the keyboard is up. */
  function KeyboardEdge(kb: Keyboard): real {
    kb.frame.MinY() - HeightPadding
  }

  /** The lowest y a bottom-placed table ending at `maxY` may reach on screen. */
  function BottomEdge(kb: Keyboard, window: Window, maxY: real): real {
    if kb.isVisible && maxY > KeyboardEdge(kb) then KeyboardEdge(kb) else window.bounds.MaxY()
  }

  /** `ComputeLayoutBottomDisplay`: the table hangs from the anchor's top-left corner. */
  function BottomPlacement(cfg: LayoutConfig, anchor: Option<Anchor>, window: Window, kb: Keyboard, fitting: real): (p: Placement)
    ensures p.offscreenHeight >= 0.0
    // the part of the table left on screen ends above the keyboard edge, or above the window bottom
    ensures kb.isVisible ==> p.y + TableHeight(cfg) - p.offscreenHeight <= KeyboardEdge(kb)
    ensures !kb.isVisible ==> p.y + TableHeight(cfg) - p.offscreenHeight <= window.bounds.MaxY()
    // the edge that applies is the keyboard's when the table reaches it, else the window bottom;
    // the table is cut exactly at that edge, and not at all when it ends above it
    ensures var maxY := p.y + TableHeight(cfg);
      var edge := BottomEdge(kb, window, maxY);
      && maxY - p.offscreenHeight <= edge
      && (p.offscreenHeight > 0.0 ==> maxY - p.offscreenHeight == edge)
      && (maxY <= edge ==> p.offscreenHeight == 0.0)
    // the width: the explicit one, else the anchor's (or, with no anchor, the content's) less the offset
    ensures cfg.width.Some? ==> p.width == cfg.width.value
    ensures cfg.width.None? && anchor.Some? ==> p.width == anchor.value.boundsWidth - cfg.bottomOffset.x
    ensures cfg.width.None? && anchor.None? ==> p.width == fitting - cfg.bottomOffset.x
    // with no anchor in a window the table is centred on the window, shifted by the offset
    ensures AnchorWindowFrame(anchor).None? ==> p.x + p.width / 2.0 == window.frame.MidX() + cfg.bottomOffset.x
    ensures AnchorWindowFrame(anchor).None? && window.frame.MidY() - TableHeight(cfg) / 2.0 > 0.0 ==>
      p.y + TableHeight(cfg) / 2.0 == window.frame.MidY() + cfg.bottomOffset.y
    ensures AnchorWindowFrame(anchor).None? && window.frame.MidY() - TableHeight(cfg) / 2.0 <= 0.0 ==>
      p.y == cfg.bottomOffset.y
  {
    var w := DefaultWidth(cfg, anchor, cfg.bottomOffset.x, fitting);
    var frame := AnchorWindowFrame(anchor);
    var anchorX := if frame.Some? then frame.value.MinX() else window.frame.MidX() - w / 2.0;
    var anchorY := if frame.Some? then frame.value.MinY() else window.frame.MidY() - TableHeight(cfg) / 2.0;
    var x := anchorX + cfg.bottomOffset.x;
    var y := (if anchorY > 0.0 then anchorY else 0.0) + cfg.bottomOffset.y;
    var maxY := y + TableHeight(cfg);
    var windowMaxY := window.bounds.MaxY();
    var keyboardMinY := KeyboardEdge(kb);
    var offscreen :=
      if kb.isVisible && maxY > keyboardMinY then Abs(maxY - keyboardMinY)
      else if maxY > windowMaxY then Abs(maxY - windowMaxY)
      else 0.0;
    Placement(x, y, w, offscreen)
  }

  /** The y the top-placed table would have before it is clamped to the window. */
  function UnclampedTopY(cfg: LayoutConfig, anchor: Option<Anchor>): real {
    var frame := AnchorWindowFrame(anchor);
    (if frame.Some? then frame.value.MaxY() else 0.0) + cfg.topOffset.y - TableHeight(cfg)
  }

  /** `ComputeLayoutForTopDisplay`: the table stands on the anchor's bottom edge, clamped below the window top. */
  function TopPlacement(cfg: LayoutConfig, anchor: Option<Anchor>, window: Window, fitting: real): (p: Placement)
    ensures p.offscreenHeight >= 0.0
    ensures p.y >= window.bounds.MinY() + HeightPadding
    // the clamp moves the table down by exactly the height it hides
    ensures p.y - p.offscreenHeight == UnclampedTopY(cfg, anchor)
    ensures p.offscreenHeight > 0.0 ==> p.y == window.bounds.MinY() + HeightPadding
    // the table's left edge is the anchor's, or 0 without one in a window, shifted by the offset
    ensures p.x == (if AnchorWindowFrame(anchor).Some? then AnchorWindowFrame(anchor).value.MinX() else 0.0) + cfg.topOffset.x
    // the width: the explicit one, else the anchor's (or, with no anchor, the content's) less the offset
    ensures cfg.width.Some? ==> p.width == cfg.width.value
    ensures cfg.width.None? && anchor.Some? ==> p.width == anchor.value.boundsWidth - cfg.topOffset.x
    ensures cfg.width.None? && anchor.None? ==> p.width == fitting - cfg.topOffset.x
  {
    var frame := AnchorWindowFrame(anchor);
    var anchorX := if frame.Some? then frame.value.MinX() else 0.0;
    var x := anchorX + cfg.topOffset.x;
    var y := UnclampedTopY(cfg, anchor);
    var windowY := window.bounds.MinY() + HeightPadding;
    var w := DefaultWidth(cfg, anchor, cfg.topOffset.x, fitting);
    if y < windowY then Placement(x, windowY, w, Abs(y - windowY))
    else Placement(x, y, w, 0.0)
  }

  /** `ConstraintWidthToFittingSizeIfNecessary`: without an explicit width, never narrower than the content. */
  function WidenToContent(p: Placement, width: Option<real>, fitting: real): (q: Placement)
    ensures width.Some? ==> q == p
    ensures width.None? ==> q.width >= fitting && q.width >= p.width
    ensures q.width == p.width || q.width == fitting
    ensures q.x == p.x && q.y == p.y && q.offscreenHeight == p.offscreenHeight
  {
    if width.Some? then p
    else if p.width < fitting then p.(width := fitting)
    else p
  }

  /**
   * `ConstraintWidthToBoundsIfNecessary`: a table sticking out past the right
   * edge of the window is shifted left, or, if that would cross x = 0, pinned
   * at x = 0 and narrowed.
   */
  function ConstrainToBounds(p: Placement, window: Window): (q: Placement)
    ensures p.x + p.width > window.bounds.MaxX() ==>
      q.x + q.width == window.bounds.MaxX() && q.x >= 0.0 && q.width <= p.width
    ensures p.x + p.width <= window.bounds.MaxX() ==> q == p
    ensures q.x + q.width <= window.bounds.MaxX()
    // shifting is preferred: the width only shrinks when the table is pinned at the left edge
    ensures q.width != p.width ==> q.x == 0.0
    ensures q.y == p.y && q.offscreenHeight == p.offscreenHeight
  {
    var windowMaxX := window.bounds.MaxX();
    var maxX := p.x + p.width;
    if maxX > windowMaxX then
      var delta := maxX - windowMaxX;
      var newOrigin := p.x - delta;
      if newOrigin > 0.0 then p.(x := newOrigin)
      else p.(x := 0.0, width := p.width + newOrigin)
    else p
  }

  /** The anchor is a bar-button item wrapper whose left edge is right of the window's middle. */
  predicate IsRightBarButtonItem(anchor: Option<Anchor>, window: Window) {
    anchor.Some? && IsBarButtonItemAnchorView(anchor.value) && anchor.value.frame.MinX() > window.frame.MidX()
  }

  /**
   * The `bottomOffset` that `ComputeLayout` leaves behind: for a right-hand
   * bar-button item it is overwritten so that the table's right edge meets
   * the anchor's right edge; otherwise it is kept.
   */
  function AdjustedBottomOffset(cfg: LayoutConfig, anchor: Option<Anchor>, window: Window, fitting: real): Point {
    if IsRightBarButtonItem(anchor, window) then
      var w := if cfg.width.Some? then cfg.width.value else fitting;
      Point(-(w - anchor.value.frame.width), 0.0)
    else cfg.bottomOffset
  }

  datatype Resolved = Resolved(placement: Placement, direction: Direction)

  /** The direction switch of `ComputeLayout`, on a configuration whose bottom offset is already adjusted. */
  function Resolve(cfg: LayoutConfig, anchor: Option<Anchor>, window: Window, kb: Keyboard, fitting: real): Resolved {
    if anchor.None? then Resolved(BottomPlacement(cfg, anchor, window, kb, fitting), Any)
    else
      match cfg.direction
      case Any =>
        var bottom := BottomPlacement(cfg, anchor, window, kb, fitting);
        if bottom.offscreenHeight > 0.0 then
          var top := TopPlacement(cfg, anchor, window, fitting);
          if top.offscreenHeight < bottom.offscreenHeight then Resolved(top, Top)
          else Resolved(bottom, Bottom)
        else Resolved(bottom, Bottom)
      case Bottom => Resolved(BottomPlacement(cfg, anchor, window, kb, fitting), Bottom)
      case Top => Resolved(TopPlacement(cfg, anchor, window, fitting), Top)
  }

  /** The configuration `ComputeLayout` works with once it has adjusted the bottom offset. */
  function AdjustedConfig(cfg: LayoutConfig, anchor: Option<Anchor>, window: Window, fitting: real): LayoutConfig {
    cfg.(bottomOffset := AdjustedBottomOffset(cfg, anchor, window, fitting))
  }

  /** `ComputeLayout`, as a function of the configuration and the environment. */
  function Layout(cfg: LayoutConfig, anchor: Option<Anchor>, window: Option<Window>, kb: Keyboard, fitting: real): (r: LayoutResult)
    ensures r.offscreenHeight >= 0.0
    ensures window.None? ==> !r.canBeDisplayed
    ensures window.Some? ==> r.x + r.width <= window.value.bounds.MaxX()
  {
    if window.None? then LayoutResult(0.0, 0.0, 0.0, 0.0, 0.0, false, cfg.direction)
    else
      var w := window.value;
      var resolved := Resolve(AdjustedConfig(cfg, anchor, w, fitting), anchor, w, kb, fitting);
      var p := ConstrainToBounds(WidenToContent(resolved.placement, cfg.width, fitting), w);
      Verdict(cfg, p, resolved.direction)
  }

  /** The last step of `ComputeLayout`: the visible height, and whether it holds one row. */
  function Verdict(cfg: LayoutConfig, p: Placement, direction: Direction): LayoutResult {
    var visibleHeight := TableHeight(cfg) - p.offscreenHeight;
    LayoutResult(p.x, p.y, p.width, p.offscreenHeight, visibleHeight, visibleHeight >= cfg.rowHeight, direction)
  }

  // ---------------------------------------------------------------------------
  // Properties of the whole layout pass

  /** Without a visible window nothing is computed: a zero result that cannot be displayed. */
  lemma LayoutWithoutWindow(cfg: LayoutConfig, anchor: Option<Anchor>, kb: Keyboard, fitting: real)
    ensures Layout(cfg, anchor, None, kb, fitting) == LayoutResult(0.0, 0.0, 0.0, 0.0, 0.0, false, cfg.direction)
  {
  }

  /** The verdict: what is visible is the table less what is off screen, and it must hold one row. */
  lemma LayoutVerdict(cfg: LayoutConfig, anchor: Option<Anchor>, window: Window, kb: Keyboard, fitting: real)
    ensures var r := Layout(cfg, anchor, Some(window), kb, fitting);
      && r.visibleHeight == TableHeight(cfg) - r.offscreenHeight
      && r.visibleHeight <= TableHeight(cfg)
      && (r.canBeDisplayed <==> r.visibleHeight >= cfg.rowHeight)
  {
  }

  /** An empty data source never displays, whatever the geometry. */
  lemma EmptyDataSourceNeverDisplays(cfg: LayoutConfig, anchor: Option<Anchor>, window: Option<Window>, kb: Keyboard, fitting: real)
    requires cfg.rowCount == 0 && cfg.rowHeight > 0.0
    ensures !Layout(cfg, anchor, window, kb, fitting).canBeDisplayed
  {
  }

  /** How the direction is resolved, and that `Any` never survives a pass with an anchor. */
  lemma LayoutDirection(cfg: LayoutConfig, anchor: Option<Anchor>, window: Window, kb: Keyboard, fitting: real)
    ensures var r := Layout(cfg, anchor, Some(window), kb, fitting);
      var adjusted := AdjustedConfig(cfg, anchor, window, fitting);
      var bottom := BottomPlacement(adjusted, anchor, window, kb, fitting);
      var top := TopPlacement(adjusted, anchor, window, fitting);
      && (anchor.None? ==> r.direction == Any)
      && (anchor.Some? && cfg.direction == Bottom ==> r.direction == Bottom)
      && (anchor.Some? && cfg.direction == Top ==> r.direction == Top)
      && (anchor.Some? && cfg.direction == Any ==>
            r.direction != Any
            && (r.direction == Top <==> bottom.offscreenHeight > 0.0 && top.offscreenHeight < bottom.offscreenHeight))
  {
  }

  /** The vertical outcome is that of the chosen placement: width steps never move the table up or down. */
  lemma LayoutVerticalPlacement(cfg: LayoutConfig, anchor: Option<Anchor>, window: Window, kb: Keyboard, fitting: real)
    ensures var r := Layout(cfg, anchor, Some(window), kb, fitting);
      var adjusted := AdjustedConfig(cfg, anchor, window, fitting);
      var chosen :=
        if r.direction == Top then TopPlacement(adjusted, anchor, window, fitting)
        else BottomPlacement(adjusted, anchor, window, kb, fitting);
      r.y == chosen.y && r.offscreenHeight == chosen.offscreenHeight
  {
  }

  /**
   * Without an explicit width the table is at least as wide as its content,
   * unless it had to be pinned at the left edge and narrowed to fit the window.
   * With an explicit width, the width changes only in that pinned case.
   */
  lemma LayoutWidth(cfg: LayoutConfig, anchor: Option<Anchor>, window: Window, kb: Keyboard, fitting: real)
    ensures var r := Layout(cfg, anchor, Some(window), kb, fitting);
      && r.x + r.width <= window.bounds.MaxX()
      && (cfg.width.None? ==> r.width >= fitting || (r.x == 0.0 && r.width == window.bounds.MaxX()))
      && (cfg.width.Some? ==> r.width == cfg.width.value || (r.x == 0.0 && r.width == window.bounds.MaxX()))
  {
  }

  /** Bottom placement below an anchor that is in a view tree: the origin follows the anchor's top-left corner. */
  lemma BottomOrigin(cfg: LayoutConfig, anchor: Anchor, window: Window, kb: Keyboard, fitting: real)
    requires anchor.windowFrame.Some?
    ensures var p := BottomPlacement(cfg, Some(anchor), window, kb, fitting);
      var f := anchor.windowFrame.value;
      && p.x == f.MinX() + cfg.bottomOffset.x
      && p.y == (if f.MinY() > 0.0 then f.MinY() else 0.0) + cfg.bottomOffset.y
      && p.y >= cfg.bottomOffset.y
  {
  }

  /**
   * The off-screen height of a bottom placement: the overshoot past the
   * keyboard edge while the keyboard is up and the table reaches below it,
   * else the overshoot past the window bottom, else nothing.
   */
  lemma BottomOverflow(cfg: LayoutConfig, anchor: Option<Anchor>, window: Window, kb: Keyboard, fitting: real)
    ensures var p := BottomPlacement(cfg, anchor, window, kb, fitting);
      var maxY := p.y + TableHeight(cfg);
      p.offscreenHeight ==
        if kb.isVisible && maxY > KeyboardEdge(kb) then maxY - KeyboardEdge(kb)
        else if maxY > window.bounds.MaxY() then maxY - window.bounds.MaxY()
        else 0.0
  {
  }

  /**
   * A table that fits below its anchor with no keyboard up is shown below it,
   * whole, when the direction is `Any`.
   */
  lemma FitsBelowStaysBelow(cfg: LayoutConfig, anchor: Anchor, window: Window, kb: Keyboard, fitting: real)
    requires cfg.direction == Any && !kb.isVisible
    requires BottomPlacement(AdjustedConfig(cfg, Some(anchor), window, fitting), Some(anchor), window, kb, fitting).y
             + TableHeight(cfg) <= window.bounds.MaxY()
    ensures var r := Layout(cfg, Some(anchor), Some(window), kb, fitting);
      r.direction == Bottom && r.offscreenHeight == 0.0 && r.visibleHeight == TableHeight(cfg)
  {
  }

  /**
   * For a bar-button item in the right half of the window, with no explicit
   * width, the adjusted bottom offset lines the table's right edge up with the
   * anchor's right edge (before the window-bounds step).
   */
  lemma RightBarButtonItemAlignsRightEdges(cfg: LayoutConfig, anchor: Anchor, window: Window, kb: Keyboard, fitting: real)
    requires IsRightBarButtonItem(Some(anchor), window) && cfg.width.None?
    requires anchor.windowFrame.Some? && anchor.windowFrame.value.width == anchor.frame.width
    requires anchor.boundsWidth == anchor.frame.width
    ensures var p := BottomPlacement(AdjustedConfig(cfg, Some(anchor), window, fitting), Some(anchor), window, kb, fitting);
      p.width == fitting && p.x + p.width == anchor.windowFrame.value.MaxX()
  {
  }

  /** The overwrite of the bottom offset is stable: a second pass on the same geometry leaves it as the first did. */
  lemma AdjustedBottomOffsetIsStable(cfg: LayoutConfig, anchor: Option<Anchor>, window: Window, fitting: real)
    ensures var once := AdjustedConfig(cfg, anchor, window, fitting);
      AdjustedConfig(once, anchor, window, fitting) == once
  {
  }

  // ---------------------------------------------------------------------------
  // Worked scenarios

  /**
   * A 600-wide, 800-high window; an anchor at y = 700, 40 high; five rows of
   * 44 points (220 in all); direction `Any`; no keyboard. Below the anchor the
   * table would reach 700 + 220 = 920; it goes above instead, whole.
   */
  lemma ScenarioAnchorNearBottomOpensUpwards()
    ensures var window := Window(Rect(0.0, 0.0, 600.0, 800.0), Rect(0.0, 0.0, 600.0, 800.0));
      var frame := Rect(10.0, 700.0, 100.0, 40.0);
      var anchor := Anchor(ViewAnchor, frame, 100.0, Some(frame));
      var cfg := LayoutConfig(Any, Point(0.0, 0.0), Point(0.0, 0.0), None, DefaultRowHeight, 5);
      var kb := Keyboard(false, Rect(0.0, 0.0, 0.0, 0.0));
      var r := Layout(cfg, Some(anchor), Some(window), kb, 80.0);
      && BottomPlacement(cfg, Some(anchor), window, kb, 80.0).offscreenHeight == 120.0
      && r.direction == Top && r.y == 520.0 && r.offscreenHeight == 0.0
      && r.visibleHeight == 220.0 && r.canBeDisplayed && r.width == 100.0
  {
  }

  /**
   * The keyboard is up with its top at 520, so the table must end above 500.
   * A table of 220 placed at y = 100 ends at 320: nothing is cut.
   */
  lemma ScenarioKeyboardUpButNoOverlap()
    ensures var window := Window(Rect(0.0, 0.0, 600.0, 800.0), Rect(0.0, 0.0, 600.0, 800.0));
      var frame := Rect(10.0, 100.0, 100.0, 40.0);
      var anchor := Anchor(ViewAnchor, frame, 100.0, Some(frame));
      var cfg := LayoutConfig(Bottom, Point(0.0, 0.0), Point(0.0, 0.0), None, DefaultRowHeight, 5);
      var kb := Keyboard(true, Rect(0.0, 520.0, 600.0, 280.0));
      var r := Layout(cfg, Some(anchor), Some(window), kb, 80.0);
      r.direction == Bottom && r.y == 100.0 && r.offscreenHeight == 0.0 && r.canBeDisplayed
  {
  }
}
