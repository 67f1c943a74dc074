/**
 * The dropdown object of MaterialDropdown/Dropdown.cs: its layout pass over
 * its own fields, the show/hide/cancel lifecycle around the process-wide
 * "visible dropdown" slot, and row-selection tracking.
 *
 * The slot is a `Registry` object that every dropdown shares; the animation
 * that ends a hide is taken to have completed, so a hidden dropdown is
 * `hidden` as soon as `Hide` returns.
 */
module Dropdowns {
  import opened Wrappers
  import opened Geometry
  import opened LayoutEngine
  import opened Selection

  datatype DismissMode = OnTap | Automatic | Manual

  /** The events a dropdown raises: `WillBeShown`, `Canceled` and `SelectedItemChanged`. */
  datatype Event = WillBeShown | Canceled | SelectedItemChanged(index: int, item: Item)

  /**
   * What the host supplies to a layout pass: the visible window (absent when
   * no window qualifies), the keyboard listener's state, and the measurement
   * of one row, the compressed width of the template cell configured for
   * that row.
   */
  datatype Environment = Environment(window: Option<Window>, keyboard: Keyboard, measure: (int, Item) -> real)

  /** The measured width of every row of `items`. */
  function RowWidths(measure: (int, Item) -> real, items: seq<Item>): (widths: seq<real>)
    ensures |widths| == |items|
    ensures forall i :: 0 <= i < |items| ==> widths[i] == measure(i, items[i])
  {
    seq(|items|, i requires 0 <= i < |items| => measure(i, items[i]))
  }

  /** The process-wide slot holding the dropdown currently shown. */
  class Registry {
    var visible: Dropdown?

    constructor ()
      ensures visible == null
    {
      visible := null;
    }

    /** Only a dropdown that uses this registry can occupy it. */
    predicate Valid()
      reads this
    {
      visible != null ==> visible.registry == this
    }
  }

  class Dropdown {
    /** The shared slot (the static `VisibleDropDown`). */
    const registry: Registry

    var anchorView: Option<Anchor>
    var direction: Direction
    var topOffset: Point
    var bottomOffset: Point
    var width: Option<real>
    /** The row height, also the table view's `RowHeight` and the `minHeight` of the verdict. */
    var cellHeight: real
    var dataSource: seq<Item>
    var selectedRowIndex: Option<int>
    var dismissMode: DismissMode
    /** The view's `Hidden` flag. */
    var hidden: bool
    /** The events raised so far, oldest first. */
    var events: seq<Event>

    /** The parameterless constructor, with the deferred `SetupUI` (which hides the view) taken as done. */
    constructor (registry: Registry)
      ensures this.registry == registry
      ensures anchorView == None && direction == Any && width == None
      ensures topOffset == Point(0.0, 0.0) && bottomOffset == Point(0.0, 0.0)
      ensures cellHeight == DefaultRowHeight && dataSource == [] && selectedRowIndex == None
      ensures dismissMode == OnTap && hidden && events == []
    {
      this.registry := registry;
      anchorView := None;
      direction := Any;
      topOffset := Point(0.0, 0.0);
      bottomOffset := Point(0.0, 0.0);
      width := None;
      cellHeight := DefaultRowHeight;
      dataSource := [];
      selectedRowIndex := None;
      dismissMode := OnTap;
      hidden := true;
      events := [];
    }

    /** The fields a layout pass reads. */
    function Config(): LayoutConfig
      reads this`direction, this`topOffset, this`bottomOffset, this`width, this`cellHeight, this`dataSource
    {
      LayoutConfig(direction, topOffset, bottomOffset, width, cellHeight, |dataSource|)
    }

    /** The width of the widest row of the data source. */
    function Fitting(measure: (int, Item) -> real): real
      reads this`dataSource
    {
      MaxWidth(RowWidths(measure, dataSource))
    }

    /** The state a layout pass from configuration `before` leaves, with `r` its result. */
    ghost predicate LaidOut(before: LayoutConfig, env: Environment, r: LayoutResult)
      reads this`anchorView, this`dataSource, this`direction, this`bottomOffset
    {
      var fitting := Fitting(env.measure);
      && r == Layout(before, anchorView, env.window, env.keyboard, fitting)
      && direction == (if env.window.None? then before.direction else r.direction)
      && bottomOffset ==
           (if env.window.None? then before.bottomOffset
            else AdjustedBottomOffset(before, anchorView, env.window.value, fitting))
    }

    /** The dropdown holding the slot, or this one when the slot is empty. */
    function Occupant(): Dropdown
      reads registry`visible
    {
      if registry.visible == null then this else registry.visible
    }

    /** `FittingWidth`: the widest measured row, 0 for an empty data source. */
    method FittingWidth(measure: (int, Item) -> real) returns (maxWidth: real)
      ensures maxWidth == Fitting(measure)
      ensures maxWidth >= 0.0
      ensures forall i :: 0 <= i < |dataSource| ==> measure(i, dataSource[i]) <= maxWidth
    {
      ghost var widths := RowWidths(measure, dataSource);
      maxWidth := 0.0;
      var index := 0;
      while index < |dataSource|
        invariant 0 <= index <= |dataSource|
        invariant maxWidth == MaxWidth(widths[..index])
      {
        var w := measure(index, dataSource[index]);
        assert widths[..index + 1][..index] == widths[..index];
        if w > maxWidth {
          maxWidth := w;
        }
        index := index + 1;
      }
      assert widths[..index] == widths;
      MaxWidthIsLeastUpperBound(widths);
    }

    /**
     * `ComputeLayout`: one layout pass. It overwrites `bottomOffset` for a
     * right-hand bar-button item and records the resolved direction in
     * `direction`; without a window it changes nothing.
     */
    method ComputeLayout(env: Environment) returns (r: LayoutResult)
      modifies this`direction, this`bottomOffset
      ensures LaidOut(old(Config()), env, r)
    {
      var cfg := Config();
      var dir := cfg.direction;
      if env.window.None? {
        return LayoutResult(0.0, 0.0, 0.0, 0.0, 0.0, false, dir);
      }
      var window := env.window.value;
      var fitting := FittingWidth(env.measure);
      AlignRightBarButtonItem(window, fitting);
      var layout := PlaceInDirection(window, env.keyboard, fitting);
      ghost var resolved := Resolve(AdjustedConfig(cfg, anchorView, window, fitting), anchorView, window, env.keyboard, fitting);
      assert layout == resolved.placement && direction == resolved.direction;

      assert width == cfg.width;
      layout := WidenToContent(layout, width, fitting);
      layout := ConstrainToBounds(layout, window);

      var visibleHeight := TableHeight(cfg) - layout.offscreenHeight;
      var canBeDisplayed := visibleHeight >= cellHeight;
      r := LayoutResult(layout.x, layout.y, layout.width, layout.offscreenHeight, visibleHeight, canBeDisplayed, direction);
      assert r == Verdict(cfg, layout, direction);
    }

    /**
     * The first step of `ComputeLayout`: for a bar-button item anchor in the
     * right half of the window, `bottomOffset` is overwritten so that the
     * table's right edge meets the anchor's.
     */
    method AlignRightBarButtonItem(window: Window, fitting: real)
      modifies this`bottomOffset
      ensures Config() == AdjustedConfig(old(Config()), anchorView, window, fitting)
    {
      if anchorView.Some? && IsBarButtonItemAnchorView(anchorView.value) {
        var isRightBarButtonItem := anchorView.value.frame.MinX() > window.frame.MidX();
        if isRightBarButtonItem {
          var w := if width.Some? then width.value else fitting;
          var anchorViewWidth := anchorView.value.frame.width;
          bottomOffset := Point(-(w - anchorViewWidth), 0.0);
        }
      }
    }

    /**
     * The direction switch of `ComputeLayout`: places the table and records
     * the direction used (`Any` again when there is no anchor).
     */
    method PlaceInDirection(window: Window, kb: Keyboard, fitting: real) returns (layout: Placement)
      modifies this`direction
      ensures Resolved(layout, direction) == Resolve(old(Config()), anchorView, window, kb, fitting)
    {
      var cfg := Config();
      if anchorView.None? {
        layout := BottomPlacement(cfg, anchorView, window, kb, fitting);
        direction := Any;
      } else {
        match direction
        case Any =>
          layout := BottomPlacement(cfg, anchorView, window, kb, fitting);
          direction := Bottom;
          if layout.offscreenHeight > 0.0 {
            var topLayout := TopPlacement(cfg, anchorView, window, fitting);
            if topLayout.offscreenHeight < layout.offscreenHeight {
              layout := topLayout;
              direction := Top;
            }
          }
        case Bottom =>
          layout := BottomPlacement(cfg, anchorView, window, kb, fitting);
          direction := Bottom;
        case Top =>
          layout := TopPlacement(cfg, anchorView, window, fitting);
          direction := Top;
      }
    }

    /** `UpdateConstraints`: a deferred layout pass; a layout that cannot be displayed hides the dropdown. */
    method UpdateConstraints(env: Environment) returns (r: LayoutResult)
      modifies this`direction, this`bottomOffset, this`hidden, registry`visible
      ensures LaidOut(old(Config()), env, r)
      ensures !r.canBeDisplayed ==>
        hidden && registry.visible == (if old(registry.visible) == this then null else old(registry.visible))
      ensures r.canBeDisplayed ==> hidden == old(hidden) && registry.visible == old(registry.visible)
    {
      r := ComputeLayout(env);
      if !r.canBeDisplayed {
        Hide();
      }
    }

    /**
     * `Hide`: gives up the slot if this dropdown holds it, then hides the view
     * unless it is hidden already.
     */
    method Hide()
      modifies this`hidden, registry`visible
      ensures registry.visible == if old(registry.visible) == this then null else old(registry.visible)
      ensures hidden
      ensures old(registry.Valid()) ==> registry.Valid()
    {
      if registry.visible == this {
        registry.visible := null;
      }
      if hidden {
        return;
      }
      hidden := true;
    }

    /** `Cancel`: `Hide`, then the `Canceled` event. */
    method Cancel()
      modifies this`hidden, this`events, registry`visible
      ensures registry.visible == if old(registry.visible) == this then null else old(registry.visible)
      ensures hidden
      ensures events == old(events) + [Canceled]
      ensures old(registry.Valid()) ==> registry.Valid()
    {
      Hide();
      events := events + [Canceled];
    }

    /**
     * `Show`: cancels the dropdown in the slot, announces itself, takes the
     * slot and lays itself out. If the layout cannot be displayed it hides
     * again and reports failure; otherwise it becomes visible and reselects
     * its selected row. Either way it reports the off-screen height.
     */
    method Show(env: Environment) returns (ok: bool, offscreenHeight: real, call: TableCall)
      requires registry.Valid()
      modifies this`hidden, this`events, this`direction, this`bottomOffset, this`selectedRowIndex, registry`visible
      modifies Occupant()`hidden, Occupant()`events
      ensures registry.Valid()
      ensures var prev := old(registry.visible);
        prev != null && prev != this ==> prev.hidden && prev.events == old(prev.events) + [Canceled]
      ensures events == old(events) + (if old(registry.visible) == this then [Canceled] else []) + [WillBeShown]
      ensures var r := Layout(old(Config()), anchorView, env.window, env.keyboard, Fitting(env.measure));
        && LaidOut(old(Config()), env, r)
        && ok == r.canBeDisplayed
        && offscreenHeight == r.offscreenHeight
      ensures ok ==> registry.visible == this && !hidden
      ensures !ok ==> registry.visible == null && hidden
      ensures selectedRowIndex == old(selectedRowIndex)
      // a successful show highlights the stored row again; a failed one leaves the table alone
      ensures call == if ok && old(selectedRowIndex).Some? then SelectRow(old(selectedRowIndex).value) else NoCall
    {
      ghost var before := Config();
      CancelOccupant();
      assert Config() == before;
      events := events + [WillBeShown];
      registry.visible := this;

      var layout := ComputeLayout(env);
      if !layout.canBeDisplayed {
        Hide();
        call := NoCall;
      } else {
        hidden := false;
        call := SelectRowAt(selectedRowIndex);
      }
      ok, offscreenHeight := layout.canBeDisplayed, layout.offscreenHeight;
    }

    /** The first step of `Show`: the dropdown holding the slot, if any, is cancelled. */
    method CancelOccupant()
      requires registry.Valid()
      modifies registry`visible, Occupant()`hidden, Occupant()`events
      ensures registry.visible == null
      ensures var prev := old(registry.visible);
        prev != null && prev != this ==> prev.hidden && prev.events == old(prev.events) + [Canceled]
      ensures events == old(events) + (if old(registry.visible) == this then [Canceled] else [])
    {
      var prev := registry.visible;
      if prev != null {
        prev.Cancel();
      }
    }

    /**
     * `HitTest` on the full-screen catcher: in automatic dismiss mode a touch
     * on the dismissable background cancels the dropdown and is swallowed;
     * any other touch is passed on untouched.
     */
    method HitTest(onDismissableView: bool) returns (passedOn: bool)
      modifies this`hidden, this`events, registry`visible
      ensures passedOn <==> !(dismissMode == Automatic && onDismissableView)
      ensures passedOn ==>
        hidden == old(hidden) && events == old(events) && registry.visible == old(registry.visible)
      ensures !passedOn ==>
        && hidden
        && events == old(events) + [Canceled]
        && registry.visible == (if old(registry.visible) == this then null else old(registry.visible))
    {
      if dismissMode == Automatic && onDismissableView {
        Cancel();
        return false;
      }
      return true;
    }

    /** The `DataSource` setter: null becomes the empty data source, and the selection is dropped. */
    method SetDataSource(value: Option<seq<Item>>) returns (call: TableCall)
      modifies this`dataSource, this`selectedRowIndex
      ensures dataSource == (if value.None? then [] else value.value)
      ensures selectedRowIndex == None
      ensures call == DeselectCall(old(selectedRowIndex))
    {
      var items := if value.None? then [] else value.value;
      dataSource := items;
      call := DeselectRowAt(selectedRowIndex);
    }

    /** `SelectRowAt`: the row becomes the selection; no row delegates to `DeselectRowAt` first. */
    method SelectRowAt(index: Option<int>) returns (call: TableCall)
      modifies this`selectedRowIndex
      ensures selectedRowIndex == index
      ensures call == if index.Some? then SelectRow(index.value) else DeselectCall(old(selectedRowIndex))
    {
      if index.Some? {
        call := SelectRow(index.value);
      } else {
        call := DeselectRowAt(selectedRowIndex);
      }
      selectedRowIndex := index;
    }

    /** `DeselectRowAt`: the selection is cleared whatever index is passed. */
    method DeselectRowAt(index: Option<int>) returns (call: TableCall)
      modifies this`selectedRowIndex
      ensures selectedRowIndex == None
      ensures call == DeselectCall(index)
    {
      selectedRowIndex := None;
      if index.None? || index.value < 0 {
        return NoCall;
      }
      return DeselectRow(index.value);
    }

    /** The `SelectedItem` setter: selects the first row holding `item`, if any. */
    method SelectItem(item: Item) returns (call: TableCall)
      modifies this`selectedRowIndex
      ensures item in dataSource ==>
        && selectedRowIndex.Some?
        && 0 <= selectedRowIndex.value < |dataSource|
        && dataSource[selectedRowIndex.value] == item
        && item !in dataSource[..selectedRowIndex.value]
      ensures item in dataSource ==> call == SelectRow(selectedRowIndex.value)
      ensures item !in dataSource ==> selectedRowIndex == old(selectedRowIndex) && call == NoCall
    {
      var index := IndexOf(dataSource, item);
      call := NoCall;
      if index >= 0 {
        call := SelectRowAt(Some(index));
      }
    }

    /**
     * `DropdownDatasource.RowSelected`: a tap on a row records it, raises
     * `SelectedItemChanged`, drops the selection again when the anchor is
     * itself a `UIBarButtonItem` (a menu, whose tapped row is deselected in
     * the table right away), and hides the dropdown.
     */
    method RowSelected(row: int) returns (call: TableCall)
      requires 0 <= row < |dataSource|
      modifies this`selectedRowIndex, this`events, this`hidden, registry`visible
      ensures selectedRowIndex == if anchorView.Some? && IsBarButtonItem(anchorView.value) then None else Some(row)
      ensures events == old(events) + [SelectedItemChanged(row, dataSource[row])]
      ensures hidden
      ensures registry.visible == if old(registry.visible) == this then null else old(registry.visible)
      ensures call == if anchorView.Some? && IsBarButtonItem(anchorView.value) then DeselectRow(row) else NoCall
    {
      selectedRowIndex := Some(row);
      call := NoCall;
      events := events + [SelectedItemChanged(selectedRowIndex.value, dataSource[selectedRowIndex.value])];
      if anchorView.Some? && IsBarButtonItem(anchorView.value) {
        call := DeselectRowAt(selectedRowIndex);
      }
      Hide();
    }
  }

  /**
   * Two dropdowns shown one after the other through the same empty slot: the
   * first ends hidden, with exactly one `Canceled` if it had been shown, and
   * the slot holds the second exactly when its own show succeeded.
   */
  method ShowOneThenAnother(a: Dropdown, b: Dropdown, envA: Environment, envB: Environment)
    returns (okA: bool, okB: bool)
    requires a != b && a.registry == b.registry
    requires a.registry.Valid() && a.registry.visible == null
    modifies a, b, a.registry
    ensures a.hidden
    ensures a.events == old(a.events) + [WillBeShown] + (if okA then [Canceled] else [])
    ensures b.events == old(b.events) + [WillBeShown]
    ensures a.registry.visible == (if okB then b else null)
    ensures okB ==> !b.hidden
  {
    var offscreenA, offscreenB, callA, callB;
    okA, offscreenA, callA := a.Show(envA);
    okB, offscreenB, callB := b.Show(envB);
  }
}
