# MaterialDropdown in Dafny

A model of the `Dropdown` view of MaterialDropdown, a Xamarin.iOS dropdown
menu. The dropdown is anchored to a view or a bar-button item. Its model has
three parts:

- **The layout engine** (`layout.dfy`, module `LayoutEngine`). Each step of
  `ComputeLayout` is a function:
  - the bottom placement (`ComputeLayoutBottomDisplay`);
  - the top placement (`ComputeLayoutForTopDisplay`);
  - widening to the content (`ConstraintWidthToFittingSizeIfNecessary`);
  - pulling back inside the window (`ConstraintWidthToBoundsIfNecessary`);
  - the overwrite of the bottom offset for a bar-button item on the right;
  - the direction switch and the final verdict.

  `Layout` composes them in the source's order. Constants are
  `HeightPadding = 20` and the default row height of 44, from
  `MaterialDropdown/DropdownConstant.cs`. Coordinates and sizes (`nfloat`)
  are reals.
- **The dropdown object** (`dropdown.dfy`, module `Dropdowns`). `Dropdown` is
  a class with the fields the core reads and writes. Its `ComputeLayout`
  updates `direction` and `bottomOffset` in place and is proved equal to
  `Layout`. It also has:
  - the fitting-width loop;
  - `Show`, `Hide`, `Cancel` and `UpdateConstraints`;
  - the background hit test;
  - the `DataSource` and `SelectedItem` setters;
  - `SelectRowAt` and `DeselectRowAt`;
  - the table source's `RowSelected`.

  The static weak `VisibleDropDown` slot is a `Registry` object shared by
  all dropdowns. Raised events (`WillBeShown`, `Canceled`,
  `SelectedItemChanged`) are appended to an `events` sequence.
- **Selection helpers** (`selection.dfy`, module `Selection`): the call a
  selection change makes on the table view, and `Array.IndexOf`.

`geometry.dfy` holds points, rectangles and `Abs`. `wrappers.dfy` holds
`Option`.

The host is a parameter `Environment`, which holds:
- the visible window, absent when none qualifies;
- the shared keyboard listener's state;
- the measurement of one row, the compressed width of the configured template cell.

Where the code's behaviour may be unexpected, the model follows the code:
- `Direction` keeps the direction a layout pass resolved, so a later pass
  starts from `Top` or `Bottom`, not `Any`.
- The bottom offset of a right-hand bar-button item is overwritten for good.
- `Show` reports the off-screen height even when it succeeds.
- Below an anchor, the table starts at the anchor's top edge (`GetMinY`),
  not its bottom edge. In `ScenarioAnchorNearBottomOpensUpwards` the table
  overflows by 120, not 160.
- `RowSelected` tests `AnchorView as UIBarButtonItem`. The library's own
  anchor wrappers are never a `UIBarButtonItem`, so only a client's own
  anchor class can make it deselect.

In one place the class follows the evidently intended code instead: its
`DeselectRowAt`, and so the `DataSource` setter and `SelectRowAt(null)`,
use the corrected guard described under "## Findings". The guard as
written is modelled beside it in `Selection.DeselectCallAsWritten`.

Data-source items are opaque values compared with `==`, which stands for
their `Equals`; two items with the same row text may be different items.

## Model

| member | source | states |
|---|---|---|
| LayoutEngine.MaxWidthIsLeastUpperBound | MaterialDropdown/Dropdown.cs:870-893 | the fitting width is non-negative, at least every row's width, and either 0 or the width of some row |
| LayoutEngine.BottomPlacement | MaterialDropdown/Dropdown.cs:819-846 | the off-screen height is non-negative; the on-screen part ends above the keyboard edge while the keyboard is up, and above the window bottom otherwise; the edge that applies is the keyboard edge when the table reaches it and the window bottom otherwise; the table is cut exactly at that edge, and not at all when it ends above it; the width is the explicit width, else the anchor's bounds width (or, with no anchor, the fitting width) less the offset's x; with no anchor in a window the table is centred on the window horizontally, and vertically too unless that would put its top above y = 0, in which case it starts at 0; the offset is added in both cases |
| LayoutEngine.BottomOverflow | MaterialDropdown/Dropdown.cs:829-843 | the bottom off-screen height is the overshoot past the keyboard edge when the keyboard is up and reached, else the overshoot past the window bottom, else 0 |
| LayoutEngine.BottomOrigin | MaterialDropdown/Dropdown.cs:822-828 | below an anchor that is in a window, the origin is the anchor's top-left corner plus the bottom offset, with a negative anchor y raised to 0 |
| LayoutEngine.TopPlacement | MaterialDropdown/Dropdown.cs:848-868 | the table stays 20 points below the window top; the clamp moves it down by exactly the height it hides; and a non-zero cut means it sits exactly at that limit; x is the anchor's left edge (0 with no anchor in a window) plus the top offset; the width is the explicit width, else the anchor's bounds width (or the fitting width) less the top offset's x |
| LayoutEngine.WidenToContent | MaterialDropdown/Dropdown.cs:919-927 | with an explicit width nothing changes; otherwise the width becomes at least the fitting width and never shrinks; the position and the cut are kept |
| LayoutEngine.ConstrainToBounds | MaterialDropdown/Dropdown.cs:895-917 | the right edge ends inside the window; an overflowing table ends exactly at the window's right edge with x >= 0 and no extra width; the width shrinks only when x is pinned at 0; one that fits is unchanged |
| LayoutEngine.Layout | MaterialDropdown/Dropdown.cs:743-817 | the whole pass: a non-negative cut; no window means it cannot be displayed; with a window the table's right edge is inside it |
| LayoutEngine.LayoutWithoutWindow | MaterialDropdown/Dropdown.cs:748-753 | without a window the result is all zeros, cannot be displayed, and keeps the configured direction |
| LayoutEngine.LayoutVerdict | MaterialDropdown/Dropdown.cs:812-815 | visible height is table height minus the cut, never above the table height, and it can be displayed iff it holds one row |
| LayoutEngine.EmptyDataSourceNeverDisplays | MaterialDropdown/Dropdown.cs:1101-1107 | with no rows and a positive row height the dropdown can never be displayed |
| LayoutEngine.LayoutDirection | MaterialDropdown/Dropdown.cs:773-805 | no anchor gives `Any`; `Top` and `Bottom` are kept; `Any` resolves to `Top` exactly when the bottom placement is cut and the top one is cut less, else `Bottom` |
| LayoutEngine.LayoutVerticalPlacement | MaterialDropdown/Dropdown.cs:773-809 | the result's y and cut are those of the placement for the resolved direction |
| LayoutEngine.LayoutWidth | MaterialDropdown/Dropdown.cs:808-809 | the final width is the explicit width (or at least the fitting width without one), unless the table was pinned at x = 0 and narrowed to the window |
| LayoutEngine.FitsBelowStaysBelow | MaterialDropdown/Dropdown.cs:779-793 | with `Any`, no keyboard, and room below the anchor, the table goes below, whole |
| LayoutEngine.RightBarButtonItemAlignsRightEdges | MaterialDropdown/Dropdown.cs:755-770 | for a bar-button item right of the window's middle, the overwritten bottom offset puts the table's right edge on the anchor's right edge |
| LayoutEngine.AdjustedBottomOffsetIsStable | MaterialDropdown/Dropdown.cs:755-770 | overwriting the bottom offset twice on the same geometry gives the same offset as once |
| LayoutEngine.ScenarioAnchorNearBottomOpensUpwards | MaterialDropdown/Dropdown.cs:779-793 | an anchor near the bottom of an 800-high window: 120 would be cut below, so the five rows open upwards at y = 520, whole |
| LayoutEngine.ScenarioKeyboardUpButNoOverlap | MaterialDropdown/Dropdown.cs:834-842 | a keyboard that is up but below the table cuts nothing |
| Selection.DeselectCallAsWritten | MaterialDropdown/Dropdown.cs:1064-1070 | the guard as written: a table call is made iff a negative index is given, and it deselects that index |
| Selection.RowDeselectDiscrepancy | MaterialDropdown/Dropdown.cs:1064-1070 | for every row >= 0 the two guards disagree: as written no table call is made, corrected the row is deselected |
| Selection.DeselectRowZeroDiscrepancy | MaterialDropdown/Dropdown.cs:1067 | for row 0 the guard as written makes no call; the corrected guard deselects row 0 |
| Selection.DeselectCall | MaterialDropdown/Dropdown.cs:1064-1070 | a table call is made iff a non-negative index is given, and it deselects that row |
| Selection.IndexOf | MaterialDropdown/Dropdown.cs:1092-1097 | -1 iff the item is absent; otherwise the first position holding it |
| Selection.IndexOfTellsDistinctItemsApart | MaterialDropdown/Dropdown.cs:1092-1097 | two distinct items are found at their own rows even if they show the same text |
| Dropdowns.Registry.constructor | MaterialDropdown/Dropdown.cs:39-52 | the static `VisibleDropDown` slot starts empty; `GetVisibleDropdown` (Dropdown.cs:929-934) is the read of its `visible` field |
| Dropdowns.Dropdown.constructor | MaterialDropdown/Dropdown.cs:523-593 | a new dropdown: no anchor, direction `Any`, zero offsets, row height 44, empty data, no selection, `OnTap`, hidden, no events |
| Dropdowns.Dropdown.FittingWidth | MaterialDropdown/Dropdown.cs:870-893 | the loop returns the widest measured row (0 for none), at least every row's width |
| Dropdowns.Dropdown.ComputeLayout | MaterialDropdown/Dropdown.cs:743-817 | the result equals `Layout` of the fields before the pass; `direction` becomes the resolved direction and `bottomOffset` the adjusted offset; with no window nothing changes |
| Dropdowns.Dropdown.AlignRightBarButtonItem | MaterialDropdown/Dropdown.cs:755-770 | the configuration afterwards is the adjusted configuration: only the bottom offset changes, and only for a right-hand bar-button item |
| Dropdowns.Dropdown.PlaceInDirection | MaterialDropdown/Dropdown.cs:773-805 | the placement and the stored direction are those of the direction switch on the configuration before the step |
| Dropdowns.Dropdown.UpdateConstraints | MaterialDropdown/Dropdown.cs:595-625 | runs a layout pass; a layout that cannot be displayed hides the dropdown and frees the slot it held; otherwise visibility and slot are unchanged |
| Dropdowns.Dropdown.Hide | MaterialDropdown/Dropdown.cs:988-1016 | the slot is cleared only if this dropdown holds it; the dropdown ends hidden; the slot stays consistent |
| Dropdowns.Dropdown.Cancel | MaterialDropdown/Dropdown.cs:1018-1022 | `Hide`, then exactly one `Canceled` event |
| Dropdowns.Dropdown.CancelOccupant | MaterialDropdown/Dropdown.cs:942-947 | the dropdown in the slot, if any, is cancelled (hidden, one `Canceled`) and the slot is empty |
| Dropdowns.Dropdown.Show | MaterialDropdown/Dropdown.cs:940-985 | a different dropdown in the slot is hidden with one `Canceled`; this one raises `WillBeShown`; the result is the layout pass's verdict and cut; on success it holds the slot and is visible, on failure the slot is empty and it is hidden; the selection is unchanged; on success the stored row, if any, is selected in the table again, and a failed show makes no table call |
| Dropdowns.Dropdown.HitTest | MaterialDropdown/Dropdown.cs:1109-1121 | a touch on the background in `Automatic` mode cancels the dropdown and is swallowed; any other touch is passed on and changes nothing |
| Dropdowns.Dropdown.SetDataSource | MaterialDropdown/Dropdown.cs:441-451 | null becomes the empty data source; the selection is cleared and its row deselected, with the corrected guard (see "## Findings") |
| Dropdowns.Dropdown.SelectRowAt | MaterialDropdown/Dropdown.cs:1048-1062 | the index becomes the selection; a row index selects that row, and no index deselects the old selection with the corrected guard (see "## Findings") |
| Dropdowns.Dropdown.DeselectRowAt | MaterialDropdown/Dropdown.cs:1064-1070 | the selection is cleared for any index; the table call is the corrected `DeselectCall` |
| Dropdowns.Dropdown.SelectItem | MaterialDropdown/Dropdown.cs:1092-1097 | an item in the data source (by equality, standing for `Equals`) selects its first row and selects that row in the table; an absent item leaves the selection as it was and makes no table call |
| Dropdowns.Dropdown.RowSelected | MaterialDropdown/Dropdown.cs:1210-1227 | the row is recorded and `SelectedItemChanged` carries it with its item; an anchor that is a `UIBarButtonItem` drops the selection again; the dropdown ends hidden and out of the slot; the table call is the deselect of the tapped row for such a menu anchor (with the corrected guard; as written it is lost, see "## Findings") and none otherwise |
| Dropdowns.ShowOneThenAnother | MaterialDropdown/Dropdown.cs:940-947 | showing two dropdowns in turn through an empty slot leaves the first hidden, with one `Canceled` if it had been shown; the slot holds the second exactly when its show succeeded |

## Left out

- UIKit plumbing is not modelled: constraints, subviews, animations, alpha and transforms, scroll indicators, cell styling, shadows and fonts. `Hidden = true` at the end of the hide animation is taken to happen as soon as `Hide` returns.
- `VisibleWindow` and the keyboard listener are inputs in `Environment`, so the notifications that update the keyboard state are left out.
- `FittingWidth` configures and sizes the template cell for each row. That measurement is the `measure` parameter. `ConfigureCellAt`, `GetCell` and `WillDisplay` are not part of this model.
- Weak references and garbage collection are left out. The slot holds the dropdown directly, and a collected dropdown would read as an empty slot in the source.
- The four-argument constructor is not modelled, because it skips `Setup`. The `frame` and `NSCoder` constructors are equal to the modelled parameterless one.
- The `DismissMode` setter is not modelled. For `OnTap` it adds a tap recogniser to the background view, and otherwise it removes one. `Setup` assigns the field directly, so a fresh dropdown has no recogniser. Recognisers are UIKit state outside this model. `DismissableViewTapped`, which the recogniser runs, only calls `Cancel`, which is modelled.
- The deferred `SetupUI` is taken to have run by the time the constructor returns. The source queues it on the main queue. It sets `Hidden = true`, and it copies `cellHeight` into `tableView.RowHeight`. The model reads `cellHeight` wherever the source reads `tableView.RowHeight` (`minHeight` and `TableHeight`), and the `CellHeight` setter keeps the two equal.
- A `UIBarButtonItemAnchorView` has a null `PlainView` until its item is given a view. `ComputeLayout` then throws at Dropdown.cs:760 and 822. The model's `Anchor` always has a frame and a bounds width, so that exception is not modelled.
- Event handlers are client code that runs synchronously and may call back into the dropdown. `WillBeShown` runs before the slot is taken, and `SelectedItemChanged` runs before `Hide`. The model only appends the event to `events` and does not model re-entrant calls.
- `IndexForSelectedRow` and the `SelectedItem` getter are not modelled. They read the table view's own selection state, and the model keeps that only as the returned `TableCall`.
- `CGRect` standardisation of negative sizes is left out. `GetMinX`, `GetMidX` and the rest are taken on the rectangle as given.
- The anchor's frame, bounds width and window frame are independent inputs. Their UIKit relation is not modelled.
- `nfloat` rounding is left out, because coordinates are real numbers.

## Findings

| source | as written | input that shows it | evidently intended | confidence | as-written member | corrected member |
|---|---|---|---|---|---|---|
| MaterialDropdown/Dropdown.cs:1067 | `DeselectRowAt` returns early when `index == null \|\| index.Value >= 0`, so every real row is skipped and only negative indexes reach `tableView.DeselectRow` | `DeselectRowAt(0)` after `SelectRowAt(0)`: no deselect call, so row 0 stays highlighted | return early on `index == null \|\| index.Value < 0`, so that valid rows are deselected | high; not executed | Selection.DeselectCallAsWritten | Selection.DeselectCall |
