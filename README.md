# QJColorChooser colour-grid view: hover and selection state machine

This project models the core of the popover view of the QJColorChooser
colour button (`QJColorGridView`). The view tracks the pointer and decides
what is under it. It can be the default-colour menu row at the top, the
custom-colour menu row at the bottom, or one swatch of the colour grid.
Within the custom row it tells the swatch apart from the rest of the row.
On release, it hands one report to its delegate.

Modules:

- `ChooserLayout` (`layout.dfy`): the values the view reads from its parent chooser.
  These are the grid size, the colour matrix, the box geometry, the spacing and
  margins, the menu height, the two menu flags and their colours, and the
  view's height. The colour type is abstract.
- `GridViewDelegate` (`selection_type.dfy`): the five selection kinds.
- `ColorGridView` (`color_grid_view.dfy`): the geometry predicates and the
  row-major first-match hit test (`FirstHitFrom`, `Hit`). It also holds the
  specification of a move (`Classify`) and of a release (`ReportFor`).
  The class `GridView` has the view's five state fields and its mouse
  handlers. The lemmas about them are here too.
- `MenuText` (`menu_text.dfy`): `UnwrappableString`.
- `Wrappers` (`wrappers.dfy`): `Option`, for Swift optionals.

`MouseMoved` keeps the shape of the Swift `mouseMoved`: the `didSelect` flag, the two band
tests and the nested row/column scan with its labelled `break outerSearch`.
It is proved equal to `Classify`. Since its postcondition does not mention
the previous state, two moves to the same point leave the same state as one.
`MouseUp` returns the delegate report instead of calling `colorWasSelected`.

The parent chooser is not part of this model. Its layout is an immutable
`Layout` record passed to each event. The pointer, already converted to view
coordinates, is a parameter of `MouseMoved` and `MouseDragged`.

Leaving the view does not reset the state to `noSelection`: `mouseExited`
(QJColorGridView.swift:184-190) sets `colorGridSelection` and keeps
`selection`, so a release right after leaving reports the grid kind with no
colour (`ExitThenRelease`).

## Model

| member | source | states |
|---|---|---|
| `ColorGridView.GridView.constructor` | QJColorChooser/QJColorGridView.swift:22-43 | A new view cannot select, has no pointer, colour or highlighted box, and is in the grid state. |
| `ColorGridView.GridView.MouseEntered` | QJColorChooser/QJColorGridView.swift:169-179 | Entering makes the view selectable and arms the grid state with no colour. The pointer and highlighted box are unchanged. |
| `ColorGridView.GridView.MouseExited` | QJColorChooser/QJColorGridView.swift:181-193 | Leaving makes the view unselectable and forgets the pointer and the colour. The state becomes the grid state and the highlighted box is kept. |
| `ColorGridView.GridView.MouseMoved` | QJColorChooser/QJColorGridView.swift:199-274 | After a move the pointer is the new point and selectability is unchanged. State, colour and box equal `Classify` of the point and the layout, independent of the previous state. |
| `ColorGridView.GridView.MouseDragged` | QJColorChooser/QJColorGridView.swift:195-197 | A drag has exactly the effect of a move. |
| `ColorGridView.GridView.MouseUp` | QJColorChooser/QJColorGridView.swift:276-287 | A release changes nothing. It reports nothing exactly in the no-selection state, and otherwise the one report `ReportFor` gives. |
| `ColorGridView.ReportFor` | QJColorChooser/QJColorGridViewDelegate.swift:31 | The release mapping is total. Only the no-selection state gives no report, and every report echoes the state. The grid state reports the selected colour, which may be nil. The default row reports the default colour, and both custom kinds report the custom colour. |
| `ColorGridView.Classify` | QJColorChooser/QJColorGridView.swift:205-273 | The default row wins, then the custom row: its swatch gives a custom-colour selection, the rest asks for the colour panel. Outside both rows, a hit cell gives the grid state. The state is grid iff a colour is selected iff a box is highlighted. No selection iff neither row nor any padded box contains the point. A selected colour and box are those of the first hit cell. |
| `ColorGridView.FirstHitFrom` | QJColorChooser/QJColorGridView.swift:245-265 | The scan from (row, col) returns a grid cell whose padded box contains the point and that is not before (row, col). No cell from (row, col) up to the result, or to the end when there is none, contains the point. |
| `ColorGridView.Hit` | QJColorChooser/QJColorGridView.swift:247-265 | The row-major scan finds a cell iff some padded box contains the point. The cell found is in the grid and contains the point, and no earlier cell does. |
| `ColorGridView.BoxOrigin` | QJColorChooser/QJColorGridView.swift:252-253 | The box origin used by both drawing (lines 122-123) and the hit test. With non-negative strides every origin lies right of the horizontal margin and below the menu row plus the vertical margin. |
| `ColorGridView.BoxOriginStride` | QJColorChooser/QJColorGridView.swift:122-123 | The first box sits at the margins below the menu row. The next column is one box width plus one horizontal spacing to the right, and the next row one box height plus one vertical spacing lower. |
| `ColorGridView.SwatchLiesInCustomRow` | QJColorChooser/QJColorGridView.swift:221-227 | When the swatch is no taller than the custom row, it is centred inside that row, so a point on the swatch is in the row. |
| `ChooserLayout.Abs` | QJColorChooser/QJColorGridView.swift:223 | Swift's `abs`: the result is non-negative and equals the argument or its negation. |
| `ColorGridView.PaddedBoxesDisjoint` | QJColorChooser/QJColorGridView.swift:252-256 | Take box origins from the grid formula, non-negative sizes, and a border narrower than both spacings. Then two different cells' padded boxes share no point. |
| `ColorGridView.HitIsCellUnderPointer` | QJColorChooser/QJColorGridView.swift:247-262 | In such a layout, a point in a cell's padded box hits that very cell. |
| `ColorGridView.MoveOverCellSelectsIt` | QJColorChooser/QJColorGridView.swift:245-262 | In a separated layout, outside both menu rows, a point in a cell's padded box selects that cell's colour and highlights its box origin. A release then reports that colour with the grid kind. |
| `ColorGridView.TwoByFourScenario` | QJColorChooser/QJColorGridView.swift:247-262 | In a 2x4 grid, a point inside the box of row 1, column 2 selects colors[1][2], and a release reports it. |
| `ColorGridView.ReleaseAfterMove` | QJColorChooser/QJColorGridView.swift:268-287 | A release right after a move reports nothing iff no menu row and no cell is under the pointer. Any report then carries a colour. |
| `ColorGridView.ExitThenRelease` | QJColorChooser/QJColorGridView.swift:184-190 | A release after leaving reports the grid kind with a nil colour. |
| `ColorGridView.MoveTwice` | QJColorChooser/QJColorGridView.swift:199-208 | A second move to the same point leaves the state of the first move. |
| `MenuText.ReplaceAll` | QJColorChooser/QJColorGridView.swift:399-400 | Replacing one character keeps the length. Each position equal to the old character holds the new one, and every other position is unchanged. |
| `MenuText.UnwrappableString` | QJColorChooser/QJColorGridView.swift:398-402 | The length is kept. A space becomes U+00A0 and a hyphen becomes U+2011, and every other character is unchanged. The result has no space and no hyphen. |
| `MenuText.UnwrappableIdempotent` | QJColorChooser/QJColorGridView.swift:398-402 | Applying the substitution twice gives the same string as applying it once. |

## Left out

- Drawing is not modelled: `draw`, `drawColorBoxAt`, `adjustStrokeForSelection`, `drawMenuString` and `menuTextSize`. These are fills, strokes and font metrics with no decision logic. The box-origin formula they share with the hit test is `BoxOrigin`.
- Toolkit plumbing is not modelled: tracking rectangles, `setFrameSize`, `acceptsMouseMovedEvents`, `makeFirstResponder`, the redraw requests and the conversion of the event location from window coordinates. The converted point is a parameter.
- `CGFloat` rounding is not modelled; coordinates are exact reals.
- The parent chooser is not part of this model. Its properties are the `Layout` record, and the `parent!` unwraps become a required argument.
- The colour queries `colorBrightness`, `alphaComponent` and `isEqualToColor` are used only for drawing, and colours are abstract.
- `Layout.Valid` requires the colour matrix to cover every scanned cell. The Swift view traps on an out-of-range index instead.
- The `trackingTag` and `menuFont` properties belong to the left-out plumbing and drawing.
- `MenuText.UnwrappableString`: menu titles are modelled as sequences of Unicode scalars. `NSString.replacingOccurrences` works on UTF-16 code units with its default comparison rules, which are not modelled.
- The example application and the chooser's own delegate protocol hold no logic of the view.
