/**
 * The hover and selection state machine of the colour-grid popover view
 * (QJColorGridView.swift): what the pointer is over after each move,
 * how entering and leaving the view reset the state, and what a release
 * reports to the delegate.
 */
module ColorGridView {
  import opened Wrappers
  import opened ChooserLayout
  import opened GridViewDelegate

  /** A grid cell, by row and column. */
  datatype Cell = Cell(row: nat, col: nat)

  /** The `selection` tuple of the view: origin of the highlighted box and its colour. */
  datatype BoxSelection = BoxSelection(x: real, y: real, color: Color)

  /** What the view shows as hovered: its state, selected colour and highlighted box. */
  datatype Hover = Hover(state: SelectionType, selectedColor: Option<Color>, selection: Option<BoxSelection>)

  /** What one release hands to the delegate: the colour (maybe nil) and the kind. */
  type Report = Option<(Option<Color>, SelectionType)>

  // ---------------------------------------------------------------------
  // Geometry

  /** Upper-left corner of the colour box at (row, col); the grid starts below the default-colour menu row. */
  function BoxOrigin(l: Layout, row: nat, col: nat): (o: Point)
    // with non-negative strides the grid lies right of the margin and below the menu row
    ensures 0.0 <= l.boxWidth + l.horizontalBoxSpacing ==> l.horizontalMargin <= o.x
    ensures 0.0 <= l.boxHeight + l.verticalBoxSpacing ==> l.menuHeight + l.verticalMargin <= o.y
  {
    assert 0.0 <= l.boxWidth + l.horizontalBoxSpacing ==> 0.0 <= (l.boxWidth + l.horizontalBoxSpacing) * (col as real);
    assert 0.0 <= l.boxHeight + l.verticalBoxSpacing ==> 0.0 <= (l.boxHeight + l.verticalBoxSpacing) * (row as real);
    Point(((l.boxWidth + l.horizontalBoxSpacing) * (col as real)) + l.horizontalMargin,
          l.menuHeight + ((l.boxHeight + l.verticalBoxSpacing) * (row as real)) + l.verticalMargin)
  }

  /** The box at (row, col), grown by half the border width on every side, contains p (bounds included). */
  predicate InPaddedBox(l: Layout, row: nat, col: nat, p: Point)
  {
    var o := BoxOrigin(l, row, col);
    var halfBorder := l.boxBorderWidth / 2.0;
    o.x - halfBorder <= p.x <= o.x + l.boxWidth + halfBorder &&
    o.y - halfBorder <= p.y <= o.y + l.boxHeight + halfBorder
  }

  /** The default-colour menu row spans 0 <= y <= menuHeight. */
  predicate InDefaultBand(l: Layout, p: Point)
  {
    l.usesDefaultColor && 0.0 <= p.y <= l.menuHeight
  }

  /** Top of the custom-colour menu row at the bottom of the view. */
  function CustomMenuTop(l: Layout): real
  {
    l.boundsHeight - l.menuHeight - l.verticalBoxSpacing
  }

  /** Top of the custom-colour swatch, centred vertically in its menu row. */
  function CustomSwatchTop(l: Layout): real
  {
    var yStart := CustomMenuTop(l);
    yStart + (Abs(l.boundsHeight - yStart) - l.boxHeight) / 2.0
  }

  predicate InCustomBand(l: Layout, p: Point)
  {
    l.usesCustomColor && CustomMenuTop(l) <= p.y <= l.boundsHeight
  }

  /** The custom-colour swatch, bounds included. */
  predicate InCustomSwatch(l: Layout, p: Point)
  {
    var top := CustomSwatchTop(l);
    l.horizontalMargin <= p.x <= l.horizontalMargin + l.boxWidth &&
    top <= p.y <= top + l.boxHeight
  }

  // ---------------------------------------------------------------------
  // Row-major first-match hit test

  /** (r1, c1) comes strictly before (r2, c2) in row-major order. */
  predicate RowMajorBefore(r1: nat, c1: nat, r2: nat, c2: nat)
  {
    r1 < r2 || (r1 == r2 && c1 < c2)
  }

  predicate IsCell(l: Layout, c: Cell)
  {
    c.row < l.rows && c.col < l.columns
  }

  /**
   * The first cell at or after (row, col), in row-major order, whose padded
   * box contains p; no cell between (row, col) and it contains p.
   */
  function FirstHitFrom(l: Layout, p: Point, row: nat, col: nat): (r: Option<Cell>)
    requires row <= l.rows && col <= l.columns
    ensures r.Some? ==>
      IsCell(l, r.value) && InPaddedBox(l, r.value.row, r.value.col, p) &&
      !RowMajorBefore(r.value.row, r.value.col, row, col)
    ensures forall i: nat, j: nat ::
      i < l.rows && j < l.columns && !RowMajorBefore(i, j, row, col) &&
      (r.None? || RowMajorBefore(i, j, r.value.row, r.value.col))
      ==> !InPaddedBox(l, i, j, p)
    decreases l.rows - row, l.columns - col
  {
    if row == l.rows then None
    else if col == l.columns then FirstHitFrom(l, p, row + 1, 0)
    else if InPaddedBox(l, row, col, p) then Some(Cell(row, col))
    else FirstHitFrom(l, p, row, col + 1)
  }

  /** The grid cell under p: the first in row-major order whose padded box contains p. */
  function Hit(l: Layout, p: Point): (r: Option<Cell>)
    ensures r.Some? ==> IsCell(l, r.value) && InPaddedBox(l, r.value.row, r.value.col, p)
    ensures r.None? <==> forall i: nat, j: nat :: i < l.rows && j < l.columns ==> !InPaddedBox(l, i, j, p)
    ensures r.Some? ==> forall i: nat, j: nat ::
      RowMajorBefore(i, j, r.value.row, r.value.col) && j < l.columns ==> !InPaddedBox(l, i, j, p)
  {
    FirstHitFrom(l, p, 0, 0)
  }

  // ---------------------------------------------------------------------
  // What a move selects

  /**
   * The hover after the pointer moves to p: the default-colour row first,
   * then the custom-colour row (its swatch or the rest of it), then the
   * first grid cell under p, else nothing.
   */
  function Classify(l: Layout, p: Point): (h: Hover)
    requires l.Valid()
    // exactly the grid state carries a colour and a highlighted box
    ensures h.state == ColorGridSelection <==> h.selectedColor.Some?
    ensures h.selectedColor.Some? <==> h.selection.Some?
    // the menu rows win over any grid cell; only outside both is the grid used
    ensures InDefaultBand(l, p) ==> h.state == DefaultColorSelection
    ensures !InDefaultBand(l, p) && InCustomBand(l, p) ==>
      h.state == (if InCustomSwatch(l, p) then CustomColorSelection else CustomColorPanelDesired)
    ensures !InDefaultBand(l, p) && !InCustomBand(l, p) && Hit(l, p).Some? ==> h.state == ColorGridSelection
    ensures h.state == NoSelection <==>
      !InDefaultBand(l, p) && !InCustomBand(l, p) &&
      forall i: nat, j: nat :: i < l.rows && j < l.columns ==> !InPaddedBox(l, i, j, p)
    // a selected colour is that of the first cell under p, and the box is that cell's
    ensures h.selection.Some? ==>
      Hit(l, p).Some? &&
      var c := Hit(l, p).value;
      h.selection.value == BoxSelection(BoxOrigin(l, c.row, c.col).x, BoxOrigin(l, c.row, c.col).y,
                                        l.colors[c.row][c.col]) &&
      h.selectedColor == Some(l.colors[c.row][c.col])
  {
    if InDefaultBand(l, p) then
      Hover(DefaultColorSelection, None, None)
    else if InCustomBand(l, p) then
      Hover(if InCustomSwatch(l, p) then CustomColorSelection else CustomColorPanelDesired, None, None)
    else
      match Hit(l, p)
      case Some(c) =>
        var color := l.colors[c.row][c.col];
        var o := BoxOrigin(l, c.row, c.col);
        Hover(ColorGridSelection, Some(color), Some(BoxSelection(o.x, o.y, color)))
      case None =>
        Hover(NoSelection, None, None)
  }

  /** What a release reports for a state and selected colour. */
  function ReportFor(l: Layout, state: SelectionType, selectedColor: Option<Color>): (r: Report)
    ensures r.None? <==> state == NoSelection
    ensures r.Some? ==> r.value.1 == state
    ensures r.Some? && state != ColorGridSelection ==>
      r.value.0 == Some(if state == DefaultColorSelection then l.defaultColor else l.customColor)
    ensures state == ColorGridSelection ==> r == Some((selectedColor, ColorGridSelection))
  {
    match state
    case ColorGridSelection => Some((selectedColor, ColorGridSelection))
    case CustomColorPanelDesired => Some((Some(l.customColor), CustomColorPanelDesired))
    case DefaultColorSelection => Some((Some(l.defaultColor), DefaultColorSelection))
    case CustomColorSelection => Some((Some(l.customColor), CustomColorSelection))
    case NoSelection => None
  }

  // ---------------------------------------------------------------------
  // The view

  class GridView {
    /** Whether menu items may render as selected. */
    var canSelect: bool
    /** The colour that is currently active. */
    var selectedColor: Option<Color>
    /** The pointer, relative to this view; nil while it is outside. */
    var mouse: Option<Point>
    /** The state of the menu's selection. */
    var menuSelectionState: SelectionType
    /** Origin and colour of the highlighted grid box. */
    var selection: Option<BoxSelection>

    constructor ()
      ensures !canSelect && selectedColor == None && mouse == None
      ensures menuSelectionState == ColorGridSelection && selection == None
    {
      canSelect := false;
      selectedColor := None;
      mouse := None;
      menuSelectionState := ColorGridSelection;
      selection := None;
    }

    /** The pointer entered the view: arm the grid with no colour yet. */
    method MouseEntered()
      modifies this
      ensures canSelect && menuSelectionState == ColorGridSelection && selectedColor == None
      ensures mouse == old(mouse) && selection == old(selection)
    {
      menuSelectionState := ColorGridSelection;
      canSelect := true;
      selectedColor := None;
    }

    /** The pointer left the view: forget the pointer and the colour; the highlighted box stays. */
    method MouseExited()
      modifies this
      ensures !canSelect && mouse == None && selectedColor == None
      ensures menuSelectionState == ColorGridSelection
      ensures selection == old(selection)
    {
      canSelect := false;
      mouse := None;
      selectedColor := None;
      menuSelectionState := ColorGridSelection;
    }

    /**
     * The pointer moved to p (already converted to view coordinates).
     * The outcome depends on p and the layout only, never on the
     * previous state, so moving twice to the same point is the same as once.
     */
    method MouseMoved(l: Layout, p: Point)
      requires l.Valid()
      modifies this
      ensures mouse == Some(p) && canSelect == old(canSelect)
      ensures Hover(menuSelectionState, selectedColor, selection) == Classify(l, p)
    {
      var didSelect := false;
      mouse := Some(p);
      menuSelectionState := ColorGridSelection;
      selectedColor := None;
      selection := None;

      if l.usesDefaultColor {
        if p.y >= 0.0 && p.y <= l.menuHeight {
          menuSelectionState := DefaultColorSelection;
          didSelect := true;
        }
      }

      if l.usesCustomColor && !didSelect {
        var yStart := l.boundsHeight - l.menuHeight - l.verticalBoxSpacing;
        var boxX := l.horizontalMargin;
        var boxY := yStart + (Abs(l.boundsHeight - yStart) - l.boxHeight) / 2.0;
        var boxEndX := boxX + l.boxWidth;
        var boxEndY := boxY + l.boxHeight;
        if p.y >= yStart && p.y <= l.boundsHeight {
          if p.x >= boxX && p.x <= boxEndX && p.y >= boxY && p.y <= boxEndY {
            menuSelectionState := CustomColorSelection;
            didSelect := true;
          } else {
            menuSelectionState := CustomColorPanelDesired;
            didSelect := true;
          }
        }
      }

      if !didSelect {
        selectedColor := None;
        var row := 0;
        label outerSearch:
        while row < l.rows
          invariant row <= l.rows
          invariant !didSelect && selectedColor == None && selection == None
          invariant menuSelectionState == ColorGridSelection && mouse == Some(p)
          invariant FirstHitFrom(l, p, row, 0) == Hit(l, p)
        {
          var column := 0;
          while column < l.columns
            invariant column <= l.columns
            invariant !didSelect && selectedColor == None && selection == None
            invariant menuSelectionState == ColorGridSelection && mouse == Some(p)
            invariant FirstHitFrom(l, p, row, column) == Hit(l, p)
          {
            var color := l.colors[row][column];
            var halfBorder := l.boxBorderWidth / 2.0;
            var origin := BoxOrigin(l, row, column);
            var x, y := origin.x, origin.y;
            if p.x >= x - halfBorder && p.x <= x + l.boxWidth + halfBorder &&
               p.y >= y - halfBorder && p.y <= y + l.boxHeight + halfBorder {
              selectedColor := Some(color);
              selection := Some(BoxSelection(x, y, color));
              didSelect := true;
              menuSelectionState := ColorGridSelection;
              break outerSearch;
            }
            column := column + 1;
          }
          row := row + 1;
        }
      }

      if !didSelect {
        menuSelectionState := NoSelection;
      }
    }

    /** A drag is handled exactly as a move. */
    method MouseDragged(l: Layout, p: Point)
      requires l.Valid()
      modifies this
      ensures mouse == Some(p) && canSelect == old(canSelect)
      ensures Hover(menuSelectionState, selectedColor, selection) == Classify(l, p)
    {
      MouseMoved(l, p);
    }

    /**
     * The button was released: the single report for the delegate, or none
     * when nothing is armed. Nothing in the view changes.
     */
    method MouseUp(l: Layout) returns (report: Report)
      ensures report == ReportFor(l, menuSelectionState, selectedColor)
      ensures report.None? <==> menuSelectionState == NoSelection
    {
      if menuSelectionState == ColorGridSelection {
        report := Some((selectedColor, ColorGridSelection));
      } else if menuSelectionState == CustomColorPanelDesired {
        report := Some((Some(l.customColor), CustomColorPanelDesired));
      } else if menuSelectionState == DefaultColorSelection {
        report := Some((Some(l.defaultColor), DefaultColorSelection));
      } else if menuSelectionState == CustomColorSelection {
        report := Some((Some(l.customColor), CustomColorSelection));
      } else {
        report := None;
      }
    }
  }

  // ---------------------------------------------------------------------
  // Properties

  /** With a positive stride, a box plus its border ends before the next box's border starts. */
  lemma {:induction false} StrideClearsBorder(size: real, gap: real, border: real, k: nat)
    requires 0.0 <= size && 0.0 <= border < gap && 1 <= k
    ensures size + border < (size + gap) * (k as real)
  {
  }

  /**
   * Neighbouring boxes are one box plus one spacing apart, and the first box
   * sits at the margins below the default-colour menu row.
   */
  lemma BoxOriginStride(l: Layout, row: nat, col: nat)
    ensures BoxOrigin(l, 0, 0) == Point(l.horizontalMargin, l.menuHeight + l.verticalMargin)
    ensures BoxOrigin(l, row, col + 1) ==
      Point(BoxOrigin(l, row, col).x + l.boxWidth + l.horizontalBoxSpacing, BoxOrigin(l, row, col).y)
    ensures BoxOrigin(l, row + 1, col) ==
      Point(BoxOrigin(l, row, col).x, BoxOrigin(l, row, col).y + l.boxHeight + l.verticalBoxSpacing)
  {
  }

  /**
   * When the swatch is no taller than the custom-colour menu row, it is
   * centred inside that row, so a point on the swatch is in the row.
   */
  lemma SwatchLiesInCustomRow(l: Layout, p: Point)
    requires 0.0 <= l.boxHeight <= l.menuHeight + l.verticalBoxSpacing
    ensures CustomMenuTop(l) <= CustomSwatchTop(l)
    ensures CustomSwatchTop(l) + l.boxHeight <= l.boundsHeight
    ensures l.usesCustomColor && InCustomSwatch(l, p) ==> InCustomBand(l, p)
  {
  }

  /** In a separated layout, two different cells' padded boxes never share a point. */
  lemma {:induction false} PaddedBoxesDisjoint(l: Layout, r1: nat, c1: nat, r2: nat, c2: nat, p: Point)
    requires l.Separated()
    requires (r1, c1) != (r2, c2)
    ensures !(InPaddedBox(l, r1, c1, p) && InPaddedBox(l, r2, c2, p))
  {
    if r1 < r2 {
      StrideClearsBorder(l.boxHeight, l.verticalBoxSpacing, l.boxBorderWidth, r2 - r1);
      assert BoxOrigin(l, r2, c2).y - BoxOrigin(l, r1, c1).y
          == (l.boxHeight + l.verticalBoxSpacing) * ((r2 - r1) as real);
    } else if r2 < r1 {
      StrideClearsBorder(l.boxHeight, l.verticalBoxSpacing, l.boxBorderWidth, r1 - r2);
      assert BoxOrigin(l, r1, c1).y - BoxOrigin(l, r2, c2).y
          == (l.boxHeight + l.verticalBoxSpacing) * ((r1 - r2) as real);
    } else if c1 < c2 {
      StrideClearsBorder(l.boxWidth, l.horizontalBoxSpacing, l.boxBorderWidth, c2 - c1);
      assert BoxOrigin(l, r2, c2).x - BoxOrigin(l, r1, c1).x
          == (l.boxWidth + l.horizontalBoxSpacing) * ((c2 - c1) as real);
    } else {
      StrideClearsBorder(l.boxWidth, l.horizontalBoxSpacing, l.boxBorderWidth, c1 - c2);
      assert BoxOrigin(l, r1, c1).x - BoxOrigin(l, r2, c2).x
          == (l.boxWidth + l.horizontalBoxSpacing) * ((c1 - c2) as real);
    }
  }

  /** In a separated layout, a point inside a cell's padded box hits exactly that cell. */
  lemma HitIsCellUnderPointer(l: Layout, p: Point, row: nat, col: nat)
    requires l.Separated() && row < l.rows && col < l.columns
    requires InPaddedBox(l, row, col, p)
    ensures Hit(l, p) == Some(Cell(row, col))
  {
    var c := Hit(l, p).value;
    if c != Cell(row, col) {
      PaddedBoxesDisjoint(l, row, col, c.row, c.col, p);
    }
  }

  /**
   * A point inside a cell's padded box and outside both menu rows selects that
   * cell: its colour becomes the selected colour and its box is highlighted.
   */
  lemma MoveOverCellSelectsIt(l: Layout, p: Point, row: nat, col: nat)
    requires l.Valid() && l.Separated() && row < l.rows && col < l.columns
    requires InPaddedBox(l, row, col, p)
    requires !InDefaultBand(l, p) && !InCustomBand(l, p)
    ensures Classify(l, p) == Hover(ColorGridSelection, Some(l.colors[row][col]),
      Some(BoxSelection(BoxOrigin(l, row, col).x, BoxOrigin(l, row, col).y, l.colors[row][col])))
    ensures ReportFor(l, Classify(l, p).state, Classify(l, p).selectedColor)
      == Some((Some(l.colors[row][col]), ColorGridSelection))
  {
    HitIsCellUnderPointer(l, p, row, col);
  }

  /**
   * Releasing right after a move reports nothing exactly when nothing is under
   * the pointer, and a grid report then always carries a colour.
   */
  lemma ReleaseAfterMove(l: Layout, p: Point)
    requires l.Valid()
    ensures var h := Classify(l, p);
      var r := ReportFor(l, h.state, h.selectedColor);
      (r.None? <==> !InDefaultBand(l, p) && !InCustomBand(l, p) && Hit(l, p).None?) &&
      (r.Some? ==> r.value.0.Some?)
  {
  }

  /**
   * A 2 x 4 grid of 10 x 10 boxes, 4 apart, with both menu rows: the pointer
   * at (38, 44) lies in the box of row 1, column 2, and a release reports
   * that cell's colour.
   */
  lemma TwoByFourScenario(colors: seq<seq<Color>>, defaultColor: Color, customColor: Color)
    requires |colors| == 2 && |colors[0]| == 4 && |colors[1]| == 4
    ensures var l := Layout(2, 4, colors, 10.0, 10.0, 1.0, 4.0, 4.0, 5.0, 5.0, 20.0,
                            true, true, defaultColor, customColor, 100.0);
      var h := Classify(l, Point(38.0, 44.0));
      h.selectedColor == Some(colors[1][2]) &&
      ReportFor(l, h.state, h.selectedColor) == Some((Some(colors[1][2]), ColorGridSelection))
  {
    var l := Layout(2, 4, colors, 10.0, 10.0, 1.0, 4.0, 4.0, 5.0, 5.0, 20.0,
                    true, true, defaultColor, customColor, 100.0);
    MoveOverCellSelectsIt(l, Point(38.0, 44.0), 1, 2);
  }

  /** Releasing after the pointer left reports the grid kind with no colour. */
  method ExitThenRelease(v: GridView, l: Layout) returns (report: Report)
    modifies v
    ensures report == Some((None, ColorGridSelection))
  {
    v.MouseExited();
    report := v.MouseUp(l);
  }

  /** A second move to the same point changes nothing. */
  method MoveTwice(v: GridView, l: Layout, p: Point)
    requires l.Valid()
    modifies v
    ensures Hover(v.menuSelectionState, v.selectedColor, v.selection) == Classify(l, p)
  {
    v.MouseMoved(l, p);
    ghost var once := Hover(v.menuSelectionState, v.selectedColor, v.selection);
    v.MouseMoved(l, p);
    assert Hover(v.menuSelectionState, v.selectedColor, v.selection) == once;
  }
}
