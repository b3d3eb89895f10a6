/**
 * The layout the colour-grid view reads from its parent chooser button.
 * The chooser itself is not part of this model; the view only reads these
 * values, so they are an immutable record handed to every event.
 * Coordinates are exact reals: the hit test only adds, multiplies,
 * halves and compares them.
 */
module ChooserLayout {

  /** A colour of the toolkit; the view never looks inside one. */
  type Color

  /** A point in the view's flipped coordinates (top left is 0,0). */
  datatype Point = Point(x: real, y: real)

  datatype Layout = Layout(
    rows: nat,
    columns: nat,
    colors: seq<seq<Color>>,     // colors[row][column]
    boxWidth: real,
    boxHeight: real,
    boxBorderWidth: real,
    horizontalBoxSpacing: real,
    verticalBoxSpacing: real,
    horizontalMargin: real,
    verticalMargin: real,
    menuHeight: real,
    usesDefaultColor: bool,
    usesCustomColor: bool,
    defaultColor: Color,
    customColor: Color,
    boundsHeight: real)          // height of the view's bounds
  {
    /** Every cell the grid scan visits has a colour (the Swift view traps otherwise). */
    predicate Valid() {
      rows <= |colors| &&
      forall row :: 0 <= row < rows ==> columns <= |colors[row]|
    }

    /**
     * A layout whose padded boxes cannot touch: sizes are non-negative and
     * the border is thinner than the gap between two boxes.
     */
    predicate Separated() {
      0.0 <= boxWidth && 0.0 <= boxHeight &&
      0.0 <= boxBorderWidth &&
      boxBorderWidth < horizontalBoxSpacing &&
      boxBorderWidth < verticalBoxSpacing
    }
  }

  function Abs(x: real): (r: real)
    ensures 0.0 <= r && (r == x || r == -x)
  {
    if x < 0.0 then -x else x
  }
}
