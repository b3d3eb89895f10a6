/**
 * The kinds of selection the colour-grid view reports to its delegate
 * (QJColorGridViewSelectionType in QJColorGridViewDelegate.swift).
 */
module GridViewDelegate {
  datatype SelectionType =
    | ColorGridSelection       // a colour was picked from the grid
    | DefaultColorSelection    // the default-colour menu item was picked
    | CustomColorSelection     // the swatch of the custom-colour menu item was picked
    | CustomColorPanelDesired  // the rest of the custom-colour item: open the colour panel
    | NoSelection              // nothing is under the pointer
}
