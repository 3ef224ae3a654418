/** A loaded sheet whose columns the dashboard overwrites in place
    (`df[cols] = ...`, focus.py:29, 62, 98-99, 119-120, 173, 183). Each method
    is one such assignment: the new rows are the function of the old rows
    that the other modules define and reason about. */
module Frames {
  import opened Rows
  import opened Filters
  import opened Normalise
  import opened Vendors
  import opened Funds
  import opened Projections

  class Frame {
    var rows: seq<Row>

    constructor (rows: seq<Row>)
      ensures this.rows == rows
    {
      this.rows := rows;
    }

    /** Forward-fills the hierarchy columns (focus.py:29). */
    method ForwardFillKeys()
      modifies this
      ensures rows == FillKeys(old(rows))
    {
      rows := FillKeys(rows);
    }

    /** Keeps the rows the sidebar selection matches (focus.py:49-52). */
    method Filter(sel: Selection)
      modifies this
      ensures rows == ApplyFilters(old(rows), sel)
    {
      rows := ApplyFilters(rows, sel);
    }

    /** Writes 0 into the blank cells of the listed columns (focus.py:62, 119). */
    method FillMissingWithZero(cols: seq<string>)
      modifies this
      ensures rows == FillZero(old(rows), cols)
    {
      rows := FillZero(rows, cols);
    }

    /** The two Vendor Name assignments (focus.py:98-99). */
    method NormaliseVendorNames()
      requires VendorSheet(rows)
      modifies this
      ensures rows == NormaliseVendors(old(rows))
    {
      rows := FillVendors(rows);
      rows := RenameVendors(rows);
    }

    /** Adds the Available column (focus.py:120). */
    method AddAvailable()
      requires HasNum(rows, AllotmentCol) && HasNum(rows, CommitmentsCol)
      modifies this
      ensures rows == WithAvailable(old(rows))
    {
      rows := WithAvailable(rows);
    }

    /** Scales one projected column (focus.py:173). */
    method ScaleProjection(col: string, p: int)
      requires HasNum(rows, col)
      modifies this
      ensures rows == ScaleColumn(old(rows), col, p)
    {
      rows := ScaleColumn(rows, col, p);
    }

    /** Adds the Total column (focus.py:183-186). */
    method AddTotalColumn()
      requires ScenarioSheet(rows)
      modifies this
      ensures rows == AddTotal(old(rows))
    {
      rows := AddTotal(rows);
    }
  }
}
