/** Vendor normalisation of the Non-Labor sheet (focus.py:98-99): a blank
    Vendor Name takes the row's Category, then the card issuer's name is
    replaced by "Credit Card Purchase". */
module Vendors {
  import opened Wrappers
  import opened Rows
  import opened Pivots

  const VendorCol: string := "Vendor Name"
  const Bancorp: string := "U.S. BANCORP"
  const CardPurchase: string := "Credit Card Purchase"

  /** Every row has a Vendor Name cell, and a Category cell where the vendor is blank. */
  predicate VendorSheet(rows: seq<Row>) {
    forall i :: 0 <= i < |rows| ==>
      VendorCol in rows[i].text && (rows[i].text[VendorCol].None? ==> CategoryCol in rows[i].text)
  }

  function FilledVendor(r: Row): Option<string>
    requires VendorCol in r.text && (r.text[VendorCol].None? ==> CategoryCol in r.text)
  {
    if r.text[VendorCol].None? then r.text[CategoryCol] else r.text[VendorCol]
  }

  /** The first assignment: a blank Vendor Name takes the row's Category. */
  function FillVendors(rows: seq<Row>): (filled: seq<Row>)
    requires VendorSheet(rows)
    ensures |filled| == |rows|
    ensures forall i :: 0 <= i < |rows| ==> filled[i] == rows[i].(text := rows[i].text[VendorCol := FilledVendor(rows[i])])
  {
    seq(|rows|, i requires 0 <= i < |rows| => rows[i].(text := rows[i].text[VendorCol := FilledVendor(rows[i])]))
  }

  function Renamed(v: Option<string>): Option<string> {
    if v == Some(Bancorp) then Some(CardPurchase) else v
  }

  /** The second assignment: the exact name "U.S. BANCORP" becomes "Credit Card Purchase". */
  function RenameVendors(rows: seq<Row>): (renamed: seq<Row>)
    requires forall i :: 0 <= i < |rows| ==> VendorCol in rows[i].text
    ensures |renamed| == |rows|
    ensures forall i :: 0 <= i < |rows| ==>
              renamed[i] == rows[i].(text := rows[i].text[VendorCol := Renamed(rows[i].text[VendorCol])])
  {
    seq(|rows|, i requires 0 <= i < |rows| =>
      rows[i].(text := rows[i].text[VendorCol := Renamed(rows[i].text[VendorCol])]))
  }

  /** What the two assignments do to a row: a present name other than the
      card issuer's is kept, the card issuer becomes "Credit Card Purchase", a
      blank name takes the Category (itself renamed if it is the card
      issuer's name), and nothing else in the row changes. */
  function NormaliseVendors(rows: seq<Row>): (n: seq<Row>)
    requires VendorSheet(rows)
    ensures |n| == |rows|
    ensures forall i :: 0 <= i < |rows| ==> VendorCol in n[i].text && n[i].text[VendorCol] != Some(Bancorp)
    ensures forall i :: 0 <= i < |rows| && rows[i].text[VendorCol] == Some(Bancorp) ==>
              n[i].text[VendorCol] == Some(CardPurchase)
    ensures forall i :: 0 <= i < |rows| && rows[i].text[VendorCol].Some? && rows[i].text[VendorCol] != Some(Bancorp) ==>
              n[i].text[VendorCol] == rows[i].text[VendorCol]
    ensures forall i :: 0 <= i < |rows| && rows[i].text[VendorCol].None? ==>
              n[i].text[VendorCol] == (if rows[i].text[CategoryCol] == Some(Bancorp) then Some(CardPurchase)
                                       else rows[i].text[CategoryCol])
    ensures forall i :: 0 <= i < |rows| ==>
              && n[i].text.Keys == rows[i].text.Keys
              && (forall c :: c in rows[i].text && c != VendorCol ==> n[i].text[c] == rows[i].text[c])
              && n[i].num == rows[i].num
              && n[i].directorate == rows[i].directorate && n[i].division == rows[i].division
              && n[i].fundType == rows[i].fundType
  {
    RenameVendors(FillVendors(rows))
  }

  /** Renaming twice is renaming once. */
  lemma NormaliseVendorsIdempotent(rows: seq<Row>)
    requires VendorSheet(rows)
    ensures VendorSheet(NormaliseVendors(rows))
    ensures NormaliseVendors(NormaliseVendors(rows)) == NormaliseVendors(rows)
  {
    var n := NormaliseVendors(rows);
    forall i | 0 <= i < |rows| ensures NormaliseVendors(n)[i] == n[i] {
      assert n[i].text[VendorCol := n[i].text[VendorCol]] == n[i].text;
    }
  }

  /** The pivot never reads Vendor Name, so normalising the vendors leaves
      Tab 3's pivot as it was. */
  lemma NormaliseVendorsKeepsPivot(rows: seq<Row>)
    requires VendorSheet(rows) && PivotSheet(rows)
    ensures PivotSheet(NormaliseVendors(rows))
    ensures CellEntries(NormaliseVendors(rows)) == CellEntries(rows)
    ensures NlPivot(NormaliseVendors(rows)) == NlPivot(rows)
  {
    var n := NormaliseVendors(rows);
    forall i | 0 <= i < |rows| ensures CategoryCol in n[i].text && n[i].text[CategoryCol] == rows[i].text[CategoryCol]
                                && CumCommCol in n[i].num && n[i].num == rows[i].num && GroupKey(n[i]) == GroupKey(rows[i]) {
    }
    assert CellEntries(n) == CellEntries(rows);
  }
}
