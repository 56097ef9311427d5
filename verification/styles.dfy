/** Cell styling: two address lists, one painted with the bold orange
    header style and one with the plain green content style. An address is
    painted only when the sheet has a cell there; painting never creates a
    cell. Style internals (colour codes, font, borders) are reduced to the
    accent tag and the bold flag. */
module Styles {
  import opened A1
  import opened HldForm
  import opened Layout

  datatype Accent = Orange | Green

  /** The orange style is bold, the green one is not. */
  function Bold(a: Accent): bool {
    a == Orange
  }

  /** The header list, as written (several entries point at blank rows),
      in the groups of its source comments. */
  const OrangeSections: seq<string> := OrangeHeader + OrangeDates + OrangeTitles

  const OrangeHeader: seq<string> := ["A1", "E1", "K1", "O1", "A3", "E3", "K3", "O3"]
  const OrangeDates: seq<string> := ["O7", "S7", "O9", "S9", "O11", "S11"]
  const OrangeTitles: seq<string> := ["A17", "A22", "A34", "A41", "A48"]

  /** The content list, as written. Its K/U entries sit above the label and
      value rows their comments name: the four Design Considerations pairs by
      one row, the two Architecture pairs by three and four rows, and the
      four Interface Design pairs by five rows, all on one-cell rows. "U50",
      commented as Test1, names the Impact value cell (49, 20). */
  const GreenCells: seq<string> := GreenOverview + GreenConsiderations + GreenArchitecture + GreenInterface

  const GreenOverview: seq<string> := ["A13", "A15", "A19"]
  const GreenConsiderations: seq<string> := ["K23", "U23", "K26", "U26", "K29", "U29", "K32", "U32"]
  const GreenArchitecture: seq<string> := ["A36", "K36", "U36", "K38", "U38"]
  const GreenInterface: seq<string> := [
    "A43", "K43", "U43", "K44", "U44", "K45", "U45", "K46", "U46", "A50", "U50"
  ]

  /** Some entry of `addrs` names `cell`, and the sheet has that cell. */
  predicate Listed(g: Grid, addrs: seq<string>, cell: Cell) {
    InGrid(g, cell) && exists i :: 0 <= i < |addrs| && Decode(addrs[i]) == Some(cell)
  }

  /** `addrs.forEach(a => { if (ws[a]) ws[a].s = style })` over the style
      map `m`. */
  function Paint(g: Grid, addrs: seq<string>, a: Accent, m: map<Cell, Accent>): (r: map<Cell, Accent>)
    ensures forall cell :: cell in r <==> cell in m || Listed(g, addrs, cell)
    ensures forall cell :: cell in r ==> r[cell] == if Listed(g, addrs, cell) then a else m[cell]
  {
    if |addrs| == 0 then m
    else
      var m' := match Decode(addrs[0])
                case Some(cell) => if InGrid(g, cell) then m[cell := a] else m
                case None => m;
      var r := Paint(g, addrs[1..], a, m');
      assert forall cell :: Listed(g, addrs, cell) <==>
               Listed(g, addrs[1..], cell) || (InGrid(g, cell) && Decode(addrs[0]) == Some(cell)) by {
        forall cell
          ensures Listed(g, addrs, cell) ==>
                    Listed(g, addrs[1..], cell) || (InGrid(g, cell) && Decode(addrs[0]) == Some(cell))
        {
          if Listed(g, addrs, cell) {
            var i :| 0 <= i < |addrs| && Decode(addrs[i]) == Some(cell);
            if i > 0 {
              assert addrs[1..][i - 1] == addrs[i];
            }
          }
        }
        forall cell | Listed(g, addrs[1..], cell)
          ensures Listed(g, addrs, cell)
        {
          var i :| 0 <= i < |addrs[1..]| && Decode(addrs[1..][i]) == Some(cell);
          assert addrs[i + 1] == addrs[1..][i];
        }
      }
      r
  }

  /** The styles of the sheet: orange first, then green. */
  function CellStyles(g: Grid): map<Cell, Accent> {
    Paint(g, GreenCells, Green, Paint(g, OrangeSections, Orange, map[]))
  }

  /** Styles land only on cells the sheet has; a cell is styled exactly
      when one of the two lists names it, and a cell named by the green
      list is green. */
  lemma StylesOnExistingCells(g: Grid, cell: Cell)
    ensures cell in CellStyles(g) <==> Listed(g, OrangeSections, cell) || Listed(g, GreenCells, cell)
    ensures cell in CellStyles(g) ==> InGrid(g, cell)
    ensures cell in CellStyles(g) ==>
              CellStyles(g)[cell] == if Listed(g, GreenCells, cell) then Green else Orange
  {
  }

  /** The cells each list names, decoded, group by group. */
  const OrangeTargets: seq<Cell> := OrangeHeaderCells + OrangeDateCells + OrangeTitleCells

  const OrangeHeaderCells: seq<Cell> := [
    Cell(0, 0), Cell(0, 4), Cell(0, 10), Cell(0, 14), Cell(2, 0), Cell(2, 4), Cell(2, 10), Cell(2, 14)
  ]
  const OrangeDateCells: seq<Cell> := [
    Cell(6, 14), Cell(6, 18), Cell(8, 14), Cell(8, 18), Cell(10, 14), Cell(10, 18)
  ]
  const OrangeTitleCells: seq<Cell> := [Cell(16, 0), Cell(21, 0), Cell(33, 0), Cell(40, 0), Cell(47, 0)]

  const GreenTargets: seq<Cell> :=
    GreenOverviewCells + GreenConsiderationCells + GreenArchitectureCells + GreenInterfaceCells

  const GreenOverviewCells: seq<Cell> := [Cell(12, 0), Cell(14, 0), Cell(18, 0)]
  const GreenConsiderationCells: seq<Cell> := [
    Cell(22, 10), Cell(22, 20), Cell(25, 10), Cell(25, 20),
    Cell(28, 10), Cell(28, 20), Cell(31, 10), Cell(31, 20)
  ]
  const GreenArchitectureCells: seq<Cell> := [
    Cell(35, 0), Cell(35, 10), Cell(35, 20), Cell(37, 10), Cell(37, 20)
  ]
  const GreenInterfaceCells: seq<Cell> := [
    Cell(42, 0), Cell(42, 10), Cell(42, 20), Cell(43, 10), Cell(43, 20),
    Cell(44, 10), Cell(44, 20), Cell(45, 10), Cell(45, 20), Cell(49, 0), Cell(49, 20)
  ]

  /** Each address decodes to the cell at the same position. */
  predicate DecodesTo(addrs: seq<string>, cells: seq<Cell>) {
    |addrs| == |cells| && forall i :: 0 <= i < |addrs| ==> Decode(addrs[i]) == Some(cells[i])
  }

  lemma EncodesTo(addrs: seq<string>, cells: seq<Cell>)
    requires |addrs| == |cells|
    requires forall i :: 0 <= i < |cells| ==> cells[i].col < Columns && Encode(cells[i]) == addrs[i]
    ensures DecodesTo(addrs, cells)
  {
    forall i | 0 <= i < |addrs|
      ensures Decode(addrs[i]) == Some(cells[i])
    {
      DecodeEncode(cells[i]);
    }
  }

  lemma DecodesToAppend(a1: seq<string>, c1: seq<Cell>, a2: seq<string>, c2: seq<Cell>)
    requires DecodesTo(a1, c1) && DecodesTo(a2, c2)
    ensures DecodesTo(a1 + a2, c1 + c2)
  {
    forall i | 0 <= i < |a1 + a2|
      ensures Decode((a1 + a2)[i]) == Some((c1 + c2)[i])
    {
      if i >= |a1| {
        assert (a1 + a2)[i] == a2[i - |a1|];
      }
    }
  }

  lemma OrangeHeaderDecodes()
    ensures DecodesTo(OrangeHeader, OrangeHeaderCells)
  {
    EncodesTo(OrangeHeader, OrangeHeaderCells);
  }

  lemma OrangeDatesDecodes()
    ensures DecodesTo(OrangeDates, OrangeDateCells)
  {
    EncodesTo(OrangeDates, OrangeDateCells);
  }

  lemma OrangeTitlesDecodes()
    ensures DecodesTo(OrangeTitles, OrangeTitleCells)
  {
    EncodesTo(OrangeTitles, OrangeTitleCells);
  }

  lemma GreenOverviewDecodes()
    ensures DecodesTo(GreenOverview, GreenOverviewCells)
  {
    EncodesTo(GreenOverview, GreenOverviewCells);
  }

  lemma GreenConsiderationsDecodes()
    ensures DecodesTo(GreenConsiderations, GreenConsiderationCells)
  {
    EncodesTo(GreenConsiderations, GreenConsiderationCells);
  }

  lemma GreenArchitectureDecodes()
    ensures DecodesTo(GreenArchitecture, GreenArchitectureCells)
  {
    EncodesTo(GreenArchitecture, GreenArchitectureCells);
  }

  lemma GreenInterfaceDecodes()
    ensures DecodesTo(GreenInterface, GreenInterfaceCells)
  {
    EncodesTo(GreenInterface, GreenInterfaceCells);
  }

  /** The header addresses decode to the cells of `OrangeTargets`. */
  lemma OrangeDecodes()
    ensures DecodesTo(OrangeSections, OrangeTargets)
  {
    OrangeHeaderDecodes();
    OrangeDatesDecodes();
    OrangeTitlesDecodes();
    DecodesToAppend(OrangeHeader, OrangeHeaderCells, OrangeDates, OrangeDateCells);
    DecodesToAppend(OrangeHeader + OrangeDates, OrangeHeaderCells + OrangeDateCells,
                    OrangeTitles, OrangeTitleCells);
  }

  /** The content addresses decode to the cells of `GreenTargets`. */
  lemma GreenDecodes()
    ensures DecodesTo(GreenCells, GreenTargets)
  {
    GreenOverviewDecodes();
    GreenConsiderationsDecodes();
    GreenArchitectureDecodes();
    GreenInterfaceDecodes();
    DecodesToAppend(GreenOverview, GreenOverviewCells, GreenConsiderations, GreenConsiderationCells);
    DecodesToAppend(GreenOverview + GreenConsiderations, GreenOverviewCells + GreenConsiderationCells,
                    GreenArchitecture, GreenArchitectureCells);
    DecodesToAppend(GreenOverview + GreenConsiderations + GreenArchitecture,
                    GreenOverviewCells + GreenConsiderationCells + GreenArchitectureCells,
                    GreenInterface, GreenInterfaceCells);
  }

  lemma OrangeAvoids(cells: seq<Cell>, cell: Cell)
    requires cells == GreenOverviewCells || cells == GreenConsiderationCells
          || cells == GreenArchitectureCells || cells == GreenInterfaceCells
    ensures !(cell in OrangeTargets && cell in cells)
  {
  }

  /** No cell is named by both lists, so no cell is claimed by both
      styles. */
  lemma ListsDisjoint(cell: Cell)
    ensures !(cell in OrangeTargets && cell in GreenTargets)
  {
    OrangeAvoids(GreenOverviewCells, cell);
    OrangeAvoids(GreenConsiderationCells, cell);
    OrangeAvoids(GreenArchitectureCells, cell);
    OrangeAvoids(GreenInterfaceCells, cell);
  }

  lemma ListedTargets(g: Grid, addrs: seq<string>, cells: seq<Cell>, cell: Cell)
    requires DecodesTo(addrs, cells)
    ensures Listed(g, addrs, cell) <==> InGrid(g, cell) && cell in cells
  {
    if cell in cells {
      var i :| 0 <= i < |cells| && cells[i] == cell;
      assert Decode(addrs[i]) == Some(cell);
    }
  }

  /** The content cells that the sheet actually has, and so the only ones
      that turn green: A13, A15, A19, A36, A43, A50 and U50. */
  const GreenPainted: seq<Cell> := [
    Cell(12, 0), Cell(14, 0), Cell(18, 0), Cell(35, 0), Cell(42, 0), Cell(49, 0), Cell(49, 20)
  ]

  /** The layout has a cell at (row, col). */
  predicate InLayout(cell: Cell) {
    cell.row < RowCount && cell.col < RowLength(cell.row)
  }

  lemma OrangeTargetsInLayout(cell: Cell)
    ensures cell in OrangeTargets ==> InLayout(cell)
  {
  }

  lemma GreenTargetsInLayout(cell: Cell)
    ensures cell in GreenTargets && InLayout(cell) <==> cell in GreenPainted
  {
  }

  /** For a grid of the document's shape: all nineteen header addresses
      name cells of the sheet and turn orange (bold); of the content
      addresses only the seven of `GreenPainted` name cells of the sheet,
      and only they turn green (not bold). */
  lemma ShapedStyles(g: Grid, cell: Cell)
    requires HasLayoutShape(g)
    ensures var st := CellStyles(g);
            (cell in st && st[cell] == Orange <==> cell in OrangeTargets)
            && (cell in st && st[cell] == Green <==> cell in GreenPainted)
            && (cell in st ==> (Bold(st[cell]) <==> cell in OrangeTargets))
  {
    assert InGrid(g, cell) <==> InLayout(cell);
    OrangeTargetsInLayout(cell);
    GreenTargetsInLayout(cell);
    OrangeDecodes();
    GreenDecodes();
    ListedTargets(g, OrangeSections, OrangeTargets, cell);
    ListedTargets(g, GreenCells, GreenTargets, cell);
    StylesOnExistingCells(g, cell);
    ListsDisjoint(cell);
  }

  /** The whole style map of the sheet. */
  const SheetStyleMap: map<Cell, Accent> := map[
    Cell(0, 0) := Orange, Cell(0, 4) := Orange, Cell(0, 10) := Orange, Cell(0, 14) := Orange,
    Cell(2, 0) := Orange, Cell(2, 4) := Orange, Cell(2, 10) := Orange, Cell(2, 14) := Orange,
    Cell(6, 14) := Orange, Cell(6, 18) := Orange,
    Cell(8, 14) := Orange, Cell(8, 18) := Orange,
    Cell(10, 14) := Orange, Cell(10, 18) := Orange,
    Cell(16, 0) := Orange, Cell(21, 0) := Orange, Cell(33, 0) := Orange,
    Cell(40, 0) := Orange, Cell(47, 0) := Orange,
    Cell(12, 0) := Green, Cell(14, 0) := Green, Cell(18, 0) := Green, Cell(35, 0) := Green,
    Cell(42, 0) := Green, Cell(49, 0) := Green, Cell(49, 20) := Green
  ]

  /** The map display lists the orange targets and the painted green
      cells, with their colours. */
  lemma SheetStyleMapLists(cell: Cell)
    ensures cell in SheetStyleMap <==> cell in OrangeTargets || cell in GreenPainted
    ensures cell in SheetStyleMap ==>
              SheetStyleMap[cell] == if cell in GreenPainted then Green else Orange
  {
  }

  lemma ShapedStylesExact(g: Grid)
    requires HasLayoutShape(g)
    ensures CellStyles(g) == SheetStyleMap
  {
    forall cell
      ensures cell in CellStyles(g) <==> cell in SheetStyleMap
      ensures cell in SheetStyleMap ==> CellStyles(g)[cell] == SheetStyleMap[cell]
    {
      ShapedStyles(g, cell);
      SheetStyleMapLists(cell);
    }
  }

  /** Every generated sheet, whatever its content, gets the same 26 styled
      cells: 19 orange and 7 green. */
  lemma SheetStyles(d: HldData)
    ensures CellStyles(SheetData(d)) == SheetStyleMap
    ensures forall cell :: cell in CellStyles(SheetData(d)) ==> InGrid(SheetData(d), cell)
  {
    LayoutIsFixed(d, d);
    ShapedStylesExact(SheetData(d));
    forall cell
      ensures cell in CellStyles(SheetData(d)) ==> InGrid(SheetData(d), cell)
    {
      StylesOnExistingCells(SheetData(d), cell);
    }
  }

  lemma MisplacedAddressesDecode()
    ensures Decode("K23") == Some(Cell(22, 10))
    ensures Decode("A34") == Some(Cell(33, 0))
  {
    assert Numeral(23) == "23";
    assert Numeral(34) == "34";
    DecodeEncode(Cell(22, 10));
    DecodeEncode(Cell(33, 0));
  }

  /** Two addresses that miss the cells they are meant for. "K23" names
      row 22, a one-cell blank row, so it styles nothing, and neither the
      Assumptions label nor its value on row 23 is styled. "A34" names
      row 33, a blank one-cell row, and that blank cell turns orange. */
  lemma MisplacedAddresses()
    ensures Decode("K23") == Some(Cell(22, 10)) && RowLength(22) == 1
    ensures Cell(22, 10) !in SheetStyleMap
    ensures LiteralAt(23, 10) == "Assumptions" && Cell(23, 10) !in SheetStyleMap
    ensures FieldCell(Assumptions) !in SheetStyleMap
    ensures Decode("A34") == Some(Cell(33, 0)) && RowLength(33) == 1
    ensures FieldAt(33, 0) == None && LiteralAt(33, 0) == ""
    ensures Cell(33, 0) in SheetStyleMap && SheetStyleMap[Cell(33, 0)] == Orange
  {
    MisplacedAddressesDecode();
  }

  /** A third: "U50", meant for the Test1 value, names the Impact value cell,
      which turns green, while the Test1 value stays unstyled. */
  lemma MisplacedTestAddress()
    ensures Decode("U50") == Some(Cell(49, 20)) && FieldAt(49, 20) == Some(Impact)
    ensures Cell(49, 20) in SheetStyleMap && SheetStyleMap[Cell(49, 20)] == Green
    ensures FieldCell(Test1) !in SheetStyleMap
  {
    assert Numeral(50) == "50";
    DecodeEncode(Cell(49, 20));
  }

  /** Styling sees only which cells exist: grids of the same shape get the
      same styles. */
  lemma StylesFollowShape(g1: Grid, g2: Grid)
    requires |g1| == |g2|
    requires forall r :: 0 <= r < |g1| ==> |g1[r]| == |g2[r]|
    ensures CellStyles(g1) == CellStyles(g2)
  {
    forall cell
      ensures cell in CellStyles(g1) <==> cell in CellStyles(g2)
      ensures cell in CellStyles(g1) ==> CellStyles(g1)[cell] == CellStyles(g2)[cell]
    {
      StylesOnExistingCells(g1, cell);
      StylesOnExistingCells(g2, cell);
      assert InGrid(g1, cell) <==> InGrid(g2, cell);
    }
  }
}
