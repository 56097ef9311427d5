/** The worksheet content of the design document: the fixed 56-row grid of
    titles, labels and field values, the column widths, the row heights and
    the merged regions. */
module Layout {
  import opened HldForm
  import opened Strings
  import opened A1

  /** Rows of cell texts; rows are ragged, a missing entry is no cell. */
  type Grid = seq<seq<string>>

  const RowCount: nat := 56

  /** The separator placed between the Design text and the file list. */
  const AttachedFilesLabel: string := "\n\nAttached Files: "

  /** The text of the Design value cell: the design notes, followed by the
      names of the attached files when there are any. */
  function DesignText(d: HldData): (s: string)
    ensures d.design <= s
    ensures s == d.design <==> d.designFiles == []
  {
    if |d.designFiles| > 0 then d.design + AttachedFilesLabel + Join(d.designFiles, ", ")
    else d.design
  }

  /** Every attached file is named in the Design cell. */
  lemma DesignTextNamesFiles(d: HldData, i: nat)
    requires i < |d.designFiles|
    ensures Contains(DesignText(d), d.designFiles[i])
  {
    var names := Join(d.designFiles, ", ");
    var s := d.design + AttachedFilesLabel + names;
    JoinContainsPart(d.designFiles, ", ", i);
    var k :| OccursAt(names, d.designFiles[i], k);
    var off := |d.design + AttachedFilesLabel|;
    assert s[off + k..off + k + |d.designFiles[i]|] == names[k..k + |d.designFiles[i]|];
    assert OccursAt(s, d.designFiles[i], off + k);
  }

  /** Attaching one more file appends its name to the Design cell, after
      the label when it is the first file and after ", " otherwise. */
  lemma DesignTextAfterUpload(d: HldData, name: string)
    ensures DesignText(UploadFiles(d, [name]))
            == if d.designFiles == [] then d.design + AttachedFilesLabel + name
               else DesignText(d) + ", " + name
  {
    JoinSnoc(d.designFiles, ", ", name);
  }

  function Blanks(n: nat): (r: seq<string>)
    ensures |r| == n
    ensures forall i :: 0 <= i < n ==> r[i] == ""
  {
    seq(n, _ => "")
  }

  /** A 21-cell row: an optional title in column A, a label in column K and
      a value in column U. */
  function LabelledRow(title: string, caption: string, value: string): seq<string> {
    [title] + Blanks(9) + [caption] + Blanks(9) + [value]
  }

  /** The grid exactly as the generator lists it, section by section. */
  function SheetData(d: HldData): Grid {
    HeaderRows(d) + ChangeOverviewRows(d) + ObjectiveRows(d) + ConsiderationRows(d)
    + ArchitectureRows(d) + InterfaceDesignRows(d) + TestingRows(d)
  }

  /** Rows 0-11: identifier, personnel and dates. */
  function HeaderRows(d: HldData): Grid {
    [
      ["Section ID"] + Blanks(3) + [d.sectionId] + Blanks(5) + ["Author"] + Blanks(3) + [d.author],
      Blanks(15),
      ["Section Name"] + Blanks(3) + [d.sectionName] + Blanks(5) + ["Reviewer"] + Blanks(3) + [d.reviewer],
      Blanks(15),
      Blanks(15),
      Blanks(15),
      Blanks(14) + ["CreateDate"] + Blanks(3) + [d.createDate],
      Blanks(15),
      Blanks(14) + ["UpdateDate"] + Blanks(3) + [d.updateDate],
      Blanks(15),
      Blanks(14) + ["ApprovalDate"] + Blanks(3) + [d.approvalDate],
      Blanks(15)
    ]
  }

  /** Rows 12-15. */
  function ChangeOverviewRows(d: HldData): Grid {
    [["Change Overview"], [""], [d.changeOverview], [""]]
  }

  /** Rows 16-20. */
  function ObjectiveRows(d: HldData): Grid {
    [["Objective"], [""], [d.objective], [""], [""]]
  }

  /** Rows 21-34. */
  function ConsiderationRows(d: HldData): Grid {
    [
      ["Design Considerations"], [""],
      LabelledRow("", "Assumptions", d.assumptions), [""], [""],
      LabelledRow("", "Constraints", d.constraints), [""], [""],
      LabelledRow("", "Dependencies", d.dependencies), [""], [""],
      LabelledRow("", "Risk", d.risk), [""], [""]
    ]
  }

  /** Rows 35-43. */
  function ArchitectureRows(d: HldData): Grid {
    [
      ["Architecture (only for the integration changes)"], [""], [""],
      LabelledRow("Architecture", "System Architecture Details", d.systemArchDetails), [""], [""],
      LabelledRow("", "Component Details", d.componentDetails), [""], [""]
    ]
  }

  /** Rows 44-51. */
  function InterfaceDesignRows(d: HldData): Grid {
    [
      ["Detailed Interface Design/Impact Analysis"], [""], [""],
      LabelledRow("Design/Analysis", "Requirement", d.requirements),
      LabelledRow("", "Design", DesignText(d)),
      LabelledRow("", "Impact", d.impact),
      LabelledRow("", "Output Payload", d.outputPayload),
      [""]
    ]
  }

  /** Rows 52-55. */
  function TestingRows(d: HldData): Grid {
    [["Testing"], [""], [""], ["Test1"] + Blanks(19) + [d.test1]]
  }

  // ---------------------------------------------------------------------
  // The same layout stated as a schema: where each field goes, which
  // literal sits in every other cell, and how long each row is.
  // ---------------------------------------------------------------------

  /** The (row, column) where a field's value is placed. */
  function FieldCell(f: Field): Cell {
    match f
    case SectionId => Cell(0, 4)
    case Author => Cell(0, 14)
    case SectionName => Cell(2, 4)
    case Reviewer => Cell(2, 14)
    case CreateDate => Cell(6, 18)
    case UpdateDate => Cell(8, 18)
    case ApprovalDate => Cell(10, 18)
    case ChangeOverview => Cell(14, 0)
    case Objective => Cell(18, 0)
    case Assumptions => Cell(23, 20)
    case Constraints => Cell(26, 20)
    case Dependencies => Cell(29, 20)
    case Risk => Cell(32, 20)
    case SystemArchDetails => Cell(38, 20)
    case ComponentDetails => Cell(41, 20)
    case Requirements => Cell(47, 20)
    case Design => Cell(48, 20)
    case Impact => Cell(49, 20)
    case OutputPayload => Cell(50, 20)
    case Test1 => Cell(55, 20)
  }

  /** The field placed at a cell, if any. */
  function FieldAt(r: int, c: int): Option<Field> {
    if c == 4 then
      if r == 0 then Some(SectionId) else if r == 2 then Some(SectionName) else None
    else if c == 14 then
      if r == 0 then Some(Author) else if r == 2 then Some(Reviewer) else None
    else if c == 18 then
      if r == 6 then Some(CreateDate)
      else if r == 8 then Some(UpdateDate)
      else if r == 10 then Some(ApprovalDate)
      else None
    else if c == 0 then
      if r == 14 then Some(ChangeOverview) else if r == 18 then Some(Objective) else None
    else if c == 20 then
      if r == 23 then Some(Assumptions)
      else if r == 26 then Some(Constraints)
      else if r == 29 then Some(Dependencies)
      else if r == 32 then Some(Risk)
      else if r == 38 then Some(SystemArchDetails)
      else if r == 41 then Some(ComponentDetails)
      else if r == 47 then Some(Requirements)
      else if r == 48 then Some(Design)
      else if r == 49 then Some(Impact)
      else if r == 50 then Some(OutputPayload)
      else if r == 55 then Some(Test1)
      else None
    else None
  }

  /** The literal text of a cell that holds no field: a title, a label, or
      the empty string. */
  function LiteralAt(r: int, c: int): string {
    if c == 0 then
      if r == 0 then "Section ID"
      else if r == 2 then "Section Name"
      else if r == 12 then "Change Overview"
      else if r == 16 then "Objective"
      else if r == 21 then "Design Considerations"
      else if r == 35 then "Architecture (only for the integration changes)"
      else if r == 38 then "Architecture"
      else if r == 44 then "Detailed Interface Design/Impact Analysis"
      else if r == 47 then "Design/Analysis"
      else if r == 52 then "Testing"
      else if r == 55 then "Test1"
      else ""
    else if c == 10 then
      if r == 0 then "Author"
      else if r == 2 then "Reviewer"
      else if r == 23 then "Assumptions"
      else if r == 26 then "Constraints"
      else if r == 29 then "Dependencies"
      else if r == 32 then "Risk"
      else if r == 38 then "System Architecture Details"
      else if r == 41 then "Component Details"
      else if r == 47 then "Requirement"
      else if r == 48 then "Design"
      else if r == 49 then "Impact"
      else if r == 50 then "Output Payload"
      else ""
    else if c == 14 then
      if r == 6 then "CreateDate"
      else if r == 8 then "UpdateDate"
      else if r == 10 then "ApprovalDate"
      else ""
    else ""
  }

  /** The number of cells in row `r`. */
  function RowLength(r: nat): nat {
    if r < 12 then (if r == 6 || r == 8 || r == 10 then 19 else 15)
    else if r == 23 || r == 26 || r == 29 || r == 32 || r == 38 || r == 41
         || r == 47 || r == 48 || r == 49 || r == 50 || r == 55 then 21
    else 1
  }

  /** What a field contributes to its cell. */
  function FieldText(d: HldData, f: Field): string {
    if f == Design then DesignText(d) else Get(d, f)
  }

  function SchemaCell(d: HldData, r: int, c: int): string {
    match FieldAt(r, c)
    case Some(f) => FieldText(d, f)
    case None => LiteralAt(r, c)
  }

  function SchemaRow(d: HldData, r: nat): seq<string> {
    seq(RowLength(r), c => SchemaCell(d, r, c))
  }

  /** A cell exists in the grid. */
  predicate InGrid(g: Grid, cell: Cell) {
    cell.row < |g| && cell.col < |g[cell.row]|
  }

  /** The schema's rows first .. first + n - 1. */
  function SchemaRows(d: HldData, first: nat, n: nat): (g: Grid)
    ensures |g| == n
  {
    seq(n, k requires 0 <= k < n => SchemaRow(d, first + k))
  }

  lemma BlankRowMatches(d: HldData, r: nat)
    requires r in {1, 3, 4, 5, 7, 9, 11}
    ensures Blanks(RowLength(r)) == SchemaRow(d, r)
  {
  }

  /** Rows 0 and 2: label and value, then a second label and value. */
  lemma PairRowMatches(d: HldData, r: nat, l1: string, v1: string, l2: string, v2: string)
    requires r == 0 || r == 2
    requires SchemaCell(d, r, 0) == l1 && SchemaCell(d, r, 4) == v1
    requires SchemaCell(d, r, 10) == l2 && SchemaCell(d, r, 14) == v2
    ensures [l1] + Blanks(3) + [v1] + Blanks(5) + [l2] + Blanks(3) + [v2] == SchemaRow(d, r)
  {
    var row := [l1] + Blanks(3) + [v1] + Blanks(5) + [l2] + Blanks(3) + [v2];
    forall c | 0 <= c < 15
      ensures row[c] == SchemaCell(d, r, c)
    {
      if 0 < c < 4 {
        assert row[c] == Blanks(3)[c - 1];
      } else if 4 < c < 10 {
        assert row[c] == Blanks(5)[c - 5];
      } else if 10 < c < 14 {
        assert row[c] == Blanks(3)[c - 11];
      }
    }
  }

  /** Rows 6, 8 and 10: a date label in column O and its value in S. */
  lemma DateRowMatches(d: HldData, r: nat, caption: string, value: string)
    requires r in {6, 8, 10}
    requires SchemaCell(d, r, 14) == caption && SchemaCell(d, r, 18) == value
    ensures Blanks(14) + [caption] + Blanks(3) + [value] == SchemaRow(d, r)
  {
    var row := Blanks(14) + [caption] + Blanks(3) + [value];
    forall c | 0 <= c < 19
      ensures row[c] == SchemaCell(d, r, c)
    {
      if c < 14 {
        assert row[c] == Blanks(14)[c];
      } else if 14 < c < 18 {
        assert row[c] == Blanks(3)[c - 15];
      }
    }
  }

  lemma HeaderMatches(d: HldData)
    ensures HeaderRows(d) == SchemaRows(d, 0, 12)
  {
    var g, s := HeaderRows(d), SchemaRows(d, 0, 12);
    forall k | 0 <= k < 12
      ensures g[k] == s[k]
    {
      if k == 0 {
        PairRowMatches(d, 0, "Section ID", d.sectionId, "Author", d.author);
      } else if k == 1 {
        BlankRowMatches(d, 1);
      } else if k == 2 {
        PairRowMatches(d, 2, "Section Name", d.sectionName, "Reviewer", d.reviewer);
      } else if k == 3 {
        BlankRowMatches(d, 3);
      } else if k == 4 {
        BlankRowMatches(d, 4);
      } else if k == 5 {
        BlankRowMatches(d, 5);
      } else if k == 6 {
        DateRowMatches(d, 6, "CreateDate", d.createDate);
      } else if k == 7 {
        BlankRowMatches(d, 7);
      } else if k == 8 {
        DateRowMatches(d, 8, "UpdateDate", d.updateDate);
      } else if k == 9 {
        BlankRowMatches(d, 9);
      } else if k == 10 {
        DateRowMatches(d, 10, "ApprovalDate", d.approvalDate);
      } else {
        BlankRowMatches(d, 11);
      }
    }
  }

  lemma ChangeOverviewMatches(d: HldData)
    ensures ChangeOverviewRows(d) == SchemaRows(d, 12, 4)
  {
    var g, s := ChangeOverviewRows(d), SchemaRows(d, 12, 4);
    forall k | 0 <= k < 4
      ensures g[k] == s[k]
    {
      if k == 0 {
        OneCellRowMatches(d, 12, "Change Overview");
      } else if k == 1 {
        OneCellRowMatches(d, 13, "");
      } else if k == 2 {
        OneCellRowMatches(d, 14, d.changeOverview);
      } else {
        OneCellRowMatches(d, 15, "");
      }
    }
  }

  lemma ObjectiveMatches(d: HldData)
    ensures ObjectiveRows(d) == SchemaRows(d, 16, 5)
  {
    var g, s := ObjectiveRows(d), SchemaRows(d, 16, 5);
    forall k | 0 <= k < 5
      ensures g[k] == s[k]
    {
      if k == 0 {
        OneCellRowMatches(d, 16, "Objective");
      } else if k == 1 {
        OneCellRowMatches(d, 17, "");
      } else if k == 2 {
        OneCellRowMatches(d, 18, d.objective);
      } else if k == 3 {
        OneCellRowMatches(d, 19, "");
      } else {
        OneCellRowMatches(d, 20, "");
      }
    }
  }

  lemma ConsiderationsMatch(d: HldData)
    ensures ConsiderationRows(d) == SchemaRows(d, 21, 14)
  {
    var g, s := ConsiderationRows(d), SchemaRows(d, 21, 14);
    forall k | 0 <= k < 14
      ensures g[k] == s[k]
    {
      // The one-cell rows follow from the definitions alone.
      if k == 2 {
        LabelledRowMatches(d, 23, "", "Assumptions", d.assumptions);
      } else if k == 5 {
        LabelledRowMatches(d, 26, "", "Constraints", d.constraints);
      } else if k == 8 {
        LabelledRowMatches(d, 29, "", "Dependencies", d.dependencies);
      } else if k == 11 {
        LabelledRowMatches(d, 32, "", "Risk", d.risk);
      }
    }
  }

  lemma ArchitectureMatches(d: HldData)
    ensures ArchitectureRows(d) == SchemaRows(d, 35, 9)
  {
    var g, s := ArchitectureRows(d), SchemaRows(d, 35, 9);
    forall k | 0 <= k < 9
      ensures g[k] == s[k]
    {
      if k == 0 {
        OneCellRowMatches(d, 35, "Architecture (only for the integration changes)");
      } else if k == 1 {
        OneCellRowMatches(d, 36, "");
      } else if k == 2 {
        OneCellRowMatches(d, 37, "");
      } else if k == 3 {
        LabelledRowMatches(d, 38, "Architecture", "System Architecture Details", d.systemArchDetails);
      } else if k == 4 {
        OneCellRowMatches(d, 39, "");
      } else if k == 5 {
        OneCellRowMatches(d, 40, "");
      } else if k == 6 {
        LabelledRowMatches(d, 41, "", "Component Details", d.componentDetails);
      } else if k == 7 {
        OneCellRowMatches(d, 42, "");
      } else {
        OneCellRowMatches(d, 43, "");
      }
    }
  }

  lemma DesignRowMatches(d: HldData)
    ensures LabelledRow("", "Design", DesignText(d)) == SchemaRow(d, 48)
  {
    LabelledRowMatches(d, 48, "", "Design", DesignText(d));
  }

  lemma InterfaceDesignMatches(d: HldData)
    ensures InterfaceDesignRows(d) == SchemaRows(d, 44, 8)
  {
    var g, s := InterfaceDesignRows(d), SchemaRows(d, 44, 8);
    forall k | 0 <= k < 8
      ensures g[k] == s[k]
    {
      if k == 0 {
        OneCellRowMatches(d, 44, "Detailed Interface Design/Impact Analysis");
      } else if k == 1 {
        OneCellRowMatches(d, 45, "");
      } else if k == 2 {
        OneCellRowMatches(d, 46, "");
      } else if k == 3 {
        LabelledRowMatches(d, 47, "Design/Analysis", "Requirement", d.requirements);
      } else if k == 4 {
        DesignRowMatches(d);
      } else if k == 5 {
        LabelledRowMatches(d, 49, "", "Impact", d.impact);
      } else if k == 6 {
        LabelledRowMatches(d, 50, "", "Output Payload", d.outputPayload);
      } else {
        OneCellRowMatches(d, 51, "");
      }
    }
  }

  lemma TestingMatches(d: HldData)
    ensures TestingRows(d) == SchemaRows(d, 52, 4)
  {
    var g, s := TestingRows(d), SchemaRows(d, 52, 4);
    forall k | 0 <= k < 4
      ensures g[k] == s[k]
    {
      if k == 0 {
        OneCellRowMatches(d, 52, "Testing");
      } else if k == 1 {
        OneCellRowMatches(d, 53, "");
      } else if k == 2 {
        OneCellRowMatches(d, 54, "");
      } else {
        TestRowMatches(d);
      }
    }
  }

  /** A one-cell row matches the schema when its text is the schema's. */
  lemma OneCellRowMatches(d: HldData, r: nat, text: string)
    requires RowLength(r) == 1 && SchemaCell(d, r, 0) == text
    ensures [text] == SchemaRow(d, r)
  {
  }

  /** A 21-cell row matches the schema when its three entries do and the
      schema leaves the other cells of that row empty. */
  lemma LabelledRowMatches(d: HldData, r: nat, title: string, caption: string, value: string)
    requires r in {23, 26, 29, 32, 38, 41, 47, 48, 49, 50, 55}
    requires SchemaCell(d, r, 0) == title
    requires SchemaCell(d, r, 10) == caption
    requires SchemaCell(d, r, 20) == value
    ensures LabelledRow(title, caption, value) == SchemaRow(d, r)
  {
    var row := LabelledRow(title, caption, value);
    forall c | 0 <= c < 21
      ensures row[c] == SchemaCell(d, r, c)
    {
      if 0 < c < 10 {
        assert row[c] == Blanks(9)[c - 1];
      } else if 10 < c < 20 {
        assert row[c] == Blanks(9)[c - 11];
      }
    }
  }

  /** Row 55: "Test1" in column A and its value in column U. */
  lemma TestRowMatches(d: HldData)
    ensures ["Test1"] + Blanks(19) + [d.test1] == SchemaRow(d, 55)
  {
    LabelledRowMatches(d, 55, "Test1", "", d.test1);
    assert Blanks(9) + [""] + Blanks(9) == Blanks(19);
  }

  lemma SchemaRowsJoin(d: HldData, first: nat, n: nat, m: nat)
    ensures SchemaRows(d, first, n) + SchemaRows(d, first + n, m) == SchemaRows(d, first, n + m)
  {
    var a, b := SchemaRows(d, first, n), SchemaRows(d, first + n, m);
    forall k | 0 <= k < n + m
      ensures (a + b)[k] == SchemaRow(d, first + k)
    {
      if k >= n {
        assert (a + b)[k] == b[k - n];
      }
    }
  }

  /** The grid as listed and the schema agree row for row. */
  lemma SheetDataMatchesSchema(d: HldData)
    ensures |SheetData(d)| == RowCount
    ensures forall r :: 0 <= r < RowCount ==> SheetData(d)[r] == SchemaRow(d, r)
  {
    HeaderMatches(d);
    ChangeOverviewMatches(d);
    ObjectiveMatches(d);
    ConsiderationsMatch(d);
    ArchitectureMatches(d);
    InterfaceDesignMatches(d);
    TestingMatches(d);
    SchemaRowsJoin(d, 0, 12, 4);
    SchemaRowsJoin(d, 0, 16, 5);
    SchemaRowsJoin(d, 0, 21, 14);
    SchemaRowsJoin(d, 0, 35, 9);
    SchemaRowsJoin(d, 0, 44, 8);
    SchemaRowsJoin(d, 0, 52, 4);
    assert SheetData(d) == SchemaRows(d, 0, RowCount);
  }

  /** One row of the grid as the schema gives it. */
  lemma RowOf(d: HldData, r: nat)
    requires r < RowCount
    ensures |SheetData(d)| == RowCount && SheetData(d)[r] == SchemaRow(d, r)
  {
    SheetDataMatchesSchema(d);
  }

  /** The schema's field map and its placement table are inverse. */
  lemma FieldAtIsFieldCell(r: nat, c: nat, f: Field)
    ensures FieldAt(r, c) == Some(f) <==> FieldCell(f) == Cell(r, c)
  {
  }

  /** Each field's value lands, unaltered, at its own cell for every input;
      the Design cell carries the design text with the file list. */
  lemma FieldPlacement(d: HldData, f: Field)
    ensures InGrid(SheetData(d), FieldCell(f))
    ensures SheetData(d)[FieldCell(f).row][FieldCell(f).col]
            == if f == Design then DesignText(d) else Get(d, f)
  {
    SheetDataMatchesSchema(d);
    var cell := FieldCell(f);
    FieldAtIsFieldCell(cell.row, cell.col, f);
  }

  /** Every field at once, for the whole generated grid. */
  lemma AllFieldsPlaced(d: HldData)
    ensures HasLayoutShape(SheetData(d))
    ensures forall f :: SheetData(d)[FieldCell(f).row][FieldCell(f).col] == FieldText(d, f)
  {
    forall f
      ensures InGrid(SheetData(d), FieldCell(f))
      ensures SheetData(d)[FieldCell(f).row][FieldCell(f).col] == FieldText(d, f)
    {
      FieldPlacement(d, f);
    }
    LayoutIsFixed(d, d);
  }

  /** No two fields share a cell. */
  lemma FieldCellsDistinct(f: Field, g: Field)
    requires f != g
    ensures FieldCell(f) != FieldCell(g)
  {
  }

  /** A grid with the document's 56 rows of the schema's lengths. */
  predicate HasLayoutShape(g: Grid) {
    |g| == RowCount && forall r :: 0 <= r < RowCount ==> |g[r]| == RowLength(r)
  }

  /** The layout does not depend on the content: the same number of rows,
      the same row lengths, and the same text in every cell that holds no
      field, whatever the two records are. */
  lemma LayoutIsFixed(d1: HldData, d2: HldData)
    ensures HasLayoutShape(SheetData(d1))
    ensures |SheetData(d1)| == |SheetData(d2)| == RowCount
    ensures forall r :: 0 <= r < RowCount ==>
              |SheetData(d1)[r]| == |SheetData(d2)[r]| == RowLength(r) <= 21
    ensures forall r, c :: 0 <= r < RowCount && 0 <= c < RowLength(r) && FieldAt(r, c) == None ==>
              SheetData(d1)[r][c] == SheetData(d2)[r][c] == LiteralAt(r, c)
  {
    SheetDataMatchesSchema(d1);
    SheetDataMatchesSchema(d2);
  }

  // ---------------------------------------------------------------------
  // Column widths and row heights, in character units and points.
  // ---------------------------------------------------------------------

  const ColumnCount: nat := 25

  /** `Array(25).fill({ wch: 4 }).map(...)`: the description columns K and
      U are 20 wide, the label columns A and E are 15 wide. */
  function ColumnWidths(): (w: seq<nat>)
    ensures |w| == ColumnCount
  {
    seq(ColumnCount, i => if i == 10 || i == 20 then 20 else if i == 0 || i == 4 then 15 else 4)
  }

  lemma ColumnWidthValues()
    ensures ColumnWidths()[10] == ColumnWidths()[20] == 20
    ensures ColumnWidths()[0] == ColumnWidths()[4] == 15
    ensures forall i :: 0 <= i < ColumnCount && i !in {0, 4, 10, 20} ==> ColumnWidths()[i] == 4
  {
  }

  /** One height per grid row: 60 points for the two long-text rows, 20
      for every other. */
  function RowHeights(g: Grid): (h: seq<nat>)
    ensures |h| == |g|
  {
    seq(|g|, i => if i == 14 || i == 18 then 60 else 20)
  }

  /** The tall rows are exactly the rows of the Change Overview and
      Objective texts, and they are the top rows of those texts' merges. */
  lemma TallRowsHoldLongText(d: HldData)
    ensures |RowHeights(SheetData(d))| == RowCount
    ensures forall i :: 0 <= i < RowCount ==>
              (RowHeights(SheetData(d))[i] == 60
               <==> i == FieldCell(ChangeOverview).row || i == FieldCell(Objective).row)
    ensures forall i :: 0 <= i < RowCount ==> RowHeights(SheetData(d))[i] in {20, 60}
    ensures Merges[9].s == FieldCell(ChangeOverview) && Merges[11].s == FieldCell(Objective)
  {
    SheetDataMatchesSchema(d);
  }

  // ---------------------------------------------------------------------
  // Merged regions.
  // ---------------------------------------------------------------------

  /** A rectangle from start cell `s` to end cell `e`, both included. */
  datatype Range = Range(s: Cell, e: Cell)

  predicate Covers(m: Range, cell: Cell) {
    m.s.row <= cell.row <= m.e.row && m.s.col <= cell.col <= m.e.col
  }

  function Span(r: nat, c1: nat, c2: nat): Range {
    Range(Cell(r, c1), Cell(r, c2))
  }

  const Merges: seq<Range> := [
    Span(0, 0, 3), Span(0, 4, 9), Span(0, 10, 13), Span(0, 14, 24),
    Span(2, 0, 3), Span(2, 4, 9), Span(2, 10, 13), Span(2, 14, 24),
    Span(12, 0, 24),
    Span(14, 0, 24),
    Span(16, 0, 24),
    Range(Cell(18, 0), Cell(20, 24))
  ]

  /** Every merge is a proper rectangle inside the grid's rows and the
      sheet's 25 columns. */
  lemma MergesWellFormed()
    ensures |Merges| == 12
    ensures forall i :: 0 <= i < |Merges| ==>
              Merges[i].s.row <= Merges[i].e.row < RowCount
              && Merges[i].s.col <= Merges[i].e.col < ColumnCount
  {
  }

  /** No cell belongs to two merges. */
  lemma MergesDisjoint(i: nat, j: nat, cell: Cell)
    requires i < |Merges| && j < |Merges|
    requires Covers(Merges[i], cell) && Covers(Merges[j], cell)
    ensures i == j
  {
  }

  /** The index of the header merge that covers column `c`. */
  function HeaderSpan(c: nat): nat {
    if c <= 3 then 0 else if c <= 9 then 1 else if c <= 13 then 2 else 3
  }

  /** Rows 0 and 2 are each split into the column spans A-D, E-J, K-N and
      O-Y: every column of the sheet lies in exactly one of the row's merges. */
  lemma HeaderRowsPartitioned(r: nat, c: nat)
    requires r == 0 || r == 2
    requires c < ColumnCount
    ensures var i := HeaderSpan(c) + (if r == 0 then 0 else 4);
            Covers(Merges[i], Cell(r, c))
            && forall j :: 0 <= j < |Merges| && Covers(Merges[j], Cell(r, c)) ==> j == i
  {
  }

  /** In the schema, a merge's top-left cell exists and every other cell
      of the layout it covers is an empty literal. */
  lemma MergedCellsEmptyInSchema(i: nat, cell: Cell)
    requires i < |Merges|
    requires Covers(Merges[i], cell) && cell.row < RowCount && cell.col < RowLength(cell.row)
    ensures Merges[i].s.col < RowLength(Merges[i].s.row)
    ensures cell != Merges[i].s ==> FieldAt(cell.row, cell.col) == None && LiteralAt(cell.row, cell.col) == ""
  {
  }

  /** A merge shows only its top-left cell; every other grid cell it covers
      is empty for every input, so no text is hidden by a merge, and each
      merge's top-left cell is in the grid. */
  lemma MergesHideNoText(d: HldData, i: nat, cell: Cell)
    requires i < |Merges|
    requires Covers(Merges[i], cell) && InGrid(SheetData(d), cell)
    ensures InGrid(SheetData(d), Merges[i].s)
    ensures cell != Merges[i].s ==> SheetData(d)[cell.row][cell.col] == ""
  {
    RowOf(d, cell.row);
    RowOf(d, Merges[i].s.row);
    MergedCellsEmptyInSchema(i, cell);
  }
}
