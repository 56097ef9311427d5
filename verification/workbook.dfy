/** The generator's end product: one worksheet named "HLD Document" with
    the grid, styles, merges, column widths and row heights, and the name
    of the file it is written to. Writing the file is left to the caller;
    the current time comes in as an ISO-8601 timestamp. */
module Workbook {
  import opened HldForm
  import opened Strings
  import opened A1
  import opened Layout
  import opened Styles

  const SheetName: string := "HLD Document"

  datatype Sheet = Sheet(
    name: string,
    data: Grid,
    styles: map<Cell, Accent>,
    merges: seq<Range>,
    cols: seq<nat>,
    rows: seq<nat>)

  datatype Export = Export(sheet: Sheet, fileName: string)

  /** The calendar date of a timestamp: `toISOString().split('T')[0]`. */
  function Today(isoNow: string): (day: string)
    ensures day <= isoNow && 'T' !in day
    ensures |day| < |isoNow| ==> isoNow[|day|] == 'T'
  {
    BeforeFirst(isoNow, 'T')
  }

  /** The date part of "YYYY-MM-DDThh:mm:ss.sssZ" is "YYYY-MM-DD". */
  lemma TodayOfTimestamp(date: string, time: string)
    requires 'T' !in date
    ensures Today(date + "T" + time) == date
  {
    BeforeFirstOfSplit(date, 'T', time);
  }

  /** The identifier used in the file name: an empty Section ID falls back
      to "Document", as `sectionId || 'Document'` does. */
  function NameId(sectionId: string): (id: string)
    ensures id != ""
    ensures sectionId != "" ==> id == sectionId
  {
    if sectionId == "" then "Document" else sectionId
  }

  /** `HLD_${sectionId || 'Document'}_${today}.xlsx` */
  function FileName(sectionId: string, today: string): (n: string)
    ensures |n| == 10 + |NameId(sectionId)| + |today|
    ensures n[..4] == "HLD_" && n[|n| - 5..] == ".xlsx"
  {
    "HLD_" + NameId(sectionId) + "_" + today + ".xlsx"
  }

  /** Reads the identifier back out of a file name made on `today`. */
  function IdOfFileName(n: string, today: string): Option<string> {
    var tail := "_" + today + ".xlsx";
    if |n| >= 4 + |tail| && n[..4] == "HLD_" && n[|n| - |tail|..] == tail
    then Some(n[4..|n| - |tail|])
    else None
  }

  lemma IdOfFileNameInverts(sectionId: string, today: string)
    ensures IdOfFileName(FileName(sectionId, today), today) == Some(NameId(sectionId))
  {
    var n := FileName(sectionId, today);
    var tail := "_" + today + ".xlsx";
    assert n == "HLD_" + NameId(sectionId) + tail;
  }

  /** Two Section IDs give the same file name on the same day exactly
      when they are equal or are "" and "Document". */
  lemma FileNameCollisions(a: string, b: string, today: string)
    ensures FileName(a, today) == FileName(b, today)
            <==> a == b || (a == "" && b == "Document") || (a == "Document" && b == "")
  {
    if FileName(a, today) == FileName(b, today) {
      IdOfFileNameInverts(a, today);
      IdOfFileNameInverts(b, today);
    }
  }

  lemma FileNameExample()
    ensures FileName("D204_4-8", "2024-01-15") == "HLD_D204_4-8_2024-01-15.xlsx"
  {
  }

  lemma FileNameFallbackExample()
    ensures FileName("", "2024-01-15") == "HLD_Document_2024-01-15.xlsx"
  {
  }

  /** The document generator without the spreadsheet library: the sheet
      it builds and the file name it saves under. */
  function GenerateHld(d: HldData, isoNow: string): (x: Export)
    ensures x.sheet.name == SheetName
    ensures HasLayoutShape(x.sheet.data)
    ensures forall f :: x.sheet.data[FieldCell(f).row][FieldCell(f).col] == FieldText(d, f)
    ensures x.sheet.styles == SheetStyleMap
    ensures forall cell :: cell in x.sheet.styles ==> InGrid(x.sheet.data, cell)
    ensures x.sheet.data == SheetData(d)
    ensures x.sheet.merges == Merges
    ensures x.sheet.cols == ColumnWidths()
    ensures x.sheet.rows == RowHeights(x.sheet.data)
    ensures x.fileName == FileName(d.sectionId, Today(isoNow))
  {
    AllFieldsPlaced(d);
    SheetStyles(d);
    var g := SheetData(d);
    var sheet := Sheet(SheetName, g, CellStyles(g), Merges, ColumnWidths(), RowHeights(g));
    Export(sheet, FileName(d.sectionId, Today(isoNow)))
  }

  /** The generated sheet depends on the record only through the cell
      texts: two records give sheets that differ at most in the field
      cells, and never in styles, merges, widths or heights. */
  lemma GenerateLayoutIndependent(d1: HldData, d2: HldData, isoNow: string)
    ensures var s1 := GenerateHld(d1, isoNow).sheet;
            var s2 := GenerateHld(d2, isoNow).sheet;
            s1.styles == s2.styles && s1.merges == s2.merges
            && s1.cols == s2.cols && s1.rows == s2.rows
  {
    LayoutIsFixed(d1, d2);
  }
}
