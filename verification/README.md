# HLD document generator — a Dafny model

hld-forge collects the fields of a High-Level Design (HLD) document in a web
form and writes them into a styled one-sheet spreadsheet. This project models
two parts of it as pure Dafny functions and proves their properties:

- **The sheet builder** (`generateHldExcel`) without the spreadsheet library:
  - the fixed 56-row grid of titles, labels and field values;
  - the orange (bold) and green (plain) address lists, applied only to cells that exist;
  - the twelve merged regions;
  - the 25 column widths and the per-row heights;
  - the file name `HLD_<id>_<date>.xlsx`.
- **The form state** behind it: the initial record, editing one field,
  attaching files, and removing a file by position.

Modules:

- `A1` (`a1.dfy`): cell coordinates and the A1 address codec (`Encode`/`Decode`) the style lists use.
- `Strings` (`strings.dfy`): `Join` (the file-name list) and `BeforeFirst` (the date cut).
- `HldForm` (`form.dfy`): the record, its fields, and the form's transitions.
- `Layout` (`layout.dfy`):
  - `SheetData` is the grid, written section by section to mirror the generator's array literal.
  - A second, cell-wise description of the same layout is the *schema*: `FieldAt`, `LiteralAt` and `RowLength`. It is proved equal to `SheetData`.
  - The module also holds the widths, the heights and the merges.
- `Styles` (`styles.dfy`): the two address lists as written, and the painting of each list over the sheet.
- `Workbook` (`workbook.dfy`): the assembled sheet and the file name.

A spreadsheet cell is taken to exist exactly where the grid has an entry,
including an empty string, since the array-to-sheet conversion creates a cell
for every entry. The style code checks `if (ws[cell])`, so an address styles
a cell only when that cell exists.

Some addresses in the lists do not point where their comments say. For
example:

- `K23` names row index 22, a blank one-cell row, so it styles nothing. The Assumptions label and value on row 23 stay unstyled.
- `A34` names the blank cell of row 33, and that cell turns orange.
- `U50`, commented as Test1, names the Impact value cell (row 49, column 20), which turns green. The Test1 value stays unstyled.

The model keeps the lists as written. `Styles.SheetStyleMap` gives the
resulting 26 styled cells. `Styles.MisplacedAddresses` states the first two
cases above and `Styles.MisplacedTestAddress` the third.

## Model

| member | source | states |
|---|---|---|
| A1.Decode | src/lib/excelGenerator.ts:164-168 | An address resolves only if it is one column letter A–Y followed by a row numeral ≥ 1 with no leading zero; the column it gives is below 25 |
| A1.Encode | src/lib/excelGenerator.ts:151-162 | The address of a cell is a letter A–Y followed by a canonical numeral |
| A1.DecodeEncode | src/lib/excelGenerator.ts:164-168 | Decoding the address of any cell in columns A–Y gives that cell back |
| A1.EncodeDecode | src/lib/excelGenerator.ts:187-191 | Every address that decodes is the canonical address of its cell, so the lookup `ws[cell]` and decoding agree |
| Strings.Join | src/lib/excelGenerator.ts:121 | No names join to "", one name joins to itself, and a longer list starts with its first name and the separator |
| Strings.JoinSnoc | src/lib/excelGenerator.ts:121 | Joining a list with one more name appends ", " and that name, or gives just the name for an empty list |
| Strings.JoinContainsPart | src/lib/excelGenerator.ts:121 | Every name in the list occurs in the joined text |
| Strings.BeforeFirst | src/lib/excelGenerator.ts:222 | `split('T')[0]` is a prefix of the timestamp with no 'T' in it, stopping just before the first 'T' when there is one |
| Strings.BeforeFirstOfSplit | src/lib/excelGenerator.ts:222 | For a head without 'T', cutting `head + "T" + tail` at 'T' gives the head |
| HldForm.Initial | src/components/HldGenerator.tsx:38-60 | The form starts with every text field "" and no files |
| HldForm.SetField | src/components/HldGenerator.tsx:62-67 | Editing field f sets f to the new value and leaves every other field and the file list unchanged |
| HldForm.SetFieldUnchanged | src/components/HldGenerator.tsx:62-67 | Writing a field's current value back leaves the record unchanged |
| HldForm.SetFieldTwice | src/components/HldGenerator.tsx:62-67 | Of two edits to the same field, the later one wins |
| HldForm.UploadFiles | src/components/HldGenerator.tsx:69-74 | The text fields are unchanged, the list grows by the files picked, the old files stay first in order, and the new ones follow in order |
| HldForm.KeepOthersDrops | src/components/HldGenerator.tsx:84 | `filter((_, i) => i !== index)` removes exactly the element at `index` when there is one, and otherwise returns the list as it was |
| HldForm.RemoveFile | src/components/HldGenerator.tsx:81-86 | For an index in range, the list loses one element: those before the index stay put and those after shift down by one. For any other index the list is unchanged. Text fields are never touched |
| HldForm.UploadThenRemoveLast | src/components/HldGenerator.tsx:69-86 | Attaching one file and then removing it by its position restores the record |
| Layout.DesignText | src/lib/excelGenerator.ts:121 | The Design cell starts with the design notes and equals them exactly when no file is attached |
| Layout.DesignTextNamesFiles | src/lib/excelGenerator.ts:121 | Every attached file's name occurs in the Design cell |
| Layout.DesignTextAfterUpload | src/lib/excelGenerator.ts:121 | Attaching one more file appends its name to the Design cell: after "\n\nAttached Files: " for the first file, after ", " otherwise |
| Layout.SheetDataMatchesSchema | src/lib/excelGenerator.ts:61-131 | The grid as listed has 56 rows, and each of them equals the schema's row: its length and the field or literal text of every cell |
| Layout.FieldAtIsFieldCell | src/lib/excelGenerator.ts:63-130 | The schema finds field f at (r, c) exactly when (r, c) is f's placement |
| Layout.FieldPlacement | src/lib/excelGenerator.ts:63-130 | Every field's cell exists, and for every input it holds that field's value verbatim; the Design cell holds the design text |
| Layout.AllFieldsPlaced | src/lib/excelGenerator.ts:61-131 | The grid has the layout's shape and all twenty field cells hold their fields |
| Layout.FieldCellsDistinct | src/lib/excelGenerator.ts:63-130 | No two fields share a cell |
| Layout.LayoutIsFixed | src/lib/excelGenerator.ts:61-131 | For any two records: the same 56 rows, the same row lengths (at most 21), and the same text in every cell that holds no field |
| Layout.ColumnWidths | src/lib/excelGenerator.ts:142-146 | There are exactly 25 column widths |
| Layout.ColumnWidthValues | src/lib/excelGenerator.ts:142-146 | Columns 10 and 20 are 20 wide, columns 0 and 4 are 15 wide, and all others are 4 |
| Layout.RowHeights | src/lib/excelGenerator.ts:213-216 | There is one height per grid row |
| Layout.TallRowsHoldLongText | src/lib/excelGenerator.ts:213-216 | A row is 60 high exactly when it holds the Change Overview or Objective text, every other row is 20, and these rows start the two long-text merges |
| Layout.MergesWellFormed | src/lib/excelGenerator.ts:197-210 | There are 12 merges, each with start ≤ end in rows and columns, inside the 56 rows and 25 columns |
| Layout.MergesDisjoint | src/lib/excelGenerator.ts:197-210 | No cell lies in two merges |
| Layout.HeaderRowsPartitioned | src/lib/excelGenerator.ts:198-205 | Rows 0 and 2 are each split into the column spans 0–3, 4–9, 10–13 and 14–24: every column lies in exactly one merge of that row |
| Layout.MergedCellsEmptyInSchema | src/lib/excelGenerator.ts:197-210 | Within the layout, a merge's top-left cell exists and every other cell it covers is an empty literal |
| Layout.MergesHideNoText | src/lib/excelGenerator.ts:197-210 | For every input, a merge's top-left cell is in the grid and every other grid cell it covers is empty, so a merge hides no text |
| Styles.Paint | src/lib/excelGenerator.ts:164-168 | After `forEach(a => if (ws[a]) ws[a].s = style)`, a cell is styled iff it was styled before or a listed address names an existing cell. Such cells take the new style and the rest keep their old one |
| Styles.StylesOnExistingCells | src/lib/excelGenerator.ts:149-194 | A cell is styled iff one of the two lists names it and it exists. A cell the green list names is green, any other styled cell is orange, and no style creates a cell |
| Styles.OrangeDecodes | src/lib/excelGenerator.ts:151-162 | The nineteen orange addresses decode, in order, to the listed cells |
| Styles.GreenDecodes | src/lib/excelGenerator.ts:171-185 | The twenty-seven green addresses decode, in order, to the listed cells |
| Styles.ListsDisjoint | src/lib/excelGenerator.ts:151-185 | No cell is named by both lists |
| Styles.ShapedStyles | src/lib/excelGenerator.ts:151-191 | On a grid of the layout's shape, the orange (bold) cells are exactly the nineteen orange targets. The green (not bold) cells are exactly the seven green addresses that exist |
| Styles.ShapedStylesExact | src/lib/excelGenerator.ts:149-194 | On a grid of the layout's shape the style map is exactly the 26-entry `SheetStyleMap` |
| Styles.SheetStyles | src/lib/excelGenerator.ts:149-194 | The generated sheet gets the same 26 styles for every input, all on existing cells |
| Styles.MisplacedAddresses | src/lib/excelGenerator.ts:159-174 | "K23" names row 22, a one-cell row, so neither it nor the Assumptions label or value is styled. "A34" names the blank cell of row 33, which turns orange |
| Styles.MisplacedTestAddress | src/lib/excelGenerator.ts:176-184 | "U50", commented as Test1, names the Impact value cell, which turns green, and the Test1 value cell gets no style |
| Styles.StylesFollowShape | src/lib/excelGenerator.ts:164-191 | Styling depends only on which cells exist: grids of the same shape get the same styles |
| Workbook.Today | src/lib/excelGenerator.ts:222 | The date is a prefix of the timestamp and contains no 'T'; when it is shorter than the timestamp, the timestamp continues with 'T' |
| Workbook.TodayOfTimestamp | src/lib/excelGenerator.ts:222 | The date part of "YYYY-MM-DDThh:mm:ss.sssZ" is "YYYY-MM-DD" |
| Workbook.NameId | src/lib/excelGenerator.ts:223 | The identifier with its 'Document' fallback is never empty, and it is the Section ID whenever that is non-empty |
| Workbook.FileName | src/lib/excelGenerator.ts:223 | The file name starts with "HLD_" and ends with ".xlsx", and its length is the identifier's plus the date's plus ten |
| Workbook.IdOfFileNameInverts | src/lib/excelGenerator.ts:223 | The identifier can be read back out of the file name |
| Workbook.FileNameCollisions | src/lib/excelGenerator.ts:223 | Two Section IDs give the same file name on the same day iff they are equal or are "" and "Document" |
| Workbook.FileNameExample | src/lib/excelGenerator.ts:223 | "D204_4-8" on 2024-01-15 gives "HLD_D204_4-8_2024-01-15.xlsx" |
| Workbook.FileNameFallbackExample | src/lib/excelGenerator.ts:223 | An empty Section ID on 2024-01-15 gives "HLD_Document_2024-01-15.xlsx" |
| Workbook.GenerateHld | src/lib/excelGenerator.ts:56-227 | The sheet is named "HLD Document". Its data is exactly the row list, with the layout's shape and every field at its cell. It carries the 26 fixed styles, all on existing cells, the fixed merge list, the fixed column widths and the row heights computed from its own data. The file name is built from the Section ID and the timestamp's date |
| Workbook.GenerateLayoutIndependent | src/lib/excelGenerator.ts:142-216 | Two records give sheets with the same styles, merges, widths and heights |

## Left out

- The spreadsheet library calls (`book_new`, `aoa_to_sheet`, `book_append_sheet`, `writeFile`): foreign code and file output. The sheet is the grid plus a cell-to-style map, and a cell exists exactly where the grid has an entry.
- The style objects' contents (fill colour codes, Calibri 11, thin borders, top alignment, wrapping): reduced to the `Orange | Green` tag and its bold flag (`Styles.Bold`).
- The guards at src/lib/excelGenerator.ts:137-139 that create empty `!merges`, `!cols` and `!rows`: the sheet starts with none of them, so the model begins with the final lists.
- `new Date().toISOString()`: the clock is not modelled. The ISO timestamp is a parameter of `Workbook.GenerateHld`.
- The form's rendering, the React state plumbing, the toasts, the file-input click and `handleGenerate`'s async error handling are user interface code. A `File` is modelled by its name alone; its bytes are never read by the generator.
- `handleInputChange` with the key `designFiles`: the type allows it, but the value is a string and no input of the form passes that key, so `HldForm.Field` lists only the twenty text fields. No input of the form edits `approvalDate` either; the model still allows the edit the handler permits.
- `removeFile` with a non-integer JavaScript number (1.5, NaN): the model's index is an integer. Such an index matches no position, so it would fall under the "list unchanged" case anyway.
- Multi-letter columns (AA and beyond) and addresses with leading zeros in the row: `A1.Decode` rejects them because no listed address uses them and the sheet's keys are canonical.
- Embedded images and styling that depends on cell content: this code does neither.
- Strings.Join: its own contract states only the first part, the separator and the empty and one-part cases. The last part and list order are stated by `Strings.JoinSnoc` and `Strings.JoinContainsPart` instead. This keeps the suffix facts out of every proof that unfolds the Design cell.
