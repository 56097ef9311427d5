/** A1 notation: the textual cell addresses ("K23", "U50") the sheet's style
    lists are written in, and the zero-based (row, column) pairs the sheet
    uses internally for merges and cell positions. */
module A1 {

  datatype Option<+T> = None | Some(value: T)

  /** A zero-based cell coordinate: `{ r, c }` in the sheet's merge records. */
  datatype Cell = Cell(row: nat, col: nat)

  /** The sheet is 25 columns wide, so a column is a single letter A..Y. */
  const Columns: nat := 25

  predicate IsDigit(ch: char) {
    '0' <= ch <= '9'
  }

  predicate AllDigits(s: string) {
    forall i :: 0 <= i < |s| ==> IsDigit(s[i])
  }

  /** A canonical decimal numeral: at least one digit, no leading zero. */
  predicate IsNumeral(s: string) {
    |s| > 0 && AllDigits(s) && (s[0] == '0' ==> |s| == 1)
  }

  function DigitChar(n: nat): (ch: char)
    requires n < 10
    ensures IsDigit(ch)
    ensures (ch as int) - ('0' as int) == n
  {
    ('0' as int + n) as char
  }

  /** The value of a string of digits, read most significant digit first. */
  function NumeralValue(s: string): nat
    requires AllDigits(s)
  {
    if |s| == 0 then 0
    else NumeralValue(s[..|s| - 1]) * 10 + ((s[|s| - 1] as int) - ('0' as int))
  }

  /** The canonical numeral of `n`; it starts with '0' only when `n` is 0. */
  function Numeral(n: nat): (s: string)
    ensures IsNumeral(s)
    ensures s[0] == '0' <==> n == 0
    decreases n
  {
    if n < 10 then [DigitChar(n)] else Numeral(n / 10) + [DigitChar(n % 10)]
  }

  lemma {:induction false} NumeralThenValue(n: nat)
    ensures NumeralValue(Numeral(n)) == n
    decreases n
  {
    if n >= 10 {
      var p := Numeral(n / 10);
      var s := p + [DigitChar(n % 10)];
      assert s[..|s| - 1] == p;
      NumeralThenValue(n / 10);
    }
  }

  /** A string of digits whose value is 0 consists of zeros only. */
  lemma {:induction false} ZeroValueAllZeros(s: string)
    requires AllDigits(s)
    requires NumeralValue(s) == 0
    ensures forall i :: 0 <= i < |s| ==> s[i] == '0'
    decreases |s|
  {
    if |s| > 0 {
      var p := s[..|s| - 1];
      ZeroValueAllZeros(p);
      forall i | 0 <= i < |s|
        ensures s[i] == '0'
      {
        if i < |s| - 1 {
          assert s[i] == p[i];
        }
      }
    }
  }

  lemma {:induction false} ValueThenNumeral(s: string)
    requires IsNumeral(s)
    ensures Numeral(NumeralValue(s)) == s
    decreases |s|
  {
    if |s| > 1 {
      var p := s[..|s| - 1];
      assert p[0] == s[0];
      ValueThenNumeral(p);
      if NumeralValue(p) == 0 {
        ZeroValueAllZeros(p);
        assert false;
      }
      var n := NumeralValue(s);
      assert n / 10 == NumeralValue(p);
      assert s == p + [s[|s| - 1]];
    }
  }

  function ColumnLetter(c: nat): (ch: char)
    requires c < Columns
    ensures 'A' <= ch <= 'Y'
  {
    ('A' as int + c) as char
  }

  /** The A1 address of a cell: column letter, then the 1-based row number. */
  function Encode(cell: Cell): (s: string)
    requires cell.col < Columns
    ensures |s| >= 2 && 'A' <= s[0] <= 'Y'
    ensures IsNumeral(s[1..])
  {
    [ColumnLetter(cell.col)] + Numeral(cell.row + 1)
  }

  /** Reads an A1 address. Only canonical addresses are accepted, because a
      sheet looks a cell up by its canonical address string: "A01" or "A0"
      name no cell. */
  function Decode(s: string): (r: Option<Cell>)
    ensures r.Some? ==> r.value.col < Columns
  {
    if |s| >= 2 && 'A' <= s[0] <= 'Y' && IsNumeral(s[1..]) && NumeralValue(s[1..]) >= 1
    then Some(Cell(NumeralValue(s[1..]) - 1, (s[0] as int) - ('A' as int)))
    else None
  }

  lemma DecodeEncode(cell: Cell)
    requires cell.col < Columns
    ensures Decode(Encode(cell)) == Some(cell)
  {
    var s := Encode(cell);
    assert s[1..] == Numeral(cell.row + 1);
    NumeralThenValue(cell.row + 1);
  }

  lemma EncodeDecode(s: string)
    requires Decode(s).Some?
    ensures Encode(Decode(s).value) == s
  {
    var cell := Decode(s).value;
    ValueThenNumeral(s[1..]);
    assert s == [s[0]] + s[1..];
  }
}
