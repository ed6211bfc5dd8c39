/**
 The CSV files in which the simulation's CPUs hand over their statistics: writer, reader
 and the merge.  The text of a file is a sequence of bytes.
 */
module Csv {
  import opened Options
  import opened UInt32
  import opened Text

  const COMMA: Byte := 44
  const PLUS: Byte := 43
  const MINUS: Byte := 45
  const NEWLINE: Byte := 10

  datatype Column = Column(name: Bytes, values: seq<nat>)

  type Dataset = seq<Column>

  // ----- Writing

  /** Cells with commas between them. */
  function Joined(cells: seq<Bytes>): Bytes {
    if cells == [] then []
    else if |cells| == 1 then cells[0]
    else cells[0] + [COMMA] + Joined(cells[1..])
  }

  function Names(d: Dataset): seq<Bytes> {
    seq(|d|, j requires 0 <= j < |d| => d[j].name)
  }

  /** Every column has an i-th value. */
  predicate HasRow(d: Dataset, i: nat) {
    forall j :: 0 <= j < |d| ==> i < |d[j].values|
  }

  function Row(d: Dataset, i: nat): seq<nat>
    requires HasRow(d, i)
  {
    seq(|d|, j requires 0 <= j < |d| => d[j].values[i])
  }

  function Decimals(values: seq<nat>): seq<Bytes> {
    seq(|values|, j requires 0 <= j < |values| => Decimal(values[j]))
  }

  /** The data rows from i up to n; None if at() finds a column too short. */
  function Rows(d: Dataset, i: nat, n: nat): Option<Bytes>
    requires i <= n
    decreases n - i
  {
    if i == n then Some([])
    else if !HasRow(d, i) then None
    else Behind(Joined(Decimals(Row(d, i))) + [NEWLINE], Rows(d, i + 1, n))
  }

  /** The file write_csv leaves; None when it throws. */
  function Written(d: Dataset): Option<Bytes> {
    if d == [] then None else Behind(Joined(Names(d)) + [NEWLINE], Rows(d, 0, |d[0].values|))
  }

  function Behind(text: Bytes, more: Option<Bytes>): Option<Bytes> {
    match more
    case None => None
    case Some(rest) => Some(text + rest)
  }

  // ----- Reading

  /** Where a delimiter is found first, or the length. */
  function Find(s: Bytes, delimiter: Byte): (n: nat)
    ensures n <= |s| && (n < |s| ==> s[n] == delimiter)
    ensures forall i :: 0 <= i < n ==> s[i] != delimiter
  {
    if s == [] || s[0] == delimiter then 0 else 1 + Find(s[1..], delimiter)
  }

  /** What getline leaves after its piece and the delimiter. */
  function AfterPiece(s: Bytes, delimiter: Byte): (rest: Bytes)
    ensures s != [] ==> |rest| < |s|
  {
    if Find(s, delimiter) == |s| then [] else s[Find(s, delimiter) + 1..]
  }

  /** The pieces getline returns: nothing follows a delimiter at the very end. */
  function Pieces(s: Bytes, delimiter: Byte): seq<Bytes>
    decreases |s|
  {
    if s == [] then [] else [s[..Find(s, delimiter)]] + Pieces(AfterPiece(s, delimiter), delimiter)
  }

  function LeadingDigits(s: Bytes): (n: nat)
    ensures n <= |s| && Digits(s[..n])
    ensures n < |s| ==> !Digit(s[n])
  {
    if s == [] || !Digit(s[0]) then 0
    else
      var n := LeadingDigits(s[1..]);
      assert s[..n + 1] == [s[0]] + s[1..][..n];
      n + 1
  }

  /** isspace in the C locale. */
  predicate Blank(b: Byte) {
    b == 32 || 9 <= b <= 13
  }

  /** What a formatted read leaves of the text when it has skipped blanks. */
  function Trimmed(s: Bytes): (rest: Bytes)
    ensures |rest| <= |s|
  {
    if s != [] && Blank(s[0]) then Trimmed(s[1..]) else s
  }

  predicate Signed(s: Bytes) {
    s != [] && (s[0] == PLUS || s[0] == MINUS)
  }

  /** ss >> val for a uint32_t: the value and what is left, or a failure.  A minus sign
      negates modulo 2^32. */
  function Extracted(s: Bytes): (r: Option<(nat, Bytes)>)
    ensures r.Some? ==> |r.value.1| < |s|
  {
    var t := Trimmed(s);
    var u := if Signed(t) then t[1..] else t;
    var n := LeadingDigits(u);
    if n == 0 || Value(u[..n]) >= UINT32_RANGE then None
    else Some((if Signed(t) && t[0] == MINUS then Minus(0, Value(u[..n])) else Value(u[..n]), u[n..]))
  }

  /** A comma behind a number is ignored. */
  function AfterComma(s: Bytes): (rest: Bytes)
    ensures |rest| <= |s|
  {
    if s != [] && s[0] == COMMA then s[1..] else s
  }

  /** The numbers of a line: ss >> val until it fails. */
  function Numbers(s: Bytes): seq<nat>
    decreases |s|
  {
    match Extracted(s)
    case None => []
    case Some((value, rest)) => [value] + Numbers(AfterComma(rest))
  }

  /** One value more at the end of each of the first columns. */
  function Pushed(d: Dataset, values: seq<nat>): Dataset
    requires |values| <= |d|
  {
    seq(|d|, j requires 0 <= j < |d| =>
      if j < |values| then Column(d[j].name, d[j].values + [values[j]]) else d[j])
  }

  function Headed(names: seq<Bytes>): Dataset {
    seq(|names|, j requires 0 <= j < |names| => Column(names[j], []))
  }

  /** The data lines in turn; None when a line has more numbers than there are columns. */
  function ReadRows(d: Dataset, lines: seq<Bytes>): Option<Dataset>
    decreases |lines|
  {
    if lines == [] then Some(d)
    else
      var values := Numbers(lines[0]);
      if |values| <= |d| then ReadRows(Pushed(d, values), lines[1..]) else None
  }

  /** What read_csv makes of an existing file. */
  function Read(text: Bytes): Option<Dataset> {
    ReadRows(Headed(Pieces(text[..Find(text, NEWLINE)], COMMA)), Pieces(AfterPiece(text, NEWLINE), NEWLINE))
  }

  // ----- The loops

  method WriteCsv(dataset: Dataset) returns (file: Option<Bytes>)
    ensures file == Written(dataset)
  {
    if dataset == [] {
      return None;
    }
    var text := WriteCells(Names(dataset));
    text := text + [NEWLINE];
    for i := 0 to |dataset[0].values|
      invariant Behind(text, Rows(dataset, i, |dataset[0].values|)) == Written(dataset)
    {
      var complete := CheckRow(dataset, i);
      if !complete {
        return None;
      }
      var row := WriteCells(Decimals(Row(dataset, i)));
      BehindMore(text, row, Rows(dataset, i + 1, |dataset[0].values|));
      text := text + row + [NEWLINE];
    }
    assert text + [] == text;
    file := Some(text);
  }

  lemma BehindMore(text: Bytes, row: Bytes, more: Option<Bytes>)
    ensures Behind(text, Behind(row + [NEWLINE], more)) == Behind(text + row + [NEWLINE], more)
  {
    if more.Some? {
      assert text + (row + [NEWLINE] + more.value) == text + row + [NEWLINE] + more.value;
    }
  }

  /** at() throws on the first column without an i-th value. */
  method CheckRow(dataset: Dataset, i: nat) returns (complete: bool)
    ensures complete <==> HasRow(dataset, i)
  {
    for j := 0 to |dataset|
      invariant forall k :: 0 <= k < j ==> i < |dataset[k].values|
    {
      if i >= |dataset[j].values| {
        return false;
      }
    }
    complete := true;
  }

  method WriteCells(cells: seq<Bytes>) returns (text: Bytes)
    ensures text == Joined(cells)
  {
    text := [];
    for j := 0 to |cells|
      invariant text + Joined(cells[j..]) == Joined(cells)
    {
      ghost var before := text;
      text := text + cells[j];
      if j != |cells| - 1 {
        text := text + [COMMA];
        assert cells[j..][1..] == cells[j + 1..];
        assert text + Joined(cells[j + 1..]) == before + (cells[j] + [COMMA] + Joined(cells[j + 1..]));
      }
    }
    assert cells[|cells|..] == [];
  }

  method ReadCsv(text: Bytes) returns (result: Option<Dataset>)
    ensures result == Read(text)
  {
    var columns := ReadHeader(text[..Find(text, NEWLINE)]);
    var rest := AfterPiece(text, NEWLINE);
    while rest != []
      invariant ReadRows(columns, Pieces(rest, NEWLINE)) == Read(text)
      decreases |rest|
    {
      var line := rest[..Find(rest, NEWLINE)];
      rest := AfterPiece(rest, NEWLINE);
      var ok, more := ReadLine(columns, line);
      if !ok {
        return None;
      }
      columns := more;
    }
    result := Some(columns);
  }

  method ReadHeader(line: Bytes) returns (columns: Dataset)
    ensures columns == Headed(Pieces(line, COMMA))
  {
    columns := [];
    var rest := line;
    while rest != []
      invariant columns + Headed(Pieces(rest, COMMA)) == Headed(Pieces(line, COMMA))
      decreases |rest|
    {
      var colname := rest[..Find(rest, COMMA)];
      ghost var before, more := columns, Pieces(AfterPiece(rest, COMMA), COMMA);
      rest := AfterPiece(rest, COMMA);
      columns := columns + [Column(colname, [])];
      HeadedMore(before, colname, more);
    }
  }

  lemma HeadedMore(columns: Dataset, name: Bytes, names: seq<Bytes>)
    ensures columns + Headed([name] + names) == columns + [Column(name, [])] + Headed(names)
  {
    assert Headed([name] + names) == [Column(name, [])] + Headed(names);
  }

  lemma PushedMore(columns: Dataset, numbers: seq<nat>, k: nat)
    requires k < |numbers| && k < |columns|
    ensures Pushed(columns, numbers[..k + 1])
            == Pushed(columns, numbers[..k])[k := Column(columns[k].name, columns[k].values + [numbers[k]])]
    ensures Pushed(columns, numbers[..k])[k] == columns[k]
  {
  }

  /** Each number of a line goes to the end of the next column. */
  method ReadLine(columns: Dataset, line: Bytes) returns (ok: bool, result: Dataset)
    ensures ok <==> |Numbers(line)| <= |columns|
    ensures ok ==> result == Pushed(columns, Numbers(line))
  {
    result := columns;
    var rest := line;
    var colIdx := 0;
    ghost var numbers := Numbers(line);
    while true
      invariant colIdx <= |numbers| && colIdx <= |columns|
      invariant numbers[colIdx..] == Numbers(rest)
      invariant result == Pushed(columns, numbers[..colIdx])
      decreases |rest|
    {
      var number := Extracted(rest);
      if number == None {
        break;
      }
      var val := number.value.0;
      assert numbers[colIdx..][0] == val;
      assert numbers[colIdx..][1..] == numbers[colIdx + 1..];
      if colIdx >= |result| {
        return false, [];
      }
      PushedMore(columns, numbers, colIdx);
      result := result[colIdx := Column(result[colIdx].name, result[colIdx].values + [val])];
      rest := AfterComma(number.value.1);
      colIdx := colIdx + 1;
    }
    assert numbers[..colIdx] == numbers;
    ok := true;
  }

  // ----- Round trip

  predicate Free(s: Bytes, delimiter: Byte) {
    forall i :: 0 <= i < |s| ==> s[i] != delimiter
  }

  lemma {:induction false} FindBehind(a: Bytes, delimiter: Byte, b: Bytes)
    requires Free(a, delimiter)
    ensures Find(a + [delimiter] + b, delimiter) == |a|
    ensures Find(a, delimiter) == |a|
    ensures AfterPiece(a + [delimiter] + b, delimiter) == b
  {
    var s := a + [delimiter] + b;
    assert s[|a|] == delimiter;
    assert forall i :: 0 <= i < |a| ==> s[i] == a[i];
  }

  lemma {:induction false} PiecesCons(a: Bytes, delimiter: Byte, b: Bytes)
    requires Free(a, delimiter)
    ensures Pieces(a + [delimiter] + b, delimiter) == [a] + Pieces(b, delimiter)
  {
    FindBehind(a, delimiter, b);
    assert (a + [delimiter] + b)[..|a|] == a;
  }

  lemma {:induction false} PiecesOne(a: Bytes, delimiter: Byte)
    requires Free(a, delimiter)
    ensures Pieces(a, delimiter) == if a == [] then [] else [a]
  {
    FindBehind(a, delimiter, []);
    assert a[..|a|] == a;
  }

  predicate AllFree(cells: seq<Bytes>, delimiter: Byte) {
    forall i :: 0 <= i < |cells| ==> Free(cells[i], delimiter)
  }

  /** What is read back of the names in a header line: all but an empty one at the end. */
  function Shown(cells: seq<Bytes>): seq<Bytes>
    requires cells != []
  {
    if cells[|cells| - 1] == [] then cells[..|cells| - 1] else cells
  }

  lemma ShownMore(cells: seq<Bytes>)
    requires |cells| > 1
    ensures Shown(cells) == [cells[0]] + Shown(cells[1..])
  {
  }

  lemma {:induction false} PiecesJoined(cells: seq<Bytes>)
    requires cells != [] && AllFree(cells, COMMA)
    ensures Pieces(Joined(cells), COMMA) == Shown(cells)
  {
    if |cells| == 1 {
      PiecesOne(cells[0], COMMA);
    } else {
      PiecesCons(cells[0], COMMA, Joined(cells[1..]));
      PiecesJoined(cells[1..]);
      ShownMore(cells);
    }
  }

  lemma {:induction false} JoinedFree(cells: seq<Bytes>)
    requires AllFree(cells, NEWLINE)
    ensures Free(Joined(cells), NEWLINE)
  {
    if |cells| > 1 {
      JoinedFree(cells[1..]);
    }
  }

  predicate Fits32(values: seq<nat>) {
    forall i :: 0 <= i < |values| ==> values[i] < UINT32_RANGE
  }

  lemma {:induction false} LeadingIs(s: Bytes, m: nat)
    requires m <= |s| && (forall i :: 0 <= i < m ==> Digit(s[i])) && (m < |s| ==> !Digit(s[m]))
    ensures LeadingDigits(s) == m
  {
    if m > 0 {
      LeadingIs(s[1..], m - 1);
    }
  }

  lemma {:induction false} LeadingNumber(v: nat, rest: Bytes)
    requires rest != [] ==> !Digit(rest[0])
    ensures LeadingDigits(Decimal(v) + rest) == |Decimal(v)| > 0
    ensures (Decimal(v) + rest)[..|Decimal(v)|] == Decimal(v) && Digits(Decimal(v)) && Value(Decimal(v)) == v
  {
    DecimalValue(v);
    LeadingIs(Decimal(v) + rest, |Decimal(v)|);
  }

  /** A number that was written is extracted. */
  lemma {:induction false} ExtractedIs(v: nat, rest: Bytes)
    requires v < UINT32_RANGE && (rest != [] ==> !Digit(rest[0]))
    ensures Extracted(Decimal(v) + rest) == Some((v, rest))
  {
    LeadingNumber(v, rest);
    var s := Decimal(v) + rest;
    assert Digit(s[0]) by { assert s[0] == s[..|Decimal(v)|][0]; }
    assert s[|Decimal(v)|..] == rest;
  }

  lemma {:induction false} NumbersCons(v: nat, more: Bytes)
    requires v < UINT32_RANGE
    ensures Numbers(Decimal(v) + [COMMA] + more) == [v] + Numbers(more)
  {
    var d := Decimal(v);
    ExtractedIs(v, [COMMA] + more);
    assert d + ([COMMA] + more) == d + [COMMA] + more;
    assert AfterComma([COMMA] + more) == more;
  }

  lemma {:induction false} NumbersOne(v: nat)
    requires v < UINT32_RANGE
    ensures Numbers(Decimal(v)) == [v]
  {
    ExtractedIs(v, []);
    assert Decimal(v) + [] == Decimal(v);
  }

  lemma {:induction false} NumbersJoined(values: seq<nat>)
    requires Fits32(values)
    ensures Numbers(Joined(Decimals(values))) == values
  {
    if values == [] {
      assert Decimals(values) == [];
    } else {
      assert Decimals(values)[1..] == Decimals(values[1..]);
      if |values| == 1 {
        NumbersOne(values[0]);
      } else {
        NumbersJoined(values[1..]);
        NumbersCons(values[0], Joined(Decimals(values[1..])));
      }
    }
  }

  lemma DecimalsFree(values: seq<nat>)
    ensures AllFree(Decimals(values), NEWLINE)
  {
    forall i | 0 <= i < |values| ensures Free(Decimals(values)[i], NEWLINE) {
      DecimalValue(values[i]);
      assert Decimals(values)[i] == Decimal(values[i]);
    }
  }

  /** The first i values of every column. */
  function Top(d: Dataset, i: nat): Dataset
    requires forall j :: 0 <= j < |d| ==> i <= |d[j].values|
  {
    seq(|d|, j requires 0 <= j < |d| => Column(d[j].name, d[j].values[..i]))
  }

  predicate Fits(d: Dataset) {
    forall j :: 0 <= j < |d| ==> Fits32(d[j].values)
  }

  /** Every column has at least n values. */
  predicate Deep(d: Dataset, n: nat) {
    forall j :: 0 <= j < |d| ==> n <= |d[j].values|
  }

  lemma RowReadBack(d: Dataset, i: nat)
    requires Fits(d) && Deep(d, i + 1)
    ensures Numbers(Joined(Decimals(Row(d, i)))) == Row(d, i)
    ensures Pushed(Top(d, i), Row(d, i)) == Top(d, i + 1)
    ensures Free(Joined(Decimals(Row(d, i))), NEWLINE)
  {
    NumbersJoined(Row(d, i));
    DecimalsFree(Row(d, i));
    JoinedFree(Decimals(Row(d, i)));
    forall j | 0 <= j < |d| ensures d[j].values[..i] + [d[j].values[i]] == d[j].values[..i + 1] {
    }
  }

  lemma {:induction false} RowsReadBack(d: Dataset, i: nat, n: nat)
    requires Fits(d) && Deep(d, n) && i <= n
    ensures Rows(d, i, n).Some?
    ensures ReadRows(Top(d, i), Pieces(Rows(d, i, n).value, NEWLINE)) == Some(Top(d, n))
    decreases n - i
  {
    if i < n {
      RowReadBack(d, i);
      RowsReadBack(d, i + 1, n);
      PiecesCons(Joined(Decimals(Row(d, i))), NEWLINE, Rows(d, i + 1, n).value);
    }
  }

  /** Names that survive a header line. */
  predicate NamesOk(d: Dataset) {
    AllFree(Names(d), COMMA) && AllFree(Names(d), NEWLINE)
  }

  /** The header line is what stands before the first newline. */
  lemma HeaderFound(d: Dataset, rows: Bytes)
    requires d != [] && NamesOk(d)
    ensures var text := Joined(Names(d)) + [NEWLINE] + rows;
            text[..Find(text, NEWLINE)] == Joined(Names(d)) && AfterPiece(text, NEWLINE) == rows
    ensures Pieces(Joined(Names(d)), COMMA) == Shown(Names(d))
  {
    PiecesJoined(Names(d));
    JoinedFree(Names(d));
    FindBehind(Joined(Names(d)), NEWLINE, rows);
    var text := Joined(Names(d)) + [NEWLINE] + rows;
    assert text[..|Joined(Names(d))|] == Joined(Names(d));
  }

  lemma {:induction false} ReadsBehind(d: Dataset, rows: Bytes)
    requires d != [] && NamesOk(d) && Names(d)[|d| - 1] != []
    ensures Read(Joined(Names(d)) + [NEWLINE] + rows) == ReadRows(Headed(Names(d)), Pieces(rows, NEWLINE))
  {
    HeaderFound(d, rows);
  }

  /** With clean names the header line and as many values as the first column has are
      read back. */
  lemma ReadsBackTop(d: Dataset)
    requires d != [] && Fits(d) && NamesOk(d) && Deep(d, |d[0].values|)
    ensures Written(d).Some?
    ensures Names(d)[|d| - 1] != [] ==> Read(Written(d).value) == Some(Top(d, |d[0].values|))
  {
    var n := |d[0].values|;
    RowsReadBack(d, 0, n);
    assert Headed(Names(d)) == Top(d, 0);
    if Names(d)[|d| - 1] != [] {
      ReadsBehind(d, Rows(d, 0, n).value);
    }
  }

  // ----- The layout of a file

  /** The line shows the i-th values of all columns in decimal, with commas between them. */
  predicate Shows(d: Dataset, i: nat, line: Bytes) {
    && HasRow(d, i) && |Pieces(line, 44)| == |d|
    && forall j :: 0 <= j < |d| ==> Pieces(line, 44)[j] == Decimal(d[j].values[i])
  }

  lemma RowShown(d: Dataset, i: nat)
    requires d != [] && HasRow(d, i)
    ensures Shows(d, i, Joined(Decimals(Row(d, i)))) && Free(Joined(Decimals(Row(d, i))), NEWLINE)
  {
    var cells := Decimals(Row(d, i));
    DecimalsFree(Row(d, i));
    JoinedFree(cells);
    forall j | 0 <= j < |cells| ensures Free(cells[j], COMMA) && cells[j] == Decimal(d[j].values[i]) && cells[j] != [] {
      DecimalValue(d[j].values[i]);
    }
    PiecesJoined(cells);
  }

  /** The lines show the rows from i on. */
  predicate AllShown(d: Dataset, i: nat, lines: seq<Bytes>) {
    forall m: nat :: m < |lines| ==> Shows(d, i + m, lines[m])
  }

  lemma ShownAt(d: Dataset, i: nat, lines: seq<Bytes>, m: nat, k: nat, line: Bytes)
    requires AllShown(d, i + 1, lines) && 0 < m <= |lines| && k == i + m && line == lines[m - 1]
    ensures Shows(d, k, line)
  {
    var before := m - 1;
    assert k == i + 1 + before;
    assert Shows(d, i + 1 + before, lines[before]);
  }

  lemma ShownCons(d: Dataset, i: nat, line: Bytes, lines: seq<Bytes>, all: seq<Bytes>)
    requires Shows(d, i, line) && AllShown(d, i + 1, lines) && all == [line] + lines
    ensures AllShown(d, i, all)
  {
    forall m: nat | m < |all| ensures Shows(d, i + m, all[m]) {
      if m > 0 {
        ShownAt(d, i, lines, m, i + m, all[m]);
      }
    }
  }

  lemma {:induction false} RowsShown(d: Dataset, i: nat, n: nat)
    requires d != [] && Deep(d, n) && i <= n
    ensures Rows(d, i, n).Some?
    ensures |Pieces(Rows(d, i, n).value, 10)| == n - i && AllShown(d, i, Pieces(Rows(d, i, n).value, 10))
    decreases n - i
  {
    if i < n {
      RowShown(d, i);
      RowsShown(d, i + 1, n);
      var line, rest := Joined(Decimals(Row(d, i))), Rows(d, i + 1, n).value;
      PiecesCons(line, NEWLINE, rest);
      ShownCons(d, i, line, Pieces(rest, 10), [line] + Pieces(rest, 10));
    }
  }

  /** The file has a line of names and a line for every value of the first column, each
      ended by byte 10; between commas, byte 44, stand the names, and the i-th values of
      all columns in decimal. */
  lemma WrittenLayout(d: Dataset)
    requires d != [] && NamesOk(d) && Deep(d, |d[0].values|)
    ensures Written(d).Some?
    ensures var lines := Pieces(Written(d).value, 10);
            && |lines| == |d[0].values| + 1 && AllShown(d, 0, lines[1..])
            && Pieces(lines[0], 44) == if d[|d| - 1].name == [] then Names(d)[..|d| - 1] else Names(d)
  {
    RowsShown(d, 0, |d[0].values|);
    PiecesJoined(Names(d));
    JoinedFree(Names(d));
    var line, rest := Joined(Names(d)), Rows(d, 0, |d[0].values|).value;
    PiecesCons(line, NEWLINE, rest);
    assert ([line] + Pieces(rest, 10))[1..] == Pieces(rest, 10);
  }

  // ----- A formatted read

  /** Blanks, 32 and 9 to 13, are skipped. */
  lemma {:induction false} BlankSkipped(b: Byte, s: Bytes)
    requires b == 32 || 9 <= b <= 13
    ensures Extracted([b] + s) == Extracted(s)
  {
    assert ([b] + s)[1..] == s;
  }

  lemma {:induction false} NotBlank(s: Bytes)
    requires s != [] && s[0] != 32 && !(9 <= s[0] <= 13)
    ensures Trimmed(s) == s
  {
  }

  lemma {:induction false} DigitsExtracted(v: nat, rest: Bytes)
    requires rest != [] ==> !(48 <= rest[0] <= 57)
    ensures Extracted(Decimal(v) + rest) == if v < 0x1_0000_0000 then Some((v, rest)) else None
  {
    LeadingNumber(v, rest);
    var s := Decimal(v) + rest;
    assert Digit(s[0]) by { assert s[0] == s[..|Decimal(v)|][0]; }
    assert s[|Decimal(v)|..] == rest;
    NotBlank(s);
  }

  /** A plus (43) is passed over, a minus (45) negates modulo 2^32; a number too large is
      not read. */
  lemma {:induction false} SignExtracted(sign: Byte, v: nat, rest: Bytes)
    requires sign == 43 || sign == 45
    requires rest != [] ==> !(48 <= rest[0] <= 57)
    ensures Extracted([sign] + (Decimal(v) + rest)) ==
            if v >= 0x1_0000_0000 then None
            else Some((if sign == 43 || v == 0 then v else 0x1_0000_0000 - v, rest))
  {
    LeadingNumber(v, rest);
    var s := Decimal(v) + rest;
    assert ([sign] + s)[1..] == s && s[|Decimal(v)|..] == rest;
    NotBlank([sign] + s);
  }

  /** Anything else fails, and a sign without a digit behind it. */
  lemma {:induction false} NothingExtracted(s: Bytes)
    requires s != [] && s[0] != 32 && !(9 <= s[0] <= 13) && !(48 <= s[0] <= 57)
    requires (s[0] == 43 || s[0] == 45) && |s| > 1 ==> !(48 <= s[1] <= 57)
    ensures Extracted(s) == None
  {
    NotBlank(s);
  }

  // ----- What is read has clean names

  lemma {:induction false} PiecesFree(s: Bytes, delimiter: Byte, other: Byte)
    requires Free(s, other)
    ensures AllFree(Pieces(s, delimiter), delimiter) && AllFree(Pieces(s, delimiter), other)
    decreases |s|
  {
    if s != [] {
      var first, rest := s[..Find(s, delimiter)], AfterPiece(s, delimiter);
      PiecesFree(rest, delimiter, other);
      AllFreeCons(first, Pieces(rest, delimiter), delimiter);
      AllFreeCons(first, Pieces(rest, delimiter), other);
    }
  }

  lemma AllFreeCons(cell: Bytes, cells: seq<Bytes>, delimiter: Byte)
    requires Free(cell, delimiter) && AllFree(cells, delimiter)
    ensures AllFree([cell] + cells, delimiter)
  {
  }

  lemma {:induction false} ReadRowsNames(d: Dataset, lines: seq<Bytes>)
    ensures ReadRows(d, lines).Some? ==> Names(ReadRows(d, lines).value) == Names(d)
    decreases |lines|
  {
    if lines != [] {
      var values := Numbers(lines[0]);
      if |values| <= |d| {
        ReadRowsNames(Pushed(d, values), lines[1..]);
        assert Names(Pushed(d, values)) == Names(d);
      }
    }
  }

  lemma {:induction false} ReadNames(text: Bytes)
    ensures Read(text).Some? ==>
              NamesOk(Read(text).value)
              && Names(Read(text).value) == Pieces(text[..Find(text, NEWLINE)], COMMA)
  {
    var line := text[..Find(text, NEWLINE)];
    PiecesFree(line, COMMA, NEWLINE);
    ReadRowsNames(Headed(Pieces(line, COMMA)), Pieces(AfterPiece(text, NEWLINE), NEWLINE));
    assert Names(Headed(Pieces(line, COMMA))) == Pieces(line, COMMA);
  }

  lemma {:induction false} RowsNeedDepth(d: Dataset, i: nat, n: nat)
    requires i <= n && Rows(d, i, n).Some?
    ensures i < n ==> Deep(d, n)
    decreases n - i
  {
    if i + 1 < n {
      RowsNeedDepth(d, i + 1, n);
    }
  }

  predicate EqualLengths(d: Dataset) {
    forall j :: 0 <= j < |d| ==> |d[j].values| == |d[0].values|
  }

  lemma CleanIfReadBack(d: Dataset)
    requires d != [] && Written(d).Some? && Read(Written(d).value) == Some(d)
    ensures NamesOk(d) && Names(d)[|d| - 1] != []
  {
    ReadNames(Written(d).value);
    PiecesJoined(Names(d));
    JoinedFree(Names(d));
    var rows := Rows(d, 0, |d[0].values|).value;
    FindBehind(Joined(Names(d)), NEWLINE, rows);
    assert Written(d).value[..|Joined(Names(d))|] == Joined(Names(d));
    assert Names(d) == Shown(Names(d));
  }

  lemma TopIsAll(d: Dataset)
    requires d != [] && Deep(d, |d[0].values|)
    ensures Top(d, |d[0].values|) == d <==> EqualLengths(d)
  {
    var n := |d[0].values|;
    if EqualLengths(d) {
      forall j | 0 <= j < |d| ensures Top(d, n)[j] == d[j] {
        assert d[j].values[..n] == d[j].values;
      }
    } else {
      var j :| 0 <= j < |d| && |d[j].values| != n;
      assert |Top(d, n)[j].values| == n;
    }
  }

  lemma WrittenIsDeep(d: Dataset)
    requires d != [] && Written(d).Some?
    ensures Deep(d, |d[0].values|)
  {
    RowsNeedDepth(d, 0, |d[0].values|);
  }

  /** What write_csv wrote read_csv reads back, for exactly the data sets with a column,
      columns of one length, names without commas and newlines, and a last name that is
      not empty. */
  lemma RoundTripIff(d: Dataset)
    requires Fits(d)
    ensures Written(d).Some? && Read(Written(d).value) == Some(d) <==>
              d != [] && EqualLengths(d) && NamesOk(d) && Names(d)[|d| - 1] != []
  {
    if d != [] {
      if Written(d).Some? && Read(Written(d).value) == Some(d) {
        CleanIfReadBack(d);
        WrittenIsDeep(d);
      }
      if NamesOk(d) && Deep(d, |d[0].values|) {
        ReadsBackTop(d);
        TopIsAll(d);
      }
    }
  }

  // ----- The merge

  /** From the second value on, the other column is added in. */
  function AddedColumn(into: seq<nat>, from: seq<nat>): seq<nat> {
    seq(|into|, k requires 0 <= k < |into| => if 1 <= k < |from| then Plus(into[k], from[k]) else into[k])
  }

  function AddedDataset(into: Dataset, from: Dataset): Dataset {
    seq(|into|, j requires 0 <= j < |into| =>
      if j < |from| then Column(into[j].name, AddedColumn(into[j].values, from[j].values)) else into[j])
  }

  /** Every value from the second on has a place to go; otherwise at() throws. */
  predicate Mergeable(into: Dataset, from: Dataset) {
    forall j :: 0 <= j < |from| ==>
      |from[j].values| <= 1 || (j < |into| && |from[j].values| <= |into[j].values|)
  }

  method AddColumn(into: seq<nat>, from: seq<nat>) returns (ok: bool, sum: seq<nat>)
    ensures ok <==> |from| <= 1 || |from| <= |into|
    ensures ok ==> sum == AddedColumn(into, from)
  {
    sum := into;
    var k := 1;
    while k < |from|
      invariant 1 <= k && (k == 1 || k <= |from|) && (k == 1 || k <= |into|)
      invariant sum == AddedColumn(into, if k <= |from| then from[..k] else from)
    {
      if k >= |sum| {
        return false, [];
      }
      sum := sum[k := (sum[k] + from[k]) % UINT32_RANGE];
      k := k + 1;
    }
    assert |from| > 0 ==> from[..|from|] == from;
    ok := true;
  }

  method AddDataset(into: Dataset, from: Dataset) returns (ok: bool, sum: Dataset)
    ensures ok <==> Mergeable(into, from)
    ensures ok ==> sum == AddedDataset(into, from)
  {
    sum := into;
    var j := 0;
    while j < |from|
      invariant 0 <= j <= |from|
      invariant Mergeable(into, from[..j]) && sum == AddedDataset(into, from[..j])
    {
      if j >= |sum| {
        if |from[j].values| > 1 {
          return false, [];
        }
      } else {
        var fits, values := AddColumn(sum[j].values, from[j].values);
        if !fits {
          return false, [];
        }
        sum := sum[j := Column(sum[j].name, values)];
      }
      j := j + 1;
    }
    assert from[..|from|] == from;
    ok := true;
  }

  function Merged(cpus: seq<Dataset>): Dataset {
    if cpus == [] then []
    else if |cpus| == 1 then cpus[0]
    else AddedDataset(Merged(cpus[..|cpus| - 1]), cpus[|cpus| - 1])
  }

  predicate AllMergeable(cpus: seq<Dataset>) {
    forall i :: 1 <= i < |cpus| ==> Mergeable(cpus[0], cpus[i])
  }

  /** The values of all CPUs are added into those of the first. */
  method MergeCpus(cpuValues: seq<Dataset>) returns (ok: bool, merged: Dataset)
    ensures ok <==> AllMergeable(cpuValues)
    ensures ok ==> merged == Merged(cpuValues)
  {
    if cpuValues == [] {
      return true, [];
    }
    merged := cpuValues[0];
    var i := 1;
    while i < |cpuValues|
      invariant 1 <= i <= |cpuValues|
      invariant AllMergeable(cpuValues[..i]) && merged == Merged(cpuValues[..i])
    {
      MergedShape(cpuValues[..i]);
      SameShapeMerges(cpuValues[0], merged, cpuValues[i]);
      var fits, sum := AddDataset(merged, cpuValues[i]);
      if !fits {
        return false, [];
      }
      merged := sum;
      MergedMore(cpuValues, i);
      i := i + 1;
    }
    assert cpuValues[..i] == cpuValues;
    ok := true;
  }

  lemma MergedMore(cpus: seq<Dataset>, i: nat)
    requires 1 <= i < |cpus| && AllMergeable(cpus[..i]) && Mergeable(cpus[0], cpus[i])
    ensures AllMergeable(cpus[..i + 1])
    ensures Merged(cpus[..i + 1]) == AddedDataset(Merged(cpus[..i]), cpus[i])
  {
    assert cpus[..i + 1][..i] == cpus[..i];
    assert cpus[..i + 1] == cpus[..i] + [cpus[i]];
  }

  predicate SameShape(d: Dataset, e: Dataset) {
    |d| == |e| && forall j :: 0 <= j < |d| ==> |d[j].values| == |e[j].values| && d[j].name == e[j].name
  }

  lemma {:induction false} MergedShape(cpus: seq<Dataset>)
    requires cpus != []
    ensures SameShape(Merged(cpus), cpus[0])
  {
    if |cpus| > 1 {
      MergedShape(cpus[..|cpus| - 1]);
    }
  }

  lemma SameShapeMerges(d: Dataset, e: Dataset, from: Dataset)
    requires SameShape(e, d)
    ensures Mergeable(e, from) <==> Mergeable(d, from)
  {
    if Mergeable(e, from) {
      forall j | 0 <= j < |from|
        ensures |from[j].values| <= 1 || (j < |d| && |from[j].values| <= |d[j].values|)
      {
        assert |from[j].values| <= 1 || (j < |e| && |from[j].values| <= |e[j].values|);
      }
    }
  }

  /** The k-th value of the j-th column has a place in the first data set. */
  predicate HasPlace(into: Dataset, j: nat, k: nat) {
    j < |into| && k < |into[j].values|
  }

  lemma MergeableIff(into: Dataset, from: Dataset)
    ensures Mergeable(into, from) <==>
              forall j, k :: 0 <= j < |from| && 1 <= k < |from[j].values| ==> HasPlace(into, j, k)
  {
    if Mergeable(into, from) {
    } else {
      var j :| 0 <= j < |from| && !(|from[j].values| <= 1 || (j < |into| && |from[j].values| <= |into[j].values|));
      assert !HasPlace(into, j, |from[j].values| - 1);
    }
  }

  predicate AsLong(d: Dataset, e: Dataset) {
    |d| == |e| && forall j :: 0 <= j < |d| ==> |d[j].values| == |e[j].values|
  }

  /** CPUs whose columns are as many and as long as those of the first always merge. */
  lemma AlikeMerge(cpus: seq<Dataset>)
    requires forall i :: 0 <= i < |cpus| ==> AsLong(cpus[i], cpus[0])
    ensures AllMergeable(cpus)
  {
  }

  /** Merging fails exactly if some CPU has a value, not the first of its column, at a place
      that the first CPU does not have. */
  lemma MergesIff(cpus: seq<Dataset>)
    ensures AllMergeable(cpus) <==>
              forall i, j, k :: 1 <= i < |cpus| && 0 <= j < |cpus[i]| && 1 <= k < |cpus[i][j].values| ==>
                HasPlace(cpus[0], j, k)
  {
    forall i | 1 <= i < |cpus|
      ensures Mergeable(cpus[0], cpus[i]) <==>
                forall j, k :: 0 <= j < |cpus[i]| && 1 <= k < |cpus[i][j].values| ==> HasPlace(cpus[0], j, k)
    {
      MergeableIff(cpus[0], cpus[i]);
    }
  }

  /** The k-th value of the j-th column of a CPU, 0 where it has none. */
  function At(d: Dataset, j: nat, k: nat): nat {
    if j < |d| && k < |d[j].values| then d[j].values[k] else 0
  }

  function Total(cpus: seq<Dataset>, j: nat, k: nat): nat {
    if cpus == [] then 0 else Total(cpus[..|cpus| - 1], j, k) + At(cpus[|cpus| - 1], j, k)
  }

  /** From the second value on the merged column is the sum over all CPUs, modulo 2^32;
      the first value, the type of the column, is that of the first CPU. */
  lemma {:induction false} MergedIsTotal(cpus: seq<Dataset>, j: nat, k: nat)
    requires cpus != [] && Fits(cpus[0]) && j < |cpus[0]| && k < |cpus[0][j].values|
    ensures |Merged(cpus)| == |cpus[0]| && Merged(cpus)[j].name == cpus[0][j].name
    ensures |Merged(cpus)[j].values| == |cpus[0][j].values|
    ensures Merged(cpus)[j].values[k] == if k == 0 then cpus[0][j].values[0] else Total(cpus, j, k) % UINT32_RANGE
  {
    MergedShape(cpus);
    var front, last := cpus[..|cpus| - 1], cpus[|cpus| - 1];
    if |cpus| == 1 {
      assert Total(front, j, k) == 0;
    } else {
      MergedIsTotal(front, j, k);
      TotalMore(Total(front, j, k), At(last, j, k));
    }
  }

  lemma TotalMore(a: nat, b: nat)
    ensures Plus(a % UINT32_RANGE, b) == (a + b) % UINT32_RANGE
  {
    assert a == a / UINT32_RANGE * UINT32_RANGE + a % UINT32_RANGE;
  }
}
