/** The listing of completion candidates in columns. */
module CandidateGrid {
  import opened Bytes

  function Max(a: nat, b: nat): nat { if a < b then b else a }

  function MaxChars(candidates: seq<string>): nat {
    if candidates == [] then 0 else Max(|candidates[0]|, MaxChars(candidates[1..]))
  }

  lemma {:induction false} MaxCharsIsMax(candidates: seq<string>)
    ensures forall i :: 0 <= i < |candidates| ==> |candidates[i]| <= MaxChars(candidates)
    ensures candidates != [] ==> exists i :: 0 <= i < |candidates| && |candidates[i]| == MaxChars(candidates)
  {
    if candidates != [] {
      var rest := candidates[1..];
      MaxCharsIsMax(rest);
      assert forall i :: 0 < i < |candidates| ==> candidates[i] == rest[i - 1];
      if |candidates[0]| < MaxChars(rest) {
        var i :| 0 <= i < |rest| && |rest[i]| == MaxChars(rest);
        assert candidates[i + 1] == rest[i];
      } else {
        assert |candidates[0]| == MaxChars(candidates);
      }
    }
  }

  function ColumnWidth(candidates: seq<string>): nat { Max(MaxChars(candidates) + 2, 2) }

  function Columns(candidates: seq<string>, terminalWidth: nat): (columns: nat)
    ensures columns >= 1
  {
    Max(Max(terminalWidth, 1) / ColumnWidth(candidates), 1)
  }

  function Rows(candidates: seq<string>, terminalWidth: nat): nat {
    (|candidates| + Columns(candidates, terminalWidth) - 1) / Columns(candidates, terminalWidth)
  }

  /** The candidates and the dimensions they are laid out in. */
  datatype Grid = Grid(candidates: seq<string>, columns: nat, rows: nat, width: nat)
  {
    /** The dimensions `format_completion_candidates` computes satisfy this. */
    ghost predicate Valid() {
      && columns >= 1 && rows >= 1
      && |candidates| <= columns * rows
      && forall i :: 0 <= i < |candidates| ==> |candidates[i]| + 2 <= width
    }
  }

  /** Which candidate a cell holds, and where its column starts. */
  function Index(g: Grid, row: nat, column: nat): nat { column * g.rows + row }

  function Offset(g: Grid, column: nat): nat { column * g.width }

  function Cell(g: Grid, row: nat, column: nat): string {
    var index := Index(g, row, column);
    if index >= |g.candidates| then ""
    else g.candidates[index] + if column + 1 < g.columns && index + g.rows < |g.candidates|
                               then Spaces(g.width - |g.candidates[index]|) else ""
  }

  function RowFrom(g: Grid, row: nat, column: nat): string
    decreases g.columns - column
  {
    if column >= g.columns then "" else Cell(g, row, column) + RowFrom(g, row, column + 1)
  }

  function LinesFrom(g: Grid, row: nat): string
    decreases g.rows - row
  {
    if row >= g.rows then ""
    else RowFrom(g, row, 0) + (if row + 1 < g.rows then "\r\n" else "") + LinesFrom(g, row + 1)
  }

  function Spaces(n: int): (s: string)
    ensures |s| == if n > 0 then n else 0
    ensures forall i :: 0 <= i < |s| ==> s[i] == ' '
  {
    if n <= 0 then "" else " " + Spaces(n - 1)
  }

  function GridFor(candidates: seq<string>, terminalWidth: nat): Grid {
    Grid(candidates, Columns(candidates, terminalWidth), Rows(candidates, terminalWidth), ColumnWidth(candidates))
  }

  lemma CeilingCovers(n: nat, columns: nat)
    requires columns >= 1
    ensures n <= columns * ((n + columns - 1) / columns)
  {
    var q, r := (n + columns - 1) / columns, (n + columns - 1) % columns;
    assert n + columns - 1 == q * columns + r;
  }

  lemma GridIsValid(candidates: seq<string>, terminalWidth: nat)
    requires candidates != []
    ensures GridFor(candidates, terminalWidth).Valid()
  {
    CeilingCovers(|candidates|, Columns(candidates, terminalWidth));
    MaxCharsIsMax(candidates);
  }

  lemma Multiples(a: nat, b: nat, n: nat)
    requires a <= b
    ensures a * n <= b * n
    ensures (b - a) * n == b * n - a * n
  {
  }

  /** One column further on. */
  lemma NextColumn(g: Grid, row: nat, column: nat)
    ensures Index(g, row, column + 1) == Index(g, row, column) + g.rows
    ensures Offset(g, column + 1) == Offset(g, column) + g.width
    ensures Index(g, row, 0) == row && Offset(g, 0) == 0
  {
  }

  lemma LaterColumn(g: Grid, row: nat, from: nat, column: nat)
    requires from <= column
    ensures Index(g, row, from) <= Index(g, row, column)
    ensures Offset(g, from) <= Offset(g, column)
  {
    Multiples(from, column, g.rows);
    Multiples(from, column, g.width);
  }

  /** A cell that holds a candidate lies within the columns. */
  lemma CellIsInAColumn(g: Grid, row: nat, column: nat)
    requires g.Valid() && Index(g, row, column) < |g.candidates|
    ensures column < g.columns
  {
    if column >= g.columns {
      Multiples(g.columns, column, g.rows);
    }
  }

  lemma SameQuotient(rows: nat, row: nat, column: nat, row': nat, column': nat)
    requires row < rows && row' < rows && column * rows + row == column' * rows + row'
    ensures row == row' && column == column'
  {
    if column < column' {
      Multiples(1, column' - column, rows);
      Multiples(column, column', rows);
    } else if column' < column {
      Multiples(1, column - column', rows);
      Multiples(column', column, rows);
    }
  }

  /** Every candidate has exactly one cell: filling goes down the columns. */
  lemma EveryCandidateHasOneCell(g: Grid, i: nat)
    requires g.Valid() && i < |g.candidates|
    ensures var row, column := i % g.rows, i / g.rows;
            row < g.rows && column < g.columns && Index(g, row, column) == i
    ensures forall row: nat, column: nat :: row < g.rows && Index(g, row, column) == i ==>
              row == i % g.rows && column == i / g.rows
  {
    var row, column := i % g.rows, i / g.rows;
    assert Index(g, row, column) == i;
    CellIsInAColumn(g, row, column);
    forall row': nat, column': nat | row' < g.rows && Index(g, row', column') == i
      ensures row' == row && column' == column
    {
      SameQuotient(g.rows, row, column, row', column');
    }
  }

  lemma {:induction false} EmptyFrom(g: Grid, row: nat, column: nat)
    requires g.Valid() && Index(g, row, column) >= |g.candidates|
    ensures RowFrom(g, row, column) == ""
    decreases g.columns - column
  {
    hide Index;
    if column < g.columns {
      NextColumn(g, row, column);
      EmptyFrom(g, row, column + 1);
    }
  }

  /** The text has the candidate at the offset, followed by blanks up to the next column or by nothing at all. */
  ghost predicate HasCell(g: Grid, text: string, offset: nat, candidate: string, more: bool) {
    && offset + |candidate| <= |text|
    && text[offset..offset + |candidate|] == candidate
    && if more then
         && |candidate| <= g.width && offset + g.width <= |text|
         && text[offset + |candidate|..offset + g.width] == Spaces(g.width - |candidate|)
       else |text| == offset + |candidate|
  }

  lemma HasCellAfter(g: Grid, cell: string, text: string, offset: nat, candidate: string, more: bool)
    requires HasCell(g, text, offset, candidate, more)
    ensures HasCell(g, cell + text, |cell| + offset, candidate, more)
  {
    var all, end := cell + text, offset + |candidate|;
    assert all[|cell| + offset..|cell| + end] == text[offset..end];
    if more {
      assert all[|cell| + end..|cell| + offset + g.width] == text[end..offset + g.width];
    }
  }

  lemma FirstCell(g: Grid, row: nat, column: nat)
    requires g.Valid() && Index(g, row, column) < |g.candidates| && column < g.columns
    ensures var more := Index(g, row, column + 1) < |g.candidates|;
            && HasCell(g, RowFrom(g, row, column), 0, g.candidates[Index(g, row, column)], more)
            && (more ==> |Cell(g, row, column)| == g.width)
  {
    NextColumn(g, row, column);
    if Index(g, row, column + 1) < |g.candidates| {
      CellIsInAColumn(g, row, column + 1);
    } else {
      EmptyFrom(g, row, column + 1);
    }
    hide Index;
    assert RowFrom(g, row, column) == Cell(g, row, column) + RowFrom(g, row, column + 1);
  }

  /** A row from some column on: each later cell starts one column width further per column; the last cell of the
      row ends it, and any other is filled up with blanks. */
  lemma {:induction false} CellsInRow(g: Grid, row: nat, from: nat, column: nat)
    requires g.Valid() && from <= column && Index(g, row, column) < |g.candidates|
    ensures HasCell(g, RowFrom(g, row, from), Offset(g, column - from), g.candidates[Index(g, row, column)],
                    Index(g, row, column + 1) < |g.candidates|)
    decreases column - from
  {
    hide Index, Offset, HasCell, Cell;
    CellIsInAColumn(g, row, column);
    LaterColumn(g, row, from, column);
    if from == column {
      FirstCell(g, row, column);
      NextColumn(g, row, column);
    } else {
      LaterColumn(g, row, from + 1, column);
      FirstCell(g, row, from);
      CellsInRow(g, row, from + 1, column);
      NextColumn(g, row, column - from - 1);
      HasCellAfter(g, Cell(g, row, from), RowFrom(g, row, from + 1), Offset(g, column - from - 1),
                   g.candidates[Index(g, row, column)], Index(g, row, column + 1) < |g.candidates|);
    }
  }

  /** The whole layout: the candidate with index `i` stands in row `i % rows`, `i / rows` column widths from the left;
      blanks follow it up to the next column exactly if the row has one, so no row ends in padding. */
  lemma CandidateStandsInItsCell(candidates: seq<string>, terminalWidth: nat, i: nat)
    requires i < |candidates|
    ensures var g := GridFor(candidates, terminalWidth);
            g.rows > 0 &&
            HasCell(g, RowFrom(g, i % g.rows, 0), Offset(g, i / g.rows), candidates[i], i + g.rows < |candidates|)
  {
    hide Index, Offset, HasCell, RowFrom, Rows, Columns, ColumnWidth;
    GridIsValid(candidates, terminalWidth);
    var g := GridFor(candidates, terminalWidth);
    var row, column := i % g.rows, i / g.rows;
    EveryCandidateHasOneCell(g, i);
    NextColumn(g, row, column);
    CellsInRow(g, row, 0, column);
  }

  /** The last candidate of a row. */
  lemma LastInRow(g: Grid, row: nat) returns (column: nat)
    requires g.Valid() && row < g.rows && row < |g.candidates|
    ensures Index(g, row, column) < |g.candidates| <= Index(g, row, column + 1)
  {
    var n := |g.candidates| - 1 - row;
    column := n / g.rows;
    assert n == column * g.rows + n % g.rows;
    NextColumn(g, row, column);
  }

  /** A row is as long as its last cell reaches. */
  lemma RowLength(g: Grid, row: nat) returns (column: nat)
    requires g.Valid() && row < g.rows && row < |g.candidates|
    ensures column < g.columns && Index(g, row, column) < |g.candidates|
    ensures |RowFrom(g, row, 0)| == Offset(g, column) + |g.candidates[Index(g, row, column)]|
  {
    column := LastInRow(g, row);
    hide Index, Offset, RowFrom;
    CellIsInAColumn(g, row, column);
    CellsInRow(g, row, 0, column);
  }

  lemma RowFitsIfCandidatesDo(candidates: seq<string>, terminalWidth: nat, row: nat)
    requires candidates != [] && MaxChars(candidates) <= terminalWidth
    requires row < Rows(candidates, terminalWidth) && row < |candidates|
    ensures |RowFrom(GridFor(candidates, terminalWidth), row, 0)| <= terminalWidth
  {
    hide Index, Offset, RowFrom, Rows, Columns, ColumnWidth, MaxChars;
    GridIsValid(candidates, terminalWidth);
    MaxCharsIsMax(candidates);
    var g := GridFor(candidates, terminalWidth);
    var column := RowLength(g, row);
    NextColumn(g, row, column);
    LaterColumn(g, row, column + 1, g.columns);
    ColumnsFit(candidates, terminalWidth);
    if g.columns == 1 {
      NextColumn(g, row, 0);
    }
  }

  /** Unless there is a single column, all columns together fit the terminal. */
  lemma ColumnsFit(candidates: seq<string>, terminalWidth: nat)
    ensures var g := GridFor(candidates, terminalWidth);
            g.columns == 1 || Offset(g, g.columns) <= terminalWidth
  {
    var columns, width := Columns(candidates, terminalWidth), ColumnWidth(candidates);
    if columns != 1 {
      var available := Max(terminalWidth, 1);
      assert columns == available / width;
      assert available == columns * width + available % width;
    }
  }

  lemma RowsAreNotEmpty(candidates: seq<string>, terminalWidth: nat, row: nat)
    requires row < Rows(candidates, terminalWidth)
    ensures row < |candidates|
  {
    var n, columns := |candidates|, Columns(candidates, terminalWidth);
    var rows := (n + columns - 1) / columns;
    assert n + columns - 1 == rows * columns + (n + columns - 1) % columns;
    if n < rows {
      Multiples(n + 1, rows, columns);
      Multiples(1, columns, n);
    }
  }

  /** All rows fit the terminal exactly if the longest candidate does. */
  lemma RowsFitExactly(candidates: seq<string>, terminalWidth: nat)
    requires candidates != []
    ensures (forall row: nat :: row < Rows(candidates, terminalWidth) ==>
               |RowFrom(GridFor(candidates, terminalWidth), row, 0)| <= terminalWidth)
       <==> MaxChars(candidates) <= terminalWidth
  {
    hide Rows, RowFrom, Columns;
    var g := GridFor(candidates, terminalWidth);
    if MaxChars(candidates) <= terminalWidth {
      forall row: nat | row < g.rows ensures |RowFrom(g, row, 0)| <= terminalWidth {
        RowsAreNotEmpty(candidates, terminalWidth, row);
        RowFitsIfCandidatesDo(candidates, terminalWidth, row);
      }
    } else {
      MaxCharsIsMax(candidates);
      var i :| 0 <= i < |candidates| && |candidates[i]| == MaxChars(candidates);
      CandidateStandsInItsCell(candidates, terminalWidth, i);
      assert i % g.rows < g.rows;
      assert |RowFrom(g, i % g.rows, 0)| > terminalWidth;
    }
  }

  function Decimal(n: nat): string {
    if n < 10 then [('0' as int + n) as char] else Decimal(n / 10) + [('0' as int + n % 10) as char]
  }

  // ---- The dimensions ----

  /** There are as many columns as fit, at two blanks more than the longest candidate, and one if none fits. */
  lemma ColumnsAreMaximal(candidates: seq<string>, terminalWidth: nat)
    ensures var n, width, available := Columns(candidates, terminalWidth), MaxChars(candidates) + 2,
                                       if terminalWidth == 0 then 1 else terminalWidth;
            && n >= 1 && (n == 1 || n * width <= available) && (n + 1) * width > available
            && GridFor(candidates, terminalWidth).width == width
  {
    var width, available := ColumnWidth(candidates), Max(terminalWidth, 1);
    var n := available / width;
    assert available == n * width + available % width;
    assert (n + 1) * width == n * width + width;
    if n == 0 {
      assert 2 * width > available;
    }
  }

  /** There are no more rows than the candidates need. */
  lemma RowsAreMinimal(candidates: seq<string>, terminalWidth: nat)
    requires candidates != []
    ensures var n, rows := Columns(candidates, terminalWidth), Rows(candidates, terminalWidth);
            (rows - 1) * n < |candidates| <= rows * n
  {
    var n := Columns(candidates, terminalWidth);
    var sum := |candidates| + n - 1;
    var rows := sum / n;
    assert sum == rows * n + sum % n;
    assert (rows - 1) * n == rows * n - n;
  }

  function Join(lines: seq<string>, separator: string): string {
    if lines == [] then ""
    else if |lines| == 1 then lines[0]
    else lines[0] + separator + Join(lines[1..], separator)
  }

  /** The rows, in order, as lines of the terminal. */
  lemma {:induction false} RowsAreLines(g: Grid, row: nat)
    requires row <= g.rows
    ensures LinesFrom(g, row)
         == Join(seq(g.rows - row, i requires 0 <= i < g.rows - row => RowFrom(g, row + i, 0)), "\r\n")
    decreases g.rows - row
  {
    hide RowFrom;
    var lines := seq(g.rows - row, i requires 0 <= i < g.rows - row => RowFrom(g, row + i, 0));
    if row < g.rows {
      var rest := seq(g.rows - row - 1, i requires 0 <= i < g.rows - row - 1 => RowFrom(g, row + 1 + i, 0));
      RowsAreLines(g, row + 1);
      assert lines[1..] == rest && lines[0] == RowFrom(g, row, 0);
      if row + 1 == g.rows {
        assert LinesFrom(g, row + 1) == "" && lines[0] + "" + "" == lines[0];
      }
    }
  }

  function Number(digits: string): nat
    requires forall i :: 0 <= i < |digits| ==> '0' <= digits[i] <= '9'
  {
    if digits == "" then 0
    else Number(digits[..|digits| - 1]) * 10 + (digits[|digits| - 1] as int - '0' as int)
  }

  /** A number is written in decimal, without leading zeros. */
  lemma {:induction false} DecimalReadsBack(n: nat)
    ensures forall i :: 0 <= i < |Decimal(n)| ==> '0' <= Decimal(n)[i] <= '9'
    ensures Number(Decimal(n)) == n && Decimal(n) != "" && (n > 0 ==> Decimal(n)[0] != '0')
  {
    var digits := Decimal(n);
    if n < 10 {
      assert digits[..0] == "" && Number(digits[..0]) == 0;
    } else {
      DecimalReadsBack(n / 10);
      assert digits[..|digits| - 1] == Decimal(n / 10);
    }
  }

  /** One cell: the candidate, and blanks when another candidate follows in the row. */
  method FormatCell(g: Grid, row: nat, column: nat, output: string) returns (extended: string)
    ensures extended == output + Cell(g, row, column)
  {
    extended := output;
    var index := Index(g, row, column);
    if index < |g.candidates| {
      extended := extended + g.candidates[index];
      if column + 1 < g.columns && index + g.rows < |g.candidates| {
        extended := extended + Spaces(g.width - |g.candidates[index]|);
      }
    }
  }

  /** The inner loop: one row, cell by cell. */
  method FormatRow(g: Grid, row: nat, output: string) returns (extended: string)
    ensures extended == output + RowFrom(g, row, 0)
  {
    hide Cell;
    extended := output;
    var column := 0;
    while column < g.columns
      invariant extended + RowFrom(g, row, column) == output + RowFrom(g, row, 0)
      decreases g.columns - column
    {
      ghost var before, cell, rest := extended, Cell(g, row, column), RowFrom(g, row, column + 1);
      extended := FormatCell(g, row, column, extended);
      assert (before + cell) + rest == before + (cell + rest);
      column := column + 1;
    }
    assert extended + "" == extended;
  }

  /** `format_completion_candidates`: the rows, and a note on candidates that were not sent; the length of the list is
      cut to 32 bits first. */
  method FormatCompletionCandidates(candidates: seq<string>, candidateCount: U32, terminalWidth: U16)
      returns (output: string)
    ensures candidates == [] ==> output == ""
    ensures candidates != [] ==>
              var shown := |candidates| % 0x1_0000_0000;
              output == LinesFrom(GridFor(candidates, terminalWidth), 0)
                        + if candidateCount > shown then "\r\n... " + Decimal(candidateCount - shown) + " more" else ""
  {
    hide Index, Rows, Columns, ColumnWidth, Cell, RowFrom;
    if candidates == [] {
      return "";
    }
    GridIsValid(candidates, terminalWidth);
    var g := GridFor(candidates, terminalWidth);
    output := "";
    var row := 0;
    while row < g.rows
      invariant 0 <= row <= g.rows && output + LinesFrom(g, row) == LinesFrom(g, 0)
    {
      ghost var before, line, rest := output, RowFrom(g, row, 0), LinesFrom(g, row + 1);
      output := FormatRow(g, row, output);
      if row + 1 < g.rows {
        output := output + "\r\n";
        assert before + (line + "\r\n" + rest) == output + rest;
      } else {
        assert before + (line + "" + rest) == output + rest;
      }
      row := row + 1;
    }
    assert output + "" == output;
    var shown := |candidates| % 0x1_0000_0000;
    if candidateCount > shown {
      output := output + ("\r\n... " + Decimal(candidateCount - shown) + " more");
    }
  }
}
