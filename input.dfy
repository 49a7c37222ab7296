/**
 * The row validator `parseCSVInput`: every cell is trimmed and cut at the
 * first `#`; a row of the wrong width, a cell that is not a number (a single
 * `/` meaning division) or, for strategies, a probability outside [0, 1]
 * turns the whole row into `false`.  The loaders then accept the input only
 * when no row is `false`.
 *
 * Line numbers in the comments below refer to `parseCSVInput` and the
 * loaders in PrisonersDilemma.js.
 */
module Input {
  import opened Wrappers

  /**
   * What the validator depends on besides the rows: the mode (`isResultMatrix`),
   * the number of lines of the result-matrix textarea (line 194), and the
   * JavaScript string-to-number conversion `+s`, with None for NaN.
   */
  datatype Reader = Reader(results: bool, lineCount: nat, num: string -> Option<real>)

  /** A tokenised row: the CSV tokeniser always yields at least one field. */
  type Fields = r: seq<string> | |r| > 0 witness [""]

  /** An accepted row: the name cell and the numbers that follow it. */
  datatype Row = Row(name: string, values: seq<real>)

  /** The characters `String.prototype.trim` removes: white space and line terminators. */
  predicate IsJsWhitespace(c: char)
  {
    || c == '\t' || c == '\n' || c == '\U{000B}' || c == '\U{000C}' || c == '\r' || c == ' '
    || c == '\U{00A0}' || c == '\U{1680}' || ('\U{2000}' <= c <= '\U{200A}')
    || c == '\U{2028}' || c == '\U{2029}' || c == '\U{202F}' || c == '\U{205F}'
    || c == '\U{3000}' || c == '\U{FEFF}'
  }

  /** Length of the white space that `s` starts with. */
  function LeadingSpace(s: string): (k: nat)
    ensures k <= |s|
    ensures forall i :: 0 <= i < k ==> IsJsWhitespace(s[i])
    ensures k < |s| ==> !IsJsWhitespace(s[k])
  {
    if s != [] && IsJsWhitespace(s[0]) then 1 + LeadingSpace(s[1..]) else 0
  }

  /** Length of the white space that `s` ends with. */
  function TrailingSpace(s: string): (k: nat)
    ensures k <= |s|
    ensures forall i :: |s| - k <= i < |s| ==> IsJsWhitespace(s[i])
    ensures k < |s| ==> !IsJsWhitespace(s[|s| - 1 - k])
  {
    if s != [] && IsJsWhitespace(s[|s| - 1]) then 1 + TrailingSpace(s[..|s| - 1]) else 0
  }

  /** `s.trim()`: leading, then trailing white space removed. */
  function Trim(s: string): string
  {
    s[LeadingSpace(s)..|s| - TrailingSpace(s[LeadingSpace(s)..])]
  }

  /**
   * Trimming keeps the middle part `s[i..j]` of `s`: only white space lies
   * outside it, and it neither starts nor ends with white space.
   */
  lemma TrimSlice(s: string)
    ensures Trim(s) == s[LeadingSpace(s)..LeadingSpace(s) + |Trim(s)|]
    ensures forall k :: 0 <= k < LeadingSpace(s) ==> IsJsWhitespace(s[k])
    ensures forall k :: LeadingSpace(s) + |Trim(s)| <= k < |s| ==> IsJsWhitespace(s[k])
  {
    var i := LeadingSpace(s);
    var t := s[i..];
    var n := TrailingSpace(t);
    assert |Trim(s)| == |t| - n;
    forall k | i + |Trim(s)| <= k < |s|
      ensures IsJsWhitespace(s[k])
    {
      assert |t| - n <= k - i < |t| && s[k] == t[k - i];
    }
  }

  /** The trimmed string neither starts nor ends with white space. */
  lemma TrimEnds(s: string)
    ensures Trim(s) != [] ==> !IsJsWhitespace(Trim(s)[0]) && !IsJsWhitespace(Trim(s)[|Trim(s)| - 1])
  {
    var t := s[LeadingSpace(s)..];
    if Trim(s) != [] {
      assert Trim(s)[0] == s[LeadingSpace(s)];
      assert Trim(s)[|Trim(s)| - 1] == t[|t| - 1 - TrailingSpace(t)];
    }
  }

  /** Trimming twice is trimming once. */
  lemma TrimIdempotent(s: string)
    ensures Trim(Trim(s)) == Trim(s)
  {
    var r := Trim(s);
    TrimSlice(s);
    TrimEnds(s);
    if r != [] {
      assert r[0] == s[LeadingSpace(s)];
      assert LeadingSpace(r) == 0;
      assert r[|r| - 1] == s[LeadingSpace(s) + |r| - 1];
      assert TrailingSpace(r) == 0;
    }
  }

  /** Position of the first `c` in `s`, or |s| when there is none. */
  function IndexOf(s: string, c: char): (k: nat)
    ensures k <= |s|
    ensures forall i :: 0 <= i < k ==> s[i] != c
    ensures k < |s| ==> s[k] == c
    ensures k == |s| <==> c !in s
  {
    if s == [] then 0 else if s[0] == c then 0 else 1 + IndexOf(s[1..], c)
  }

  /** `s.split("#")[0]`: everything before the first `#`. */
  function BeforeHash(s: string): (r: string)
    ensures r <= s && '#' !in r
    ensures |r| < |s| ==> s[|r|] == '#'
  {
    s[..IndexOf(s, '#')]
  }

  /** Line 190: the cell as the validator sees it. */
  function CleanCell(c: string): string
  {
    BeforeHash(Trim(c))
  }

  /** `s.split("/").length === 2`: exactly one `/`. */
  predicate IsDivision(s: string)
  {
    multiset(s)['/'] == 1
  }

  /** The two operands of a division cell, on either side of its `/`. */
  function Operands(s: string): (parts: (string, string))
    requires IsDivision(s)
    ensures s == parts.0 + "/" + parts.1
    ensures '/' !in parts.0 && '/' !in parts.1
  {
    var k := IndexOf(s, '/');
    assert s == s[..k] + [s[k]] + s[k + 1..];
    assert multiset(s) == multiset(s[..k]) + multiset{s[k]} + multiset(s[k + 1..]);
    (s[..k], s[k + 1..])
  }

  /**
   * Lines 205-210: the number a value cell denotes, None for NaN.  A single
   * `/` divides the two operands; a zero divisor gives None (the JavaScript program
   * yields NaN for 0/0 and an infinity otherwise).
   */
  function CellValue(col: string, num: string -> Option<real>): (v: Option<real>)
    ensures !IsDivision(col) ==> v == num(col)
    ensures IsDivision(col) ==> (v.Some? <==>
      num(Operands(col).0).Some? && num(Operands(col).1).Some? && num(Operands(col).1).value != 0.0)
    ensures IsDivision(col) && v.Some? ==> v.value * num(Operands(col).1).value == num(Operands(col).0).value
  {
    if IsDivision(col) then
      var parts := Operands(col);
      match (num(parts.0), num(parts.1))
      case (Some(a), Some(b)) => if b == 0.0 then None else Some(a / b)
      case _ => None
    else num(col)
  }

  /** The outcome of one cell of the `row.map` at lines 188-218. */
  datatype Cell = Bad | Text(text: string) | Number(value: real)

  /** The row width the mode demands: 5 for strategies, one more than the line count for results. */
  predicate WidthOk(width: nat, rd: Reader)
  {
    if rd.results then width == rd.lineCount + 1 else width == 5
  }

  /** A value cell that passes: numeric and, for strategies, a probability. */
  predicate CellOk(c: string, rd: Reader)
  {
    match CellValue(CleanCell(c), rd.num)
    case None => false
    case Some(v) => rd.results || (0.0 <= v <= 1.0)
  }

  /**
   * Lines 188-218 for cell i of a row of the given width: every cell of a row
   * of the wrong width fails, the name cell is kept as cleaned text, and a
   * value cell fails unless it passes `CellOk`, giving its number otherwise.
   */
  function ParseCell(c: string, i: nat, width: nat, rd: Reader): (r: Cell)
    ensures r == Bad <==> !WidthOk(width, rd) || (i > 0 && !CellOk(c, rd))
    ensures r != Bad && i == 0 ==> r == Text(CleanCell(c))
    ensures r != Bad && i > 0 ==> r.Number? && CellValue(CleanCell(c), rd.num) == Some(r.value)
  {
    if (!rd.results && width != 5) || (rd.results && width != rd.lineCount + 1) then Bad
    else
      var col := CleanCell(c);
      if i == 0 then Text(col)
      else match CellValue(col, rd.num)
        case None => Bad
        case Some(v) => if !rd.results && (v < 0.0 || v > 1.0) then Bad else Number(v)
  }

  /** The row after `row.map` (lines 188-218). */
  function MapRow(row: Fields, rd: Reader): (cells: seq<Cell>)
    ensures |cells| == |row| && forall i :: 0 <= i < |row| ==> cells[i] == ParseCell(row[i], i, |row|, rd)
  {
    seq(|row|, i requires 0 <= i < |row| => ParseCell(row[i], i, |row|, rd))
  }

  /** The row-level reading of the validator. */
  predicate RowAcceptable(row: Fields, rd: Reader)
  {
    WidthOk(|row|, rd) && forall i :: 1 <= i < |row| ==> CellOk(row[i], rd)
  }

  /** A row has a failing cell exactly when its width is wrong or one of its value cells fails. */
  lemma RowRejection(row: Fields, rd: Reader)
    ensures Bad in MapRow(row, rd) <==> !RowAcceptable(row, rd)
  {
    var cells := MapRow(row, rd);
    if !WidthOk(|row|, rd) {
      assert cells[0] == Bad;
    } else if !RowAcceptable(row, rd) {
      var i :| 1 <= i < |row| && !CellOk(row[i], rd);
      assert cells[i] == Bad;
    }
  }

  /** Lines 221-225: a row with any `false` cell is `false` as a whole. */
  function ParseRow(row: Fields, rd: Reader): Option<Row>
  {
    var cells := MapRow(row, rd);
    if Bad in cells then None
    else Some(Row(cells[0].text, seq(|row| - 1, i requires 0 <= i < |row| - 1 => cells[i + 1].value)))
  }

  /** A row is rejected exactly when its width is wrong or one of its value cells fails. */
  lemma ParseRowRejects(row: Fields, rd: Reader)
    ensures ParseRow(row, rd).Some? <==> RowAcceptable(row, rd)
  {
    RowRejection(row, rd);
  }

  /** An accepted row keeps its cleaned name and the numbers of its value cells, in order. */
  lemma ParseRowKeeps(row: Fields, rd: Reader)
    requires ParseRow(row, rd).Some?
    ensures ParseRow(row, rd).value.name == CleanCell(row[0])
    ensures |ParseRow(row, rd).value.values| == |row| - 1
    ensures forall i :: 1 <= i < |row| ==> CellValue(CleanCell(row[i]), rd.num) == Some(ParseRow(row, rd).value.values[i - 1])
  {
    var cells := MapRow(row, rd);
    var values := ParseRow(row, rd).value.values;
    forall i | 1 <= i < |row|
      ensures CellValue(CleanCell(row[i]), rd.num) == Some(values[i - 1])
    {
      assert cells[i] != Bad && values[i - 1] == cells[i].value;
    }
  }

  /** `parseCSVInput`: every tokenised row validated on its own. */
  function ParseCSVInput(rows: seq<Fields>, rd: Reader): (out: seq<Option<Row>>)
    ensures |out| == |rows| && forall i :: 0 <= i < |rows| ==> out[i] == ParseRow(rows[i], rd)
  {
    seq(|rows|, i requires 0 <= i < |rows| => ParseRow(rows[i], rd))
  }

  /**
   * Lines 234 and 253: the loaders go on to the engine only when no row is
   * `false`; the players are then the accepted rows in order.
   */
  function LoadPlayers(parsed: seq<Option<Row>>): (ps: Option<seq<Row>>)
    ensures ps.Some? <==> forall i :: 0 <= i < |parsed| ==> parsed[i].Some?
    ensures ps.Some? ==> |ps.value| == |parsed| && forall i :: 0 <= i < |parsed| ==> parsed[i] == Some(ps.value[i])
  {
    if parsed == [] then Some([])
    else match (parsed[0], LoadPlayers(parsed[1..]))
      case (Some(r), Some(rest)) => Some([r] + rest)
      case _ => None
  }
}
