/**
 * `parseData` of components/DataImportModal.tsx: turns pasted spreadsheet
 * text (tab- or comma-separated, five columns: payment_id, name, email, type,
 * amount) into the rows the sheet upload receives.
 */
module DataImport {
  import opened Wrappers
  import opened Text

  const NoValidData: string := "No valid data found. Please paste data with 5 columns: payment_id, name, email, type, amount"
  const ParseFailure: string := "Failed to parse data: "
  /** The TypeError message of calling `toLowerCase` on the absent `cells[1]`. */
  const MissingCell: string := "Cannot read properties of undefined (reading 'toLowerCase')"
  const PaymentWord: string := "payment"
  const NameWord: string := "name"
  const CellCount: nat := 5

  /** A parsed row. `amount` keeps the fifth cell as trimmed text. */
  datatype ParsedRow = ParsedRow(payment_id: string, name: string, email: string, type_: string, amount: string)

  /** `line.includes('\t') ? line.split('\t') : line.split(',')`. */
  function Cells(line: string): (cells: seq<string>)
    ensures |cells| >= 1
  {
    if '\t' in line then Split(line, '\t') else Split(line, ',')
  }

  /** A field with no white space at either end. */
  predicate Trimmed(f: string) {
    f == [] || (!IsSpace(f[0]) && !IsSpace(f[|f| - 1]))
  }

  /** The row of a line with at least five cells: the first five, trimmed; the rest are ignored. */
  function RowOf(cells: seq<string>): (r: ParsedRow)
    requires |cells| >= CellCount
    ensures Trimmed(r.payment_id) && Trimmed(r.name) && Trimmed(r.email) && Trimmed(r.type_) && Trimmed(r.amount)
    ensures |r.payment_id| <= |cells[0]| && |r.name| <= |cells[1]| && |r.email| <= |cells[2]|
      && |r.type_| <= |cells[3]| && |r.amount| <= |cells[4]|
  {
    ParsedRow(Trim(cells[0]), Trim(cells[1]), Trim(cells[2]), Trim(cells[3]), Trim(cells[4]))
  }

  /**
   * What line `i` contributes: nothing, a row, or (line 0 only) the error
   * thrown when the header test reads the missing second cell.
   */
  function LineRow(i: nat, rawLine: string): (r: Result<Option<ParsedRow>, string>)
    ensures r.Err? ==> i == 0 && r.error == MissingCell
  {
    var line := Trim(rawLine);
    if |line| == 0 then Ok(None)
    else
      var cells := Cells(line);
      if i == 0 && Contains(Lower(cells[0]), PaymentWord) then Ok(None)
      else if i == 0 && |cells| < 2 then Err(MissingCell)
      else if i == 0 && Contains(Lower(cells[1]), NameWord) then Ok(None)
      else if |cells| >= CellCount then Ok(Some(RowOf(cells)))
      else Ok(None)
  }

  /** What each line contributes, by line index. */
  function LineRows(lines: seq<string>): (rows: seq<Result<Option<ParsedRow>, string>>)
    ensures |rows| == |lines|
    ensures forall i :: 0 <= i < |lines| ==> rows[i] == LineRow(i, lines[i])
  {
    seq(|lines|, i requires 0 <= i < |lines| => LineRow(i, lines[i]))
  }

  /** The loop over the first `n` contributions; an error ends it. */
  function Collect(contribs: seq<Result<Option<ParsedRow>, string>>, n: nat): (r: Result<seq<ParsedRow>, string>)
    requires n <= |contribs|
    ensures r.Ok? ==> |r.value| <= n
    ensures r.Err? ==> exists i :: 0 <= i < n && contribs[i] == Err(r.error)
  {
    if n == 0 then Ok([])
    else
      match Collect(contribs, n - 1)
      case Err(e) => Err(e)
      case Ok(rows) =>
        match contribs[n - 1]
        case Err(e) => Err(e)
        case Ok(None) => Ok(rows)
        case Ok(Some(row)) => Ok(rows + [row])
  }

  /**
   * The outcome of `parseData`: `Ok([])` when the text is blank (rows
   * cleared, no error), `Ok(rows)` with at least one row, or the error shown.
   */
  function ParseDataResult(text: string): (r: Result<seq<ParsedRow>, string>)
    ensures r.Err? ==> r.error == NoValidData || r.error == ParseFailure + MissingCell
  {
    var t := Trim(text);
    if |t| == 0 then Ok([])
    else
      var lines := Split(t, '\n');
      Conclude(Collect(LineRows(lines), |lines|))
  }

  /** After the loop: the caught error is shown with its prefix; no rows is the no-valid-data error. */
  function Conclude(collected: Result<seq<ParsedRow>, string>): (r: Result<seq<ParsedRow>, string>)
    ensures r.Ok? ==> collected == r && |r.value| > 0
  {
    match collected
    case Err(e) => Err(ParseFailure + e)
    case Ok(rows) => if |rows| == 0 then Err(NoValidData) else Ok(rows)
  }

  /**
   * The body of the `parseData` loop: trims the line, picks the separator,
   * runs the header test on line 0 and keeps a line of five or more cells.
   */
  method ScanLine(i: nat, rawLine: string) returns (r: Result<Option<ParsedRow>, string>)
    ensures r == LineRow(i, rawLine)
  {
    var line := Trim(rawLine);
    if |line| == 0 {
      return Ok(None);
    }
    var cells := Cells(line);
    if i == 0 {
      if Contains(Lower(cells[0]), PaymentWord) {
        return Ok(None);
      }
      if |cells| < 2 {
        return Err(MissingCell);
      }
      if Contains(Lower(cells[1]), NameWord) {
        return Ok(None);
      }
    }
    if |cells| >= CellCount {
      return Ok(Some(RowOf(cells)));
    }
    r := Ok(None);
  }

  /** The `for` loop of `parseData` over the lines of the trimmed text. */
  method CollectLines(lines: seq<string>) returns (r: Result<seq<ParsedRow>, string>)
    ensures r == Collect(LineRows(lines), |lines|)
  {
    ghost var contribs := LineRows(lines);
    var rows: seq<ParsedRow> := [];
    assert Collect(contribs, 0) == Ok([]);
    for i := 0 to |lines|
      invariant Collect(contribs, i) == Ok(rows)
    {
      var cell := ScanLine(i, lines[i]);
      assert contribs[i] == cell;
      match cell
      case Err(e) =>
        ErrorPersists(contribs, i + 1, |lines|);
        return Err(e);
      case Ok(None) =>
      case Ok(Some(row)) =>
        rows := rows + [row];
    }
    r := Ok(rows);
  }

  /** `parseData`. */
  method ParseData(text: string) returns (r: Result<seq<ParsedRow>, string>)
    ensures r == ParseDataResult(text)
  {
    var t := Trim(text);
    if |t| == 0 {
      return Ok([]);
    }
    var lines := Split(t, '\n');
    var collected := CollectLines(lines);
    match collected
    case Err(e) =>
      r := Err(ParseFailure + e);
    case Ok(rows) =>
      if |rows| == 0 {
        r := Err(NoValidData);
      } else {
        r := Ok(rows);
      }
  }

  /** Blank input, and only blank input, clears the rows without an error. */
  lemma BlankClears(text: string)
    ensures ParseDataResult(text) == Ok([]) <==> |Trim(text)| == 0
  {
  }

  /**
   * The separator choice: a line with a tab is cut at every tab and nowhere
   * else, any other line at every comma; gluing the cells back with the
   * separator gives the line.
   */
  lemma CellsSeparator(line: string)
    ensures var sep := if '\t' in line then '\t' else ',';
      && Join(Cells(line), sep) == line
      && (forall k :: 0 <= k < |Cells(line)| ==> sep !in Cells(line)[k])
  {
  }

  /**
   * Which lines contribute a row, in both directions: after line 0, exactly
   * the non-blank lines with at least five cells; line 0 also needs to fail
   * the header test.
   */
  lemma LineRowIff(i: nat, rawLine: string)
    requires i > 0
    ensures var line := Trim(rawLine);
      LineRow(i, rawLine) == if |line| > 0 && |Cells(line)| >= CellCount then Ok(Some(RowOf(Cells(line)))) else Ok(None)
  {
  }

  /** Line 0 is dropped as a header when its first cell mentions "payment" or its second "name", in any ASCII case. */
  lemma HeaderSkipped(rawLine: string)
    requires |Trim(rawLine)| > 0
    requires var cells := Cells(Trim(rawLine));
      Contains(Lower(cells[0]), PaymentWord) || (|cells| >= 2 && Contains(Lower(cells[1]), NameWord))
    ensures LineRow(0, rawLine) == Ok(None)
  {
  }

  /** Cells beyond the fifth do not change the row. */
  lemma ExtraCellsIgnored(cells: seq<string>, extra: seq<string>)
    requires |cells| >= CellCount
    ensures RowOf(cells + extra) == RowOf(cells)
  {
    assert forall k :: 0 <= k < CellCount ==> (cells + extra)[k] == cells[k];
  }

  /** A successful scan of `n` contributions extends the scan of the first `n - 1` by the row of the last, if any. */
  lemma CollectStep(contribs: seq<Result<Option<ParsedRow>, string>>, n: nat)
    requires 0 < n <= |contribs| && Collect(contribs, n).Ok?
    ensures Collect(contribs, n - 1).Ok? && contribs[n - 1].Ok?
    ensures Collect(contribs, n).value ==
      Collect(contribs, n - 1).value + (if contribs[n - 1].value.Some? then [contribs[n - 1].value.value] else [])
  {
  }

  /** Number of contributions among the first `n` that are rows. */
  function Yielding(contribs: seq<Result<Option<ParsedRow>, string>>, n: nat): nat
    requires n <= |contribs|
  {
    if n == 0 then 0 else Yielding(contribs, n - 1) + (if contribs[n - 1].Ok? && contribs[n - 1].value.Some? then 1 else 0)
  }

  /** A successful scan holds one row per contribution that is a row. */
  lemma {:induction false} CollectLength(contribs: seq<Result<Option<ParsedRow>, string>>, n: nat)
    requires n <= |contribs| && Collect(contribs, n).Ok?
    ensures |Collect(contribs, n).value| == Yielding(contribs, n)
  {
    if n > 0 {
      CollectStep(contribs, n);
      CollectLength(contribs, n - 1);
    }
  }

  /** The row of contribution `i` sits at position `Yielding(contribs, i)` of every successful longer scan. */
  lemma {:induction false} RowAt(contribs: seq<Result<Option<ParsedRow>, string>>, n: nat, i: nat)
    requires i < n <= |contribs| && Collect(contribs, n).Ok?
    requires contribs[i].Ok? && contribs[i].value.Some?
    ensures Yielding(contribs, i) < |Collect(contribs, n).value|
    ensures Collect(contribs, n).value[Yielding(contribs, i)] == contribs[i].value.value
  {
    CollectStep(contribs, n);
    if i == n - 1 {
      CollectLength(contribs, n - 1);
    } else {
      RowAt(contribs, n - 1, i);
    }
  }

  /**
   * No de-duplication: when the scan succeeds, every line that yields a row
   * contributes it, in line order, so the output has one row per yielding line
   * and repeated payment_ids all appear.
   */
  lemma EveryRowKept(contribs: seq<Result<Option<ParsedRow>, string>>, n: nat)
    requires n <= |contribs| && Collect(contribs, n).Ok?
    ensures |Collect(contribs, n).value| == Yielding(contribs, n)
    ensures forall i :: 0 <= i < n && contribs[i].Ok? && contribs[i].value.Some? ==>
      Yielding(contribs, i) < |Collect(contribs, n).value| && Collect(contribs, n).value[Yielding(contribs, i)] == contribs[i].value.value
  {
    CollectLength(contribs, n);
    forall i | 0 <= i < n && contribs[i].Ok? && contribs[i].value.Some?
      ensures Yielding(contribs, i) < |Collect(contribs, n).value| && Collect(contribs, n).value[Yielding(contribs, i)] == contribs[i].value.value
    {
      RowAt(contribs, n, i);
    }
  }

  /** A non-blank text that yields no row ends with the no-valid-data error. */
  lemma NoRowsError(text: string)
    requires |Trim(text)| > 0
    requires var lines := Split(Trim(text), '\n'); Collect(LineRows(lines), |lines|) == Ok([])
    ensures ParseDataResult(text) == Err(NoValidData)
  {
  }

  /** An error, once collected, ends the scan with that error. */
  lemma {:induction false} ErrorPersists(contribs: seq<Result<Option<ParsedRow>, string>>, k: nat, n: nat)
    requires k <= n <= |contribs| && Collect(contribs, k).Err?
    ensures Collect(contribs, n) == Collect(contribs, k)
    decreases n
  {
    if k < n {
      ErrorPersists(contribs, k, n - 1);
    }
  }

  /** The header test of a non-blank single-cell line that does not mention "payment" throws. */
  lemma SingleCellThrows(rawLine: string)
    requires |Trim(rawLine)| > 0 && |Cells(Trim(rawLine))| == 1
    requires !Contains(Lower(Cells(Trim(rawLine))[0]), PaymentWord)
    ensures LineRow(0, rawLine) == Err(MissingCell)
  {
  }

  /**
   * A first line holding one cell that does not mention "payment" makes the
   * header test read the missing second cell, and the whole parse fails.
   */
  lemma SingleCellFirstLineFails(text: string)
    requires |Trim(text)| > 0
    requires var first := Trim(Split(Trim(text), '\n')[0]);
      && |first| > 0
      && |Cells(first)| == 1
      && !Contains(Lower(Cells(first)[0]), PaymentWord)
    ensures ParseDataResult(text) == Err(ParseFailure + MissingCell)
  {
    var lines := Split(Trim(text), '\n');
    SingleCellThrows(lines[0]);
    ErrorPersists(LineRows(lines), 1, |lines|);
  }

  /**
   * The header test as evidently intended, reading the second cell only when
   * there is one (`cells[1]?.toLowerCase()`): a line never throws.
   */
  function GuardedLineRow(i: nat, rawLine: string): (r: Result<Option<ParsedRow>, string>)
    ensures r.Ok?
    ensures LineRow(i, rawLine).Ok? ==> r == LineRow(i, rawLine)
  {
    var line := Trim(rawLine);
    if |line| == 0 then Ok(None)
    else
      var cells := Cells(line);
      if i == 0 && Contains(Lower(cells[0]), PaymentWord) then Ok(None)
      else if i == 0 && |cells| >= 2 && Contains(Lower(cells[1]), NameWord) then Ok(None)
      else if |cells| >= CellCount then Ok(Some(RowOf(cells)))
      else Ok(None)
  }

  function GuardedLineRows(lines: seq<string>): (rows: seq<Result<Option<ParsedRow>, string>>)
    ensures |rows| == |lines|
    ensures forall i :: 0 <= i < |lines| ==> rows[i] == GuardedLineRow(i, lines[i])
  {
    seq(|lines|, i requires 0 <= i < |lines| => GuardedLineRow(i, lines[i]))
  }

  /** `parseData` with the guarded header test. */
  function GuardedParseDataResult(text: string): Result<seq<ParsedRow>, string> {
    var t := Trim(text);
    if |t| == 0 then Ok([])
    else
      var lines := Split(t, '\n');
      Conclude(Collect(GuardedLineRows(lines), |lines|))
  }

  /** A scan over contributions that are all successful succeeds. */
  lemma {:induction false} CollectAllOk(contribs: seq<Result<Option<ParsedRow>, string>>, n: nat)
    requires n <= |contribs| && forall i :: 0 <= i < n ==> contribs[i].Ok?
    ensures Collect(contribs, n).Ok?
  {
    if n > 0 {
      CollectAllOk(contribs, n - 1);
    }
  }

  /** Two contribution lists that agree wherever the first is successful scan alike while the first succeeds. */
  lemma {:induction false} CollectAgree(c1: seq<Result<Option<ParsedRow>, string>>, c2: seq<Result<Option<ParsedRow>, string>>, n: nat)
    requires n <= |c1| == |c2| && Collect(c1, n).Ok?
    requires forall i :: 0 <= i < n && c1[i].Ok? ==> c2[i] == c1[i]
    ensures Collect(c2, n) == Collect(c1, n)
  {
    if n > 0 {
      CollectStep(c1, n);
      CollectAgree(c1, c2, n - 1);
    }
  }

  /** The guarded parse never fails with a caught error: it clears, yields rows, or reports no valid data. */
  lemma GuardedNeverThrows(text: string)
    ensures GuardedParseDataResult(text).Err? ==> GuardedParseDataResult(text).error == NoValidData
  {
    var t := Trim(text);
    if |t| > 0 {
      var lines := Split(t, '\n');
      CollectAllOk(GuardedLineRows(lines), |lines|);
    }
  }

  /** The guard changes only the crashing case: wherever the parse as written succeeds, the guarded one gives the same rows. */
  lemma GuardedAgrees(text: string)
    requires ParseDataResult(text).Ok?
    ensures GuardedParseDataResult(text) == ParseDataResult(text)
  {
    var t := Trim(text);
    if |t| > 0 {
      var lines := Split(t, '\n');
      CollectAgree(LineRows(lines), GuardedLineRows(lines), |lines|);
    }
  }

  /**
   * With the guard, the crashing first line of `SingleCellFirstLineFails` is
   * not a row and the scan goes on to the lines after it.
   */
  lemma GuardedSingleCellSkipped(rawLine: string)
    requires |Trim(rawLine)| > 0 && |Cells(Trim(rawLine))| == 1
    ensures GuardedLineRow(0, rawLine) == Ok(None)
  {
  }
}
