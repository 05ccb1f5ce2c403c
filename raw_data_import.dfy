/**
 * `parseRawData` of components/RawDataImportModal.tsx: turns pasted payment
 * export text (one payment per line, fifteen columns separated by tabs or by
 * runs of two or more white-space characters) into the tickets the raw-data
 * upload receives.
 */
module RawDataImport {
  import opened Wrappers
  import opened Text

  const NoValidTicketData: string := "No valid ticket data found. Please check the format."
  const NoData: string := "No data provided"
  const ColumnCount: nat := 15

  /** One line of the payment export, column by column. */
  datatype RawDataRow = RawDataRow(
    payment_page_id: string,
    payment_page_title: string,
    payment_date: string,
    order_id: string,
    item_name: string,
    item_amount: string,
    item_quantity: string,
    item_payment_amount: string,
    total_payment_amount: string,
    currency: string,
    payment_status: string,
    payment_id: string,
    name: string,
    email: string,
    phone: string)

  /**
   * A ticket ready for upload. `price` keeps the total payment amount as
   * text. `raw_data` is `None` when a request body omits it; the parser
   * always fills it.
   */
  datatype ProcessedTicket = ProcessedTicket(
    ticket_id: string,
    payment_id: string,
    name: string,
    email: string,
    phone: string,
    ticket_type: string,
    price: string,
    raw_data: Option<RawDataRow>)

  /** `parts.map(col => col.trim())`. */
  function TrimAll(parts: seq<string>): (r: seq<string>)
    ensures |r| == |parts|
  {
    if |parts| == 0 then [] else [Trim(parts[0])] + TrimAll(parts[1..])
  }

  /** Column `k` is part `k`, trimmed. */
  lemma {:induction false} TrimAllAt(parts: seq<string>)
    ensures forall k :: 0 <= k < |parts| ==> TrimAll(parts)[k] == Trim(parts[k])
  {
    if |parts| > 0 {
      TrimAllAt(parts[1..]);
    }
  }

  /** `line.split(/\t+|\s{2,}/).map(col => col.trim())`. */
  function Columns(line: string): (r: seq<string>)
    ensures |r| == |SplitColumns(line)| >= 1
  {
    TrimAll(SplitColumns(line))
  }

  /** The columns of a line are the fields of its split, each trimmed. */
  lemma ColumnsTrimmed(line: string)
    ensures forall k :: 0 <= k < |Columns(line)| ==> Columns(line)[k] == Trim(SplitColumns(line)[k])
  {
    TrimAllAt(SplitColumns(line));
  }

  /** `columns[k]?.toLowerCase() || ''`. */
  function LowerAt(columns: seq<string>, k: nat): string {
    if k < |columns| then Lower(columns[k]) else ""
  }

  /** The names the header test accepts in columns 3, 11, 12 and 13. */
  const OrderIdNames: set<string> := {"order_id", "order id", "orderid"}
  const PaymentIdNames: set<string> := {"payment_id", "payment id", "paymentid"}
  const NameNames: set<string> := {"name", "customer name"}
  const EmailNames: set<string> := {"email", "email id", "emailid"}

  /**
   * The header test: columns 3, 11, 12 and 13 all carry a header name, so a
   * header has at least fourteen columns.
   */
  predicate IsHeader(columns: seq<string>)
    ensures IsHeader(columns) ==> |columns| > 13
  {
    && LowerAt(columns, 3) in OrderIdNames
    && LowerAt(columns, 11) in PaymentIdNames
    && LowerAt(columns, 12) in NameNames
    && LowerAt(columns, 13) in EmailNames
  }

  /**
   * The fifteen columns as named fields; the identifying fields sit in the
   * columns the header test reads.
   */
  function RowOf(columns: seq<string>): (r: RawDataRow)
    requires |columns| >= ColumnCount
    ensures r.order_id == columns[3] && r.payment_id == columns[11] && r.name == columns[12] && r.email == columns[13]
  {
    RawDataRow(columns[0], columns[1], columns[2], columns[3], columns[4], columns[5], columns[6],
      columns[7], columns[8], columns[9], columns[10], columns[11], columns[12], columns[13], columns[14])
  }

  /**
   * The row line `i` contributes before de-duplication, or `None` for a
   * blank line, the header (line 0 only), a short line, or a line missing
   * order_id, payment_id or email.
   */
  function LineRow(i: nat, rawLine: string): (r: Option<RawDataRow>)
    ensures r.Some? ==> r.value.order_id != "" && r.value.payment_id != "" && r.value.email != ""
  {
    var line := Trim(rawLine);
    if |line| == 0 then None
    else
      var columns := Columns(line);
      if i == 0 && IsHeader(columns) then None
      else if |columns| < ColumnCount then None
      else
        var row := RowOf(columns);
        if |row.order_id| == 0 || |row.payment_id| == 0 || |row.email| == 0 then None
        else Some(row)
  }

  /** `parseInt(quantity) > 1`; `NaN` compares false. */
  predicate Plural(quantity: string) {
    var q := ParseInt(quantity);
    q.Some? && q.value > 1
  }

  /** `${item_name} - ${item_quantity} unit`, with an `s` when the quantity parses above 1. */
  function TicketType(row: RawDataRow): (r: string)
    ensures |r| > |row.item_name| + 3 && r[..|row.item_name| + 3] == row.item_name + " - "
    ensures r[|r| - 1] == 's' <==> Plural(row.item_quantity)
  {
    row.item_name + " - " + row.item_quantity + " unit" + (if Plural(row.item_quantity) then "s" else "")
  }

  /**
   * The ticket a row becomes: ticket_id is the order_id, the name falls back
   * to "Unknown", and the row itself travels along as `raw_data`.
   */
  function TicketOf(row: RawDataRow): (t: ProcessedTicket)
    ensures t.ticket_id == row.order_id && t.payment_id == row.payment_id && t.email == row.email
    ensures t.name == (if row.name == "" then "Unknown" else row.name)
    ensures t.raw_data == Some(row)
  {
    ProcessedTicket(
      row.order_id,
      row.payment_id,
      if row.name == "" then "Unknown" else row.name,
      row.email,
      row.phone,
      TicketType(row),
      row.total_payment_amount,
      Some(row))
  }

  /** The row each line yields, by line index. */
  function LineRows(lines: seq<string>): (rows: seq<Option<RawDataRow>>)
    ensures |rows| == |lines|
    ensures forall i :: 0 <= i < |lines| ==> rows[i] == LineRow(i, lines[i])
  {
    seq(|lines|, i requires 0 <= i < |lines| => LineRow(i, lines[i]))
  }

  /**
   * The de-duplication state after some rows: the rows kept, the order_ids
   * seen, and (for the proofs) the index each kept row came from.
   */
  datatype DedupState = DedupState(kept: seq<RawDataRow>, seen: set<string>, origin: seq<nat>)

  /** The `processedOrderIds` filter over the first `n` rows: the first row of each order_id is kept. */
  function Dedup(rows: seq<Option<RawDataRow>>, n: nat): (st: DedupState)
    requires n <= |rows|
    ensures |st.kept| == |st.origin| <= n
  {
    if n == 0 then DedupState([], {}, []) else Keep(Dedup(rows, n - 1), rows[n - 1], n - 1)
  }

  /** Row `i` through the filter: kept, with its order_id marked seen, unless that order_id was seen. */
  function Keep(st: DedupState, row: Option<RawDataRow>, i: nat): (r: DedupState)
    ensures r == st || (row.Some? && row.value.order_id !in st.seen && r.kept == st.kept + [row.value])
    ensures r.seen >= st.seen && |r.kept| - |r.origin| == |st.kept| - |st.origin|
  {
    match row
    case None => st
    case Some(r) =>
      if r.order_id in st.seen then st
      else DedupState(st.kept + [r], st.seen + {r.order_id}, st.origin + [i])
  }

  /**
   * What the filter keeps: rows of earlier lines, recorded with their line
   * index, in line order, with pairwise distinct order_ids that are all
   * marked seen.
   */
  lemma {:induction false} DedupFacts(rows: seq<Option<RawDataRow>>, n: nat)
    requires n <= |rows|
    ensures var st := Dedup(rows, n);
      && |st.origin| == |st.kept|
      && (forall k :: 0 <= k < |st.kept| ==> st.origin[k] < n && rows[st.origin[k]] == Some(st.kept[k]))
      && (forall k1, k2 :: 0 <= k1 < k2 < |st.origin| ==> st.origin[k1] < st.origin[k2])
      && (forall k1, k2 :: 0 <= k1 < k2 < |st.kept| ==> st.kept[k1].order_id != st.kept[k2].order_id)
      && (forall k :: 0 <= k < |st.kept| ==> st.kept[k].order_id in st.seen)
  {
    if n > 0 {
      DedupFacts(rows, n - 1);
      var st := Dedup(rows, n - 1);
      var r := Dedup(rows, n);
      if r != st {
        assert forall k :: 0 <= k < |st.kept| ==> r.kept[k] == st.kept[k] && r.origin[k] == st.origin[k];
      }
    }
  }

  /** The tickets the kept rows become, in order. */
  function Tickets(kept: seq<RawDataRow>): (ts: seq<ProcessedTicket>)
    ensures |ts| == |kept|
  {
    if |kept| == 0 then [] else Tickets(kept[..|kept| - 1]) + [TicketOf(kept[|kept| - 1])]
  }

  /** Ticket `k` is the ticket of kept row `k`. */
  lemma {:induction false} TicketsAt(kept: seq<RawDataRow>)
    ensures forall k :: 0 <= k < |kept| ==> Tickets(kept)[k] == TicketOf(kept[k])
  {
    if |kept| > 0 {
      var init := kept[..|kept| - 1];
      TicketsAt(init);
      assert forall k :: 0 <= k < |init| ==> init[k] == kept[k];
    }
  }

  lemma TicketsSnoc(kept: seq<RawDataRow>, row: RawDataRow)
    ensures Tickets(kept + [row]) == Tickets(kept) + [TicketOf(row)]
  {
    assert (kept + [row])[..|kept|] == kept;
  }

  /** The lines `parseRawData` iterates over. */
  function Lines(rawInput: string): (r: seq<string>)
    ensures |r| >= 1
  {
    Split(Trim(rawInput), '\n')
  }

  /** What `parseRawData` hands on: the tickets, or the error it shows. */
  function RawDataResult(rawInput: string): (r: Result<seq<ProcessedTicket>, string>)
    ensures r.Err? ==> r.error == NoValidTicketData
    ensures r.Ok? ==> |r.value| > 0
  {
    var lines := Lines(rawInput);
    var kept := Dedup(LineRows(lines), |lines|).kept;
    if |kept| == 0 then Err(NoValidTicketData) else Ok(Tickets(kept))
  }

  /**
   * The body of the `parseRawData` loop up to the duplicate check: trims the
   * line, splits it into columns, runs the header test when `checkHeader`
   * holds, and applies the column-count and required-field filters.
   */
  method ScanLine(i: nat, rawLine: string, checkHeader: bool) returns (row: Option<RawDataRow>, header: bool)
    requires checkHeader <==> i == 0
    ensures row == LineRow(i, rawLine)
    ensures header ==> i == 0 && row == None
  {
    header := false;
    var line := Trim(rawLine);
    if |line| == 0 {
      return None, false;
    }
    var columns := Columns(line);
    if checkHeader {
      if IsHeader(columns) {
        return None, true;
      }
    }
    if |columns| < ColumnCount {
      return None, false;
    }
    var rawRow := RowOf(columns);
    if |rawRow.order_id| == 0 || |rawRow.payment_id| == 0 || |rawRow.email| == 0 {
      return None, false;
    }
    row := Some(rawRow);
  }

  /** The loop's own state: the order_ids seen and the tickets pushed. */
  datatype ScanState = ScanState(seen: set<string>, tickets: seq<ProcessedTicket>)

  /** One row through the duplicate filter of the loop. */
  function Absorb(st: ScanState, row: Option<RawDataRow>): ScanState {
    match row
    case None => st
    case Some(r) =>
      if r.order_id in st.seen then st else ScanState(st.seen + {r.order_id}, st.tickets + [TicketOf(r)])
  }

  /** The loop state after the first `n` rows. */
  function Scanned(lines: seq<string>, n: nat): ScanState
    requires n <= |lines|
  {
    if n == 0 then ScanState({}, []) else Absorb(Scanned(lines, n - 1), LineRow(n - 1, lines[n - 1]))
  }

  /** The loop and the filter take the same step on a row. */
  lemma AbsorbKeep(st: DedupState, row: Option<RawDataRow>, i: nat)
    ensures Absorb(ScanState(st.seen, Tickets(st.kept)), row) == ScanState(Keep(st, row, i).seen, Tickets(Keep(st, row, i).kept))
  {
    if row.Some? && row.value.order_id !in st.seen {
      TicketsSnoc(st.kept, row.value);
    }
  }

  lemma ScannedStep(lines: seq<string>, n: nat)
    requires 0 < n <= |lines|
    ensures Scanned(lines, n) == Absorb(Scanned(lines, n - 1), LineRows(lines)[n - 1])
  {
  }

  /** The loop state is the filter's: its seen set, and the tickets of the rows it keeps. */
  lemma {:induction false} ScannedIsDedup(lines: seq<string>, n: nat)
    requires n <= |lines|
    ensures Scanned(lines, n) == ScanState(Dedup(LineRows(lines), n).seen, Tickets(Dedup(LineRows(lines), n).kept))
  {
    if n > 0 {
      ScannedIsDedup(lines, n - 1);
      ScannedStep(lines, n);
      var rows := LineRows(lines);
      AbsorbKeep(Dedup(rows, n - 1), rows[n - 1], n - 1);
    }
  }

  /**
   * One turn of the `parseRawData` loop: scan line `i`, then drop its row
   * when its order_id was seen before, and otherwise record the order_id
   * and push the row's ticket.
   */
  method LineStep(allLines: seq<string>, i: nat, headerSkipped: bool, seen: set<string>, tickets: seq<ProcessedTicket>)
    returns (headerSkipped2: bool, seen2: set<string>, tickets2: seq<ProcessedTicket>)
    requires i < |allLines|
    requires headerSkipped ==> i >= 1
    requires ScanState(seen, tickets) == Scanned(allLines, i)
    ensures ScanState(seen2, tickets2) == Scanned(allLines, i + 1)
    ensures headerSkipped2 ==> headerSkipped || i == 0
  {
    var row, header := ScanLine(i, allLines[i], !headerSkipped && i == 0);
    headerSkipped2 := headerSkipped || header;
    seen2, tickets2 := seen, tickets;
    if row.None? {
      return;
    }
    var rawRow := row.value;
    if rawRow.order_id in seen {
      return;
    }
    seen2 := seen + {rawRow.order_id};
    tickets2 := tickets + [TicketOf(rawRow)];
  }

  /** The `parseRawData` loop over the lines. */
  method ScanLines(allLines: seq<string>) returns (tickets: seq<ProcessedTicket>)
    ensures tickets == Scanned(allLines, |allLines|).tickets
  {
    tickets := [];
    var processedOrderIds: set<string> := {};
    var headerSkipped := false;
    for i := 0 to |allLines|
      invariant ScanState(processedOrderIds, tickets) == Scanned(allLines, i)
      invariant headerSkipped ==> i >= 1
    {
      headerSkipped, processedOrderIds, tickets := LineStep(allLines, i, headerSkipped, processedOrderIds, tickets);
    }
  }

  /** `parseRawData`. */
  method ParseRawData(rawInput: string) returns (r: Result<seq<ProcessedTicket>, string>)
    ensures r == RawDataResult(rawInput)
  {
    var allLines := Split(Trim(rawInput), '\n');
    if |allLines| == 0 {
      return Err(NoData);
    }
    var tickets := ScanLines(allLines);
    ScannedIsDedup(allLines, |allLines|);
    if |tickets| == 0 {
      return Err(NoValidTicketData);
    }
    r := Ok(tickets);
  }

  /**
   * Which lines yield a row, in both directions: a non-blank line with at
   * least fifteen columns and order_id, payment_id and email present, that
   * is not a header in line 0. A header-shaped line after line 0 is data.
   */
  lemma LineRowIff(i: nat, rawLine: string)
    ensures var columns := Columns(Trim(rawLine));
      LineRow(i, rawLine).Some? <==>
        && Trim(rawLine) != ""
        && !(i == 0 && IsHeader(columns))
        && |columns| >= ColumnCount
        && columns[3] != "" && columns[11] != "" && columns[13] != ""
    ensures LineRow(i, rawLine).Some? ==> LineRow(i, rawLine).value == RowOf(Columns(Trim(rawLine)))
    ensures i > 0 ==> LineRow(i, rawLine) == LineRow(1, rawLine)
  {
  }

  /** Every order_id seen belongs to a kept row. */
  lemma {:induction false} SeenIsKept(rows: seq<Option<RawDataRow>>, n: nat, o: string) returns (k: nat)
    requires n <= |rows| && o in Dedup(rows, n).seen
    ensures k < |Dedup(rows, n).kept| && Dedup(rows, n).kept[k].order_id == o
  {
    var st := Dedup(rows, n - 1);
    DedupStep(rows, n);
    if o in st.seen {
      k := SeenIsKept(rows, n - 1, o);
      assert Dedup(rows, n).kept[k] == st.kept[k];
    } else {
      k := |st.kept|;
    }
  }

  /** One more row either leaves the state alone or appends that row, its order_id and its index. */
  lemma DedupStep(rows: seq<Option<RawDataRow>>, n: nat)
    requires 0 < n <= |rows|
    ensures var st := Dedup(rows, n - 1);
      var r := Dedup(rows, n);
      || r == st
      || (rows[n - 1].Some? && rows[n - 1].value.order_id !in st.seen
          && r == DedupState(st.kept + [rows[n - 1].value], st.seen + {rows[n - 1].value.order_id}, st.origin + [n - 1]))
  {
  }

  /**
   * De-duplication keeps the first row of each order_id: every row's
   * order_id is among those seen, and a row whose order_id no earlier row
   * has is itself kept.
   */
  lemma {:induction false} FirstRowWins(rows: seq<Option<RawDataRow>>, n: nat, i: nat)
    requires i < n <= |rows| && rows[i].Some?
    ensures rows[i].value.order_id in Dedup(rows, n).seen
    ensures (forall j :: 0 <= j < i && rows[j].Some? ==> rows[j].value.order_id != rows[i].value.order_id)
      ==> i in Dedup(rows, n).origin
    decreases n
  {
    var st := Dedup(rows, n - 1);
    var r := Dedup(rows, n);
    DedupStep(rows, n);
    var row := rows[i].value;
    if i < n - 1 {
      FirstRowWins(rows, n - 1, i);
      if i in st.origin {
        assert i in r.origin;
      }
    } else if row.order_id in st.seen {
      var k := SeenIsKept(rows, n - 1, row.order_id);
      DedupFacts(rows, n - 1);
      var j := st.origin[k];
      assert j < i && rows[j] == Some(st.kept[k]);
      assert rows[j].Some? && rows[j].value.order_id == row.order_id;
    } else {
      assert r.origin[|r.origin| - 1] == i;
    }
  }

  /** Number of rows among the first `n` that are present. */
  function Present(rows: seq<Option<RawDataRow>>, n: nat): nat
    requires n <= |rows|
  {
    if n == 0 then 0 else Present(rows, n - 1) + (if rows[n - 1].Some? then 1 else 0)
  }

  /** De-duplication keeps at most one row per present row. */
  lemma {:induction false} DedupAtMostPresent(rows: seq<Option<RawDataRow>>, n: nat)
    requires n <= |rows|
    ensures |Dedup(rows, n).kept| <= Present(rows, n)
  {
    if n > 0 {
      DedupAtMostPresent(rows, n - 1);
    }
  }

  /** Number of lines among the first `n` that are not blank after trimming. */
  function NonBlank(lines: seq<string>, n: nat): nat
    requires n <= |lines|
  {
    if n == 0 then 0 else NonBlank(lines, n - 1) + (if Trim(lines[n - 1]) == "" then 0 else 1)
  }

  /** A line that is blank after trimming yields no row. */
  lemma BlankLineNoRow(i: nat, rawLine: string)
    requires Trim(rawLine) == ""
    ensures LineRow(i, rawLine) == None
  {
  }

  /** When only non-blank lines yield rows, there are no more rows than non-blank lines. */
  lemma {:induction false} PresentAtMostNonBlank(rows: seq<Option<RawDataRow>>, lines: seq<string>, n: nat)
    requires n <= |rows| == |lines|
    requires forall i :: 0 <= i < n && rows[i].Some? ==> Trim(lines[i]) != ""
    ensures Present(rows, n) <= NonBlank(lines, n)
  {
    if n > 0 {
      PresentAtMostNonBlank(rows, lines, n - 1);
    }
  }

  /** Only non-blank lines yield rows. */
  lemma LineRowsNonBlank(lines: seq<string>)
    ensures forall i :: 0 <= i < |lines| && LineRows(lines)[i].Some? ==> Trim(lines[i]) != ""
  {
    forall i | 0 <= i < |lines| && Trim(lines[i]) == "" ensures LineRows(lines)[i] == None {
      BlankLineNoRow(i, lines[i]);
    }
  }

  /** Blank lines are skipped: the output is no longer than the number of non-blank lines. */
  lemma AtMostOnePerLine(rawInput: string)
    requires RawDataResult(rawInput).Ok?
    ensures |RawDataResult(rawInput).value| <= NonBlank(Lines(rawInput), |Lines(rawInput)|)
  {
    var lines := Lines(rawInput);
    DedupAtMostPresent(LineRows(lines), |lines|);
    LineRowsNonBlank(lines);
    PresentAtMostNonBlank(LineRows(lines), lines, |lines|);
  }

  /** Input that is empty or all white space is one empty line. */
  lemma BlankInputLines(rawInput: string)
    requires forall k :: 0 <= k < |rawInput| ==> IsSpace(rawInput[k])
    ensures Lines(rawInput) == [""]
  {
    assert Trim(rawInput) == "";
  }

  /** An empty line yields no row. */
  lemma EmptyLineRows(t: string)
    requires t == ""
    ensures LineRows([t]) == [None]
  {
    BlankLineNoRow(0, t);
  }

  /** Input that is empty or all white space ends with the no-valid-data error. */
  lemma BlankInputFails(rawInput: string)
    requires forall k :: 0 <= k < |rawInput| ==> IsSpace(rawInput[k])
    ensures RawDataResult(rawInput) == Err(NoValidTicketData)
  {
    BlankInputLines(rawInput);
    EmptyLineRows(Lines(rawInput)[0]);
    var rows: seq<Option<RawDataRow>> := [None];
    assert Dedup(rows, 1).kept == [];
  }

  /**
   * What the upload can rely on: every ticket carries the row it was built
   * from, its ticket_id is that row's order_id, payment_id and email are
   * copied and present, the name defaults to "Unknown", and no two tickets
   * share a ticket_id.
   */
  predicate TicketsWellFormed(ts: seq<ProcessedTicket>) {
    && (forall k1, k2 :: 0 <= k1 < k2 < |ts| ==> ts[k1].ticket_id != ts[k2].ticket_id)
    && (forall k :: 0 <= k < |ts| ==>
          && ts[k].raw_data.Some?
          && ts[k].ticket_id == ts[k].raw_data.value.order_id != ""
          && ts[k].payment_id == ts[k].raw_data.value.payment_id != ""
          && ts[k].email == ts[k].raw_data.value.email != ""
          && ts[k].name == (if ts[k].raw_data.value.name == "" then "Unknown" else ts[k].raw_data.value.name)
          && ts[k].name != "")
  }

  /** The tickets of rows with the required fields and distinct order_ids are well formed, and built from those rows in order. */
  lemma TicketsOfKept(kept: seq<RawDataRow>)
    requires forall k :: 0 <= k < |kept| ==> kept[k].order_id != "" && kept[k].payment_id != "" && kept[k].email != ""
    requires forall k1, k2 :: 0 <= k1 < k2 < |kept| ==> kept[k1].order_id != kept[k2].order_id
    ensures TicketsWellFormed(Tickets(kept))
    ensures forall k :: 0 <= k < |kept| ==> Tickets(kept)[k].raw_data == Some(kept[k])
  {
    TicketsAt(kept);
  }

  /** The rows the filter keeps come from their recorded lines, in line order. */
  lemma KeptRows(lines: seq<string>)
    ensures var st := Dedup(LineRows(lines), |lines|);
      && |st.origin| == |st.kept|
      && (forall k :: 0 <= k < |st.kept| ==> st.origin[k] < |lines| && LineRow(st.origin[k], lines[st.origin[k]]) == Some(st.kept[k]))
      && (forall k1, k2 :: 0 <= k1 < k2 < |st.origin| ==> st.origin[k1] < st.origin[k2])
  {
    DedupFacts(LineRows(lines), |lines|);
  }

  /** The rows the filter keeps carry the required fields and have pairwise distinct order_ids. */
  lemma KeptFields(lines: seq<string>)
    ensures var st := Dedup(LineRows(lines), |lines|);
      && (forall k :: 0 <= k < |st.kept| ==> st.kept[k].order_id != "" && st.kept[k].payment_id != "" && st.kept[k].email != "")
      && (forall k1, k2 :: 0 <= k1 < k2 < |st.kept| ==> st.kept[k1].order_id != st.kept[k2].order_id)
  {
    var rows := LineRows(lines);
    DedupFacts(rows, |lines|);
    var st := Dedup(rows, |lines|);
    forall k | 0 <= k < |st.kept|
      ensures st.kept[k].order_id != "" && st.kept[k].payment_id != "" && st.kept[k].email != ""
    {
      assert LineRow(st.origin[k], lines[st.origin[k]]) == Some(st.kept[k]);
    }
  }

  /** A successful parse yields the tickets of the rows the filter keeps. */
  lemma ResultTickets(rawInput: string)
    requires RawDataResult(rawInput).Ok?
    ensures RawDataResult(rawInput).value == Tickets(Dedup(LineRows(Lines(rawInput)), |Lines(rawInput)|).kept)
  {
  }

  /**
   * Every ticket the parse yields is built from a row some line yields, its
   * ticket_id is that row's order_id, the names default to "Unknown", and
   * no two tickets share a ticket_id; the tickets keep the order of their lines.
   */
  lemma ParsedTickets(rawInput: string)
    requires RawDataResult(rawInput).Ok?
    ensures |RawDataResult(rawInput).value| >= 1
    ensures TicketsWellFormed(RawDataResult(rawInput).value)
  {
    var lines := Lines(rawInput);
    ResultTickets(rawInput);
    KeptFields(lines);
    TicketsOfKept(Dedup(LineRows(lines), |lines|).kept);
  }

  /** A quantity written as the decimal digits of `n` is plural exactly when `n` exceeds 1. */
  lemma PluralNatToString(n: nat)
    ensures Plural(NatToString(n)) <==> n > 1
  {
    ParseIntNatToString(n);
  }

  /**
   * The ticket type's plural: a quantity written as the decimal digits of
   * `n` gives "unit" for 0 and 1 and "units" above 1.
   */
  lemma TicketTypePlural(row: RawDataRow, n: nat)
    requires row.item_quantity == NatToString(n)
    ensures TicketType(row) == row.item_name + " - " + row.item_quantity + (if n > 1 then " units" else " unit")
  {
    PluralNatToString(n);
    var prefix := row.item_name + " - " + row.item_quantity;
    if n > 1 {
      assert prefix + " unit" + "s" == prefix + " units";
    }
  }
}
