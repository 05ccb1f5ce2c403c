/**
 * The admin page pages/qr-generator.tsx: the counters over the fetched table
 * (`calculateStats`) and the status badge of a row (`getStatusBadge`), and
 * how the counters line up with the batch of the generate-and-send route.
 */
module QrGenerator {
  import opened Types
  import opened Store
  import opened FetchSheet
  import opened Wrappers
  import GenerateAndSend

  datatype Stats = Stats(total: nat, generated: nat, pending: nat)

  datatype Badge = Sent | Generated | Pending

  /** A row whose code was generated and mailed. */
  predicate IsDone(r: SheetRow) {
    r.qr_generated && r.email_sent
  }

  /** `rows.filter(r => r.qr_generated && r.email_sent).length`. */
  function CountGenerated(rows: seq<SheetRow>): (n: nat)
    ensures n <= |rows|
  {
    if |rows| == 0 then 0 else (if IsDone(rows[0]) then 1 else 0) + CountGenerated(rows[1..])
  }

  /** `rows.filter(r => !r.qr_generated || !r.email_sent).length`. */
  function CountPending(rows: seq<SheetRow>): (n: nat)
    ensures n <= |rows|
  {
    if |rows| == 0 then 0 else (if !rows[0].qr_generated || !rows[0].email_sent then 1 else 0) + CountPending(rows[1..])
  }

  /** `calculateStats`. */
  function CalculateStats(rows: seq<SheetRow>): (s: Stats)
    ensures s.total == |rows|
    ensures s.generated + s.pending == s.total
  {
    CountsPartition(rows);
    Stats(|rows|, CountGenerated(rows), CountPending(rows))
  }

  /** Every row is counted as generated or as pending, never both. */
  lemma {:induction false} CountsPartition(rows: seq<SheetRow>)
    ensures CountGenerated(rows) + CountPending(rows) == |rows|
  {
    if |rows| > 0 {
      CountsPartition(rows[1..]);
    }
  }

  /** `getStatusBadge`. */
  function StatusBadge(generated: bool, sent: bool): (b: Badge)
    ensures b == Sent <==> generated && sent
    ensures b == Generated <==> generated && !sent
    ensures b == Pending <==> !generated
  {
    if generated && sent then Sent
    else if generated && !sent then Generated
    else Pending
  }

  /** A row sent but not marked generated still shows as pending. */
  lemma SentButNotGenerated()
    ensures StatusBadge(false, true) == Pending
  {
  }

  /**
   * The page's generated count and the batch agree: with at most one
   * tracking record per payment_id, a table row counts as generated exactly
   * when the batch would leave its ticket out of the pending list.
   */
  lemma RowDoneIff(t: TicketRecord, records: seq<TrackingRecord>)
    requires UniqueTracking(records)
    ensures IsDone(RowOf(t, ProcessedMap(records))) <==> t.payment_id in GenerateAndSend.ProcessedIds(records)
  {
    var m := ProcessedMap(records);
    if t.payment_id in GenerateAndSend.ProcessedIds(records) {
      var r :| r in records && r.qr_generated && r.email_sent && r.payment_id == t.payment_id;
      var k :| 0 <= k < |records| && records[k] == r;
      UniqueRecordFlags(t, records, k);
    }
    if IsDone(RowOf(t, m)) {
      assert m[t.payment_id] in records;
    }
  }

  /**
   * With at most one tracking record per payment_id, the page's pending
   * counter is the length of the batch's pending list.
   */
  lemma {:induction false} PendingCountMatchesBatch(tickets: seq<TicketRecord>, records: seq<TrackingRecord>)
    requires UniqueTracking(records)
    ensures CalculateStats(Merge(tickets, records)).pending == |GenerateAndSend.Pending(tickets, GenerateAndSend.ProcessedIds(records))|
  {
    if |tickets| > 0 {
      PendingCountMatchesBatch(tickets[1..], records);
      assert Merge(tickets, records)[1..] == Merge(tickets[1..], records);
      RowDoneIff(tickets[0], records);
    }
  }

  /**
   * Without that uniqueness the two disagree: a complete record followed by
   * an incomplete one for the same payment_id keeps the ticket out of the
   * batch but counts it as pending on the page.
   */
  lemma DuplicateRecordsDisagree(t: TicketRecord, done: TrackingRecord, later: TrackingRecord)
    requires done.payment_id == t.payment_id == later.payment_id
    requires done.qr_generated && done.email_sent && !later.email_sent
    ensures t.payment_id in GenerateAndSend.ProcessedIds([done, later])
    ensures CalculateStats(Merge([t], [done, later])).pending == 1
    ensures |GenerateAndSend.Pending([t], GenerateAndSend.ProcessedIds([done, later]))| == 0
  {
    EarlierRecordHidden(t, done, later);
    assert done in [done, later];
    var rows := Merge([t], [done, later]);
    assert rows[1..] == [];
  }

  /** The generate-and-send route keeps the tracking collection free of repeated payment_ids. */
  lemma {:induction false} SendKeepsUnique(tracking: seq<TrackingRecord>, pending: seq<TicketRecord>,
                                           results: seq<Option<string>>, n: nat, clock: nat -> nat)
    requires UniqueTracking(tracking) && n <= |pending| == |results|
    ensures UniqueTracking(GenerateAndSend.Send(tracking, pending, results, n, clock).tracking)
  {
    if n > 0 {
      SendKeepsUnique(tracking, pending, results, n - 1, clock);
      var st := GenerateAndSend.Send(tracking, pending, results, n - 1, clock);
      UpsertTrackingUnique(st.tracking, GenerateAndSend.TrackFor(pending[n - 1], clock(n - 1)));
    }
  }
}
