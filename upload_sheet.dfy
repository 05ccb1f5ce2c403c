/**
 * POST /api/upload-sheet (pages/api/upload-sheet.ts): upserts each row of a
 * pasted sheet into the ticket store by payment_id, counting the documents
 * the upserts created and the ones they changed.
 */
module UploadSheet {
  import opened Wrappers
  import opened Types
  import opened Store
  import opened Text
  import opened DataImport
  import MarkUsed

  const TicketsRequired: string := "Invalid request: tickets array is required"
  const TicketIdPrefix: string := "TKT-"

  datatype UploadResponse = UploadResponse(
    success: bool,
    inserted: Option<nat>,
    updated: Option<nat>,
    message: string)

  /** The ticket_id the route derives from a payment_id. */
  function TicketIdOf(pid: string): (tid: string)
    ensures |tid| == |pid| + 4 && tid[..4] == TicketIdPrefix && tid[4..] == pid
  {
    TicketIdPrefix + pid
  }

  /**
   * The `$set` of the upsert applied to a stored document: identifiers,
   * name, email and type from the row, `used` cleared, `created_at` the
   * clock reading taken for this row. The amount of the row is not written.
   */
  function Assign(row: ParsedRow, now: nat, t: TicketRecord): (d: TicketRecord)
    ensures Written(d, row, now)
    ensures d.phone == t.phone && d.event_name == t.event_name && d.event_date == t.event_date && d.price == t.price
      && d.used_at == t.used_at && d.scanned_by == t.scanned_by && d.payment_status == t.payment_status && d.currency == t.currency
  {
    t.(
      payment_id := row.payment_id,
      ticket_id := TicketIdOf(row.payment_id),
      name := row.name,
      email := row.email,
      ticket_type := Some(row.type_),
      used := false,
      created_at := now)
  }

  /** The same `$set` as the update handed to the store. */
  function SetFields(row: ParsedRow, now: nat): TicketRecord -> TicketRecord {
    (t: TicketRecord) => Assign(row, now, t)
  }

  /** The document an upsert creates: the `$set` fields and nothing else. */
  function InsertDoc(row: ParsedRow, now: nat): (d: TicketRecord)
    ensures Written(d, row, now)
    ensures d.phone.None? && d.event_name.None? && d.event_date.None? && d.price.None? && d.used_at.None?
      && d.scanned_by.None? && d.payment_status.None? && d.currency.None?
  {
    TicketRecord(row.payment_id, TicketIdOf(row.payment_id), row.email, row.name,
      None, None, None, Some(row.type_), None, false, now, None, None, None, None)
  }

  /** What the `$set` leaves in a document, whichever document it lands on. */
  predicate Written(d: TicketRecord, row: ParsedRow, now: nat) {
    && d.payment_id == row.payment_id
    && d.ticket_id == TicketIdOf(row.payment_id)
    && d.name == row.name
    && d.email == row.email
    && d.ticket_type == Some(row.type_)
    && !d.used
    && d.created_at == now
  }

  /** The loop state: the store and the two counters. */
  datatype SheetState = SheetState(docs: seq<TicketRecord>, inserted: nat, updated: nat)

  /**
   * One turn of the loop: the upsert on the first document with the row's
   * payment_id (or a new document), then `upsertedCount` bumps `inserted`
   * and otherwise `modifiedCount` bumps `updated`.
   */
  function Step(st: SheetState, row: ParsedRow, now: nat): SheetState {
    match ByPaymentId(st.docs, row.payment_id)
    case None =>
      SheetState(st.docs + [InsertDoc(row, now)], st.inserted + 1, st.updated)
    case Some(i) =>
      var d := Assign(row, now, st.docs[i]);
      SheetState(st.docs[i := d], st.inserted, st.updated + (if d == st.docs[i] then 0 else 1))
  }

  /**
   * The state after the first `n` rows, where row `i` is written at
   * `clock(i)`: the route reads `new Date()` afresh for every row.
   */
  function Upload(docs: seq<TicketRecord>, rows: seq<ParsedRow>, n: nat, clock: nat -> nat): (st: SheetState)
    requires n <= |rows|
    ensures st.inserted + st.updated <= n
    ensures |st.docs| == |docs| + st.inserted
  {
    if n == 0 then SheetState(docs, 0, 0)
    else Step(Upload(docs, rows, n - 1, clock), rows[n - 1], clock(n - 1))
  }

  /** `Processed N tickets: I inserted, U updated`. */
  function Summary(count: nat, inserted: nat, updated: nat): string {
    "Processed " + NatToString(count) + " tickets: " + NatToString(inserted) + " inserted, "
      + NatToString(updated) + " updated"
  }

  /** The reply and the store after a call. */
  function Outcome(docs: seq<TicketRecord>, httpMethod: string, tickets: Option<seq<ParsedRow>>, clock: nat -> nat)
    : (out: (Reply<UploadResponse>, seq<TicketRecord>))
    ensures out.0.body.success <==> out.0.code == 200
    ensures !out.0.body.success ==> out.1 == docs
    ensures out.0.body.success <==> httpMethod == "POST" && tickets.Some?
  {
    if httpMethod != "POST" then
      (Reply(405, UploadResponse(false, None, None, "Method not allowed")), docs)
    else if tickets.None? then
      (Reply(400, UploadResponse(false, None, None, TicketsRequired)), docs)
    else
      var rows := tickets.value;
      var st := Upload(docs, rows, |rows|, clock);
      (Reply(200, UploadResponse(true, Some(st.inserted), Some(st.updated), Summary(|rows|, st.inserted, st.updated))), st.docs)
  }

  /**
   * The route handler. `tickets` is `None` when the body's `tickets` is
   * missing or not an array; an empty array is accepted.
   */
  method Handler(store: TicketCollection, httpMethod: string, tickets: Option<seq<ParsedRow>>, clock: nat -> nat)
    returns (r: Reply<UploadResponse>)
    modifies store
    ensures (r, store.docs) == Outcome(old(store.docs), httpMethod, tickets, clock)
  {
    if httpMethod != "POST" {
      return Reply(405, UploadResponse(false, None, None, "Method not allowed"));
    }
    if tickets.None? {
      return Reply(400, UploadResponse(false, None, None, TicketsRequired));
    }
    var rows := tickets.value;
    ghost var docs0 := store.docs;
    var insertedCount := 0;
    var updatedCount := 0;
    for i := 0 to |rows|
      invariant SheetState(store.docs, insertedCount, updatedCount) == Upload(docs0, rows, i, clock)
    {
      var row := rows[i];
      var upserted, modified := store.UpsertOneByPaymentId(row.payment_id, SetFields(row, clock(i)), InsertDoc(row, clock(i)));
      if upserted > 0 {
        insertedCount := insertedCount + 1;
      } else if modified > 0 {
        updatedCount := updatedCount + 1;
      }
    }
    r := Reply(200, UploadResponse(true, Some(insertedCount), Some(updatedCount), Summary(|rows|, insertedCount, updatedCount)));
  }

  /**
   * After the first `n` rows: each row was counted at most once; the store
   * grew by exactly the inserted count; no document moved or changed its
   * payment_id or its `used_at`.
   */
  lemma {:induction false} UploadFacts(docs: seq<TicketRecord>, rows: seq<ParsedRow>, n: nat, clock: nat -> nat)
    requires n <= |rows|
    ensures var st := Upload(docs, rows, n, clock);
      && st.inserted + st.updated <= n
      && |st.docs| == |docs| + st.inserted
      && (forall k :: 0 <= k < |docs| ==> st.docs[k].payment_id == docs[k].payment_id)
      && (forall k :: 0 <= k < |docs| ==> st.docs[k].used_at == docs[k].used_at)
  {
    if n > 0 {
      UploadFacts(docs, rows, n - 1, clock);
    }
  }

  /**
   * A step for another payment_id leaves the first document with payment_id
   * `p` where it was and as it was.
   */
  lemma StepKeeps(st: SheetState, row: ParsedRow, now: nat, p: string)
    requires row.payment_id != p
    ensures var after := Step(st, row, now).docs;
      && ByPaymentId(after, p).Some? == ByPaymentId(st.docs, p).Some?
      && (ByPaymentId(st.docs, p).Some? ==>
            ByPaymentId(after, p) == ByPaymentId(st.docs, p) && after[ByPaymentId(st.docs, p).value] == st.docs[ByPaymentId(st.docs, p).value])
  {
    var after := Step(st, row, now).docs;
    assert |after| >= |st.docs|;
    assert forall k :: 0 <= k < |st.docs| ==> after[k].payment_id == st.docs[k].payment_id;
    match ByPaymentId(st.docs, p)
    case Some(i) =>
      assert after[i] == st.docs[i];
      assert ByPaymentId(after, p) == Some(i);
    case None =>
      assert forall k :: 0 <= k < |after| ==> after[k].payment_id != p;
  }

  /** The step for a row lands its `$set` on the first document with the row's payment_id. */
  lemma StepWrites(st: SheetState, row: ParsedRow, now: nat)
    ensures var after := Step(st, row, now).docs;
      && ByPaymentId(after, row.payment_id).Some?
      && Written(after[ByPaymentId(after, row.payment_id).value], row, now)
  {
    var after := Step(st, row, now).docs;
    match ByPaymentId(st.docs, row.payment_id)
    case Some(i) =>
      assert forall k :: 0 <= k < i ==> after[k] == st.docs[k];
      assert after[i] == Assign(row, now, st.docs[i]);
      assert ByPaymentId(after, row.payment_id) == Some(i);
    case None =>
      assert forall k :: 0 <= k < |st.docs| ==> after[k] == st.docs[k];
      assert after[|st.docs|] == InsertDoc(row, now);
      assert ByPaymentId(after, row.payment_id) == Some(|st.docs|);
  }

  /**
   * The last row for a payment_id wins: after the first `n` rows, the first
   * document with that payment_id carries the name, email and type of the
   * last of those rows with it, the derived ticket_id, `used` cleared and the
   * clock reading of that row.
   */
  lemma {:induction false} LastRowWins(docs: seq<TicketRecord>, rows: seq<ParsedRow>, n: nat, j: nat, clock: nat -> nat)
    requires j < n <= |rows|
    requires forall k :: j < k < n ==> rows[k].payment_id != rows[j].payment_id
    ensures var after := Upload(docs, rows, n, clock).docs;
      var found := ByPaymentId(after, rows[j].payment_id);
      found.Some? && Written(after[found.value], rows[j], clock(j))
  {
    if n == j + 1 {
      StepWrites(Upload(docs, rows, j, clock), rows[j], clock(j));
    } else {
      LastRowWins(docs, rows, n - 1, j, clock);
      StepKeeps(Upload(docs, rows, n - 1, clock), rows[n - 1], clock(n - 1), rows[j].payment_id);
    }
  }

  /**
   * After a successful call, every row's payment_id is in the store, and the
   * document found for it is unused and carries that row's `TKT-` ticket_id,
   * even when the ticket had been redeemed before.
   */
  lemma EveryRowStored(docs: seq<TicketRecord>, rows: seq<ParsedRow>, clock: nat -> nat, j: nat)
    requires j < |rows|
    ensures var after := Outcome(docs, "POST", Some(rows), clock).1;
      var found := ByPaymentId(after, rows[j].payment_id);
      && found.Some?
      && !after[found.value].used
      && after[found.value].ticket_id == TicketIdPrefix + rows[j].payment_id
  {
    UploadStoresRow(docs, rows, clock, j);
  }

  /** Every row's payment_id is found after the whole upload, on a document its last row wrote. */
  lemma UploadStoresRow(docs: seq<TicketRecord>, rows: seq<ParsedRow>, clock: nat -> nat, j: nat)
    requires j < |rows|
    ensures var after := Upload(docs, rows, |rows|, clock).docs;
      var found := ByPaymentId(after, rows[j].payment_id);
      && found.Some?
      && !after[found.value].used
      && after[found.value].ticket_id == TicketIdPrefix + rows[j].payment_id
  {
    var p := rows[j].payment_id;
    var last := LastWith(rows, p, j);
    LastRowWins(docs, rows, |rows|, last, clock);
  }

  /** Index of the last row with payment_id `p`, given one at `j`. */
  lemma {:induction false} LastWith(rows: seq<ParsedRow>, p: string, j: nat) returns (last: nat)
    requires j < |rows| && rows[j].payment_id == p
    ensures j <= last < |rows| && rows[last].payment_id == p
    ensures forall k :: last < k < |rows| ==> rows[k].payment_id != p
    decreases |rows| - j
  {
    if exists k :: j < k < |rows| && rows[k].payment_id == p {
      var k :| j < k < |rows| && rows[k].payment_id == p;
      last := LastWith(rows, p, k);
    } else {
      last := j;
    }
  }

  /**
   * A stored document the upload does not address stays as it was: one whose
   * payment_id no row carries, or one behind an earlier document with the
   * same payment_id (the upsert only reaches the first).
   */
  lemma OthersUntouched(docs: seq<TicketRecord>, rows: seq<ParsedRow>, n: nat, clock: nat -> nat, k: nat)
    requires n <= |rows| && k < |docs|
    requires (forall j :: 0 <= j < n ==> rows[j].payment_id != docs[k].payment_id) || ByPaymentId(docs, docs[k].payment_id) != Some(k)
    ensures k < |Upload(docs, rows, n, clock).docs| && Upload(docs, rows, n, clock).docs[k] == docs[k]
  {
    if forall j :: 0 <= j < n ==> rows[j].payment_id != docs[k].payment_id {
      UnaddressedUntouched(docs, rows, n, clock, k);
    } else {
      var e := ByPaymentId(docs, docs[k].payment_id).value;
      ShadowedUntouched(docs, rows, n, clock, k, e);
    }
  }

  /** A document whose payment_id no row carries is unchanged. */
  lemma {:induction false} UnaddressedUntouched(docs: seq<TicketRecord>, rows: seq<ParsedRow>, n: nat, clock: nat -> nat, k: nat)
    requires n <= |rows| && k < |docs|
    requires forall j :: 0 <= j < n ==> rows[j].payment_id != docs[k].payment_id
    ensures k < |Upload(docs, rows, n, clock).docs| && Upload(docs, rows, n, clock).docs[k] == docs[k]
  {
    if n > 0 {
      UnaddressedUntouched(docs, rows, n - 1, clock, k);
      StepUntouched(Upload(docs, rows, n - 1, clock), rows[n - 1], clock(n - 1), k, k);
    }
  }

  /** A document behind an earlier one with the same payment_id is unchanged. */
  lemma {:induction false} ShadowedUntouched(docs: seq<TicketRecord>, rows: seq<ParsedRow>, n: nat, clock: nat -> nat, k: nat, e: nat)
    requires n <= |rows| && e < k < |docs| && docs[e].payment_id == docs[k].payment_id
    ensures k < |Upload(docs, rows, n, clock).docs| && Upload(docs, rows, n, clock).docs[k] == docs[k]
  {
    if n > 0 {
      var prev := Upload(docs, rows, n - 1, clock);
      ShadowedUntouched(docs, rows, n - 1, clock, k, e);
      PaymentIdKept(docs, rows, n - 1, clock, e);
      assert prev.docs[e].payment_id == prev.docs[k].payment_id;
      StepUntouched(prev, rows[n - 1], clock(n - 1), k, e);
      assert Upload(docs, rows, n, clock) == Step(prev, rows[n - 1], clock(n - 1));
    }
  }

  /** Document `k` keeps its payment_id through the first `n` rows. */
  lemma {:induction false} PaymentIdKept(docs: seq<TicketRecord>, rows: seq<ParsedRow>, n: nat, clock: nat -> nat, k: nat)
    requires n <= |rows| && k < |docs|
    ensures k < |Upload(docs, rows, n, clock).docs| && Upload(docs, rows, n, clock).docs[k].payment_id == docs[k].payment_id
  {
    if n > 0 {
      PaymentIdKept(docs, rows, n - 1, clock, k);
      StepPaymentId(Upload(docs, rows, n - 1, clock), rows[n - 1], clock(n - 1), k);
    }
  }

  /** One row keeps every stored document's payment_id and never shrinks the store. */
  lemma StepPaymentId(st: SheetState, row: ParsedRow, now: nat, k: nat)
    requires k < |st.docs|
    ensures k < |Step(st, row, now).docs| && Step(st, row, now).docs[k].payment_id == st.docs[k].payment_id
  {
    match ByPaymentId(st.docs, row.payment_id)
    case None =>
      assert Step(st, row, now).docs == st.docs + [InsertDoc(row, now)];
    case Some(i) =>
      assert Step(st, row, now).docs == st.docs[i := Assign(row, now, st.docs[i])];
  }

  /**
   * A step leaves document `k` alone when the row has another payment_id or
   * an earlier document `e` shares `k`'s payment_id.
   */
  lemma StepUntouched(st: SheetState, row: ParsedRow, now: nat, k: nat, e: nat)
    requires e <= k < |st.docs|
    requires row.payment_id != st.docs[k].payment_id || (e < k && st.docs[e].payment_id == st.docs[k].payment_id)
    ensures k < |Step(st, row, now).docs| && Step(st, row, now).docs[k] == st.docs[k]
  {
  }

  /** The amount column is never written: rows that differ only in amount have the same effect. */
  lemma AmountIgnored(docs: seq<TicketRecord>, rows1: seq<ParsedRow>, rows2: seq<ParsedRow>, httpMethod: string, clock: nat -> nat)
    requires |rows1| == |rows2|
    requires forall j :: 0 <= j < |rows1| ==> rows1[j].(amount := rows2[j].amount) == rows2[j]
    ensures Outcome(docs, httpMethod, Some(rows1), clock) == Outcome(docs, httpMethod, Some(rows2), clock)
  {
    SameUpload(docs, rows1, rows2, |rows1|, clock);
  }

  lemma {:induction false} SameUpload(docs: seq<TicketRecord>, rows1: seq<ParsedRow>, rows2: seq<ParsedRow>, n: nat, clock: nat -> nat)
    requires n <= |rows1| == |rows2|
    requires forall j :: 0 <= j < |rows1| ==> rows1[j].(amount := rows2[j].amount) == rows2[j]
    ensures Upload(docs, rows1, n, clock) == Upload(docs, rows2, n, clock)
  {
    if n > 0 {
      SameUpload(docs, rows1, rows2, n - 1, clock);
      assert rows1[n - 1].(amount := rows2[n - 1].amount) == rows2[n - 1];
    }
  }

  /** A payment_id present in the store stays present. */
  lemma PresentStays(docs: seq<TicketRecord>, rows: seq<ParsedRow>, n: nat, clock: nat -> nat, p: string)
    requires n <= |rows| && ByPaymentId(docs, p).Some?
    ensures ByPaymentId(Upload(docs, rows, n, clock).docs, p).Some?
  {
    UploadFacts(docs, rows, n, clock);
    var k := ByPaymentId(docs, p).value;
    assert Upload(docs, rows, n, clock).docs[k].payment_id == p;
  }

  /**
   * Uploading the same rows again inserts nothing: every payment_id is
   * already present, so each upsert finds a document.
   */
  lemma SecondUploadInsertsNothing(docs: seq<TicketRecord>, rows: seq<ParsedRow>, clock: nat -> nat, clock2: nat -> nat)
    ensures Upload(Upload(docs, rows, |rows|, clock).docs, rows, |rows|, clock2).inserted == 0
  {
    var once := Upload(docs, rows, |rows|, clock).docs;
    forall j | 0 <= j < |rows| ensures ByPaymentId(once, rows[j].payment_id).Some? {
      UploadStoresRow(docs, rows, clock, j);
    }
    PresentInsertsNothing(once, rows, |rows|, clock2);
  }

  /** Rows whose payment_ids the store already holds insert nothing. */
  lemma {:induction false} PresentInsertsNothing(docs: seq<TicketRecord>, rows: seq<ParsedRow>, n: nat, clock: nat -> nat)
    requires n <= |rows|
    requires forall j :: 0 <= j < n ==> ByPaymentId(docs, rows[j].payment_id).Some?
    ensures Upload(docs, rows, n, clock).inserted == 0
  {
    if n > 0 {
      PresentInsertsNothing(docs, rows, n - 1, clock);
      PresentStays(docs, rows, n - 1, clock, rows[n - 1].payment_id);
      StepFoundInsertsNothing(Upload(docs, rows, n - 1, clock), rows[n - 1], clock(n - 1));
    }
  }

  /** A row whose payment_id the store holds updates in place and inserts nothing. */
  lemma StepFoundInsertsNothing(st: SheetState, row: ParsedRow, now: nat)
    requires ByPaymentId(st.docs, row.payment_id).Some?
    ensures Step(st, row, now).inserted == st.inserted && |Step(st, row, now).docs| == |st.docs|
  {
  }

  /**
   * A sheet that repeats a new row: the first copy is inserted and the second
   * updates the same document, which counts as updated exactly when the clock
   * moved between the two rows, because only `created_at` differs.
   */
  lemma RepeatedRowCounts(docs: seq<TicketRecord>, row: ParsedRow, clock: nat -> nat)
    requires ByPaymentId(docs, row.payment_id).None?
    ensures var st := Upload(docs, [row, row], 2, clock);
      && st.inserted == 1
      && |st.docs| == |docs| + 1
      && (st.updated == 1 <==> clock(0) != clock(1))
  {
    var rows := [row, row];
    assert rows[0] == row && rows[1] == row;
    assert Upload(docs, rows, 0, clock) == SheetState(docs, 0, 0);
    var first := Upload(docs, rows, 1, clock);
    assert first == Step(SheetState(docs, 0, 0), row, clock(0));
    var d := InsertDoc(row, clock(0));
    assert first.docs == docs + [d];
    assert first.docs[|docs|] == d;
    assert forall k :: 0 <= k < |docs| ==> first.docs[k] == docs[k];
    assert ByPaymentId(first.docs, row.payment_id) == Some(|docs|);
    assert Upload(docs, rows, 2, clock) == Step(first, row, clock(1));
    assert Assign(row, clock(1), d) == InsertDoc(row, clock(1));
  }

  /**
   * Re-uploading a row un-redeems its ticket: after a successful mark-used
   * call, an upload carrying the same payment_id leaves the document found
   * for it unused again, while it keeps the `used_at` of the redemption.
   */
  lemma ReuploadUnredeems(docs: seq<TicketRecord>, pid: string, rows: seq<ParsedRow>, j: nat, now1: nat, clock: nat -> nat)
    requires MarkUsed.Outcome(docs, "POST", Some(JString(pid)), now1).0.body.success
    requires j < |rows| && rows[j].payment_id == pid
    ensures var redeemed := MarkUsed.Outcome(docs, "POST", Some(JString(pid)), now1).1;
      var i := ByPaymentId(docs, pid).value;
      && redeemed[i].used
      && var after := Outcome(redeemed, "POST", Some(rows), clock).1;
         ByPaymentId(after, pid) == Some(i) && !after[i].used && after[i].used_at == Some(now1)
  {
    MarkUsed.SuccessRedeemsFirstMatch(docs, pid, now1);
    var redeemed := MarkUsed.Outcome(docs, "POST", Some(JString(pid)), now1).1;
    var i := ByPaymentId(docs, pid).value;
    assert forall k :: 0 <= k < i ==> redeemed[k] == docs[k];
    assert ByPaymentId(redeemed, pid) == Some(i);
    EveryRowStored(redeemed, rows, clock, j);
    var after := Outcome(redeemed, "POST", Some(rows), clock).1;
    UploadFacts(redeemed, rows, |rows|, clock);
    assert forall k :: 0 <= k <= i ==> after[k].payment_id == redeemed[k].payment_id;
    assert ByPaymentId(after, pid) == Some(i);
  }

  /** A missing or non-array `tickets` is refused and nothing is written; an empty array is not refused. */
  lemma MissingRefused(docs: seq<TicketRecord>, clock: nat -> nat)
    ensures Outcome(docs, "POST", None, clock) == (Reply(400, UploadResponse(false, None, None, TicketsRequired)), docs)
    ensures Outcome(docs, "POST", Some([]), clock).0.code == 200
    ensures Outcome(docs, "POST", Some([]), clock).1 == docs
  {
  }
}
