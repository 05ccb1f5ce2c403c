/**
 * GET /api/fetch-sheet (pages/api/fetch-sheet.ts): one row per stored ticket,
 * in store order, joined with the delivery flags of its tracking record.
 * The route only reads both collections.
 */
module FetchSheet {
  import opened Wrappers
  import opened Types
  import opened Store

  const DefaultType: string := "Standard"

  /** A row of the admin table. */
  datatype SheetRow = SheetRow(payment_id: string, name: string, email: string, type_: string, qr_generated: bool, email_sent: bool)

  datatype FetchResponse = FetchResponse(success: bool, data: Option<seq<SheetRow>>, message: Option<string>)

  /**
   * `new Map(records.map(r => [r.payment_id, r]))`: every payment_id of the
   * tracking records is a key, bound to one of its records.
   */
  function ProcessedMap(records: seq<TrackingRecord>): (m: map<string, TrackingRecord>)
    ensures forall p :: p in m ==> m[p] in records && m[p].payment_id == p
    ensures forall k :: 0 <= k < |records| ==> records[k].payment_id in m
  {
    if |records| == 0 then map[]
    else
      var last := records[|records| - 1];
      ProcessedMap(records[..|records| - 1])[last.payment_id := last]
  }

  /** The row of a ticket: its fields, the type or "Standard", the flags of its record or false. */
  function RowOf(t: TicketRecord, m: map<string, TrackingRecord>): (row: SheetRow)
    ensures row.payment_id == t.payment_id && row.name == t.name && row.email == t.email
    ensures row.type_ == OptionOr(t.ticket_type, DefaultType)
    ensures row.qr_generated <==> t.payment_id in m && m[t.payment_id].qr_generated
    ensures row.email_sent <==> t.payment_id in m && m[t.payment_id].email_sent
  {
    var found := t.payment_id in m;
    SheetRow(t.payment_id, t.name, t.email, OptionOr(t.ticket_type, DefaultType),
      found && m[t.payment_id].qr_generated, found && m[t.payment_id].email_sent)
  }

  /** The combined table, one row per ticket. */
  function Merge(tickets: seq<TicketRecord>, records: seq<TrackingRecord>): (rows: seq<SheetRow>)
    ensures |rows| == |tickets|
    ensures forall i :: 0 <= i < |tickets| ==> rows[i] == RowOf(tickets[i], ProcessedMap(records))
  {
    var m := ProcessedMap(records);
    seq(|tickets|, i requires 0 <= i < |tickets| => RowOf(tickets[i], m))
  }

  /** The route handler. */
  function Handler(httpMethod: string, tickets: seq<TicketRecord>, records: seq<TrackingRecord>): (r: Reply<FetchResponse>)
    ensures r.body.success <==> r.code == 200
    ensures r.body.success <==> httpMethod == "GET"
    ensures r.body.success ==> r.body.data == Some(Merge(tickets, records))
    ensures !r.body.success ==> r.body.data == None
  {
    if httpMethod != "GET" then Reply(405, FetchResponse(false, None, Some("Method not allowed")))
    else Reply(200, FetchResponse(true, Some(Merge(tickets, records)), None))
  }

  /**
   * The last record wins: when record `k` is the last with its payment_id,
   * the map binds that payment_id to record `k`.
   */
  lemma {:induction false} LastRecordWins(records: seq<TrackingRecord>, k: nat)
    requires k < |records|
    requires forall j :: k < j < |records| ==> records[j].payment_id != records[k].payment_id
    ensures ProcessedMap(records)[records[k].payment_id] == records[k]
  {
    var init := records[..|records| - 1];
    if k < |records| - 1 {
      assert records[k] == init[k];
      LastRecordWins(init, k);
    }
  }

  /** A ticket with no tracking record shows both flags false. */
  lemma UntrackedShowsFalse(t: TicketRecord, records: seq<TrackingRecord>)
    requires forall k :: 0 <= k < |records| ==> records[k].payment_id != t.payment_id
    ensures !RowOf(t, ProcessedMap(records)).qr_generated && !RowOf(t, ProcessedMap(records)).email_sent
  {
  }

  /**
   * With at most one tracking record per payment_id, a row's flags are those
   * of the ticket's own record.
   */
  lemma UniqueRecordFlags(t: TicketRecord, records: seq<TrackingRecord>, k: nat)
    requires UniqueTracking(records)
    requires k < |records| && records[k].payment_id == t.payment_id
    ensures RowOf(t, ProcessedMap(records)).qr_generated == records[k].qr_generated
    ensures RowOf(t, ProcessedMap(records)).email_sent == records[k].email_sent
  {
    LastRecordWins(records, k);
  }

  /**
   * With two records for one payment_id, the earlier one is hidden: a
   * complete record followed by an incomplete one shows the ticket as not
   * sent.
   */
  lemma EarlierRecordHidden(t: TicketRecord, done: TrackingRecord, later: TrackingRecord)
    requires done.payment_id == t.payment_id == later.payment_id
    requires done.qr_generated && done.email_sent && !later.email_sent
    ensures !RowOf(t, ProcessedMap([done, later])).email_sent
  {
    LastRecordWins([done, later], 1);
  }
}
