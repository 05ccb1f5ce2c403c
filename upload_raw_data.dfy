/**
 * POST /api/upload-raw-data (pages/api/upload-raw-data.ts): inserts each
 * processed ticket whose payment_id and ticket_id are both new to the store,
 * counting inserted and skipped tickets and logging one line per ticket.
 */
module UploadRawData {
  import opened Wrappers
  import opened Types
  import opened Store
  import opened Text
  import opened RawDataImport

  const InvalidOrEmpty: string := "Invalid or empty ticket data"
  /** The TypeError message of reading a field of an absent `raw_data`. */
  const MissingRawData: string := "Cannot read properties of undefined (reading 'payment_page_title')"
  const DefaultEventName: string := "Event"
  const DefaultPaymentStatus: string := "completed"
  const DefaultCurrency: string := "INR"

  datatype UploadResponse = UploadResponse(
    success: bool,
    inserted: Option<nat>,
    skipped: Option<nat>,
    message: string,
    details: Option<seq<string>>)

  /**
   * The document inserted for a ticket: its identifiers and contact fields,
   * unused, stamped `now`, with `today` (an ISO date) standing in for an
   * empty payment date and the other defaults filled in.
   */
  function TicketDoc(t: ProcessedTicket, raw: RawDataRow, now: nat, today: string): (d: TicketRecord)
    ensures d.payment_id == t.payment_id && d.ticket_id == t.ticket_id && d.email == t.email && d.name == t.name
    ensures FreshDoc(d) && d.created_at == now
    ensures d.event_date == Some(if raw.payment_date == "" then today else raw.payment_date)
  {
    TicketRecord(
      t.payment_id,
      t.ticket_id,
      t.email,
      t.name,
      Some(t.phone),
      Some(Or(raw.payment_page_title, DefaultEventName)),
      Some(Or(raw.payment_date, today)),
      Some(t.ticket_type),
      Some(t.price),
      false,
      now,
      None,
      None,
      Some(Or(raw.payment_status, DefaultPaymentStatus)),
      Some(Or(raw.currency, DefaultCurrency)))
  }

  /** The loop state: the store, the two counters and the details list. */
  datatype ImportState = ImportState(docs: seq<TicketRecord>, inserted: nat, skipped: nat, details: seq<string>)

  /** One turn of the loop: skip a ticket that is already stored, skip on the caught error, or insert. */
  function Step(st: ImportState, t: ProcessedTicket, now: nat, today: string): (r: ImportState)
    ensures r.inserted + r.skipped == st.inserted + st.skipped + 1
    ensures |r.details| == |st.details| + 1 && r.details[..|st.details|] == st.details
    ensures ByEitherId(st.docs, t.payment_id, t.ticket_id).Some? || t.raw_data.None? ==>
      r.docs == st.docs && r.inserted == st.inserted
    ensures ByEitherId(st.docs, t.payment_id, t.ticket_id).None? && t.raw_data.Some? ==>
      r.docs == st.docs + [TicketDoc(t, t.raw_data.value, now, today)] && r.inserted == st.inserted + 1
  {
    match ByEitherId(st.docs, t.payment_id, t.ticket_id)
    case Some(_) =>
      st.(skipped := st.skipped + 1, details := st.details + ["Skipped " + t.payment_id + " (already exists)"])
    case None =>
      match t.raw_data
      case None =>
        st.(skipped := st.skipped + 1, details := st.details + ["Error with " + t.payment_id + ": " + MissingRawData])
      case Some(raw) =>
        ImportState(st.docs + [TicketDoc(t, raw, now, today)], st.inserted + 1, st.skipped, st.details + ["Inserted " + t.payment_id])
  }

  /**
   * The state after the first `n` tickets. The route reads `new Date()`
   * twice inside its loop for each ticket it inserts: ticket `i` is stamped
   * `created_at = clock(i)`, and `today(i)` is the `YYYY-MM-DD` text of the
   * other reading, used when the payment date is empty.
   */
  function Import(docs: seq<TicketRecord>, tickets: seq<ProcessedTicket>, n: nat, clock: nat -> nat, today: nat -> string): (st: ImportState)
    requires n <= |tickets|
    ensures st.inserted + st.skipped == n && |st.details| == n
    ensures |st.docs| == |docs| + st.inserted
  {
    if n == 0 then ImportState(docs, 0, 0, [])
    else Step(Import(docs, tickets, n - 1, clock, today), tickets[n - 1], clock(n - 1), today(n - 1))
  }

  /** `Successfully inserted N tickets`, followed by `, skipped K` when K > 0. */
  function Summary(inserted: nat, skipped: nat): string {
    "Successfully inserted " + NatToString(inserted) + " tickets"
      + (if skipped > 0 then ", skipped " + NatToString(skipped) else "")
  }

  /** The reply's message reports skipped tickets exactly when some were skipped. */
  lemma SummaryReportsSkips(inserted: nat, skipped: nat)
    ensures Contains(Summary(inserted, skipped), ", skipped ") <==> skipped > 0
  {
    var head := "Successfully inserted " + NatToString(inserted) + " tickets";
    var sub := ", skipped ";
    if skipped > 0 {
      var m := Summary(inserted, skipped);
      assert m == head + (sub + NatToString(skipped));
      assert m[|head|..|head| + |sub|] == sub;
      assert OccursAt(m, sub, |head|);
    } else {
      assert Summary(inserted, skipped) == head;
      forall k | 0 <= k < |head| ensures head[k] != ',' {
        var d := NatToString(inserted);
        if 22 <= k < 22 + |d| {
          assert head[k] == d[k - 22];
        }
      }
      forall i | 0 <= i <= |head| ensures !OccursAt(head, sub, i) {
        assert sub[0] == ',';
      }
    }
  }

  /** The reply and the store after a call. */
  function Outcome(docs: seq<TicketRecord>, httpMethod: string, tickets: Option<seq<ProcessedTicket>>, clock: nat -> nat, today: nat -> string)
    : (out: (Reply<UploadResponse>, seq<TicketRecord>))
    ensures out.0.body.success <==> out.0.code == 200
    ensures !out.0.body.success ==> out.1 == docs
  {
    if httpMethod != "POST" then
      (Reply(405, UploadResponse(false, None, None, "Method not allowed", None)), docs)
    else if tickets.None? || |tickets.value| == 0 then
      (Reply(400, UploadResponse(false, None, None, InvalidOrEmpty, None)), docs)
    else
      var st := Import(docs, tickets.value, |tickets.value|, clock, today);
      (Reply(200, UploadResponse(true, Some(st.inserted), Some(st.skipped), Summary(st.inserted, st.skipped), Some(st.details))), st.docs)
  }

  /**
   * The route handler. `tickets` is `None` when the body's `tickets` is
   * missing or not an array.
   */
  method Handler(store: TicketCollection, httpMethod: string, tickets: Option<seq<ProcessedTicket>>, clock: nat -> nat, today: nat -> string)
    returns (r: Reply<UploadResponse>)
    modifies store
    ensures (r, store.docs) == Outcome(old(store.docs), httpMethod, tickets, clock, today)
  {
    if httpMethod != "POST" {
      return Reply(405, UploadResponse(false, None, None, "Method not allowed", None));
    }
    if tickets.None? || |tickets.value| == 0 {
      return Reply(400, UploadResponse(false, None, None, InvalidOrEmpty, None));
    }
    var ts := tickets.value;
    ghost var docs0 := store.docs;
    var insertedCount := 0;
    var skippedCount := 0;
    var details: seq<string> := [];
    for i := 0 to |ts|
      invariant ImportState(store.docs, insertedCount, skippedCount, details) == Import(docs0, ts, i, clock, today)
    {
      var ticket := ts[i];
      var existing := ByEitherId(store.docs, ticket.payment_id, ticket.ticket_id);
      if existing.Some? {
        skippedCount := skippedCount + 1;
        details := details + ["Skipped " + ticket.payment_id + " (already exists)"];
        continue;
      }
      if ticket.raw_data.None? {
        skippedCount := skippedCount + 1;
        details := details + ["Error with " + ticket.payment_id + ": " + MissingRawData];
        continue;
      }
      var now := clock(i);
      var ticketDoc := TicketDoc(ticket, ticket.raw_data.value, now, today(i));
      store.InsertOne(ticketDoc);
      insertedCount := insertedCount + 1;
      details := details + ["Inserted " + ticket.payment_id];
    }
    r := Reply(200, UploadResponse(true, Some(insertedCount), Some(skippedCount), Summary(insertedCount, skippedCount), Some(details)));
  }

  /** What an inserted document carries: unused, never redeemed, with the defaults filled in. */
  predicate FreshDoc(d: TicketRecord) {
    && !d.used
    && d.used_at == None
    && d.event_name.Some? && |d.event_name.value| > 0
    && d.payment_status.Some? && |d.payment_status.value| > 0
    && d.currency.Some? && |d.currency.value| > 0
  }

  /**
   * After the first `n` tickets: every ticket was counted once and logged
   * once; the store grew by exactly the inserted count and kept its old
   * documents as they were; each inserted document is fresh and shares
   * neither payment_id nor ticket_id with any document before it.
   */
  lemma {:induction false} ImportFacts(docs: seq<TicketRecord>, tickets: seq<ProcessedTicket>, n: nat, clock: nat -> nat, today: nat -> string)
    requires n <= |tickets|
    ensures var st := Import(docs, tickets, n, clock, today);
      && st.inserted + st.skipped == n
      && |st.details| == n
      && |st.docs| == |docs| + st.inserted
      && st.docs[..|docs|] == docs
      && (forall k :: |docs| <= k < |st.docs| ==> FreshDoc(st.docs[k]))
      && (forall a, b :: 0 <= a < b < |st.docs| && |docs| <= b ==>
            st.docs[a].payment_id != st.docs[b].payment_id && st.docs[a].ticket_id != st.docs[b].ticket_id)
  {
    if n > 0 {
      ImportFacts(docs, tickets, n - 1, clock, today);
      var prev := Import(docs, tickets, n - 1, clock, today);
      var st := Import(docs, tickets, n, clock, today);
      var t := tickets[n - 1];
      if ByEitherId(prev.docs, t.payment_id, t.ticket_id).None? && t.raw_data.Some? {
        assert st.docs[..|prev.docs|] == prev.docs;
        forall k | |docs| <= k < |st.docs| ensures FreshDoc(st.docs[k]) {
          if k < |prev.docs| {
            assert st.docs[k] == prev.docs[k];
          }
        }
      }
    }
  }

  /**
   * Each inserted document is stamped with the clock reading of its own
   * ticket: when ticket `i` is inserted, the document appended for it has
   * `created_at = clock(i)` and, without a payment date, the date `today(i)`.
   */
  lemma InsertStamped(docs: seq<TicketRecord>, tickets: seq<ProcessedTicket>, i: nat, clock: nat -> nat, today: nat -> string)
    requires i < |tickets|
    requires Import(docs, tickets, i + 1, clock, today).inserted == Import(docs, tickets, i, clock, today).inserted + 1
    ensures var before := Import(docs, tickets, i, clock, today).docs;
      var after := Import(docs, tickets, i + 1, clock, today).docs;
      && tickets[i].raw_data.Some?
      && after == before + [TicketDoc(tickets[i], tickets[i].raw_data.value, clock(i), today(i))]
      && after[|before|].created_at == clock(i)
      && (tickets[i].raw_data.value.payment_date == "" ==> after[|before|].event_date == Some(today(i)))
  {
  }

  /** The store after more tickets extends the store after fewer. */
  lemma {:induction false} ImportExtends(docs: seq<TicketRecord>, tickets: seq<ProcessedTicket>, m: nat, n: nat, clock: nat -> nat, today: nat -> string)
    requires m <= n <= |tickets|
    ensures var a := Import(docs, tickets, m, clock, today).docs;
      var b := Import(docs, tickets, n, clock, today).docs;
      |a| <= |b| && b[..|a|] == a
    decreases n
  {
    if m < n {
      ImportExtends(docs, tickets, m, n - 1, clock, today);
    }
  }

  /**
   * A ticket that repeats the payment_id or the ticket_id of a ticket
   * inserted earlier in the same batch is skipped.
   */
  lemma BatchRepeatSkipped(docs: seq<TicketRecord>, tickets: seq<ProcessedTicket>, i: nat, j: nat, clock: nat -> nat, today: nat -> string)
    requires i < j < |tickets|
    requires Import(docs, tickets, i + 1, clock, today).inserted == Import(docs, tickets, i, clock, today).inserted + 1
    requires tickets[i].payment_id == tickets[j].payment_id || tickets[i].ticket_id == tickets[j].ticket_id
    ensures Import(docs, tickets, j + 1, clock, today).docs == Import(docs, tickets, j, clock, today).docs
    ensures Import(docs, tickets, j + 1, clock, today).inserted == Import(docs, tickets, j, clock, today).inserted
  {
    var before := Import(docs, tickets, i, clock, today);
    var after := Import(docs, tickets, i + 1, clock, today);
    var t := tickets[i];
    assert ByEitherId(before.docs, t.payment_id, t.ticket_id).None? && t.raw_data.Some?;
    var k := |before.docs|;
    assert after.docs[k] == TicketDoc(t, t.raw_data.value, clock(i), today(i));
    ImportExtends(docs, tickets, i + 1, j, clock, today);
    var at := Import(docs, tickets, j, clock, today);
    assert at.docs[k] == after.docs[k];
    assert ByEitherId(at.docs, tickets[j].payment_id, tickets[j].ticket_id).Some?;
  }

  /**
   * A successful call accounts for every ticket: inserted + skipped is the
   * number of tickets, details has one entry per ticket, and the store grew
   * by the inserted count with the old documents unchanged.
   */
  lemma UploadAccounts(docs: seq<TicketRecord>, tickets: seq<ProcessedTicket>, clock: nat -> nat, today: nat -> string)
    requires |tickets| > 0
    ensures var (r, after) := Outcome(docs, "POST", Some(tickets), clock, today);
      && r.code == 200
      && r.body.inserted.Some? && r.body.skipped.Some? && r.body.details.Some?
      && r.body.inserted.value + r.body.skipped.value == |tickets|
      && |r.body.details.value| == |tickets|
      && |after| == |docs| + r.body.inserted.value
      && after[..|docs|] == docs
      && (forall k :: |docs| <= k < |after| ==> FreshDoc(after[k]))
  {
    ImportFacts(docs, tickets, |tickets|, clock, today);
  }

  /** A missing, non-array or empty list is refused and nothing is written. */
  lemma EmptyRefused(docs: seq<TicketRecord>, tickets: Option<seq<ProcessedTicket>>, clock: nat -> nat, today: nat -> string)
    requires tickets.None? || |tickets.value| == 0
    ensures Outcome(docs, "POST", tickets, clock, today) == (Reply(400, UploadResponse(false, None, None, InvalidOrEmpty, None)), docs)
  {
  }

  /** A store whose payment_ids are pairwise distinct keeps them distinct. */
  lemma DistinctPaymentIdsKept(docs: seq<TicketRecord>, tickets: seq<ProcessedTicket>, clock: nat -> nat, today: nat -> string)
    requires forall a, b :: 0 <= a < b < |docs| ==> docs[a].payment_id != docs[b].payment_id
    ensures var after := Import(docs, tickets, |tickets|, clock, today).docs;
      forall a, b :: 0 <= a < b < |after| ==> after[a].payment_id != after[b].payment_id
  {
    ImportFacts(docs, tickets, |tickets|, clock, today);
    var after := Import(docs, tickets, |tickets|, clock, today).docs;
    forall a, b | 0 <= a < b < |after| ensures after[a].payment_id != after[b].payment_id {
      if b < |docs| {
        assert after[a] == docs[a] && after[b] == docs[b];
      }
    }
  }
}
