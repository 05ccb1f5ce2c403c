/**
 * In-memory stand-ins for the two MongoDB collections the routes use,
 * `tickets` and `qr_processed`. A collection is a sequence of documents in
 * natural order; `findOne` and `updateOne` act on the first document that
 * matches their filter, and an upsert that matches nothing appends.
 */
module Store {
  import opened Wrappers
  import opened Types

  /** Index of the first element that satisfies `p`. */
  function FirstMatch<T>(s: seq<T>, p: T -> bool): (r: Option<nat>)
    ensures r.Some? ==> r.value < |s| && p(s[r.value]) && forall j :: 0 <= j < r.value ==> !p(s[j])
    ensures r.None? ==> forall j :: 0 <= j < |s| ==> !p(s[j])
  {
    FirstMatchFrom(s, p, 0)
  }

  /** Index of the first element at or after `i` that satisfies `p`. */
  function FirstMatchFrom<T>(s: seq<T>, p: T -> bool, i: nat): (r: Option<nat>)
    requires i <= |s|
    ensures r.Some? ==> i <= r.value < |s| && p(s[r.value]) && forall j :: i <= j < r.value ==> !p(s[j])
    ensures r.None? ==> forall j :: i <= j < |s| ==> !p(s[j])
    decreases |s| - i
  {
    if i == |s| then None
    else if p(s[i]) then Some(i)
    else FirstMatchFrom(s, p, i + 1)
  }

  /** `findOne({ payment_id })`, as the index of the document found. */
  function ByPaymentId(docs: seq<TicketRecord>, pid: string): (r: Option<nat>)
    ensures r.Some? ==> r.value < |docs| && docs[r.value].payment_id == pid
    ensures r.Some? ==> forall j :: 0 <= j < r.value ==> docs[j].payment_id != pid
    ensures r.None? ==> forall j :: 0 <= j < |docs| ==> docs[j].payment_id != pid
  {
    PaymentIdFrom(docs, pid, 0)
  }

  /** Index of the first document at or after `i` with payment_id `pid`. */
  function PaymentIdFrom(docs: seq<TicketRecord>, pid: string, i: nat): (r: Option<nat>)
    requires i <= |docs|
    ensures r.Some? ==> i <= r.value < |docs| && docs[r.value].payment_id == pid
    ensures r.Some? ==> forall j :: i <= j < r.value ==> docs[j].payment_id != pid
    ensures r.None? ==> forall j :: i <= j < |docs| ==> docs[j].payment_id != pid
    decreases |docs| - i
  {
    if i == |docs| then None
    else if docs[i].payment_id == pid then Some(i)
    else PaymentIdFrom(docs, pid, i + 1)
  }

  /** `findOne({ ticket_id })`, as the index of the document found. */
  function ByTicketId(docs: seq<TicketRecord>, tid: string): (r: Option<nat>)
    ensures r.Some? ==> r.value < |docs| && docs[r.value].ticket_id == tid
    ensures r.Some? ==> forall j :: 0 <= j < r.value ==> docs[j].ticket_id != tid
    ensures r.None? ==> forall j :: 0 <= j < |docs| ==> docs[j].ticket_id != tid
  {
    FirstMatch(docs, (t: TicketRecord) => t.ticket_id == tid)
  }

  /** `findOne({ $or: [{ payment_id }, { ticket_id }] })`. */
  function ByEitherId(docs: seq<TicketRecord>, pid: string, tid: string): (r: Option<nat>)
    ensures r.Some? ==> r.value < |docs| && (docs[r.value].payment_id == pid || docs[r.value].ticket_id == tid)
    ensures r.None? ==> forall j :: 0 <= j < |docs| ==> docs[j].payment_id != pid && docs[j].ticket_id != tid
  {
    FirstMatch(docs, (t: TicketRecord) => t.payment_id == pid || t.ticket_id == tid)
  }

  /** A document of the `qr_processed` tracking collection. */
  datatype TrackingRecord = TrackingRecord(
    payment_id: string,
    ticket_id: string,
    email: string,
    qr_generated: bool,
    email_sent: bool,
    sent_at: nat)

  /** `findOne({ payment_id })` on the tracking collection. */
  function TrackingByPaymentId(docs: seq<TrackingRecord>, pid: string): (r: Option<nat>)
    ensures r.Some? ==> r.value < |docs| && docs[r.value].payment_id == pid
    ensures r.Some? ==> forall j :: 0 <= j < r.value ==> docs[j].payment_id != pid
    ensures r.None? ==> forall j :: 0 <= j < |docs| ==> docs[j].payment_id != pid
  {
    FirstMatch(docs, (t: TrackingRecord) => t.payment_id == pid)
  }

  /**
   * The tracking collection after `updateOne({ payment_id }, { $set: rec }, { upsert: true })`
   * where `rec` sets every field: the first record with that payment_id is
   * replaced, or `rec` is appended when there is none.
   */
  function UpsertTracking(docs: seq<TrackingRecord>, rec: TrackingRecord): seq<TrackingRecord>
  {
    match TrackingByPaymentId(docs, rec.payment_id)
    case Some(i) => docs[i := rec]
    case None => docs + [rec]
  }

  /** No two tracking records share a payment_id. */
  ghost predicate UniqueTracking(docs: seq<TrackingRecord>) {
    forall i, j :: 0 <= i < j < |docs| ==> docs[i].payment_id != docs[j].payment_id
  }

  /** Upserting keeps the tracking collection free of repeated payment_ids. */
  lemma UpsertTrackingUnique(docs: seq<TrackingRecord>, rec: TrackingRecord)
    requires UniqueTracking(docs)
    ensures UniqueTracking(UpsertTracking(docs, rec))
    ensures |UpsertTracking(docs, rec)| <= |docs| + 1
  {
  }

  /** The `tickets` collection. */
  class TicketCollection {
    var docs: seq<TicketRecord>

    constructor (initial: seq<TicketRecord>)
      ensures docs == initial
    {
      docs := initial;
    }

    /**
     * `updateOne({ payment_id: pid }, { $set })` where `update` applies the `$set`
     * fields to a document; returns `modifiedCount`.
     */
    method UpdateOneByPaymentId(pid: string, update: TicketRecord -> TicketRecord) returns (modified: nat)
      modifies this
      ensures match ByPaymentId(old(docs), pid)
        case None => docs == old(docs) && modified == 0
        case Some(i) =>
          && docs == old(docs)[i := update(old(docs)[i])]
          && modified == if update(old(docs)[i]) == old(docs)[i] then 0 else 1
    {
      var found := ByPaymentId(docs, pid);
      match found
      case None =>
        modified := 0;
      case Some(i) =>
        var updated := update(docs[i]);
        modified := if updated == docs[i] then 0 else 1;
        docs := docs[i := updated];
    }

    /**
     * `updateOne({ payment_id: pid }, { $set }, { upsert: true })`; `insert` is the
     * document the upsert creates when nothing matches. Returns
     * `upsertedCount` and `modifiedCount`.
     */
    method UpsertOneByPaymentId(pid: string, update: TicketRecord -> TicketRecord, insert: TicketRecord)
      returns (upserted: nat, modified: nat)
      modifies this
      ensures match ByPaymentId(old(docs), pid)
        case None => docs == old(docs) + [insert] && upserted == 1 && modified == 0
        case Some(i) =>
          && docs == old(docs)[i := update(old(docs)[i])]
          && upserted == 0
          && modified == if update(old(docs)[i]) == old(docs)[i] then 0 else 1
    {
      var found := ByPaymentId(docs, pid);
      match found
      case None =>
        docs := docs + [insert];
        upserted, modified := 1, 0;
      case Some(i) =>
        var updated := update(docs[i]);
        upserted := 0;
        modified := if updated == docs[i] then 0 else 1;
        docs := docs[i := updated];
    }

    /** `insertOne(doc)`. */
    method InsertOne(doc: TicketRecord)
      modifies this
      ensures docs == old(docs) + [doc]
    {
      docs := docs + [doc];
    }
  }

  /** The `qr_processed` tracking collection. */
  class TrackingCollection {
    var docs: seq<TrackingRecord>

    constructor (initial: seq<TrackingRecord>)
      ensures docs == initial
    {
      docs := initial;
    }

    /** `updateOne({ payment_id }, { $set: rec }, { upsert: true })`. */
    method UpsertByPaymentId(rec: TrackingRecord)
      modifies this
      ensures docs == UpsertTracking(old(docs), rec)
    {
      var found := TrackingByPaymentId(docs, rec.payment_id);
      match found
      case Some(i) =>
        docs := docs[i := rec];
      case None =>
        docs := docs + [rec];
    }
  }
}
