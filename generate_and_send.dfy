/**
 * POST /api/generate-and-send (pages/api/generate-and-send.ts): picks the
 * tickets whose payment_id has no complete tracking record, and for each one
 * encrypts a fresh payload, mails the code and records the delivery in the
 * `qr_processed` collection. A ticket whose encryption or mailing fails is
 * skipped and the loop goes on.
 *
 * The mail transport is the oracle `send`, which says whether the mail
 * (with its QR attachment) went out; `clock(i)` is the time at which the
 * `i`-th pending ticket is handled.
 */
module GenerateAndSend {
  import opened Wrappers
  import opened Types
  import opened Store
  import opened Text
  import opened Encryption
  import VerifyQr

  const NoPending: string := "No pending entries to process"
  const DefaultSubjectType: string := "Event"

  datatype GenerateResponse = GenerateResponse(success: bool, processed: Option<nat>, message: string)

  /** A mail handed to the transport: recipient, subject, attachment file name and the encrypted code. */
  datatype Mail = Mail(to: string, subject: string, attachment: string, code: string)

  /** The `processedIds` set: payment_ids of tracking records with both flags set. */
  function ProcessedIds(records: seq<TrackingRecord>): (ids: set<string>)
    ensures forall k :: 0 <= k < |records| && records[k].qr_generated && records[k].email_sent ==> records[k].payment_id in ids
    ensures ids <= set r | r in records :: r.payment_id
  {
    set r | r in records && r.qr_generated && r.email_sent :: r.payment_id
  }

  /** `tickets.filter(ticket => !done.has(ticket.payment_id))`, in store order. */
  function Pending(tickets: seq<TicketRecord>, done: set<string>): (r: seq<TicketRecord>)
    ensures |r| <= |tickets|
    ensures forall t :: t in r <==> t in tickets && t.payment_id !in done
  {
    if |tickets| == 0 then []
    else (if tickets[0].payment_id in done then [] else [tickets[0]]) + Pending(tickets[1..], done)
  }

  /** The payload encrypted into a ticket's code: its ticket_id, its email and the time as decimal text. */
  function IssuedPayload(t: TicketRecord, time: nat): (p: TicketPayload)
    ensures p.ticket_id == t.ticket_id && p.email == t.email
    ensures ParseInt(p.ts) == Some(time)
  {
    ParseIntNatToString(time);
    TicketPayload(t.ticket_id, t.email, NatToString(time))
  }

  /** The mail for a ticket: to its email, the subject naming its type (or "Event"), the code attached. */
  function MailFor(t: TicketRecord, code: string): (m: Mail)
    ensures m.to == t.email && m.code == code
    ensures m.attachment == "ticket-" + t.payment_id + ".png"
  {
    Mail(t.email, "Your " + OptionOr(t.ticket_type, DefaultSubjectType) + " Ticket QR Code",
      "ticket-" + t.payment_id + ".png", code)
  }

  /** The `$set` of the tracking upsert after a delivery. */
  function TrackFor(t: TicketRecord, time: nat): TrackingRecord {
    TrackingRecord(t.payment_id, t.ticket_id, t.email, true, true, time)
  }

  /** The code mailed for a ticket, or `None` when encryption or the mail failed. */
  function Attempt(env: Env, c: Cipher, send: Mail -> bool, t: TicketRecord, time: nat): (r: Option<string>)
    ensures r.Some? ==> Encrypt(env, c, PayloadJson(IssuedPayload(t, time))) == Ok(r.value) && send(MailFor(t, r.value))
    ensures r.None? ==>
      (Encrypt(env, c, PayloadJson(IssuedPayload(t, time))).Err?
       || !send(MailFor(t, Encrypt(env, c, PayloadJson(IssuedPayload(t, time))).value)))
  {
    match Encrypt(env, c, PayloadJson(IssuedPayload(t, time)))
    case Err(_) => None
    case Ok(code) => if send(MailFor(t, code)) then Some(code) else None
  }

  /**
   * The attempt for each pending ticket, the `i`-th one made at `clock(i)`.
   * An attempt depends on its ticket and its time only, not on what the
   * loop did before it.
   */
  function Attempts(env: Env, c: Cipher, send: Mail -> bool, pending: seq<TicketRecord>, clock: nat -> nat)
    : (results: seq<Option<string>>)
    ensures |results| == |pending|
  {
    AttemptsUpTo(env, c, send, pending, clock, |pending|)
  }

  /** The attempts for the first `n` pending tickets. */
  function AttemptsUpTo(env: Env, c: Cipher, send: Mail -> bool, pending: seq<TicketRecord>, clock: nat -> nat, n: nat)
    : (results: seq<Option<string>>)
    requires n <= |pending|
    ensures |results| == n
  {
    if n == 0 then []
    else AttemptsUpTo(env, c, send, pending, clock, n - 1) + [Attempt(env, c, send, pending[n - 1], clock(n - 1))]
  }

  /** Entry `i` of the attempts is the attempt for pending ticket `i` at time `clock(i)`. */
  lemma AttemptAt(env: Env, c: Cipher, send: Mail -> bool, pending: seq<TicketRecord>, clock: nat -> nat, i: nat)
    requires i < |pending|
    ensures Attempts(env, c, send, pending, clock)[i] == Attempt(env, c, send, pending[i], clock(i))
  {
    AttemptUpToAt(env, c, send, pending, clock, |pending|, i);
  }

  lemma {:induction false} AttemptUpToAt(env: Env, c: Cipher, send: Mail -> bool, pending: seq<TicketRecord>, clock: nat -> nat,
                                         n: nat, i: nat)
    requires i < n <= |pending|
    ensures AttemptsUpTo(env, c, send, pending, clock, n)[i] == Attempt(env, c, send, pending[i], clock(i))
  {
    if i < n - 1 {
      AttemptUpToAt(env, c, send, pending, clock, n - 1, i);
    }
  }

  /** The loop state: the tracking collection, the processed counter and the mails sent. */
  datatype SendState = SendState(tracking: seq<TrackingRecord>, processed: nat, outbox: seq<Mail>)

  /**
   * The state after the first `n` pending tickets, where `results[i]` is the
   * code mailed for pending ticket `i` or `None` when its attempt failed.
   */
  function Send(tracking: seq<TrackingRecord>, pending: seq<TicketRecord>, results: seq<Option<string>>, n: nat,
                clock: nat -> nat): (st: SendState)
    requires n <= |pending| == |results|
    ensures st.processed == |st.outbox| <= n
  {
    if n == 0 then SendState(tracking, 0, [])
    else
      var st := Send(tracking, pending, results, n - 1, clock);
      var t := pending[n - 1];
      match results[n - 1]
      case None => st
      case Some(code) =>
        SendState(UpsertTracking(st.tracking, TrackFor(t, clock(n - 1))), st.processed + 1, st.outbox + [MailFor(t, code)])
  }

  /** One more ticket: a failed attempt leaves the state as it was, a delivery upserts, counts and mails. */
  lemma SendStep(tracking: seq<TrackingRecord>, pending: seq<TicketRecord>, results: seq<Option<string>>, n: nat,
                 clock: nat -> nat)
    requires n < |pending| == |results|
    ensures var st := Send(tracking, pending, results, n, clock);
      Send(tracking, pending, results, n + 1, clock) ==
        if results[n].None? then st
        else SendState(UpsertTracking(st.tracking, TrackFor(pending[n], clock(n))), st.processed + 1,
                       st.outbox + [MailFor(pending[n], results[n].value)])
  {
  }

  /** `Successfully processed P out of N entries`. */
  function Summary(processed: nat, pending: nat): string {
    "Successfully processed " + NatToString(processed) + " out of " + NatToString(pending) + " entries"
  }

  /** The reply, the tracking collection afterwards and the mails sent. */
  function Outcome(tickets: seq<TicketRecord>, tracking: seq<TrackingRecord>, httpMethod: string,
                   env: Env, c: Cipher, send: Mail -> bool, clock: nat -> nat)
    : (out: (Reply<GenerateResponse>, seq<TrackingRecord>, seq<Mail>))
    ensures out.0.body.success <==> out.0.code == 200
    ensures !out.0.body.success ==> out.1 == tracking && out.2 == []
  {
    if httpMethod != "POST" then
      (Reply(405, GenerateResponse(false, None, "Method not allowed")), tracking, [])
    else
      var pending := Pending(tickets, ProcessedIds(tracking));
      if |pending| == 0 then
        (Reply(200, GenerateResponse(true, Some(0), NoPending)), tracking, [])
      else
        var st := Send(tracking, pending, Attempts(env, c, send, pending, clock), |pending|, clock);
        (Reply(200, GenerateResponse(true, Some(st.processed), Summary(st.processed, |pending|))), st.tracking, st.outbox)
  }

  /**
   * The route handler. It reads the ticket store and writes only the
   * tracking collection; `outbox` lists the mails the transport accepted.
   */
  method Handler(store: TicketCollection, tracking: TrackingCollection, httpMethod: string,
                 env: Env, c: Cipher, send: Mail -> bool, clock: nat -> nat)
    returns (r: Reply<GenerateResponse>, outbox: seq<Mail>)
    modifies tracking
    ensures store.docs == old(store.docs)
    ensures (r, tracking.docs, outbox) == Outcome(store.docs, old(tracking.docs), httpMethod, env, c, send, clock)
  {
    if httpMethod != "POST" {
      return Reply(405, GenerateResponse(false, None, "Method not allowed")), [];
    }
    var tickets := store.docs;
    var pending := Pending(tickets, ProcessedIds(tracking.docs));
    if |pending| == 0 {
      return Reply(200, GenerateResponse(true, Some(0), NoPending)), [];
    }
    var processedCount;
    processedCount, outbox := SendPending(tracking, pending, env, c, send, clock);
    r := Reply(200, GenerateResponse(true, Some(processedCount), Summary(processedCount, |pending|)));
  }

  /** The loop over the pending tickets, in order: the processed counter and the mails sent. */
  method SendPending(tracking: TrackingCollection, pending: seq<TicketRecord>,
                     env: Env, c: Cipher, send: Mail -> bool, clock: nat -> nat)
    returns (processedCount: nat, outbox: seq<Mail>)
    modifies tracking
    ensures SendState(tracking.docs, processedCount, outbox) ==
      Send(old(tracking.docs), pending, Attempts(env, c, send, pending, clock), |pending|, clock)
  {
    ghost var tracking0 := tracking.docs;
    ghost var results := Attempts(env, c, send, pending, clock);
    processedCount := 0;
    outbox := [];
    for i := 0 to |pending|
      invariant SendState(tracking.docs, processedCount, outbox) == Send(tracking0, pending, results, i, clock)
    {
      var mail := ProcessTicket(tracking, pending[i], clock(i), env, c, send);
      AttemptAt(env, c, send, pending, clock, i);
      SendStep(tracking0, pending, results, i, clock);
      if mail.Some? {
        processedCount := processedCount + 1;
        outbox := outbox + [mail.value];
      }
    }
  }

  /**
   * The `try` block of the loop for one pending ticket: encrypt its payload,
   * mail the code, then upsert its tracking record. Any failure abandons the
   * block before the upsert, so nothing is written and no mail is returned.
   */
  method ProcessTicket(tracking: TrackingCollection, t: TicketRecord, now: nat, env: Env, c: Cipher, send: Mail -> bool)
    returns (mail: Option<Mail>)
    modifies tracking
    ensures Attempt(env, c, send, t, now).None? ==> mail == None && tracking.docs == old(tracking.docs)
    ensures Attempt(env, c, send, t, now).Some? ==>
      && mail == Some(MailFor(t, Attempt(env, c, send, t, now).value))
      && tracking.docs == UpsertTracking(old(tracking.docs), TrackFor(t, now))
  {
    var encrypted := Encrypt(env, c, PayloadJson(IssuedPayload(t, now)));
    if encrypted.Err? {
      return None;
    }
    var m := MailFor(t, encrypted.value);
    if !send(m) {
      return None;
    }
    tracking.UpsertByPaymentId(TrackFor(t, now));
    return Some(m);
  }

  /**
   * A ticket is pending exactly when it is stored and no tracking record
   * with its payment_id has both qr_generated and email_sent set.
   */
  lemma PendingIff(tickets: seq<TicketRecord>, tracking: seq<TrackingRecord>, t: TicketRecord)
    ensures t in Pending(tickets, ProcessedIds(tracking)) <==>
      t in tickets && !(exists r :: r in tracking && r.payment_id == t.payment_id && r.qr_generated && r.email_sent)
  {
    if t in tickets && t.payment_id in ProcessedIds(tracking) {
      var r :| r in tracking && r.qr_generated && r.email_sent && r.payment_id == t.payment_id;
    }
  }

  /** With nothing pending the call succeeds with processed 0, mails nothing and writes nothing. */
  lemma NothingPendingIdle(tickets: seq<TicketRecord>, tracking: seq<TrackingRecord>,
                           env: Env, c: Cipher, send: Mail -> bool, clock: nat -> nat)
    requires forall t :: t in tickets ==> t.payment_id in ProcessedIds(tracking)
    ensures Outcome(tickets, tracking, "POST", env, c, send, clock) ==
      (Reply(200, GenerateResponse(true, Some(0), NoPending)), tracking, [])
  {
  }

  /** A complete tracking upsert adds its payment_id to the processed set and removes none. */
  lemma UpsertProcessed(docs: seq<TrackingRecord>, rec: TrackingRecord)
    requires rec.qr_generated && rec.email_sent
    ensures ProcessedIds(UpsertTracking(docs, rec)) == ProcessedIds(docs) + {rec.payment_id}
  {
    var after := UpsertTracking(docs, rec);
    match TrackingByPaymentId(docs, rec.payment_id)
    case None =>
      assert after == docs + [rec];
      assert rec in after;
      forall p | p in ProcessedIds(after) ensures p in ProcessedIds(docs) + {rec.payment_id} {
        var r :| r in after && r.qr_generated && r.email_sent && r.payment_id == p;
        if r != rec {
          assert r in docs;
        }
      }
      forall p | p in ProcessedIds(docs) ensures p in ProcessedIds(after) {
        var r :| r in docs && r.qr_generated && r.email_sent && r.payment_id == p;
        assert r in after;
      }
    case Some(i) =>
      assert after == docs[i := rec];
      assert after[i] == rec;
      forall p | p in ProcessedIds(after) ensures p in ProcessedIds(docs) + {rec.payment_id} {
        var r :| r in after && r.qr_generated && r.email_sent && r.payment_id == p;
        var k :| 0 <= k < |after| && after[k] == r;
        if k != i {
          assert docs[k] == r;
        }
      }
      forall p | p in ProcessedIds(docs) ensures p in ProcessedIds(after) {
        var r :| r in docs && r.qr_generated && r.email_sent && r.payment_id == p;
        var k :| 0 <= k < |docs| && docs[k] == r;
        if k != i {
          assert after[k] == r;
        } else {
          assert p == rec.payment_id;
        }
      }
  }

  /** The payment_ids of the first `n` pending tickets whose code was mailed. */
  function Delivered(pending: seq<TicketRecord>, results: seq<Option<string>>, n: nat): set<string>
    requires n <= |pending| == |results|
  {
    if n == 0 then {}
    else
      var last := if results[n - 1].Some? then {pending[n - 1].payment_id} else {};
      Delivered(pending, results, n - 1) + last
  }

  /** The number of the first `n` pending tickets whose code was mailed. */
  function Successes(results: seq<Option<string>>, n: nat): nat
    requires n <= |results|
  {
    if n == 0 then 0
    else
      var last := if results[n - 1].Some? then 1 else 0;
      Successes(results, n - 1) + last
  }

  /**
   * After the first `n` pending tickets: processed counts exactly the
   * delivered ones, one mail each; the processed set grew by exactly the
   * delivered payment_ids; the tracking collection grew by at most one
   * record per delivery; earlier mails stay in the outbox.
   */
  lemma {:induction false} SendFacts(tracking: seq<TrackingRecord>, pending: seq<TicketRecord>, results: seq<Option<string>>,
                                     n: nat, clock: nat -> nat)
    requires n <= |pending| == |results|
    ensures var st := Send(tracking, pending, results, n, clock);
      && st.processed == Successes(results, n) == |st.outbox|
      && st.processed <= n
      && ProcessedIds(st.tracking) == ProcessedIds(tracking) + Delivered(pending, results, n)
      && |st.tracking| <= |tracking| + st.processed
  {
    if n > 0 {
      SendFacts(tracking, pending, results, n - 1, clock);
      var st := Send(tracking, pending, results, n - 1, clock);
      var t := pending[n - 1];
      if results[n - 1].Some? {
        UpsertProcessed(st.tracking, TrackFor(t, clock(n - 1)));
      }
    }
  }

  /**
   * A ticket whose attempt failed leaves the tracking collection's answer
   * for its payment_id as it was, unless a later ticket with the same
   * payment_id was delivered.
   */
  lemma {:induction false} FailedUntracked(tracking: seq<TrackingRecord>, pending: seq<TicketRecord>, results: seq<Option<string>>,
                                           n: nat, clock: nat -> nat, p: string)
    requires n <= |pending| == |results| && p !in Delivered(pending, results, n)
    ensures var after := Send(tracking, pending, results, n, clock).tracking;
      && TrackingByPaymentId(after, p) == TrackingByPaymentId(tracking, p)
      && (TrackingByPaymentId(tracking, p).Some? ==>
            after[TrackingByPaymentId(tracking, p).value] == tracking[TrackingByPaymentId(tracking, p).value])
  {
    if n > 0 {
      FailedUntracked(tracking, pending, results, n - 1, clock, p);
      var st := Send(tracking, pending, results, n - 1, clock);
      var t := pending[n - 1];
      if results[n - 1].Some? {
        UpsertOtherId(st.tracking, TrackFor(t, clock(n - 1)), p);
      }
    }
  }

  /** An upsert for another payment_id leaves the lookup of `p` and the record it finds as they were. */
  lemma UpsertOtherId(docs: seq<TrackingRecord>, rec: TrackingRecord, p: string)
    requires rec.payment_id != p
    ensures var after := UpsertTracking(docs, rec);
      && TrackingByPaymentId(after, p) == TrackingByPaymentId(docs, p)
      && (TrackingByPaymentId(docs, p).Some? ==>
            after[TrackingByPaymentId(docs, p).value] == docs[TrackingByPaymentId(docs, p).value])
  {
    var after := UpsertTracking(docs, rec);
    assert |after| >= |docs|;
    assert forall k :: 0 <= k < |docs| ==> after[k].payment_id == docs[k].payment_id;
    assert forall k :: |docs| <= k < |after| ==> after[k] == rec;
    match TrackingByPaymentId(docs, p)
    case Some(i) =>
      assert after[i] == docs[i];
    case None =>
  }

  /**
   * Idempotence: when every pending ticket is delivered, an immediate second
   * call finds nothing pending, mails nothing and writes nothing.
   */
  lemma SecondRunIdle(tickets: seq<TicketRecord>, tracking: seq<TrackingRecord>,
                      env: Env, c: Cipher, send: Mail -> bool, clock: nat -> nat, clock2: nat -> nat)
    requires var pending := Pending(tickets, ProcessedIds(tracking));
      forall i :: 0 <= i < |pending| ==> Attempt(env, c, send, pending[i], clock(i)).Some?
    ensures var after := Outcome(tickets, tracking, "POST", env, c, send, clock).1;
      Outcome(tickets, after, "POST", env, c, send, clock2) == (Reply(200, GenerateResponse(true, Some(0), NoPending)), after, [])
  {
    var pending := Pending(tickets, ProcessedIds(tracking));
    var results := Attempts(env, c, send, pending, clock);
    forall i | 0 <= i < |pending| ensures results[i].Some? {
      AttemptAt(env, c, send, pending, clock, i);
    }
    var after := Outcome(tickets, tracking, "POST", env, c, send, clock).1;
    SendFacts(tracking, pending, results, |pending|, clock);
    AllDelivered(pending, results, |pending|);
    forall t | t in tickets ensures t.payment_id in ProcessedIds(after) {
      if t.payment_id !in ProcessedIds(tracking) {
        assert t in pending;
      }
    }
    NothingPendingIdle(tickets, after, env, c, send, clock2);
  }

  /** When every attempt among the first `n` succeeds, all their payment_ids are delivered. */
  lemma {:induction false} AllDelivered(pending: seq<TicketRecord>, results: seq<Option<string>>, n: nat)
    requires n <= |pending| == |results|
    requires forall i :: 0 <= i < n ==> results[i].Some?
    ensures forall t :: t in pending[..n] ==> t.payment_id in Delivered(pending, results, n)
  {
    if n > 0 {
      AllDelivered(pending, results, n - 1);
      assert pending[..n] == pending[..n - 1] + [pending[n - 1]];
    }
  }

  /**
   * With key material the cipher refuses, every attempt fails: processed is
   * 0 out of the pending count and nothing is mailed or tracked.
   */
  lemma RefusedKeyDeliversNothing(tickets: seq<TicketRecord>, tracking: seq<TrackingRecord>,
                                  env: Env, c: Cipher, send: Mail -> bool, clock: nat -> nat)
    requires Lawful(c) && !ValidKeyMaterial(GetEncryptionConfig(env))
    requires |Pending(tickets, ProcessedIds(tracking))| > 0
    ensures var pending := Pending(tickets, ProcessedIds(tracking));
      Outcome(tickets, tracking, "POST", env, c, send, clock) ==
        (Reply(200, GenerateResponse(true, Some(0), Summary(0, |pending|))), tracking, [])
  {
    var pending := Pending(tickets, ProcessedIds(tracking));
    var results := Attempts(env, c, send, pending, clock);
    forall i | 0 <= i < |pending| ensures results[i].None? {
      AttemptAt(env, c, send, pending, clock, i);
      RefusedKeyMaterial(env, c, PayloadJson(IssuedPayload(pending[i], clock(i))), "");
    }
    NoAttemptSucceeds(tracking, pending, results, |pending|, clock);
  }

  /** When every attempt among the first `n` fails, the loop changes nothing and mails nothing. */
  lemma {:induction false} NoAttemptSucceeds(tracking: seq<TrackingRecord>, pending: seq<TicketRecord>, results: seq<Option<string>>,
                                             n: nat, clock: nat -> nat)
    requires n <= |pending| == |results|
    requires forall i :: 0 <= i < n ==> results[i].None?
    ensures Send(tracking, pending, results, n, clock) == SendState(tracking, 0, [])
  {
    if n > 0 {
      NoAttemptSucceeds(tracking, pending, results, n - 1, clock);
    }
  }

  /** The outbox after more tickets extends the outbox after fewer. */
  lemma {:induction false} OutboxExtends(tracking: seq<TrackingRecord>, pending: seq<TicketRecord>, results: seq<Option<string>>,
                                         m: nat, n: nat, clock: nat -> nat)
    requires m <= n <= |pending| == |results|
    ensures Send(tracking, pending, results, m, clock).outbox <= Send(tracking, pending, results, n, clock).outbox
    decreases n
  {
    if m < n {
      OutboxExtends(tracking, pending, results, m, n - 1, clock);
    }
  }

  /**
   * A delivered code reaches its ticket's holder and opens at the door: the
   * mail for pending ticket `i` is in the final outbox, and when that ticket
   * is the first in the store with its ticket_id, verifying the code finds it
   * and classifies it by its used flag.
   */
  lemma DeliveredCodeVerifies(tickets: seq<TicketRecord>, tracking: seq<TrackingRecord>,
                              env: Env, c: Cipher, send: Mail -> bool, clock: nat -> nat, i: nat, k: nat)
    requires Lawful(c) && ValidKeyMaterial(GetEncryptionConfig(env))
    requires i < |Pending(tickets, ProcessedIds(tracking))|
    requires Attempt(env, c, send, Pending(tickets, ProcessedIds(tracking))[i], clock(i)).Some?
    requires k < |tickets| && tickets[k] == Pending(tickets, ProcessedIds(tracking))[i]
    requires ByTicketId(tickets, tickets[k].ticket_id) == Some(k)
    ensures var t := tickets[k];
      var code := Attempt(env, c, send, t, clock(i)).value;
      && MailFor(t, code) in Outcome(tickets, tracking, "POST", env, c, send, clock).2
      && MailFor(t, code).to == t.email
      && var r := VerifyQr.Handler("POST", Some(JString(code)), env, c, tickets);
         r.code == 200 && r.body.ticket == Some(t) && r.body.status == (if t.used then Used else Valid)
  {
    var pending := Pending(tickets, ProcessedIds(tracking));
    AttemptAt(env, c, send, pending, clock, i);
    MailedInOutbox(tracking, pending, Attempts(env, c, send, pending, clock), i, clock);
    VerifyQr.VerifyIssuedCode(env, c, tickets, k, NatToString(clock(i)));
  }

  /** The mail of a delivered pending ticket is in the final outbox. */
  lemma MailedInOutbox(tracking: seq<TrackingRecord>, pending: seq<TicketRecord>, results: seq<Option<string>>,
                       i: nat, clock: nat -> nat)
    requires i < |pending| == |results| && results[i].Some?
    ensures MailFor(pending[i], results[i].value) in Send(tracking, pending, results, |pending|, clock).outbox
  {
    var mail := MailFor(pending[i], results[i].value);
    var before := Send(tracking, pending, results, i, clock).outbox;
    assert Send(tracking, pending, results, i + 1, clock).outbox == before + [mail];
    OutboxExtends(tracking, pending, results, i + 1, |pending|, clock);
    var final := Send(tracking, pending, results, |pending|, clock).outbox;
    assert final[|before|] == mail;
  }
}
