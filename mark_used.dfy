/**
 * POST /api/mark-used (pages/api/mark-used.ts): the guarded redemption of
 * the ticket whose payment_id the operator confirms. The route reads the
 * document, checks it, then `$set`s `used` and `used_at` in place.
 */
module MarkUsed {
  import opened Wrappers
  import opened Types
  import opened Store
  import Encryption
  import VerifyQr

  const NotFound: string := "Ticket not found"
  const AlreadyUsed: string := "Ticket already marked as used"

  /** The `$set: { used: true, used_at: new Date() }` of the update. */
  function Redeem(now: nat): TicketRecord -> TicketRecord {
    (t: TicketRecord) => t.(used := true, used_at := Some(now))
  }

  /**
   * What a call does to the store: the reply and the documents afterwards.
   * A failure of any guard writes nothing.
   */
  function Outcome(docs: seq<TicketRecord>, httpMethod: string, paymentId: Option<Json>, now: nat)
    : (out: (Reply<MarkUsedResponse>, seq<TicketRecord>))
    ensures |out.1| == |docs|
    ensures !out.0.body.success ==> out.1 == docs && out.0.body.ticket == None
    ensures out.0.body.success ==> out.0.body.ticket.Some? && out.0.body.ticket.value.used && out.0.body.ticket.value in out.1
    ensures out.0.body.success <==> out.0.code == 200
  {
    if httpMethod != "POST" then
      (Reply(405, MarkUsedResponse(false, "Method not allowed", None)), docs)
    else if !IsNonEmptyString(paymentId) then
      (Reply(400, MarkUsedResponse(false, "Missing or invalid payment_id", None)), docs)
    else
      match ByPaymentId(docs, paymentId.value.s)
      case None =>
        (Reply(404, MarkUsedResponse(false, NotFound, None)), docs)
      case Some(i) =>
        if docs[i].used then
          (Reply(400, MarkUsedResponse(false, AlreadyUsed, None)), docs)
        else
          var after := docs[i := docs[i].(used := true, used_at := Some(now))];
          (Reply(200, MarkUsedResponse(true, "Entry marked successfully", Some(after[i]))), after)
  }

  /** The route handler over the `tickets` collection. */
  method Handler(tickets: TicketCollection, httpMethod: string, paymentId: Option<Json>, now: nat)
    returns (r: Reply<MarkUsedResponse>)
    modifies tickets
    ensures (r, tickets.docs) == Outcome(old(tickets.docs), httpMethod, paymentId, now)
  {
    if httpMethod != "POST" {
      return Reply(405, MarkUsedResponse(false, "Method not allowed", None));
    }
    if !IsNonEmptyString(paymentId) {
      return Reply(400, MarkUsedResponse(false, "Missing or invalid payment_id", None));
    }
    var pid := paymentId.value.s;
    var found := ByPaymentId(tickets.docs, pid);
    if found.None? {
      return Reply(404, MarkUsedResponse(false, NotFound, None));
    }
    if tickets.docs[found.value].used {
      return Reply(400, MarkUsedResponse(false, AlreadyUsed, None));
    }
    var modified := tickets.UpdateOneByPaymentId(pid, Redeem(now));
    if modified == 0 {
      return Reply(500, MarkUsedResponse(false, "Failed to update ticket", None));
    }
    var updated := ByPaymentId(tickets.docs, pid);
    var ticket := if updated.Some? then Some(tickets.docs[updated.value]) else None;
    r := Reply(200, MarkUsedResponse(true, "Entry marked successfully", ticket));
  }

  /**
   * A successful call redeems exactly the first unused document with the
   * payment_id: `used` becomes true and `used_at` the time of the call, and
   * no other field or document changes.
   */
  lemma SuccessRedeemsFirstMatch(docs: seq<TicketRecord>, pid: string, now: nat)
    requires Outcome(docs, "POST", Some(JString(pid)), now).0.body.success
    ensures ByPaymentId(docs, pid).Some?
    ensures var i := ByPaymentId(docs, pid).value;
      var after := Outcome(docs, "POST", Some(JString(pid)), now).1;
      && !docs[i].used
      && after == docs[i := docs[i].(used := true, used_at := Some(now))]
      && Outcome(docs, "POST", Some(JString(pid)), now).0.body.ticket == Some(after[i])
  {
  }

  /** On this path `used` is never cleared, in any document. */
  lemma UsedNeverCleared(docs: seq<TicketRecord>, httpMethod: string, paymentId: Option<Json>, now: nat)
    ensures var after := Outcome(docs, httpMethod, paymentId, now).1;
      forall j :: 0 <= j < |docs| ==> docs[j].used ==> after[j].used
  {
  }

  /**
   * Two successive calls with the same payment_id succeed at most once; when
   * the first succeeds, the second fails as already used and writes nothing.
   */
  lemma AtMostOnce(docs: seq<TicketRecord>, paymentId: Option<Json>, now1: nat, now2: nat)
    ensures var (r1, d1) := Outcome(docs, "POST", paymentId, now1);
      var (r2, d2) := Outcome(d1, "POST", paymentId, now2);
      && !(r1.body.success && r2.body.success)
      && (r1.body.success ==> r2 == Reply(400, MarkUsedResponse(false, AlreadyUsed, None)) && d2 == d1)
  {
    var (r1, d1) := Outcome(docs, "POST", paymentId, now1);
    if r1.body.success {
      var pid := paymentId.value.s;
      var i := ByPaymentId(docs, pid).value;
      assert forall j :: 0 <= j < i ==> d1[j] == docs[j];
      assert ByPaymentId(d1, pid) == Some(i);
    }
  }

  /**
   * The door scenario: a code issued for an unused ticket verifies as
   * valid; redeeming the ticket by its payment_id succeeds; the same code
   * then verifies as used, and a second redemption fails as already used.
   */
  lemma VerifyRedeemVerify(env: Encryption.Env, c: Encryption.Cipher, docs: seq<TicketRecord>, k: nat, ts: string, now1: nat, now2: nat)
    requires Encryption.Lawful(c) && Encryption.ValidKeyMaterial(Encryption.GetEncryptionConfig(env))
    requires k < |docs| && !docs[k].used && docs[k].payment_id != ""
    requires ByTicketId(docs, docs[k].ticket_id) == Some(k)
    requires ByPaymentId(docs, docs[k].payment_id) == Some(k)
    ensures var t := docs[k];
      var code := Encryption.Encrypt(env, c, Encryption.PayloadJson(TicketPayload(t.ticket_id, t.email, ts))).value;
      var pid := Some(JString(t.payment_id));
      var (r1, d1) := Outcome(docs, "POST", pid, now1);
      && VerifyQr.Handler("POST", Some(JString(code)), env, c, docs).body.status == Valid
      && r1.body.success
      && VerifyQr.Handler("POST", Some(JString(code)), env, c, d1).body.status == Used
      && Outcome(d1, "POST", pid, now2).0.body.message == AlreadyUsed
  {
    var t := docs[k];
    var d1 := docs[k := t.(used := true, used_at := Some(now1))];
    RedeemUnused(docs, k, now1);
    VerifyQr.VerifyIssuedCode(env, c, docs, k, ts);
    assert d1[k].ticket_id == t.ticket_id && d1[k].email == t.email && d1[k].used;
    VerifyQr.VerifyIssuedCode(env, c, d1, k, ts);
    AtMostOnce(docs, Some(JString(t.payment_id)), now1, now2);
  }

  /**
   * Redeeming an unused document that is the first with its payment_id
   * succeeds, changes that document only, and leaves it the first with its
   * ticket_id when it was before.
   */
  lemma RedeemUnused(docs: seq<TicketRecord>, k: nat, now: nat)
    requires k < |docs| && !docs[k].used && docs[k].payment_id != ""
    requires ByPaymentId(docs, docs[k].payment_id) == Some(k)
    ensures var out := Outcome(docs, "POST", Some(JString(docs[k].payment_id)), now);
      && out.0.body.success
      && out.1 == docs[k := docs[k].(used := true, used_at := Some(now))]
      && (ByTicketId(docs, docs[k].ticket_id) == Some(k) ==> ByTicketId(out.1, docs[k].ticket_id) == Some(k))
  {
    RedeemKeepsTicketLookup(docs, k, now);
  }

  /** Redeeming document `k` keeps it the first with its ticket_id when it was before. */
  lemma RedeemKeepsTicketLookup(docs: seq<TicketRecord>, k: nat, now: nat)
    requires k < |docs|
    ensures var d1 := docs[k := docs[k].(used := true, used_at := Some(now))];
      ByTicketId(docs, docs[k].ticket_id) == Some(k) ==> ByTicketId(d1, docs[k].ticket_id) == Some(k)
  {
    var d1 := docs[k := docs[k].(used := true, used_at := Some(now))];
    assert forall j :: 0 <= j < k ==> d1[j] == docs[j];
    assert d1[k].ticket_id == docs[k].ticket_id;
  }
}
