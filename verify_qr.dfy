/**
 * POST /api/verify-qr (pages/api/verify-qr.ts): the chain of early returns
 * that sorts a scanned code into error, invalid, used or valid. It only
 * reads the ticket store, so it is a function of the stored documents.
 */
module VerifyQr {
  import opened Wrappers
  import opened Types
  import opened Store
  import opened Encryption

  /**
   * `findOne({ ticket_id: payload.ticket_id })` for a decrypted ticket_id
   * that is a string. The decrypted value is not type-checked, and MongoDB
   * would read an object such as `{"$ne": ""}` as a query operator; the
   * model has no query operators, so any value that is not a string finds
   * nothing here.
   */
  function FindTicket(tickets: seq<TicketRecord>, id: Json): (r: Option<nat>)
    ensures r.Some? ==> r.value < |tickets| && id == JString(tickets[r.value].ticket_id)
    ensures r.None? ==> forall j :: 0 <= j < |tickets| ==> id != JString(tickets[j].ticket_id)
  {
    if id.JString? then ByTicketId(tickets, id.s) else None
  }

  /** The route handler. */
  function Handler(httpMethod: string, encryptedData: Option<Json>, env: Env, c: Cipher, tickets: seq<TicketRecord>)
    : (r: Reply<VerifyResponse>)
    ensures r.body.success <==> r.body.status == Valid || r.body.status == Used
    ensures r.body.ticket.Some? <==> r.body.success
    ensures r.body.success <==> r.code == 200
    ensures r.body.status == Used ==> r.body.ticket.value.used
    ensures r.body.status == Valid ==> !r.body.ticket.value.used
    ensures r.body.success ==> r.body.ticket.value in tickets
  {
    if httpMethod != "POST" then
      Reply(405, VerifyResponse(false, Error, "Method not allowed", None))
    else if !IsNonEmptyString(encryptedData) then
      Reply(400, VerifyResponse(false, Error, "Missing or invalid encrypted data", None))
    else
      match Decrypt(env, c, encryptedData.value.s)
      case Err(_) =>
        Reply(400, VerifyResponse(false, Invalid, "Invalid QR code - decryption failed", None))
      case Ok(payload) =>
        if !IsValidPayload(payload) then
          Reply(400, VerifyResponse(false, Invalid, "Invalid QR code format", None))
        else
          IsValidPayloadIff(payload);
          match FindTicket(tickets, payload.fields["ticket_id"])
          case None =>
            Reply(404, VerifyResponse(false, Invalid, "Ticket not found in database - Invalid ticket", None))
          case Some(i) =>
            var ticket := tickets[i];
            if JString(ticket.email) != payload.fields["email"] then
              Reply(400, VerifyResponse(false, Invalid, "Ticket data mismatch - Invalid ticket", None))
            else if ticket.used then
              Reply(200, VerifyResponse(true, Used, "This ticket has already been used", Some(ticket)))
            else
              Reply(200, VerifyResponse(true, Valid, "Valid ticket - Entry allowed", Some(ticket)))
  }

  /**
   * A missing, empty or non-string `encryptedData` is an error raised before
   * anything is decrypted or looked up: the reply does not depend on the
   * cipher, the configuration or the store.
   */
  lemma MissingDataIsError(d: Option<Json>, env1: Env, c1: Cipher, t1: seq<TicketRecord>, env2: Env, c2: Cipher, t2: seq<TicketRecord>)
    requires !IsNonEmptyString(d)
    ensures Handler("POST", d, env1, c1, t1) == Reply(400, VerifyResponse(false, Error, "Missing or invalid encrypted data", None))
    ensures Handler("POST", d, env1, c1, t1) == Handler("POST", d, env2, c2, t2)
  {
  }

  /** How a POST with a non-empty string is classified, case by case and in both directions. */
  lemma Classification(data: string, env: Env, c: Cipher, tickets: seq<TicketRecord>)
    requires data != ""
    ensures var r := Handler("POST", Some(JString(data)), env, c, tickets);
      var dec := Decrypt(env, c, data);
      && r.body.status != Error
      && (dec.Err? ==> r.body.status == Invalid && r.body.message == "Invalid QR code - decryption failed")
      && (dec.Ok? && !IsValidPayload(dec.value) ==> r.body.status == Invalid && r.body.message == "Invalid QR code format")
      && (dec.Ok? && IsValidPayload(dec.value) ==>
            var p := dec.value.fields;
            match FindTicket(tickets, p["ticket_id"])
            case None => r == Reply(404, VerifyResponse(false, Invalid, "Ticket not found in database - Invalid ticket", None))
            case Some(i) =>
              if JString(tickets[i].email) != p["email"] then
                r.body.status == Invalid && r.body.ticket == None
              else
                r.body.ticket == Some(tickets[i]) && (r.body.status == Used <==> tickets[i].used))
  {
    var dec := Decrypt(env, c, data);
    if dec.Ok? {
      IsValidPayloadIff(dec.value);
    }
  }

  /**
   * The email is compared before the used flag: a payload with a foreign
   * email is invalid even when the ticket it names is already used.
   */
  lemma MismatchBeforeUsed(data: string, env: Env, c: Cipher, tickets: seq<TicketRecord>, i: nat)
    requires data != "" && Decrypt(env, c, data).Ok?
    requires IsValidPayload(Decrypt(env, c, data).value)
    requires FindTicket(tickets, Decrypt(env, c, data).value.fields["ticket_id"]) == Some(i)
    requires tickets[i].used
    requires Decrypt(env, c, data).value.fields["email"] != JString(tickets[i].email)
    ensures Handler("POST", Some(JString(data)), env, c, tickets).body.status == Invalid
  {
  }

  /**
   * A code issued for ticket `t` (its ticket_id, its email, any ts) is
   * classified by `t`'s used flag when `t` is the first document with its
   * ticket_id, and the reply carries `t`.
   */
  lemma VerifyIssuedCode(env: Env, c: Cipher, tickets: seq<TicketRecord>, k: nat, ts: string)
    requires Lawful(c) && ValidKeyMaterial(GetEncryptionConfig(env))
    requires k < |tickets| && ByTicketId(tickets, tickets[k].ticket_id) == Some(k)
    ensures var t := tickets[k];
      var code := Encrypt(env, c, PayloadJson(TicketPayload(t.ticket_id, t.email, ts)));
      && code.Ok?
      && var r := Handler("POST", Some(JString(code.value)), env, c, tickets);
         && r.code == 200
         && r.body.ticket == Some(t)
         && r.body.status == (if t.used then Used else Valid)
  {
    var t := tickets[k];
    var p := TicketPayload(t.ticket_id, t.email, ts);
    DecryptEncrypt(env, c, PayloadJson(p));
    PayloadJsonRoundTrip(p);
  }
}
