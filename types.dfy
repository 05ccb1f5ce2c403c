/**
 * The records the ticket system exchanges and stores (lib/types.ts), the JSON
 * values its routes receive in request bodies, and the shape of a route reply.
 * Timestamps (`Date`) are milliseconds since the epoch.
 */
module Types {
  import opened Wrappers

  /** A JSON value as `JSON.parse` yields it; an object maps each key to one value. */
  datatype Json =
    | JNull
    | JBool(b: bool)
    | JNumber(n: int)
    | JString(s: string)
    | JArray(items: seq<Json>)
    | JObject(fields: map<string, Json>)
  {
    /** JavaScript truthiness of the value. */
    predicate Truthy() {
      match this
      case JNull => false
      case JBool(b) => b
      case JNumber(n) => n != 0
      case JString(s) => s != ""
      case _ => true
    }
  }

  /**
   * The guard `!x || typeof x !== 'string'` the routes put on a body field,
   * negated: the field is present and is a non-empty string.
   */
  predicate IsNonEmptyString(field: Option<Json>) {
    field.Some? && field.value.JString? && field.value.Truthy()
  }

  /** `v || d` on a string. */
  function Or(v: string, d: string): (r: string)
    ensures |v| > 0 ==> r == v
    ensures |v| == 0 ==> r == d
  {
    if |v| == 0 then d else v
  }

  /** `v || d` on an optional string field: an absent or empty field gives `d`. */
  function OptionOr(v: Option<string>, d: string): (r: string)
    ensures v.Some? && |v.value| > 0 ==> r == v.value
    ensures v.None? || |v.value| == 0 ==> r == d
  {
    if v.Some? then Or(v.value, d) else d
  }

  /** The claim carried, encrypted, inside a QR code. */
  datatype TicketPayload = TicketPayload(ticket_id: string, email: string, ts: string)

  /**
   * A document of the `tickets` collection. The fields after `scanned_by` are
   * not declared in lib/types.ts but are written by the raw-data import.
   * `price` keeps the amount as text (see README, "Left out").
   */
  datatype TicketRecord = TicketRecord(
    payment_id: string,
    ticket_id: string,
    email: string,
    name: string,
    phone: Option<string>,
    event_name: Option<string>,
    event_date: Option<string>,
    ticket_type: Option<string>,
    price: Option<string>,
    used: bool,
    created_at: nat,
    used_at: Option<nat>,
    scanned_by: Option<string>,
    payment_status: Option<string>,
    currency: Option<string>)

  datatype VerifyStatus = Valid | Used | Invalid | Error

  datatype VerifyResponse = VerifyResponse(
    success: bool,
    status: VerifyStatus,
    message: string,
    ticket: Option<TicketRecord>)

  datatype MarkUsedResponse = MarkUsedResponse(
    success: bool,
    message: string,
    ticket: Option<TicketRecord>)

  /** An HTTP reply: the status code and the JSON body. */
  datatype Reply<+T> = Reply(code: int, body: T)
}
