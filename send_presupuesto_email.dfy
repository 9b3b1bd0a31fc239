/**
 * The `send-presupuesto-email` edge function: the gates a request passes (method, authorization
 * header, session, role, payload), the HTML e-mail it builds from the quote's items, and the
 * call to the e-mail provider. The session lookup and the provider's answer are inputs.
 *
 * As written, the provider call reads an undeclared variable and throws; `ServeAsWritten` models
 * that and `Serve` the evidently intended call with `RESEND_API_KEY`.
 */
module SendPresupuestoEmail {
  import opened JsText
  import opened EdgeCommon

  /** One element of `items` as the template shows it: the text of each field it reads. */
  datatype Item = Item(nombre: string, cantidad: string, precio: string)

  /** A field of the JSON payload; `Undefined` when it is absent. `text` is `String(n)`. */
  datatype JsonValue =
    | Undefined | JNull | JBool(b: bool) | JNumber(n: real, text: string) | JString(s: string)
    | JArray(elements: seq<Item>) | JObject

  /** JavaScript truthiness: `false`, 0, "", null and undefined are falsy. */
  predicate Truthy(v: JsonValue)
  {
    match v
    case Undefined => false
    case JNull => false
    case JBool(b) => b
    case JNumber(n, _) => n != 0.0
    case JString(s) => s != ""
    case JArray(_) => true
    case JObject => true
  }

  /** `${v}` in a template literal. */
  function Shown(v: JsonValue): string
  {
    match v
    case Undefined => "undefined"
    case JNull => "null"
    case JBool(b) => if b then "true" else "false"
    case JNumber(_, text) => text
    case JString(s) => s
    case JArray(elements) => Join(seq(|elements|, _ => "[object Object]"), ',')
    case JObject => "[object Object]"
  }

  /** The body as `req.json()` reads it: not JSON (it throws), `null`, or any other value. */
  datatype Body =
    | NotJson
    | JsonNullBody
    | JsonBody(clienteNombre: JsonValue, clienteEmail: JsonValue, items: JsonValue, total: JsonValue)

  datatype EmailRequest = EmailRequest(verb: string, authorization: Option<string>, body: Body)

  /**
   * What `supabase.auth.getUser()` answered: whether it reported an error, and the user, with
   * the `app_metadata.role` it carries when that is a text.
   */
  datatype SessionLookup = SessionLookup(failed: bool, user: Option<Option<string>>)

  /** The end of a request: a reply, or an exception the runtime turns into a 500. */
  datatype Outcome = Answered(reply: Reply<()>) | Threw(exception: string)

  /** The call made to the provider's `/emails` endpoint. */
  datatype ProviderCall = ProviderCall(authorization: string, from: string, to: string, subject: string, html: string)

  /** What the function did: the provider call it made, if any, and how it ended. */
  datatype EmailOutcome = EmailOutcome(call: Option<ProviderCall>, outcome: Outcome)

  const Subject := "Nuevo presupuesto ONUS Express"

  // ---------------------------------------------------------------------------------------
  // The e-mail

  /**
   * A template literal: the fixed fragments with the substituted values between them,
   * `fragments[0] + values[0] + fragments[1] + ... + fragments[n]`.
   */
  function Fill(fragments: seq<string>, values: seq<string>): string
    requires |fragments| == |values| + 1
  {
    if values == [] then fragments[0] else fragments[0] + values[0] + Fill(fragments[1..], values[1..])
  }

  const CellOpen := "\n          <td style=\"padding:6px 8px;\">"

  /** The fixed text of an item's row around its name, quantity and price. */
  const RowFragments := ["<tr>" + CellOpen, "</td>" + CellOpen, "</td>" + CellOpen + "\U{20AC}", "</td>\n        </tr>"]

  /** The table row of one item. */
  function ItemRow(i: Item): string
  {
    Fill(RowFragments, [i.nombre, i.cantidad, i.precio])
  }

  /** `items.map(row).join("")`. */
  function ItemsHtml(items: seq<Item>): string
  {
    if items == [] then "" else ItemRow(items[0]) + ItemsHtml(items[1..])
  }

  /** Where the row of item `k` starts: after the rows of the items before it. */
  function RowOffset(items: seq<Item>, k: nat): nat
    requires k <= |items|
  {
    if k == 0 then 0 else RowOffset(items, k - 1) + |ItemRow(items[k - 1])|
  }

  lemma ItemsHtmlOfNonEmpty(items: seq<Item>)
    requires items != []
    ensures ItemsHtml(items) == ItemRow(items[0]) + ItemsHtml(items[1..])
  {
  }

  /** The rows of two lists of items, one after the other. */
  lemma {:induction false} ItemsHtmlAppend(a: seq<Item>, b: seq<Item>)
    ensures ItemsHtml(a + b) == ItemsHtml(a) + ItemsHtml(b)
  {
    if a == [] {
      assert a + b == b;
    } else {
      assert (a + b)[1..] == a[1..] + b;
      ItemsHtmlAppend(a[1..], b);
      assert ItemsHtml(a + b) == ItemRow(a[0]) + ItemsHtml(a[1..] + b);
    }
  }

  /** The rows before item `k` take exactly `RowOffset(items, k)` characters. */
  lemma {:induction false} PrefixRowsLength(items: seq<Item>, k: nat)
    requires k <= |items|
    ensures |ItemsHtml(items[..k])| == RowOffset(items, k)
  {
    if k > 0 {
      PrefixRowsLength(items, k - 1);
      assert items[..k] == items[..k - 1] + [items[k - 1]];
      ItemsHtmlAppend(items[..k - 1], [items[k - 1]]);
    }
  }

  /** One row per item, in the items' order: item `k`'s row sits at `RowOffset(items, k)`. */
  lemma RowOfItem(items: seq<Item>, k: nat)
    requires k < |items|
    ensures RowOffset(items, k) + |ItemRow(items[k])| <= |ItemsHtml(items)|
    ensures ItemsHtml(items)[RowOffset(items, k)..RowOffset(items, k) + |ItemRow(items[k])|] == ItemRow(items[k])
  {
    RowsAround(items, k);
    PrefixRowsLength(items, k);
    SliceOfMiddle(ItemsHtml(items[..k]), ItemRow(items[k]), ItemsHtml(items[k + 1..]));
  }

  /** The rows of the items are those before item `k`, its own row, and those after it. */
  lemma RowsAround(items: seq<Item>, k: nat)
    requires k < |items|
    ensures ItemsHtml(items) == ItemsHtml(items[..k]) + ItemRow(items[k]) + ItemsHtml(items[k + 1..])
  {
    var before, from := items[..k], items[k..];
    assert items == before + from;
    ItemsHtmlAppend(before, from);
    assert from[0] == items[k] && from[1..] == items[k + 1..];
    ItemsHtmlOfNonEmpty(from);
    ConcatAssociates(ItemsHtml(before), ItemRow(items[k]), ItemsHtml(items[k + 1..]));
  }

  /** The fixed text of the message around the client's name and e-mail, the rows and the total. */
  const EmailFragments := [
    "\n    <h2>Nuevo presupuesto solicitado</h2>\n    <p><strong>Cliente:</strong> ",
    "</p>\n    <p><strong>Email:</strong> ",
    "</p>\n\n    <table border=\"1\" cellpadding=\"0\" cellspacing=\"0\" style=\"border-collapse:collapse;\">"
    + "\n      <thead>\n        <tr>"
    + "\n          <th style=\"padding:6px 8px;\">Servicio</th>"
    + "\n          <th style=\"padding:6px 8px;\">Cantidad</th>"
    + "\n          <th style=\"padding:6px 8px;\">Precio</th>"
    + "\n        </tr>\n      </thead>\n      <tbody>\n        ",
    "\n      </tbody>\n    </table>\n\n    <p style=\"margin-top:16px;\"><strong>Total:</strong> \U{20AC}",
    "</p>\n  "]

  lemma ConcatAssociates(a: string, b: string, c: string)
    ensures a + (b + c) == a + b + c
  {
  }

  lemma SliceOfMiddle(a: string, b: string, c: string)
    ensures (a + b + c)[|a|..|a| + |b|] == b
  {
  }

  /** The whole message: the client's name and e-mail, the item table and the total. */
  function EmailHtml(clienteNombre: string, clienteEmail: string, itemsHtml: string, total: string): string
  {
    Fill(EmailFragments, [clienteNombre, clienteEmail, itemsHtml, total])
  }

  // ---------------------------------------------------------------------------------------
  // The gates

  /** A request that passes every gate: a POST by a signed-in client with four truthy fields. */
  predicate PassesGates(req: EmailRequest, session: SessionLookup)
  {
    req.verb == "POST" && OrElse(req.authorization, "") != "" && !session.failed
    && session.user == Some(Some("cliente")) && req.body.JsonBody?
    && Truthy(req.body.clienteNombre) && Truthy(req.body.clienteEmail)
    && Truthy(req.body.items) && Truthy(req.body.total)
  }

  /**
   * The checks before the e-mail is built, in order: POST only (405), an Authorization header
   * (401), a session with a user (401), the "cliente" role (403), a JSON body (an exception
   * otherwise), an object body (destructuring `null` throws), and four truthy fields (400).
   * None when the request passes them all.
   */
  function Gate(req: EmailRequest, session: SessionLookup): (r: Option<Outcome>)
    ensures req.verb != "POST" ==> r == Some(Answered(Fail(405, "METHOD_NOT_ALLOWED")))
    ensures req.verb == "POST" && OrElse(req.authorization, "") == "" ==>
      r == Some(Answered(Fail(401, "NO_AUTH_HEADER")))
    ensures req.verb == "POST" && OrElse(req.authorization, "") != "" && (session.failed || session.user.None?) ==>
      r == Some(Answered(Fail(401, "INVALID_SESSION")))
    ensures
      (req.verb == "POST" && OrElse(req.authorization, "") != "" && !session.failed && session.user.Some?
       && session.user.value != Some("cliente"))
      ==> r == Some(Answered(Fail(403, "FORBIDDEN_ROLE")))
    ensures
      (req.verb == "POST" && OrElse(req.authorization, "") != "" && !session.failed
       && session.user == Some(Some("cliente")) && req.body.JsonBody? && !PassesGates(req, session))
      ==> r == Some(Answered(Fail(400, "INVALID_PAYLOAD")))
    ensures r.None? <==> PassesGates(req, session)
    ensures r.Some? && r.value.Answered? ==> r.value.reply.Fail?
  {
    if req.verb != "POST" then Some(Answered(Fail(405, "METHOD_NOT_ALLOWED")))
    else if OrElse(req.authorization, "") == "" then Some(Answered(Fail(401, "NO_AUTH_HEADER")))
    else if session.failed || session.user.None? then Some(Answered(Fail(401, "INVALID_SESSION")))
    else if session.user.value != Some("cliente") then Some(Answered(Fail(403, "FORBIDDEN_ROLE")))
    else if req.body.NotJson? then Some(Threw("SyntaxError"))
    else if req.body.JsonNullBody? then Some(Threw("TypeError"))
    else if !Truthy(req.body.clienteNombre) || !Truthy(req.body.clienteEmail)
      || !Truthy(req.body.items) || !Truthy(req.body.total) then
      Some(Answered(Fail(400, "INVALID_PAYLOAD")))
    else None
  }

  /** A total of 0 is falsy: a quote worth nothing is refused as an invalid payload. */
  lemma ZeroTotalIsInvalid(req: EmailRequest, session: SessionLookup, text: string)
    requires req.verb == "POST" && OrElse(req.authorization, "") != ""
    requires !session.failed && session.user == Some(Some("cliente"))
    requires req.body.JsonBody? && req.body.total == JNumber(0.0, text)
    ensures Gate(req, session) == Some(Answered(Fail(400, "INVALID_PAYLOAD")))
  {
  }

  /** An empty array is truthy: a quote without items passes the payload check. */
  lemma EmptyItemsPass(req: EmailRequest, session: SessionLookup)
    requires req.verb == "POST" && OrElse(req.authorization, "") != ""
    requires !session.failed && session.user == Some(Some("cliente"))
    requires req.body.JsonBody? && req.body.items == JArray([])
    requires Truthy(req.body.clienteNombre) && Truthy(req.body.clienteEmail) && Truthy(req.body.total)
    ensures Gate(req, session).None?
  {
  }

  /**
   * The e-mail of a request that passed the gates; `items.map` throws when `items` is not an
   * array.
   */
  function BuildHtml(body: Body): (r: Option<string>)
    requires body.JsonBody?
    ensures r.Some? <==> body.items.JArray?
    ensures r.Some? ==>
      r.value == EmailHtml(Shown(body.clienteNombre), Shown(body.clienteEmail), ItemsHtml(body.items.elements), Shown(body.total))
  {
    if body.items.JArray? then
      Some(EmailHtml(Shown(body.clienteNombre), Shown(body.clienteEmail), ItemsHtml(body.items.elements), Shown(body.total)))
    else None
  }

  // ---------------------------------------------------------------------------------------
  // The handler

  /**
   * The handler as written: once the e-mail is built, the provider call reads the undeclared
   * `EMAIL_PROVIDER_API_KEY`, which throws a ReferenceError before any call is made.
   */
  function ServeAsWritten(req: EmailRequest, session: SessionLookup): (o: EmailOutcome)
    ensures o.call.None?
    ensures Gate(req, session).Some? ==> o.outcome == Gate(req, session).value
  {
    match Gate(req, session)
    case Some(stop) => EmailOutcome(None, stop)
    case None =>
      if BuildHtml(req.body).None? then EmailOutcome(None, Threw("TypeError"))
      else EmailOutcome(None, Threw("ReferenceError"))
  }

  /** As written, no request ever gets a 200: every one that passes the gates ends in an exception. */
  lemma AsWrittenNeverSucceeds(req: EmailRequest, session: SessionLookup)
    ensures !(ServeAsWritten(req, session).outcome.Answered? && ServeAsWritten(req, session).outcome.reply.Success?)
    ensures PassesGates(req, session) && req.body.items.JArray? ==>
      ServeAsWritten(req, session) == EmailOutcome(None, Threw("ReferenceError"))
  {
  }

  /**
   * The handler with the provider authorised by `RESEND_API_KEY`, as evidently intended.
   * `from`, `to` and `resendKey` are `EMAIL_FROM`, `EMAIL_TO` and `RESEND_API_KEY`; `providerOk`
   * is `emailResponse.ok`. A request that passes the gates with an array of items sends one
   * e-mail and gets 200 exactly when the provider accepts it.
   */
  function Serve(req: EmailRequest, session: SessionLookup, from: string, to: string, resendKey: string, providerOk: bool)
    : (o: EmailOutcome)
    ensures Gate(req, session).Some? ==> o == EmailOutcome(None, Gate(req, session).value)
    ensures o.call.Some? <==> PassesGates(req, session) && req.body.items.JArray?
    ensures o.call.Some? ==>
      o.call.value.authorization == "Bearer " + resendKey && o.call.value.from == from && o.call.value.to == to
      && o.call.value.subject == Subject && Some(o.call.value.html) == BuildHtml(req.body)
    ensures o.call.Some? ==>
      o.outcome == Answered(if providerOk then Success(()) else Fail(500, "EMAIL_SEND_FAILED"))
    ensures o.outcome.Answered? && o.outcome.reply.Success? <==>
      PassesGates(req, session) && req.body.items.JArray? && providerOk
  {
    match Gate(req, session)
    case Some(stop) => EmailOutcome(None, stop)
    case None =>
      match BuildHtml(req.body)
      case None => EmailOutcome(None, Threw("TypeError"))
      case Some(html) =>
        var call := ProviderCall("Bearer " + resendKey, from, to, Subject, html);
        EmailOutcome(Some(call), Answered(if providerOk then Success(()) else Fail(500, "EMAIL_SEND_FAILED")))
  }

  /** The two handlers agree on every request the gates or the item list stop. */
  lemma ServeAgreesBeforeTheCall(
    req: EmailRequest, session: SessionLookup, from: string, to: string, resendKey: string, providerOk: bool)
    requires !(PassesGates(req, session) && req.body.items.JArray?)
    ensures Serve(req, session, from, to, resendKey, providerOk) == ServeAsWritten(req, session)
  {
  }
}
