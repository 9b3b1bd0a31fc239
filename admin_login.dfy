/**
 * The `admin-login` edge function: the ordered checks that turn a request into a reply, ending
 * in the constant-time comparison of the trimmed pin with `ADMIN_PIN`.
 */
module AdminLogin {
  import opened JsText
  import opened EdgeCommon

  /**
   * The body as `req.json()` reads it. `pin` is the text of the `pin` field, and None when the
   * body is `null` or the field is absent or `null`.
   */
  datatype LoginBody = InvalidJson | Json(pin: Option<string>)

  /** What the handler reads of a request: its HTTP method, its `origin` header and its body. */
  datatype LoginRequest = LoginRequest(verb: string, origin: Option<string>, body: LoginBody)

  /** `String(payload?.pin ?? '').trim()`. */
  function SubmittedPin(body: LoginBody): string
    requires body.Json?
  {
    Trim(OrElse(body.pin, ""))
  }

  /**
   * The handler of `Deno.serve`, with `allowed` the parsed `ALLOWED_ORIGINS` and `adminPin` the
   * `ADMIN_PIN` variable. Each check answers before the next one runs.
   */
  method Serve(req: LoginRequest, allowed: seq<string>, adminPin: Option<string>) returns (reply: Reply<()>)
    ensures req.verb == "OPTIONS" <==> reply == Preflight
    ensures req.verb != "OPTIONS" && !IsOriginAllowed(req.origin, allowed) ==>
      reply == Fail(403, "ORIGIN_NOT_ALLOWED")
    ensures req.verb != "OPTIONS" && IsOriginAllowed(req.origin, allowed) && req.verb != "POST" ==>
      reply == Fail(405, "METHOD_NOT_ALLOWED")
    ensures req.verb == "POST" && IsOriginAllowed(req.origin, allowed) && OrElse(adminPin, "") == "" ==>
      reply == Fail(500, "ADMIN_PIN_NOT_CONFIGURED")
    ensures req.verb == "POST" && IsOriginAllowed(req.origin, allowed) && OrElse(adminPin, "") != "" ==>
      (req.body.InvalidJson? ==> reply == Fail(400, "INVALID_JSON"))
      && (req.body.Json? && SubmittedPin(req.body) == "" ==> reply == Fail(400, "PIN_REQUIRED"))
      && (req.body.Json? && SubmittedPin(req.body) != "" && SubmittedPin(req.body) != adminPin.value ==>
            reply == Fail(401, "INVALID_PIN"))
    ensures reply.Success? <==>
      req.verb == "POST" && IsOriginAllowed(req.origin, allowed) && OrElse(adminPin, "") != ""
      && req.body.Json? && SubmittedPin(req.body) == adminPin.value
  {
    if req.verb == "OPTIONS" {
      return Preflight;
    }
    if !IsOriginAllowed(req.origin, allowed) {
      return Fail(403, "ORIGIN_NOT_ALLOWED");
    }
    if req.verb != "POST" {
      return Fail(405, "METHOD_NOT_ALLOWED");
    }
    if adminPin.None? || adminPin.value == "" {
      return Fail(500, "ADMIN_PIN_NOT_CONFIGURED");
    }
    if req.body.InvalidJson? {
      return Fail(400, "INVALID_JSON");
    }
    var pin := SubmittedPin(req.body);
    if pin == "" {
      return Fail(400, "PIN_REQUIRED");
    }
    var same := SecureCompare(pin, adminPin.value);
    if !same {
      return Fail(401, "INVALID_PIN");
    }
    return Success(());
  }

  /**
   * The submitted pin is trimmed but `ADMIN_PIN` is not: a configured pin with a space at either
   * edge can never be matched, whatever is sent.
   */
  lemma PaddedAdminPinNeverMatches(body: LoginBody, adminPin: string)
    requires body.Json? && adminPin != "" && (IsJsSpace(adminPin[0]) || IsJsSpace(adminPin[|adminPin| - 1]))
    ensures SubmittedPin(body) != adminPin
  {
  }

  /** Spaces around a sent pin do not matter: it is trimmed before the comparison. */
  lemma SurroundingSpacesAreIgnored(pin: string)
    ensures SubmittedPin(Json(Some(" " + pin + " "))) == SubmittedPin(Json(Some(pin)))
  {
    TrimPadded(pin);
  }

  lemma TrimPadded(s: string)
    ensures Trim(" " + s + " ") == Trim(s)
  {
    assert TrimStart(" " + s + " ") == TrimStart(s + " ") by {
      assert (" " + s + " ")[1..] == s + " ";
    }
    TrimStartAppend(s, " ");
    if TrimStart(s) != [] {
      TrimEndOfSpaceSuffix(TrimStart(s));
    }
  }

  lemma {:induction false} TrimStartAppend(s: string, t: string)
    ensures TrimStart(s + t) == if TrimStart(s) == [] then TrimStart(t) else TrimStart(s) + t
  {
    if s == [] {
      assert s + t == t;
    } else if IsJsSpace(s[0]) {
      assert (s + t)[1..] == s[1..] + t;
      TrimStartAppend(s[1..], t);
    }
  }
}
