/**
 * The two "new password" pages: `NuevaContrasena` (couriers, reached from a Supabase recovery
 * link) and `NuevaContrasenaClientes` (clients, whose token gate and update are still
 * placeholders). Each page is a class whose fields are its state slots (`error`, `loading`,
 * `hasToken`) together with what it has done outside itself: the routes it navigated to, the
 * toasts it showed and the passwords it sent to `updateUser`.
 */
module NuevaContrasena {
  import opened JsText

  const MismatchMessage := "Las contrase\U{00F1}as no coinciden"
  const TooShortMessage := "La contrase\U{00F1}a debe tener al menos 6 caracteres"
  const NotConfiguredMessage := "Configuraci\U{00F3}n de Supabase incompleta"
  const UpdateFailedMessage := "Error al actualizar la contrase\U{00F1}a. Intenta nuevamente."
  const UpdatedToast := "Contrase\U{00F1}a actualizada correctamente"
  const PendingToast := "Funci\U{00F3}n de actualizaci\U{00F3}n de contrase\U{00F1}a pendiente de integraci\U{00F3}n con Supabase Auth"
  const MinPasswordLength := 6

  /**
   * The checks both pages make before any update: the two passwords must match, then the
   * password must have at least 6 UTF-16 code units. None when both pass.
   */
  function PasswordProblem(password: string, confirmPassword: string): (problem: Option<string>)
    ensures problem.None? <==> password == confirmPassword && Utf16Length(password) >= MinPasswordLength
    ensures password != confirmPassword ==> problem == Some(MismatchMessage)
    ensures password == confirmPassword && Utf16Length(password) < MinPasswordLength ==>
      problem == Some(TooShortMessage)
  {
    if password != confirmPassword then Some(MismatchMessage)
    else if Utf16Length(password) < MinPasswordLength then Some(TooShortMessage)
    else None
  }

  /** A mismatch is reported even when the password is also too short. */
  lemma MismatchReportedFirst(password: string, confirmPassword: string)
    requires password != confirmPassword && Utf16Length(password) < MinPasswordLength
    ensures PasswordProblem(password, confirmPassword) == Some(MismatchMessage)
  {
  }

  /** Six characters of the Basic Multilingual Plane are enough; five never are. */
  lemma SixCharactersAreEnough(password: string)
    requires |password| == 6 && forall i :: 0 <= i < |password| ==> password[i] as int <= 0xFFFF
    ensures PasswordProblem(password, password).None?
  {
    BmpLength(password);
  }

  lemma FiveCharactersAreTooFew(password: string)
    requires |password| == 5 && forall i :: 0 <= i < |password| ==> password[i] as int <= 0xFFFF
    ensures PasswordProblem(password, password) == Some(TooShortMessage)
  {
    BmpLength(password);
  }

  /** Length is counted in UTF-16 code units: three characters above U+FFFF are long enough. */
  lemma ThreeAstralCharactersAreEnough(password: string)
    requires |password| == 3 && forall i :: 0 <= i < |password| ==> password[i] as int > 0xFFFF
    ensures PasswordProblem(password, password).None?
  {
    assert Utf16Length(password[2..]) == 2 by { assert password[2..][1..] == []; }
    assert Utf16Length(password[1..]) == 4 by { assert password[1..][1..] == password[2..]; }
  }

  /** A character outside the Basic Multilingual Plane counts as two. */
  lemma {:induction false} BmpLength(s: string)
    requires forall i :: 0 <= i < |s| ==> s[i] as int <= 0xFFFF
    ensures Utf16Length(s) == |s|
  {
    if s != [] {
      BmpLength(s[1..]);
    }
  }

  /**
   * `new URLSearchParams(hash.replace(/^#/, '')).get('type')`: the value of the first `&`-separated
   * parameter named `type`, a parameter without `=` having the value "". Like `URLSearchParams`,
   * it drops one `?` at the head of the query before splitting it.
   */
  function HashType(hash: string): Option<string>
  {
    var afterHash := if StartsWith(hash, "#") then hash[1..] else hash;
    var query := if StartsWith(afterHash, "?") then afterHash[1..] else afterHash;
    FirstParam(Split(query, '&'), "type")
  }

  /** The value of the first parameter in `params` whose name is `name`. */
  function FirstParam(params: seq<string>, name: string): (r: Option<string>)
  {
    if params == [] then None
    else
      var p := params[0];
      var (key, value) := if '=' in p then (p[..IndexOf(p, '=')], p[IndexOf(p, '=') + 1..]) else (p, "");
      if key == name then Some(value) else FirstParam(params[1..], name)
  }

  /** The first parameter of `type=recovery&...` is the `type` one, with value `recovery`. */
  lemma RecoveryParamFirst(rest: string)
    ensures FirstParam(Split("type=recovery&" + rest, '&'), "type") == Some("recovery")
  {
    var p := "type=recovery";
    assert Split("type=recovery&" + rest, '&') == [p] + Split(rest, '&') by {
      assert "type=recovery&" + rest == p + "&" + rest;
      SplitAtFirst(p, '&', rest);
    }
    assert '=' in p && p[..IndexOf(p, '=')] == "type" && p[IndexOf(p, '=') + 1..] == "recovery" by {
      assert p[4] == '=' && '=' !in p[..4];
      assert IndexOf(p, '=') == 4;
    }
  }

  /** A recovery link's hash, `#type=recovery&...`, opens the form whatever follows. */
  lemma RecoveryHashOpensForm(rest: string)
    ensures HashType("#type=recovery&" + rest) == Some("recovery")
  {
    var query := "type=recovery&" + rest;
    assert ("#" + query)[1..] == query && query[..1] == "t";
    assert "#type=recovery&" + rest == "#" + query;
    RecoveryParamFirst(rest);
  }

  /** One `?` after the `#` is not part of the first parameter's name. */
  lemma LeadingQueryMarkIsDropped(query: string)
    requires !StartsWith(query, "?")
    ensures HashType("#?" + query) == HashType("#" + query)
  {
    assert ("#?" + query)[1..] == "?" + query;
    assert ("?" + query)[1..] == query;
    assert ("#" + query)[1..] == query;
  }

  /** `#?type=recovery&...` opens the form too, as `URLSearchParams` drops the `?`. */
  lemma RecoveryHashWithQueryMarkOpensForm(rest: string)
    ensures HashType("#?type=recovery&" + rest) == Some("recovery")
  {
    var query := "type=recovery&" + rest;
    assert ("#?" + query)[1..] == "?" + query && ("?" + query)[1..] == query;
    assert "#?type=recovery&" + rest == "#?" + query;
    RecoveryParamFirst(rest);
  }

  /** A text that starts with a part free of the separator splits off that part first. */
  lemma SplitAtFirst(head: string, sep: char, rest: string)
    requires sep !in head
    ensures Split(head + [sep] + rest, sep) == [head] + Split(rest, sep)
  {
    var s := head + [sep] + rest;
    assert s[|head|] == sep && s[..|head|] == head;
    assert IndexOf(s, sep) == |head|;
    assert s[|head| + 1..] == rest;
    SplitHead(s, sep);
  }

  /** A hash that names no `type` parameter never opens the form. */
  lemma {:induction false} NoTypeParameterMeansNoType(params: seq<string>)
    requires forall k :: 0 <= k < |params| ==> !StartsWith(params[k], "type")
    ensures FirstParam(params, "type").None?
  {
    if params != [] {
      var p := params[0];
      if '=' in p {
        var i := IndexOf(p, '=');
        if i == 4 {
          assert p[..i] != "type";
        }
      }
      NoTypeParameterMeansNoType(params[1..]);
    }
  }

  /** What `supabase.auth.updateUser` did: succeeded, answered an error, or threw. */
  datatype UpdateResult = UpdateOk | UpdateError | UpdateThrew

  /** The courier page. */
  class NuevaContrasenaPage {
    var error: string
    var loading: bool
    var hasToken: bool
    /** The routes `navigate` was called with, in order. */
    var navigations: seq<string>
    /** The success toasts shown, in order. */
    var toasts: seq<string>
    /** The passwords given to `updateUser`, in order. */
    var updates: seq<string>

    function State(): (string, bool, bool, seq<string>, seq<string>, seq<string>)
      reads this
    {
      (error, loading, hasToken, navigations, toasts, updates)
    }

    constructor ()
      ensures State() == ("", false, false, [], [], [])
    {
      error := "";
      loading := false;
      hasToken := false;
      navigations := [];
      toasts := [];
      updates := [];
    }

    /**
     * The mount effect: a recovery hash shows the form, any other hash sends the visitor to the
     * courier login.
     */
    method CheckRecoveryHash(hash: string)
      modifies this
      ensures HashType(hash) == Some("recovery") ==>
        hasToken && navigations == old(navigations)
      ensures HashType(hash) != Some("recovery") ==>
        hasToken == old(hasToken) && navigations == old(navigations) + ["/mensajeros/acceso"]
      ensures error == old(error) && loading == old(loading) && toasts == old(toasts) && updates == old(updates)
    {
      if HashType(hash) == Some("recovery") {
        hasToken := true;
        return;
      }
      navigations := navigations + ["/mensajeros/acceso"];
    }

    /**
     * `handleSubmit`. `configured` says whether the Supabase client exists, `update` is what
     * `updateUser` did and `signOutThrew` whether `signOut` threw. Only passwords that pass the
     * checks reach `updateUser`; on success the page toasts, signs out and goes to the login,
     * and on any failure it shows an error and stays. `loading` ends false once the checks pass.
     */
    method HandleSubmit(password: string, confirmPassword: string, configured: bool, update: UpdateResult, signOutThrew: bool)
      modifies this
      ensures hasToken == old(hasToken)
      ensures PasswordProblem(password, confirmPassword).Some? ==>
        error == PasswordProblem(password, confirmPassword).value && loading == old(loading)
        && navigations == old(navigations) && toasts == old(toasts) && updates == old(updates)
      ensures PasswordProblem(password, confirmPassword).None? ==> !loading
      ensures PasswordProblem(password, confirmPassword).None? && !configured ==>
        error == NotConfiguredMessage && navigations == old(navigations) && toasts == old(toasts)
        && updates == old(updates)
      ensures PasswordProblem(password, confirmPassword).None? && configured ==>
        updates == old(updates) + [password]
      ensures PasswordProblem(password, confirmPassword).None? && configured && update != UpdateOk ==>
        error == UpdateFailedMessage && navigations == old(navigations) && toasts == old(toasts)
      ensures PasswordProblem(password, confirmPassword).None? && configured && update == UpdateOk ==>
        toasts == old(toasts) + [UpdatedToast]
        && (signOutThrew ==> error == UpdateFailedMessage && navigations == old(navigations))
        && (!signOutThrew ==> error == "" && navigations == old(navigations) + ["/mensajeros/acceso"])
    {
      error := "";
      var problem := PasswordProblem(password, confirmPassword);
      if problem.Some? {
        error := problem.value;
        return;
      }
      loading := true;
      if !configured {
        error := NotConfiguredMessage;
      } else {
        updates := updates + [password];
        if update != UpdateOk {
          error := UpdateFailedMessage;
        } else {
          toasts := toasts + [UpdatedToast];
          if signOutThrew {
            error := UpdateFailedMessage;
          } else {
            navigations := navigations + ["/mensajeros/acceso"];
          }
        }
      }
      loading := false;
    }
  }

  /** The client page, whose token gate and update are placeholders. */
  class NuevaContrasenaClientesPage {
    var error: string
    var loading: bool
    var hasToken: bool
    var navigations: seq<string>
    /** The toasts shown, in order, information and success alike. */
    var toasts: seq<string>
    /** The `setTimeout(…, 1000)` callbacks scheduled and not yet run. */
    var pendingTimers: nat

    function State(): (string, bool, bool, seq<string>, seq<string>, nat)
      reads this
    {
      (error, loading, hasToken, navigations, toasts, pendingTimers)
    }

    constructor ()
      ensures State() == ("", false, false, [], [], 0)
    {
      error := "";
      loading := false;
      hasToken := false;
      navigations := [];
      toasts := [];
      pendingTimers := 0;
    }

    /** The mount effect: the placeholder gate lets everyone in. */
    method CheckToken()
      modifies this
      ensures hasToken
      ensures State() == old(State()).(2 := true)
    {
      hasToken := true;
    }

    /**
     * `handleSubmit`: the error is cleared first; a password that passes the checks gets the
     * information toast and schedules the 1000 ms timer, and nothing is sent anywhere.
     */
    method HandleSubmit(password: string, confirmPassword: string)
      modifies this
      ensures hasToken == old(hasToken) && navigations == old(navigations)
      ensures PasswordProblem(password, confirmPassword).Some? ==>
        error == PasswordProblem(password, confirmPassword).value && loading == old(loading)
        && toasts == old(toasts) && pendingTimers == old(pendingTimers)
      ensures PasswordProblem(password, confirmPassword).None? ==>
        error == "" && !loading && toasts == old(toasts) + [PendingToast]
        && pendingTimers == old(pendingTimers) + 1
    {
      error := "";
      var problem := PasswordProblem(password, confirmPassword);
      if problem.Some? {
        error := problem.value;
        return;
      }
      loading := true;
      toasts := toasts + [PendingToast];
      pendingTimers := pendingTimers + 1;
      loading := false;
    }

    /** One scheduled timer runs: the success toast, then the client area. */
    method RunTimer()
      requires pendingTimers > 0
      modifies this
      ensures pendingTimers == old(pendingTimers) - 1
      ensures toasts == old(toasts) + [UpdatedToast] && navigations == old(navigations) + ["/clientes"]
      ensures error == old(error) && loading == old(loading) && hasToken == old(hasToken)
    {
      toasts := toasts + [UpdatedToast];
      navigations := navigations + ["/clientes"];
      pendingTimers := pendingTimers - 1;
    }
  }
}
