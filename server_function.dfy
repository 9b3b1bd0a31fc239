/**
 * The `server` edge function: the admin pin, the temporary password and courier code
 * generators, the four admin handlers as ordered chains of checks over the request body and the
 * results the database and the auth service returned, the merge-and-sort of pending profiles,
 * and the routing of `Deno.serve`.
 */
module ServerFunction {
  import opened JsText
  import opened EdgeCommon

  // ---------------------------------------------------------------------------------------
  // The admin pin

  /** `ADMIN_PANEL_PIN ?? ADMIN_PIN ?? ""`: a panel pin set to "" is kept, not skipped. */
  function AdminPanelPin(panelPin: Option<string>, adminPin: Option<string>): string
  {
    OrElse(panelPin, OrElse(adminPin, ""))
  }

  /**
   * The verdict of `isAdminPinValid`: both pins non-empty and equal. The handlers below use this
   * predicate; `IsAdminPinValid` shows that the constant-time comparison reaches it.
   */
  predicate PinAccepted(configured: string, pin: Option<string>)
  {
    configured != "" && pin.Some? && pin.value != "" && pin.value == configured
  }

  /** `isAdminPinValid`: `Boolean(adminPanelPin) && Boolean(pin) && secureCompare(pin, adminPanelPin)`. */
  method IsAdminPinValid(configured: string, pin: Option<string>) returns (valid: bool)
    ensures valid == PinAccepted(configured, pin)
    ensures configured == "" || pin.None? || pin == Some("") ==> !valid
  {
    if configured == "" || pin.None? || pin.value == "" {
      return false;
    }
    valid := SecureCompare(pin.value, configured);
  }

  /** An `ADMIN_PANEL_PIN` set to the empty text shuts every admin route, even with `ADMIN_PIN` set. */
  lemma EmptyPanelPinLocksAdmin(adminPin: Option<string>, pin: Option<string>)
    ensures !PinAccepted(AdminPanelPin(Some(""), adminPin), pin)
  {
  }

  // ---------------------------------------------------------------------------------------
  // Generated secrets

  const PasswordAlphabet := "ABCDEFGHJKLMNPQRSTUVWXYZabcdefghijkmnopqrstuvwxyz23456789!@#$%"

  /** The length `generateTemporaryPassword` is called with: its default. */
  const DefaultPasswordLength := 14

  predicate IsTemporaryPassword(p: string)
  {
    |p| == DefaultPasswordLength && forall i :: 0 <= i < |p| ==> p[i] in PasswordAlphabet
  }

  /**
   * `generateTemporaryPassword(length)`: `length` characters, each drawn from the alphabet at
   * index `floor(Math.random() * 62)`. Each draw of `Math.random()` is a choice in [0, 1).
   */
  method GenerateTemporaryPassword(length: int) returns (password: string)
    ensures |password| == if length > 0 then length else 0
    ensures forall i :: 0 <= i < |password| ==> password[i] in PasswordAlphabet
  {
    password := "";
    var i := 0;
    while i < length
      invariant 0 <= i <= if length > 0 then length else 0
      invariant |password| == i
      invariant forall j :: 0 <= j < |password| ==> password[j] in PasswordAlphabet
    {
      var draw: real :| 0.0 <= draw < 1.0;
      var k := (draw * |PasswordAlphabet| as real).Floor;
      password := password + [PasswordAlphabet[k]];
      i := i + 1;
    }
  }

  /** The default call gives a password the create-user and reset handlers accept. */
  method GenerateDefaultPassword() returns (password: string)
    ensures IsTemporaryPassword(password)
  {
    password := GenerateTemporaryPassword(DefaultPasswordLength);
  }

  /** A courier's `codigo`, `Math.floor(100000 + Math.random() * 900000)`, for the draw `draw`. */
  function Codigo(draw: real): (codigo: int)
    requires 0.0 <= draw < 1.0
    ensures 100000 <= codigo <= 999999
  {
    (100000.0 + draw * 900000.0).Floor
  }

  // ---------------------------------------------------------------------------------------
  // Database results

  /** An error of a table query: its `code` and `message`. */
  datatype DbError = DbError(code: Option<string>, message: string)

  /** The result of a select: an error, or its rows (`data ?? []`). */
  datatype Query<T> = QueryFailed(error: DbError) | Rows(rows: seq<T>)

  const MissingRelation := "42P01"
  const MissingColumn := "42703"

  /** `String(error.code ?? "")`. */
  function CodeOf(e: DbError): string
  {
    OrElse(e.code, "")
  }

  /** An error that only says a table or a column does not exist yet. */
  predicate IsSchemaGap(e: DbError)
  {
    CodeOf(e) == MissingRelation || CodeOf(e) == MissingColumn
  }

  /** A select that failed with a missing column is run again without the optional column. */
  function WithFallback<T>(first: Query<T>, retry: Query<T>): Query<T>
  {
    if first.QueryFailed? && CodeOf(first.error) == MissingColumn then retry else first
  }

  /**
   * `persistClientCredentialAudit`: the message it throws, if any. A schema gap is ignored;
   * any other upsert error is thrown.
   */
  function AuditFailure(audit: Option<DbError>): (thrown: Option<string>)
    ensures thrown.Some? <==> audit.Some? && !IsSchemaGap(audit.value)
    ensures thrown.Some? ==> thrown.value == audit.value.message
  {
    if audit.Some? && !IsSchemaGap(audit.value) then Some(audit.value.message) else None
  }

  // ---------------------------------------------------------------------------------------
  // Pending profiles

  const SolicitudesTable := "solicitudes_mensajeros"
  const ContactosTable := "contactos"

  /**
   * A row of `solicitudes_mensajeros`. `createdTime` is what `new Date(String(created_at ?? 0))`
   * reads as a millisecond clock value.
   */
  datatype SolicitudRow = SolicitudRow(
    id: Option<string>, nombre: Option<string>, email: Option<string>, telefono: Option<string>,
    ciudad: Option<string>, createdAt: Option<string>, procesado: Option<bool>,
    origenFormulario: Option<string>, createdTime: int)

  /** A row of `contactos`, with its clock value as for `SolicitudRow`. */
  datatype ContactoRow = ContactoRow(
    id: Option<string>, nombre: Option<string>, email: Option<string>, telefono: Option<string>,
    createdAt: Option<string>, origenFormulario: Option<string>, createdTime: int)

  datatype Profile = Profile(
    source: string, id: Option<string>, nombre: string, email: string, telefono: string,
    ciudad: string, createdAt: Option<string>, procesado: bool, origenFormulario: string,
    createdTime: int)

  function FromSolicitud(row: SolicitudRow): Profile
  {
    Profile(SolicitudesTable, row.id, OrElse(row.nombre, ""), OrElse(row.email, ""), OrElse(row.telefono, ""),
            OrElse(row.ciudad, ""), row.createdAt, row.procesado == Some(true),
            OrElse(row.origenFormulario, SolicitudesTable), row.createdTime)
  }

  function FromContacto(row: ContactoRow): Profile
  {
    Profile(ContactosTable, row.id, OrElse(row.nombre, ""), OrElse(row.email, ""), OrElse(row.telefono, ""),
            "", row.createdAt, false, OrElse(row.origenFormulario, ContactosTable), row.createdTime)
  }

  /** `[...solicitudes, ...contactos]` before sorting. */
  function MergedProfiles(solicitudes: seq<SolicitudRow>, contactos: seq<ContactoRow>): seq<Profile>
  {
    seq(|solicitudes|, i requires 0 <= i < |solicitudes| => FromSolicitud(solicitudes[i]))
    + seq(|contactos|, i requires 0 <= i < |contactos| => FromContacto(contactos[i]))
  }

  predicate NewestFirst(ps: seq<Profile>)
  {
    forall i, j :: 0 <= i < j < |ps| ==> ps[i].createdTime >= ps[j].createdTime
  }

  /** Places `p` before the first profile that is not newer, so that ties keep their order. */
  function InsertByTime(p: Profile, sorted: seq<Profile>): (r: seq<Profile>)
    requires NewestFirst(sorted)
    ensures NewestFirst(r)
    ensures multiset(r) == multiset(sorted) + multiset{p}
    ensures r[0] == p || (sorted != [] && r[0] == sorted[0])
  {
    if sorted == [] || sorted[0].createdTime <= p.createdTime then
      ConsNewestFirst(p, sorted);
      [p] + sorted
    else
      var rest := InsertByTime(p, sorted[1..]);
      assert sorted == [sorted[0]] + sorted[1..];
      ConsNewestFirst(sorted[0], rest);
      [sorted[0]] + rest
  }

  /** A profile no older than the first of a newest-first list can go in front of it. */
  lemma ConsNewestFirst(p: Profile, ps: seq<Profile>)
    requires NewestFirst(ps) && (ps == [] || p.createdTime >= ps[0].createdTime)
    ensures NewestFirst([p] + ps)
  {
    var r := [p] + ps;
    forall i, j | 0 <= i < j < |r|
      ensures r[i].createdTime >= r[j].createdTime
    {
      if i == 0 {
        assert r[j] == ps[j - 1];
      } else {
        assert r[i] == ps[i - 1] && r[j] == ps[j - 1];
      }
    }
  }

  /**
   * `.sort((a, b) => time(b) - time(a))`: newest first, and the same profiles. The order of
   * profiles with equal times is not stated here.
   */
  function SortNewestFirst(ps: seq<Profile>): (r: seq<Profile>)
    ensures NewestFirst(r)
    ensures multiset(r) == multiset(ps)
  {
    if ps == [] then []
    else
      assert ps == [ps[0]] + ps[1..];
      InsertByTime(ps[0], SortNewestFirst(ps[1..]))
  }

  /** `handlePendingProfiles`, with each select's first result and the result of its retry. */
  function PendingProfiles(
    configured: string, pin: Option<string>,
    solicitudes: Query<SolicitudRow>, solicitudesRetry: Query<SolicitudRow>,
    contactos: Query<ContactoRow>, contactosRetry: Query<ContactoRow>): (r: Reply<seq<Profile>>)
    ensures !PinAccepted(configured, pin) ==> r == Fail(401, "PIN invalido")
    ensures PinAccepted(configured, pin) && WithFallback(solicitudes, solicitudesRetry).QueryFailed? ==>
      r == Fail(500, WithFallback(solicitudes, solicitudesRetry).error.message)
    ensures PinAccepted(configured, pin) && WithFallback(solicitudes, solicitudesRetry).Rows? ==>
      WithFallback(contactos, contactosRetry).QueryFailed? ==>
      r == Fail(500, WithFallback(contactos, contactosRetry).error.message)
    ensures r.Success? <==>
      PinAccepted(configured, pin)
      && WithFallback(solicitudes, solicitudesRetry).Rows? && WithFallback(contactos, contactosRetry).Rows?
    ensures r.Success? ==>
      NewestFirst(r.payload)
      && multiset(r.payload) == multiset(MergedProfiles(WithFallback(solicitudes, solicitudesRetry).rows,
                                                        WithFallback(contactos, contactosRetry).rows))
  {
    var s := WithFallback(solicitudes, solicitudesRetry);
    var c := WithFallback(contactos, contactosRetry);
    if !PinAccepted(configured, pin) then Fail(401, "PIN invalido")
    else if s.QueryFailed? then Fail(500, s.error.message)
    else if c.QueryFailed? then Fail(500, c.error.message)
    else Success(SortNewestFirst(MergedProfiles(s.rows, c.rows)))
  }

  /**
   * A profile as the merge builds it: from one of the two tables, and a `contactos` profile is
   * never marked processed and has no city.
   */
  predicate FromEitherTable(p: Profile)
  {
    (p.source == SolicitudesTable || p.source == ContactosTable)
    && (p.source == ContactosTable ==> !p.procesado && p.ciudad == "")
  }

  lemma MergedProfilesShape(solicitudes: seq<SolicitudRow>, contactos: seq<ContactoRow>)
    ensures forall k :: 0 <= k < |MergedProfiles(solicitudes, contactos)| ==>
      FromEitherTable(MergedProfiles(solicitudes, contactos)[k])
  {
  }

  /** Every profile of a successful listing is shaped as `FromEitherTable` says. */
  lemma ListedProfilesShape(
    configured: string, pin: Option<string>,
    solicitudes: Query<SolicitudRow>, solicitudesRetry: Query<SolicitudRow>,
    contactos: Query<ContactoRow>, contactosRetry: Query<ContactoRow>)
    requires PendingProfiles(configured, pin, solicitudes, solicitudesRetry, contactos, contactosRetry).Success?
    ensures forall p :: p in PendingProfiles(configured, pin, solicitudes, solicitudesRetry, contactos, contactosRetry).payload ==>
      FromEitherTable(p)
  {
    var merged := MergedProfiles(WithFallback(solicitudes, solicitudesRetry).rows, WithFallback(contactos, contactosRetry).rows);
    var listed := PendingProfiles(configured, pin, solicitudes, solicitudesRetry, contactos, contactosRetry).payload;
    MergedProfilesShape(WithFallback(solicitudes, solicitudesRetry).rows, WithFallback(contactos, contactosRetry).rows);
    PermutationKeepsShape(merged, listed);
  }

  lemma PermutationKeepsShape(merged: seq<Profile>, listed: seq<Profile>)
    requires multiset(listed) == multiset(merged)
    requires forall k :: 0 <= k < |merged| ==> FromEitherTable(merged[k])
    ensures forall p :: p in listed ==> FromEitherTable(p)
  {
    forall p | p in listed ensures FromEitherTable(p) {
      assert p in multiset(listed);
      assert p in merged;
    }
  }

  /** A row without `origen_formulario` is listed with its table's name as its origin. */
  lemma MissingOrigenNamesTable(s: SolicitudRow, c: ContactoRow)
    requires s.origenFormulario.None? && c.origenFormulario.None?
    ensures FromSolicitud(s).origenFormulario == SolicitudesTable && FromSolicitud(s).source == SolicitudesTable
    ensures FromContacto(c).origenFormulario == ContactosTable && FromContacto(c).source == ContactosTable
  {
  }

  // ---------------------------------------------------------------------------------------
  // Creating a user

  const Mensajero := "mensajero"
  const Cliente := "cliente"

  predicate IsKnownRole(role: string)
  {
    role == Mensajero || role == Cliente
  }

  /** The form origins of courier sign-ups, which may never become a client. */
  predicate IsCourierOrigin(origen: string)
  {
    origen == "servicios_unete_mensajeros" || origen == "mensajeros_registro" || origen == SolicitudesTable
  }

  /** The body of a create-user request: each field's text, None when absent or `null`. */
  datatype CreateUserBody = CreateUserBody(
    pin: Option<string>, email: Option<string>, nombre: Option<string>, telefono: Option<string>,
    role: Option<string>, source: Option<string>, sourceId: Option<string>,
    origenFormulario: Option<string>)

  /** The normalised fields `handleCreateUser` works with. */
  datatype NewUserForm = NewUserForm(
    email: string, nombre: string, telefono: string, role: string, source: string, sourceId: string,
    origenFormulario: string)

  /** Email trimmed and lower-cased, role defaulting to `mensajero`, every field trimmed. */
  function FormOf(b: CreateUserBody): NewUserForm
  {
    NewUserForm(ToLower(Trim(OrElse(b.email, ""))), Trim(OrElse(b.nombre, "")), Trim(OrElse(b.telefono, "")),
                Trim(OrElse(b.role, Mensajero)), Trim(OrElse(b.source, "")), Trim(OrElse(b.sourceId, "")),
                Trim(OrElse(b.origenFormulario, "")))
  }

  /**
   * The checks of `handleCreateUser` before any call, in order. Success carries the normalised
   * form the rest of the handler uses.
   */
  function CheckCreateUser(configured: string, pin: Option<string>, f: NewUserForm): (r: Reply<NewUserForm>)
    ensures !PinAccepted(configured, pin) ==> r == Fail(401, "PIN invalido")
    ensures PinAccepted(configured, pin) && f.email == "" ==> r == Fail(400, "Email requerido")
    ensures PinAccepted(configured, pin) && f.email != "" && !IsKnownRole(f.role) ==>
      r == Fail(400, "Rol invalido")
    ensures r.Fail? ==> r.status == 401 || r.status == 400
    ensures r.Success? <==>
      PinAccepted(configured, pin) && f.email != "" && IsKnownRole(f.role)
      && (f.source == SolicitudesTable ==> f.role == Mensajero)
      && (f.source == ContactosTable ==> f.role == Cliente)
      && !(f.role == Cliente && IsCourierOrigin(ToLower(f.origenFormulario)))
    ensures r.Success? ==> r.payload == f
  {
    if !PinAccepted(configured, pin) then Fail(401, "PIN invalido")
    else if f.email == "" then Fail(400, "Email requerido")
    else if !IsKnownRole(f.role) then Fail(400, "Rol invalido")
    else if f.source == SolicitudesTable && f.role != Mensajero then Fail(400, "Esta fuente solo permite crear mensajeros")
    else if f.source == ContactosTable && f.role != Cliente then Fail(400, "Esta fuente solo permite crear clientes")
    else if f.role == Cliente && IsCourierOrigin(ToLower(f.origenFormulario)) then
      Fail(400, "El origen de mensajeros no puede convertirse en cliente")
    else Success(f)
  }

  /** The source and role rules, each with its own message, checked after the role itself. */
  lemma SourceRoleMessages(configured: string, pin: Option<string>, f: NewUserForm)
    requires PinAccepted(configured, pin) && f.email != "" && IsKnownRole(f.role)
    ensures f.source == SolicitudesTable && f.role == Cliente ==>
      CheckCreateUser(configured, pin, f) == Fail(400, "Esta fuente solo permite crear mensajeros")
    ensures f.source == ContactosTable && f.role == Mensajero ==>
      CheckCreateUser(configured, pin, f) == Fail(400, "Esta fuente solo permite crear clientes")
    ensures f.source != SolicitudesTable && f.role == Cliente ==>
      IsCourierOrigin(ToLower(f.origenFormulario)) ==>
      CheckCreateUser(configured, pin, f) == Fail(400, "El origen de mensajeros no puede convertirse en cliente")
  {
  }

  /** The email of the form is trimmed and lower-cased: no upper-case letter and no edge space. */
  lemma FormEmailIsNormalised(b: CreateUserBody)
    ensures var e := FormOf(b).email;
      (e == "" || (!IsJsSpace(e[0]) && !IsJsSpace(e[|e| - 1])))
      && forall i :: 0 <= i < |e| ==> !IsUpper(e[i])
  {
    ToLowerShape(Trim(OrElse(b.email, "")));
  }

  /** A request without a role creates a courier. */
  lemma OmittedRoleMeansCourier(b: CreateUserBody)
    requires b.role.None?
    ensures FormOf(b).role == Mensajero
  {
    TrimOfUnpadded(Mensajero);
  }

  /** A courier sign-up origin never passes the checks as a client, in any letter case. */
  lemma CourierOriginNeverBecomesClient(configured: string, pin: Option<string>, f: NewUserForm)
    requires IsCourierOrigin(ToLower(f.origenFormulario))
    ensures CheckCreateUser(configured, pin, f).Success? ==> CheckCreateUser(configured, pin, f).payload.role == Mensajero
  {
  }

  /** The request made to `auth.admin.createUser`. */
  datatype AuthCreateRequest = AuthCreateRequest(
    email: string, password: Option<string>, role: string, nombre: string, telefono: string,
    codigo: Option<int>)

  /** A user as the auth service returns it. */
  datatype AuthUser = AuthUser(id: Option<string>, email: Option<string>)

  datatype AuthResult<T> = AuthFailed(message: string) | AuthOk(value: T)

  datatype CreatedUser = CreatedUser(id: Option<string>, email: string, role: string, generatedPassword: Option<string>)

  /**
   * What `handleCreateUser` did: the user it asked the auth service for, the source row it
   * marked processed (table and id), and its reply.
   */
  datatype CreateUserOutcome = CreateUserOutcome(
    request: Option<AuthCreateRequest>, markedProcessed: Option<(string, string)>, reply: Reply<CreatedUser>)

  /** An auth error that says the user exists: its lower-cased message mentions it. */
  predicate IsDuplicateUserMessage(message: string)
  {
    var m := ToLower(message);
    Includes(m, "already") || Includes(m, "registered") || Includes(m, "exists")
  }

  /**
   * The request to the auth service: a courier gets a six-digit `codigo` and no password, a
   * client the generated password and no code.
   */
  function CreateRequestOf(f: NewUserForm, codeDraw: real, password: string): (q: AuthCreateRequest)
    requires 0.0 <= codeDraw < 1.0
    requires IsKnownRole(f.role) && IsTemporaryPassword(password)
    ensures q.email == f.email && q.role == f.role && q.nombre == f.nombre && q.telefono == f.telefono
    ensures q.codigo.Some? <==> f.role == Mensajero
    ensures q.codigo.Some? ==> 100000 <= q.codigo.value <= 999999
    ensures q.password.Some? <==> f.role == Cliente
    ensures q.password.Some? ==> IsTemporaryPassword(q.password.value)
  {
    AuthCreateRequest(f.email, if f.role == Cliente then Some(password) else None, f.role, f.nombre, f.telefono,
                      if f.role == Mensajero then Some(Codigo(codeDraw)) else None)
  }

  /**
   * `handleCreateUser` after its checks passed and `request` was sent: the reply to the auth
   * service's answer, then, for a created user with an id, the upserts that can still fail.
   */
  function RegisterUser(
    f: NewUserForm, request: AuthCreateRequest,
    created: AuthResult<AuthUser>, clienteUpsert: Option<DbError>, audit: Option<DbError>): (o: CreateUserOutcome)
    ensures o.request == Some(request)
    ensures created.AuthFailed? ==>
      o.markedProcessed.None?
      && o.reply == if IsDuplicateUserMessage(created.message) then Fail(409, "El usuario ya existe")
                    else Fail(500, created.message)
    ensures o.markedProcessed.Some? <==>
      created.AuthOk? && f.sourceId != "" && (f.source == SolicitudesTable || f.source == ContactosTable)
    ensures o.markedProcessed.Some? ==> o.markedProcessed.value == (f.source, f.sourceId)
    ensures created.AuthOk? && f.role == Cliente && OrElse(created.value.id, "") != "" ==>
      clienteUpsert.Some? && !IsSchemaGap(clienteUpsert.value) ==> o.reply == Fail(500, clienteUpsert.value.message)
    ensures created.AuthOk? && f.role == Cliente && OrElse(created.value.id, "") != "" ==>
      clienteUpsert.None? && AuditFailure(audit).Some? ==> o.reply == Fail(500, AuditFailure(audit).value)
    ensures o.reply.Success? ==>
      created.AuthOk? && o.reply.payload.id == created.value.id
      && o.reply.payload.role == f.role && o.reply.payload.generatedPassword == request.password
  {
    if created.AuthFailed? then
      CreateUserOutcome(Some(request), None,
        if IsDuplicateUserMessage(created.message) then Fail(409, "El usuario ya existe")
        else Fail(500, created.message))
    else
      var marked := if f.sourceId != "" && (f.source == SolicitudesTable || f.source == ContactosTable)
                    then Some((f.source, f.sourceId)) else None;
      var user := created.value;
      var reply :=
        if OrElse(user.id, "") != "" && f.role == Cliente && clienteUpsert.Some? && !IsSchemaGap(clienteUpsert.value) then
          Fail(500, clienteUpsert.value.message)
        else if OrElse(user.id, "") != "" && f.role == Cliente && AuditFailure(audit).Some? then
          Fail(500, AuditFailure(audit).value)
        else
          Success(CreatedUser(user.id, OrElse(user.email, f.email), f.role, request.password));
      CreateUserOutcome(Some(request), marked, reply)
  }

  /**
   * `handleCreateUser` on the normalised form `f` and the sent pin. `codeDraw` is the
   * `Math.random()` draw of the courier code, `password` what `generateTemporaryPassword()`
   * returned, `created` the auth service's answer, `clienteUpsert` the error of the `clientes`
   * upsert and `audit` that of the audit upsert. Nothing is sent unless every check passed, and
   * then the request is `CreateRequestOf`.
   */
  function CreateUserFromForm(
    configured: string, pin: Option<string>, f: NewUserForm, codeDraw: real, password: string,
    created: AuthResult<AuthUser>, clienteUpsert: Option<DbError>, audit: Option<DbError>): (o: CreateUserOutcome)
    requires 0.0 <= codeDraw < 1.0
    requires IsTemporaryPassword(password)
    ensures CheckCreateUser(configured, pin, f).Fail? ==>
      o.request.None? && o.markedProcessed.None?
      && o.reply == Fail(CheckCreateUser(configured, pin, f).status, CheckCreateUser(configured, pin, f).error)
    ensures o.request.Some? <==> CheckCreateUser(configured, pin, f).Success?
    ensures o.request.Some? ==>
      IsKnownRole(f.role) && o.request.value == CreateRequestOf(f, codeDraw, password)
      && o == RegisterUser(f, o.request.value, created, clienteUpsert, audit)
  {
    var check := CheckCreateUser(configured, pin, f);
    if check.Fail? then CreateUserOutcome(None, None, Fail(check.status, check.error))
    else RegisterUser(f, CreateRequestOf(f, codeDraw, password), created, clienteUpsert, audit)
  }

  /** `handleCreateUser` on the request body: its form is `FormOf(b)`. */
  function CreateUser(
    configured: string, b: CreateUserBody, codeDraw: real, password: string,
    created: AuthResult<AuthUser>, clienteUpsert: Option<DbError>, audit: Option<DbError>): CreateUserOutcome
    requires 0.0 <= codeDraw < 1.0
    requires IsTemporaryPassword(password)
  {
    CreateUserFromForm(configured, b.pin, FormOf(b), codeDraw, password, created, clienteUpsert, audit)
  }

  // ---------------------------------------------------------------------------------------
  // Updating an application's status

  datatype StatusBody = StatusBody(pin: Option<string>, postulacionId: Option<string>, estado: Option<string>)

  datatype StatusRow = StatusRow(id: string, estado: string)

  /** The result of the update: an error, no row with that id, or the updated row. */
  datatype UpdateResult = UpdateFailed(message: string) | NoRow | Updated(row: StatusRow)

  /** The update written, if any, and the reply. */
  datatype StatusOutcome = StatusOutcome(update: Option<StatusRow>, reply: Reply<StatusRow>)

  const Estados := ["pending", "accepted", "rejected"]

  /** `handleUpdatePostulacionStatus`. */
  function UpdatePostulacionStatus(configured: string, b: StatusBody, result: UpdateResult): (o: StatusOutcome)
    ensures !PinAccepted(configured, b.pin) ==> o == StatusOutcome(None, Fail(401, "PIN invalido"))
    ensures PinAccepted(configured, b.pin) && Trim(OrElse(b.postulacionId, "")) == "" ==>
      o == StatusOutcome(None, Fail(400, "postulacionId requerido"))
    ensures PinAccepted(configured, b.pin) && Trim(OrElse(b.postulacionId, "")) != "" ==>
      ToLower(Trim(OrElse(b.estado, ""))) !in Estados ==> o == StatusOutcome(None, Fail(400, "Estado invalido"))
    ensures o.update.Some? <==>
      PinAccepted(configured, b.pin) && Trim(OrElse(b.postulacionId, "")) != ""
      && ToLower(Trim(OrElse(b.estado, ""))) in Estados
    ensures o.update.Some? ==>
      o.update.value == StatusRow(Trim(OrElse(b.postulacionId, "")), ToLower(Trim(OrElse(b.estado, ""))))
      && o.update.value.estado in Estados
      && (result.UpdateFailed? ==> o.reply == Fail(500, result.message))
      && (result.NoRow? ==> o.reply == Fail(404, "Postulacion no encontrada"))
      && (result.Updated? ==> o.reply == Success(result.row))
  {
    var id := Trim(OrElse(b.postulacionId, ""));
    var estado := ToLower(Trim(OrElse(b.estado, "")));
    if !PinAccepted(configured, b.pin) then StatusOutcome(None, Fail(401, "PIN invalido"))
    else if id == "" then StatusOutcome(None, Fail(400, "postulacionId requerido"))
    else if estado !in Estados then StatusOutcome(None, Fail(400, "Estado invalido"))
    else
      StatusOutcome(Some(StatusRow(id, estado)),
        match result
        case UpdateFailed(message) => Fail(500, message)
        case NoRow => Fail(404, "Postulacion no encontrada")
        case Updated(row) => Success(row))
  }

  // ---------------------------------------------------------------------------------------
  // Resetting a client's password

  datatype ResetBody = ResetBody(pin: Option<string>, email: Option<string>, userId: Option<string>)

  /** A user as `getUserById` returns it. */
  datatype UserRecord = UserRecord(email: Option<string>, role: Option<string>)

  datatype ResetUser = ResetUser(id: string, email: string, role: string, generatedPassword: string)

  /**
   * What `handleResetClientPassword` did: the id it looked up, the id whose password it set, and
   * its reply.
   */
  datatype ResetOutcome = ResetOutcome(lookedUp: Option<string>, passwordSetFor: Option<string>, reply: Reply<ResetUser>)

  /** `String(u.email ?? "").trim().toLowerCase()`. */
  function NormalEmail(email: Option<string>): string
  {
    ToLower(Trim(OrElse(email, "")))
  }

  /** The normalised email of each listed user. */
  function NormalEmails(users: seq<AuthUser>): (emails: seq<string>)
    ensures |emails| == |users|
    ensures forall j :: 0 <= j < |users| ==> emails[j] == NormalEmail(users[j].email)
  {
    seq(|users|, j requires 0 <= j < |users| => NormalEmail(users[j].email))
  }

  /** `users.find(...)`, as an index: the first position holding `x`. */
  function FirstIndex(xs: seq<string>, x: string): (r: Option<nat>)
    ensures r.None? <==> x !in xs
    ensures r.Some? ==> r.value < |xs| && xs[r.value] == x && x !in xs[..r.value]
  {
    if xs == [] then None
    else if xs[0] == x then Some(0)
    else match FirstIndex(xs[1..], x)
      case None => None
      case Some(k) =>
        assert xs[..k + 1] == [xs[0]] + xs[1..][..k];
        Some(k + 1)
  }

  /** The listed user `find` picks for `email`: the first whose normalised email is `email`. */
  function FindByEmail(users: seq<AuthUser>, email: string): Option<nat>
  {
    FirstIndex(NormalEmails(users), email)
  }

  /**
   * The target of the reset before `getUserById`: the given id, or else the id and email of the
   * listed user with that email. A reply is returned instead when the list fails or has no such
   * user with an id.
   */
  function ResetTarget(email: string, userId: string, listed: AuthResult<seq<AuthUser>>): (r: Reply<(string, string)>)
    requires email != "" || userId != ""
    ensures userId != "" ==> r == Success((userId, email))
    ensures userId == "" && listed.AuthFailed? ==> r == Fail(500, listed.message)
    ensures userId == "" && listed.AuthOk? ==>
      match FindByEmail(listed.value, email)
      case None => r == Fail(404, "Usuario no encontrado en Auth")
      case Some(k) =>
        if OrElse(listed.value[k].id, "") == "" then r == Fail(404, "Usuario no encontrado en Auth")
        else r == Success((listed.value[k].id.value, OrElse(listed.value[k].email, email)))
  {
    if userId != "" then Success((userId, email))
    else if listed.AuthFailed? then Fail(500, listed.message)
    else match FindByEmail(listed.value, email)
      case None => Fail(404, "Usuario no encontrado en Auth")
      case Some(k) =>
        var match_ := listed.value[k];
        if OrElse(match_.id, "") == "" then Fail(404, "Usuario no encontrado en Auth")
        else Success((match_.id.value, OrElse(match_.email, email)))
  }

  /**
   * The reset once its target is known: `id` and `targetEmail` from `ResetTarget`, `found` the
   * user `getUserById` returned (None for an error or no user), `password` what
   * `generateTemporaryPassword()` returned, `updateError` the error of `updateUserById` and
   * `audit` that of the audit upsert. Only a user whose role is "cliente" gets a new password.
   */
  function ResetAt(
    id: string, targetEmail: string, found: Option<UserRecord>, password: string,
    updateError: Option<string>, audit: Option<DbError>): (o: ResetOutcome)
    requires IsTemporaryPassword(password)
    ensures o.lookedUp == Some(id)
    ensures found.None? ==> o.passwordSetFor.None? && o.reply == Fail(404, "Usuario no encontrado")
    ensures found.Some? && OrElse(found.value.role, "") != Cliente ==>
      o.passwordSetFor.None? && o.reply == Fail(400, "Solo se permite reset para rol cliente")
    ensures o.passwordSetFor.Some? <==> found.Some? && OrElse(found.value.role, "") == Cliente
    ensures o.passwordSetFor.Some? ==> o.passwordSetFor == Some(id)
    ensures o.passwordSetFor.Some? && updateError.Some? ==> o.reply == Fail(500, updateError.value)
    ensures o.passwordSetFor.Some? && updateError.None? && AuditFailure(audit).Some? ==>
      o.reply == Fail(500, AuditFailure(audit).value)
    ensures o.reply.Success? <==> o.passwordSetFor.Some? && updateError.None? && AuditFailure(audit).None?
    ensures o.reply.Success? ==>
      o.reply.payload.id == id && o.reply.payload.role == Cliente && o.reply.payload.generatedPassword == password
      && (targetEmail != "" ==> o.reply.payload.email == targetEmail)
  {
    if found.None? then ResetOutcome(Some(id), None, Fail(404, "Usuario no encontrado"))
    else if OrElse(found.value.role, "") != Cliente then
      ResetOutcome(Some(id), None, Fail(400, "Solo se permite reset para rol cliente"))
    else if updateError.Some? then ResetOutcome(Some(id), Some(id), Fail(500, updateError.value))
    else if AuditFailure(audit).Some? then ResetOutcome(Some(id), Some(id), Fail(500, AuditFailure(audit).value))
    else
      var shownEmail := if targetEmail != "" then targetEmail else OrElse(found.value.email, "");
      ResetOutcome(Some(id), Some(id), Success(ResetUser(id, shownEmail, Cliente, password)))
  }

  /**
   * `handleResetClientPassword` on the sent pin, the normalised `email` and the trimmed `userId`.
   * `listed` is what `listUsers` returned (only asked when no id was given); the other inputs
   * are those of `ResetAt`.
   */
  function ResetClientPasswordFor(
    configured: string, pin: Option<string>, email: string, userId: string, listed: AuthResult<seq<AuthUser>>,
    found: Option<UserRecord>, password: string, updateError: Option<string>, audit: Option<DbError>): (o: ResetOutcome)
    requires IsTemporaryPassword(password)
    ensures !PinAccepted(configured, pin) ==> o == ResetOutcome(None, None, Fail(401, "PIN invalido"))
    ensures PinAccepted(configured, pin) && email == "" && userId == "" ==>
      o == ResetOutcome(None, None, Fail(400, "email o userId requerido"))
    ensures PinAccepted(configured, pin) && userId != "" ==> o.lookedUp == Some(userId)
    ensures o.lookedUp.None? ==> o.passwordSetFor.None? && o.reply.Fail?
    ensures o.lookedUp.Some? ==>
      (email != "" || userId != "") && ResetTarget(email, userId, listed).Success?
      && o == ResetAt(ResetTarget(email, userId, listed).payload.0, ResetTarget(email, userId, listed).payload.1,
                      found, password, updateError, audit)
    ensures o.passwordSetFor.Some? ==>
      o.passwordSetFor == o.lookedUp && found.Some? && OrElse(found.value.role, "") == Cliente
  {
    if !PinAccepted(configured, pin) then ResetOutcome(None, None, Fail(401, "PIN invalido"))
    else if email == "" && userId == "" then ResetOutcome(None, None, Fail(400, "email o userId requerido"))
    else
      var target := ResetTarget(email, userId, listed);
      if target.Fail? then ResetOutcome(None, None, Fail(target.status, target.error))
      else
        var o := ResetAt(target.payload.0, target.payload.1, found, password, updateError, audit);
        assert o.lookedUp == Some(target.payload.0);
        assert userId != "" ==> target.payload.0 == userId;
        o
  }

  /** `handleResetClientPassword` on the request body. */
  function ResetClientPassword(
    configured: string, b: ResetBody, listed: AuthResult<seq<AuthUser>>, found: Option<UserRecord>,
    password: string, updateError: Option<string>, audit: Option<DbError>): ResetOutcome
    requires IsTemporaryPassword(password)
  {
    ResetClientPasswordFor(configured, b.pin, NormalEmail(b.email), Trim(OrElse(b.userId, "")), listed,
                           found, password, updateError, audit)
  }

  // ---------------------------------------------------------------------------------------
  // Routing

  datatype Route =
    | PreflightRoute | OriginRejected | HealthRoute
    | PendingProfilesRoute | CreateUserRoute | UpdateStatusRoute | ResetPasswordRoute
    | NotFound

  /** The deployed function's own path segment, accepted in front of every route. */
  const FunctionPrefix := "/make-server-372a0974"

  const HealthPath := "/health"
  const PendingProfilesPath := "/admin/pending-profiles"
  const CreateUserPath := "/admin/create-user"
  const UpdateStatusPath := "/admin/update-postulacion-status"
  const ResetPasswordPath := "/admin/reset-client-password"

  /** `pathname.endsWith(path) || pathname.endsWith(prefix + path)`. */
  predicate Serves(pathname: string, path: string)
  {
    EndsWith(pathname, path) || EndsWith(pathname, FunctionPrefix + path)
  }

  /** The route `Deno.serve` takes, checked in the order of its `if` statements. */
  function RouteOf(verb: string, origin: Option<string>, allowed: seq<string>, pathname: string): Route
  {
    if verb == "OPTIONS" then PreflightRoute
    else if !IsOriginAllowed(origin, allowed) then OriginRejected
    else if verb == "GET" && Serves(pathname, HealthPath) then HealthRoute
    else if verb == "POST" && Serves(pathname, PendingProfilesPath) then PendingProfilesRoute
    else if verb == "POST" && Serves(pathname, CreateUserPath) then CreateUserRoute
    else if verb == "POST" && Serves(pathname, UpdateStatusPath) then UpdateStatusRoute
    else if verb == "POST" && Serves(pathname, ResetPasswordPath) then ResetPasswordRoute
    else NotFound
  }

  /** A path that ends with a longer text ends with each of its suffixes. */
  lemma EndsWithSuffix(p: string, prefix: string, s: string)
    requires EndsWith(p, prefix + s)
    ensures EndsWith(p, s)
  {
    assert (prefix + s)[|prefix|..] == s;
    assert p[|p| - |s|..] == p[|p| - |prefix + s|..][|prefix|..];
  }

  /** Two suffixes of one path: the shorter is a suffix of the longer. */
  lemma SuffixesNest(p: string, a: string, b: string)
    requires EndsWith(p, a) && EndsWith(p, b) && |a| <= |b|
    ensures EndsWith(b, a)
  {
    assert b[|b| - |a|..] == p[|p| - |b|..][|b| - |a|..];
  }

  /** The prefixed alternative of each route is redundant: it already ends with the plain path. */
  lemma ServesIsEndsWith(pathname: string, path: string)
    ensures Serves(pathname, path) <==> EndsWith(pathname, path)
  {
    if EndsWith(pathname, FunctionPrefix + path) {
      EndsWithSuffix(pathname, FunctionPrefix, path);
    }
  }

  /**
   * Preflight answers before the origin check; a disallowed origin is refused before any route;
   * each admin route needs POST and is reached exactly by the paths ending with its own path,
   * since no route path is a suffix of another.
   */
  lemma RoutingTable(verb: string, origin: Option<string>, allowed: seq<string>, pathname: string)
    ensures verb == "OPTIONS" <==> RouteOf(verb, origin, allowed, pathname) == PreflightRoute
    ensures verb != "OPTIONS" && !IsOriginAllowed(origin, allowed) ==>
      RouteOf(verb, origin, allowed, pathname) == OriginRejected
    ensures RouteOf(verb, origin, allowed, pathname) == HealthRoute <==>
      verb == "GET" && IsOriginAllowed(origin, allowed) && EndsWith(pathname, HealthPath)
    ensures RouteOf(verb, origin, allowed, pathname) == CreateUserRoute <==>
      verb == "POST" && IsOriginAllowed(origin, allowed) && EndsWith(pathname, CreateUserPath)
    ensures RouteOf(verb, origin, allowed, pathname) == UpdateStatusRoute <==>
      verb == "POST" && IsOriginAllowed(origin, allowed) && EndsWith(pathname, UpdateStatusPath)
    ensures RouteOf(verb, origin, allowed, pathname) == ResetPasswordRoute <==>
      verb == "POST" && IsOriginAllowed(origin, allowed) && EndsWith(pathname, ResetPasswordPath)
    ensures RouteOf(verb, origin, allowed, pathname) == PendingProfilesRoute <==>
      verb == "POST" && IsOriginAllowed(origin, allowed) && EndsWith(pathname, PendingProfilesPath)
  {
    ServesIsEndsWith(pathname, HealthPath);
    ServesIsEndsWith(pathname, PendingProfilesPath);
    ServesIsEndsWith(pathname, CreateUserPath);
    ServesIsEndsWith(pathname, UpdateStatusPath);
    ServesIsEndsWith(pathname, ResetPasswordPath);
    NoNestedRoutes(pathname);
  }

  lemma NoNestedRoutes(pathname: string)
    ensures !(EndsWith(pathname, PendingProfilesPath) && EndsWith(pathname, CreateUserPath))
    ensures !(EndsWith(pathname, PendingProfilesPath) && EndsWith(pathname, UpdateStatusPath))
    ensures !(EndsWith(pathname, PendingProfilesPath) && EndsWith(pathname, ResetPasswordPath))
    ensures !(EndsWith(pathname, CreateUserPath) && EndsWith(pathname, UpdateStatusPath))
    ensures !(EndsWith(pathname, CreateUserPath) && EndsWith(pathname, ResetPasswordPath))
    ensures !(EndsWith(pathname, UpdateStatusPath) && EndsWith(pathname, ResetPasswordPath))
  {
    if EndsWith(pathname, PendingProfilesPath) && EndsWith(pathname, CreateUserPath) {
      SuffixesNest(pathname, CreateUserPath, PendingProfilesPath);
      assert false;
    }
    if EndsWith(pathname, PendingProfilesPath) && EndsWith(pathname, UpdateStatusPath) {
      SuffixesNest(pathname, PendingProfilesPath, UpdateStatusPath);
      assert false;
    }
    if EndsWith(pathname, PendingProfilesPath) && EndsWith(pathname, ResetPasswordPath) {
      SuffixesNest(pathname, PendingProfilesPath, ResetPasswordPath);
      assert false;
    }
    if EndsWith(pathname, CreateUserPath) && EndsWith(pathname, UpdateStatusPath) {
      SuffixesNest(pathname, CreateUserPath, UpdateStatusPath);
      assert false;
    }
    if EndsWith(pathname, CreateUserPath) && EndsWith(pathname, ResetPasswordPath) {
      SuffixesNest(pathname, CreateUserPath, ResetPasswordPath);
      assert false;
    }
    if EndsWith(pathname, UpdateStatusPath) && EndsWith(pathname, ResetPasswordPath) {
      SuffixesNest(pathname, ResetPasswordPath, UpdateStatusPath);
      assert false;
    }
  }
}
