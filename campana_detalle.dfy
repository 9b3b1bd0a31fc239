/**
 * The admin's view of one campaign (`CampanaDetalleView`): application status mapping between
 * the database and the UI, the free-text message parser, the split of the campaign's
 * requirements into fleet and courier lists, the CSV export, and the status filter and counts.
 */
module CampanaDetalle {
  import opened JsText
  import EdgeCommon

  // ---------------------------------------------------------------------------------------
  // Status mapping

  /**
   * The in-review status as the type, the filter buttons and the counter spell it: the word
   * "revisión" encoded to UTF-8 and decoded as Windows-1252 twice.
   */
  const EnRevisionDeclared := "En revisi\U{00C3}\U{0192}\U{00C2}\U{00B3}n"

  /** The in-review status as `dbEstadoToUi` returns it: encoded and mis-decoded once. */
  const EnRevisionReturned := "En revisi\U{00C3}\U{00B3}n"

  const Aceptado := "Aceptado"
  const Rechazado := "Rechazado"

  /** The statuses a loaded application can carry. */
  predicate IsLoadedEstado(estado: string)
  {
    estado == Aceptado || estado == Rechazado || estado == EnRevisionReturned
  }

  /**
   * `dbEstadoToUi`: a missing or empty status is in review; otherwise the lower-cased status
   * decides, English and Spanish spellings alike, and anything unknown is in review.
   */
  function DbEstadoToUi(estado: Option<string>): (ui: string)
    ensures IsLoadedEstado(ui)
    ensures ui == Aceptado <==> estado.Some? && (ToLower(estado.value) == "accepted" || ToLower(estado.value) == "aceptado")
    ensures ui == Rechazado <==> estado.Some? && (ToLower(estado.value) == "rejected" || ToLower(estado.value) == "rechazado")
  {
    if estado.None? || estado.value == "" then EnRevisionReturned
    else
      var normalized := ToLower(estado.value);
      if normalized == "accepted" || normalized == "aceptado" then Aceptado
      else if normalized == "rejected" || normalized == "rechazado" then Rechazado
      else EnRevisionReturned
  }

  /** `uiEstadoToDb`: accepted and rejected by name, every other status pending. */
  function UiEstadoToDb(estado: string): (db: string)
    ensures db == "accepted" || db == "rejected" || db == "pending"
    ensures db == "accepted" <==> estado == Aceptado
    ensures db == "rejected" <==> estado == Rechazado
  {
    if estado == Aceptado then "accepted"
    else if estado == Rechazado then "rejected"
    else "pending"
  }

  /** A database status read into the UI and written back is the same status. */
  lemma DbStatusRoundTrip(s: string)
    requires s == "pending" || s == "accepted" || s == "rejected"
    ensures UiEstadoToDb(DbEstadoToUi(Some(s))) == s
  {
    if s == "pending" {
      LowerPending();
      assert s != "accepted" && s != "aceptado" && s != "rejected" && s != "rechazado";
      assert DbEstadoToUi(Some(s)) == EnRevisionReturned;
    } else if s == "accepted" {
      LowerAccepted();
      assert DbEstadoToUi(Some(s)) == Aceptado;
    } else {
      LowerRejected();
      assert DbEstadoToUi(Some(s)) == Rechazado;
    }
  }

  /** The three database statuses are already in lower case. */
  lemma LowerStatusWords()
    ensures ToLower("accepted") == "accepted"
    ensures ToLower("rejected") == "rejected"
    ensures ToLower("pending") == "pending"
  {
    LowerAccepted();
    LowerRejected();
    LowerPending();
  }

  lemma LowerAccepted()
    ensures ToLower("accepted") == "accepted"
  {
    ToLowerOfLowerText("accepted");
  }

  lemma LowerRejected()
    ensures ToLower("rejected") == "rejected"
  {
    ToLowerOfLowerText("rejected");
  }

  lemma LowerPending()
    ensures ToLower("pending") == "pending"
  {
    ToLowerOfLowerText("pending");
  }

  /** A status the UI can hold, written to the database and read back, is the same status. */
  lemma UiStatusRoundTrip(u: string)
    requires IsLoadedEstado(u)
    ensures DbEstadoToUi(Some(UiEstadoToDb(u))) == u
  {
    var db := UiEstadoToDb(u);
    LowerStatusWords();
    if u == Aceptado {
      assert db == "accepted";
    } else if u == Rechazado {
      assert db == "rejected";
    } else {
      assert db == "pending";
      assert db != "accepted" && db != "aceptado" && db != "rejected" && db != "rechazado";
    }
  }

  // ---------------------------------------------------------------------------------------
  // The application message

  datatype Mensaje = Mensaje(motivacion: Option<string>, experiencia: Option<string>, disponibilidad: Option<string>)

  /** The index of the first line whose lower-cased text starts with `prefix`. */
  function FirstMatch(lines: seq<string>, prefix: string): (r: Option<nat>)
    ensures r.None? <==> forall j :: 0 <= j < |lines| ==> !StartsWith(ToLower(lines[j]), prefix)
    ensures r.Some? ==> r.value < |lines| && StartsWith(ToLower(lines[r.value]), prefix)
    ensures r.Some? ==> forall j :: 0 <= j < r.value ==> !StartsWith(ToLower(lines[j]), prefix)
  {
    if lines == [] then None
    else if StartsWith(ToLower(lines[0]), prefix) then Some(0)
    else match FirstMatch(lines[1..], prefix)
      case None => None
      case Some(i) => Some(i + 1)
  }

  /** `line.split(':').slice(1).join(':').trim()`. */
  function AfterFirstColon(line: string): string
  {
    Trim(Join(Split(line, ':')[1..], ':'))
  }

  /**
   * The value of a line is everything after its first ':', later colons kept, trimmed; a line
   * without ':' has the empty value.
   */
  lemma AfterFirstColonIsRest(line: string)
    ensures ':' in line ==> AfterFirstColon(line) == Trim(line[IndexOf(line, ':') + 1..])
    ensures ':' !in line ==> AfterFirstColon(line) == ""
  {
    SplitHead(line, ':');
    if ':' in line {
      RestAfterFirstColon(line);
    } else {
      assert Split(line, ':')[1..] == [];
    }
  }

  lemma RestAfterFirstColon(line: string)
    requires ':' in line
    ensures Join(Split(line, ':')[1..], ':') == line[IndexOf(line, ':') + 1..]
  {
    var i := IndexOf(line, ':');
    SplitHead(line, ':');
    assert Split(line, ':')[1..] == Split(line[i + 1..], ':');
    JoinSplit(line[i + 1..], ':');
  }

  /** `extract(prefix)`: the value of the first matching line, or undefined when none matches. */
  function Extract(lines: seq<string>, prefix: string): (r: Option<string>)
    ensures r.None? <==> forall j :: 0 <= j < |lines| ==> !StartsWith(ToLower(lines[j]), prefix)
    ensures r.Some? ==>
      exists i :: 0 <= i < |lines| && StartsWith(ToLower(lines[i]), prefix)
                  && (forall j :: 0 <= j < i ==> !StartsWith(ToLower(lines[j]), prefix))
                  && r.value == AfterFirstColon(lines[i])
  {
    match FirstMatch(lines, prefix)
    case None => None
    case Some(i) => Some(AfterFirstColon(lines[i]))
  }

  /** `parseMensaje`: a message that is not a string reads as the empty text. */
  function ParseMensaje(mensaje: Option<string>): (m: Mensaje)
    ensures mensaje.None? ==> m == Mensaje(None, None, None)
  {
    var raw := if mensaje.Some? then mensaje.value else "";
    var lines := TrimAll(Split(raw, '\n'));
    EmptyTextHasNoField("motivaci");
    EmptyTextHasNoField("experiencia");
    EmptyTextHasNoField("disponibilidad");
    Mensaje(Extract(lines, "motivaci"), Extract(lines, "experiencia"), Extract(lines, "disponibilidad"))
  }

  /** The empty message is one empty line, which no field name starts. */
  lemma EmptyTextHasNoField(prefix: string)
    requires prefix != ""
    ensures Extract(TrimAll(Split("", '\n')), prefix).None?
  {
    assert Split("", '\n') == [""];
    assert Trim("") == "";
    var lines := TrimAll([""]);
    assert lines == [""];
    assert ToLower("") == "";
    assert !StartsWith(ToLower(lines[0]), prefix);
    assert lines[1..] == [];
    assert FirstMatch(lines, prefix).None?;
  }

  /** No value parsed out of a message spans two lines. */
  lemma ParsedFieldsAreOneLine(raw: string, prefix: string)
    ensures var r := Extract(TrimAll(Split(raw, '\n')), prefix);
      r.Some? ==> '\n' !in r.value
  {
    var parts := Split(raw, '\n');
    var lines := TrimAll(parts);
    forall j | 0 <= j < |lines| ensures '\n' !in lines[j] {
      AbsentFromTrim(parts[j], '\n');
    }
    ValueOfOneLineIsOneLine(lines, prefix);
  }

  lemma ValueOfOneLineIsOneLine(lines: seq<string>, prefix: string)
    requires forall j :: 0 <= j < |lines| ==> '\n' !in lines[j]
    ensures Extract(lines, prefix).Some? ==> '\n' !in Extract(lines, prefix).value
  {
    var m := FirstMatch(lines, prefix);
    if m.Some? {
      AfterFirstColonHasNo(lines[m.value], '\n');
    }
  }

  lemma AfterFirstColonHasNo(line: string, c: char)
    requires c !in line
    ensures c !in AfterFirstColon(line)
  {
    AfterFirstColonIsRest(line);
    if ':' in line {
      var k := IndexOf(line, ':');
      AbsentFromSuffix(line, k + 1, c);
      AbsentFromTrim(line[k + 1..], c);
    }
  }

  lemma AbsentFromTrim(s: string, c: char)
    requires c !in s
    ensures c !in Trim(s)
  {
    var u := TrimStart(s);
    assert forall x :: x in u ==> x in s;
    assert forall x :: x in TrimEnd(u) ==> x in u;
  }

  lemma AbsentFromSuffix(s: string, k: nat, c: char)
    requires c !in s && k <= |s|
    ensures c !in s[k..]
  {
    assert forall x :: x in s[k..] ==> x in s;
  }

  // ---------------------------------------------------------------------------------------
  // Campaign requirements

  /** `Array.isArray(row.requisitos) ? … : Array.isArray(row.requirements) ? … : []`. */
  function RequisitosOf(requisitos: Option<seq<string>>, requirements: Option<seq<string>>): seq<string>
  {
    if requisitos.Some? then requisitos.value
    else if requirements.Some? then requirements.value
    else []
  }

  /** `s.replace(pattern, replacement)` with a string pattern: the first occurrence only. */
  function ReplaceFirst(s: string, pattern: string, replacement: string): (r: string)
    ensures StartsWith(s, pattern) ==> r == replacement + s[|pattern|..]
    decreases |s|
  {
    if StartsWith(s, pattern) then replacement + s[|pattern|..]
    else if s == [] then s
    else [s[0]] + ReplaceFirst(s[1..], pattern, replacement)
  }

  /** A text is the tag followed by `e` exactly when it starts with the tag and `e` is the rest. */
  lemma TagThenRest(item: string, prefix: string, e: string)
    ensures prefix + e == item <==> StartsWith(item, prefix) && ReplaceFirst(item, prefix, "") == e
  {
    if StartsWith(item, prefix) {
      assert item == prefix + item[|prefix|..];
      assert "" + item[|prefix|..] == item[|prefix|..];
    }
    if prefix + e == item {
      assert item[..|prefix|] == prefix;
    }
  }

  /** A requirement's contribution: its text after the tag, when it carries the tag. */
  function TagHead(item: string, prefix: string): seq<string>
  {
    if StartsWith(item, prefix) then [ReplaceFirst(item, prefix, "")] else []
  }

  /**
   * The requirements tagged with `prefix`, the tag removed, in their order: an entry is in the
   * result exactly when the tag followed by it is a requirement.
   */
  function Tagged(items: seq<string>, prefix: string): (r: seq<string>)
    ensures |r| <= |items|
    ensures forall e :: e in r <==> prefix + e in items
  {
    if items == [] then []
    else
      var head := TagHead(items[0], prefix);
      var tail := Tagged(items[1..], prefix);
      assert forall e :: prefix + e in items <==> prefix + e == items[0] || prefix + e in items[1..] by {
        assert items == [items[0]] + items[1..];
      }
      forall e ensures prefix + e == items[0] <==> e in head {
        TagThenRest(items[0], prefix, e);
      }
      head + tail
  }

  lemma {:induction false} TaggedConcat(a: seq<string>, b: seq<string>, prefix: string)
    ensures Tagged(a + b, prefix) == Tagged(a, prefix) + Tagged(b, prefix)
  {
    if a == [] {
      assert a + b == b;
    } else {
      assert (a + b)[0] == a[0];
      assert (a + b)[1..] == a[1..] + b;
      TaggedConcat(a[1..], b, prefix);
      assert Tagged(a + b, prefix) == TagHead(a[0], prefix) + Tagged(a[1..] + b, prefix);
      assert Tagged(a, prefix) == TagHead(a[0], prefix) + Tagged(a[1..], prefix);
    }
  }

  const FlotistaTag := "FLOTISTA::"
  const MensajeroTag := "MENSAJERO::"

  /** No requirement is both a fleet and a courier requirement: the two lists never overlap in origin. */
  lemma {:induction false} TagsPartition(items: seq<string>)
    ensures |Tagged(items, FlotistaTag)| + |Tagged(items, MensajeroTag)| <= |items|
  {
    if items != [] {
      TagsPartition(items[1..]);
      assert !(StartsWith(items[0], FlotistaTag) && StartsWith(items[0], MensajeroTag)) by {
        if StartsWith(items[0], FlotistaTag) {
          assert items[0][0] == 'F';
        }
      }
    }
  }

  // ---------------------------------------------------------------------------------------
  // Loaded applications

  datatype Postulacion = Postulacion(
    id: string, userId: string, campaignId: string, mensajeroNombre: string, mensajeroEmail: string,
    mensajeroTelefono: string, fecha: string, estado: string,
    motivacion: Option<string>, experiencia: Option<string>, disponibilidad: Option<string>)

  /** An application row as the database returns it; `None` is a null or absent column. */
  datatype DbRow = DbRow(id: string, userId: Option<string>, campaignId: Option<string>, createdAt: Option<string>,
                         estado: Option<string>, mensaje: Option<string>)

  /**
   * The mapping of one row in `loadData`. `defaultCourierName` is the display name used when the
   * row has no user id, and `nowIso` the current time used when it has no creation time.
   */
  function MapRow(row: DbRow, campaignId: string, defaultCourierName: string, nowIso: string): (p: Postulacion)
    ensures p.estado == DbEstadoToUi(row.estado)
    ensures p.mensajeroNombre == (if row.userId.Some? && row.userId.value != "" then row.userId.value else defaultCourierName)
  {
    var userId := if row.userId.Some? then row.userId.value else "";
    var parsed := ParseMensaje(row.mensaje);
    Postulacion(row.id, userId, if row.campaignId.Some? then row.campaignId.value else campaignId,
                if userId != "" then userId else defaultCourierName, "", "",
                if row.createdAt.Some? then row.createdAt.value else nowIso,
                DbEstadoToUi(row.estado), parsed.motivacion, parsed.experiencia, parsed.disponibilidad)
  }

  predicate AllLoaded(ps: seq<Postulacion>)
  {
    forall i :: 0 <= i < |ps| ==> IsLoadedEstado(ps[i].estado)
  }

  // ---------------------------------------------------------------------------------------
  // Filter and counters

  /** `postulaciones.filter(p => p.estado === estado)`. */
  function WithEstado(ps: seq<Postulacion>, estado: string): (r: seq<Postulacion>)
    ensures |r| <= |ps|
    ensures forall p :: p in r <==> p in ps && p.estado == estado
    ensures r == [] <==> forall i :: 0 <= i < |ps| ==> ps[i].estado != estado
  {
    if ps == [] then []
    else (if ps[0].estado == estado then [ps[0]] else []) + WithEstado(ps[1..], estado)
  }

  lemma {:induction false} WithEstadoConcat(a: seq<Postulacion>, b: seq<Postulacion>, estado: string)
    ensures WithEstado(a + b, estado) == WithEstado(a, estado) + WithEstado(b, estado)
  {
    if a == [] {
      assert a + b == b;
    } else {
      assert (a + b)[0] == a[0];
      assert (a + b)[1..] == a[1..] + b;
      WithEstadoConcat(a[1..], b, estado);
    }
  }

  /** The filter value that shows every application. */
  const AllFilter := "all"

  /** `filteredPostulaciones`: every row for "all", otherwise the rows with that status, in order. */
  function FilteredPostulaciones(ps: seq<Postulacion>, filter: string): (r: seq<Postulacion>)
    ensures filter == AllFilter ==> r == ps
    ensures filter != AllFilter ==> forall p :: p in r <==> p in ps && p.estado == filter
  {
    if filter == AllFilter then ps else WithEstado(ps, filter)
  }

  datatype Stats = Stats(total: nat, enRevision: nat, aceptados: nat, rechazados: nat)

  /** `stats` as written: the in-review counter compares against the doubly mis-decoded literal. */
  function StatsAsWritten(ps: seq<Postulacion>): Stats
  {
    Stats(|ps|, |WithEstado(ps, EnRevisionDeclared)|, |WithEstado(ps, Aceptado)|, |WithEstado(ps, Rechazado)|)
  }

  /** `stats` counting in review with the literal the loaded rows actually carry. */
  function StatsOf(ps: seq<Postulacion>): Stats
  {
    Stats(|ps|, |WithEstado(ps, EnRevisionReturned)|, |WithEstado(ps, Aceptado)|, |WithEstado(ps, Rechazado)|)
  }

  /**
   * As written, no loaded application is ever counted or shown as in review: the counter and the
   * in-review filter look for a spelling `dbEstadoToUi` never produces.
   */
  lemma InReviewNeverCountedAsWritten(ps: seq<Postulacion>)
    requires AllLoaded(ps)
    ensures StatsAsWritten(ps).enRevision == 0
    ensures FilteredPostulaciones(ps, EnRevisionDeclared) == []
  {
    assert EnRevisionDeclared != EnRevisionReturned by {
      assert |EnRevisionDeclared| != |EnRevisionReturned|;
    }
  }

  /** A row with no status loads as in review, in the spelling `dbEstadoToUi` returns. */
  lemma RowWithoutStatusLoadsInReview(row: DbRow, campaignId: string, defaultCourierName: string, nowIso: string)
    requires row.estado.None?
    ensures MapRow(row, campaignId, defaultCourierName, nowIso).estado == EnRevisionReturned
  {
  }

  /** With one loaded in-review application the as-written counters add up to 0, not 1. */
  lemma InReviewRowGoesUncounted(p: Postulacion)
    requires p.estado == EnRevisionReturned
    ensures var s := StatsAsWritten([p]); s.total == 1 && s.enRevision + s.aceptados + s.rechazados == 0
  {
    var ps := [p];
    assert AllLoaded(ps);
    InReviewNeverCountedAsWritten(ps);
    assert |EnRevisionReturned| != |Aceptado| && |EnRevisionReturned| != |Rechazado|;
    assert WithEstado(ps, Aceptado) == [] && WithEstado(ps, Rechazado) == [];
  }

  /**
   * Any freshly loaded application whose row has no status is a counterexample: with it alone
   * the as-written counters add up to 0, not 1.
   */
  lemma PendingRowGoesUncounted(row: DbRow, campaignId: string, defaultCourierName: string, nowIso: string)
    requires row.estado.None?
    ensures var s := StatsAsWritten([MapRow(row, campaignId, defaultCourierName, nowIso)]);
      s.total == 1 && s.enRevision + s.aceptados + s.rechazados == 0
  {
    RowWithoutStatusLoadsInReview(row, campaignId, defaultCourierName, nowIso);
    InReviewRowGoesUncounted(MapRow(row, campaignId, defaultCourierName, nowIso));
  }

  /** With the matching literal every loaded application falls in exactly one counter. */
  lemma {:induction false} StatsPartition(ps: seq<Postulacion>)
    requires AllLoaded(ps)
    ensures StatsOf(ps).enRevision + StatsOf(ps).aceptados + StatsOf(ps).rechazados == StatsOf(ps).total
  {
    if ps != [] {
      StatsPartition(ps[1..]);
    }
  }

  // ---------------------------------------------------------------------------------------
  // CSV export

  /** `replace(/"/g, '""')`. */
  function DoubleQuotes(s: string): (r: string)
    ensures |r| >= |s|
    ensures '"' !in s ==> r == s
  {
    if s == [] then []
    else (if s[0] == '"' then "\"\"" else [s[0]]) + DoubleQuotes(s[1..])
  }

  /** A data cell: quoted, inner quotes doubled. */
  function EscapeCell(cell: string): string
  {
    "\"" + DoubleQuotes(cell) + "\""
  }

  /** A header cell: quoted, inner quotes left as they are. */
  function HeaderCell(h: string): string
  {
    "\"" + h + "\""
  }

  function EscapeAll(cells: seq<string>): (r: seq<string>)
    ensures |r| == |cells|
  {
    if cells == [] then [] else [EscapeCell(cells[0])] + EscapeAll(cells[1..])
  }

  function HeaderCells(headers: seq<string>): (r: seq<string>)
    ensures |r| == |headers|
  {
    if headers == [] then [] else [HeaderCell(headers[0])] + HeaderCells(headers[1..])
  }

  function RowText(cells: seq<string>): string
  {
    Join(EscapeAll(cells), ';')
  }

  function RowTexts(rows: seq<seq<string>>): (r: seq<string>)
    ensures |r| == |rows|
  {
    if rows == [] then [] else [RowText(rows[0])] + RowTexts(rows[1..])
  }

  /**
   * Reads the inside of a quoted cell, the opening quote already consumed: up to the first quote
   * that is not doubled. Returns the cell's text and what follows its closing quote.
   */
  function ReadQuoted(s: string): (r: Option<(string, string)>)
    ensures r.Some? ==> |r.value.1| < |s|
  {
    if s == [] then None
    else if s[0] == '"' then
      if |s| >= 2 && s[1] == '"' then
        match ReadQuoted(s[2..])
        case None => None
        case Some((text, rest)) => Some(("\"" + text, rest))
      else Some(("", s[1..]))
    else
      match ReadQuoted(s[1..])
      case None => None
      case Some((text, rest)) => Some(([s[0]] + text, rest))
  }

  /**
   * A CSV reader for text made only of quoted cells: cells separated by ';', rows by '\n'.
   * `None` when the text is not of that form.
   */
  function ParseRows(s: string): (r: Option<seq<seq<string>>>)
    ensures r.Some? ==> |r.value| > 0 && |r.value[0]| > 0
    decreases |s|
  {
    if s == [] || s[0] != '"' then None
    else match ReadQuoted(s[1..])
      case None => None
      case Some((cell, rest)) =>
        if rest == [] then Some([[cell]])
        else if rest[0] == ';' then
          match ParseRows(rest[1..])
          case None => None
          case Some(rows) => Some([[cell] + rows[0]] + rows[1..])
        else if rest[0] == '\n' then
          match ParseRows(rest[1..])
          case None => None
          case Some(rows) => Some([[cell]] + rows)
        else None
  }

  /** Reading an escaped cell stops at its closing quote and gives the cell back. */
  lemma {:induction false} ReadEscaped(cell: string, rest: string)
    requires rest == [] || rest[0] != '"'
    ensures ReadQuoted(DoubleQuotes(cell) + "\"" + rest) == Some((cell, rest))
  {
    if cell != [] {
      ReadEscaped(cell[1..], rest);
      ReadEscapedStep(cell, rest);
    } else {
      assert DoubleQuotes(cell) + "\"" + rest == "\"" + rest;
    }
  }

  /** The step of `ReadEscaped`: the first character read back in front of the rest of the cell. */
  lemma ReadEscapedStep(cell: string, rest: string)
    requires cell != []
    requires ReadQuoted(DoubleQuotes(cell[1..]) + "\"" + rest) == Some((cell[1..], rest))
    ensures ReadQuoted(DoubleQuotes(cell) + "\"" + rest) == Some((cell, rest))
  {
    var tail := DoubleQuotes(cell[1..]) + "\"" + rest;
    var head := if cell[0] == '"' then "\"\"" else [cell[0]];
    assert DoubleQuotes(cell) == head + DoubleQuotes(cell[1..]);
    assert DoubleQuotes(cell) + "\"" + rest == head + tail;
    ReadAfterHead(cell[0], tail);
    assert cell == [cell[0]] + cell[1..];
  }

  /** One character of a quoted cell, doubled when it is a quote, is read back before the rest. */
  lemma ReadAfterHead(c: char, tail: string)
    ensures var head := if c == '"' then "\"\"" else [c];
      ReadQuoted(head + tail) == match ReadQuoted(tail)
        case None => None
        case Some((text, rest)) => Some(([c] + text, rest))
  {
    var head := if c == '"' then "\"\"" else [c];
    var s := head + tail;
    if c == '"' {
      assert s[0] == '"' && s[1] == '"' && s[2..] == tail;
    } else {
      assert s[0] == c && s[1..] == tail;
    }
  }

  /** Unquoting an exported cell returns the original text; as the last cell of a file it reads back. */
  lemma ParseCellAtEnd(c: string)
    ensures ParseRows(EscapeCell(c)) == Some([[c]])
  {
    ReadEscaped(c, "");
    assert EscapeCell(c)[1..] == DoubleQuotes(c) + "\"" + "";
  }

  /** A cell followed by '\n' ends its row; the rows read from what follows come after it. */
  lemma ParseCellBeforeNewline(c: string, tail: string, rows: seq<seq<string>>)
    requires ParseRows(tail) == Some(rows)
    ensures ParseRows(EscapeCell(c) + "\n" + tail) == Some([[c]] + rows)
  {
    var s := EscapeCell(c) + "\n" + tail;
    ReadEscaped(c, "\n" + tail);
    assert s[0] == '"' && s[1..] == DoubleQuotes(c) + "\"" + ("\n" + tail);
    assert ("\n" + tail)[1..] == tail;
  }

  /** A cell followed by ';' joins the first row read from what follows. */
  lemma ParseCellBefore(c: string, tail: string, rows: seq<seq<string>>)
    requires ParseRows(tail) == Some(rows)
    ensures ParseRows(EscapeCell(c) + ";" + tail) == Some([[c] + rows[0]] + rows[1..])
  {
    var s := EscapeCell(c) + ";" + tail;
    ReadEscaped(c, ";" + tail);
    assert s[0] == '"' && s[1..] == DoubleQuotes(c) + "\"" + (";" + tail);
    assert (";" + tail)[1..] == tail;
  }

  /** One exported row, followed by the end of the text or by '\n' and more rows, reads back. */
  lemma {:induction false} ParseRowThen(cells: seq<string>, suffix: string, more: seq<seq<string>>)
    requires |cells| > 0
    requires (suffix == [] && more == []) || (suffix != [] && suffix[0] == '\n' && ParseRows(suffix[1..]) == Some(more))
    ensures ParseRows(RowText(cells) + suffix) == Some([cells] + more)
  {
    var c := cells[0];
    var escaped := EscapeAll(cells);
    assert escaped[0] == EscapeCell(c) && escaped[1..] == EscapeAll(cells[1..]);
    if |cells| == 1 {
      assert RowText(cells) == EscapeCell(c);
      assert cells == [c];
      if suffix == [] {
        ParseCellAtEnd(c);
        assert RowText(cells) + suffix == EscapeCell(c) && [cells] + more == [[c]];
      } else {
        ParseCellBeforeNewline(c, suffix[1..], more);
        assert suffix == "\n" + suffix[1..];
        assert RowText(cells) + suffix == EscapeCell(c) + "\n" + suffix[1..];
      }
    } else {
      var tail := RowText(cells[1..]) + suffix;
      ParseRowThen(cells[1..], suffix, more);
      assert RowText(cells) + suffix == EscapeCell(c) + ";" + tail;
      ParseCellBefore(c, tail, [cells[1..]] + more);
      assert cells == [c] + cells[1..];
    }
  }

  /** Every exported table of non-empty rows reads back as the same table. */
  lemma {:induction false} ParseRowsRoundTrip(rows: seq<seq<string>>)
    requires |rows| > 0 && forall i :: 0 <= i < |rows| ==> |rows[i]| > 0
    ensures ParseRows(Join(RowTexts(rows), '\n')) == Some(rows)
  {
    var texts := RowTexts(rows);
    assert texts[0] == RowText(rows[0]) && texts[1..] == RowTexts(rows[1..]);
    if |rows| == 1 {
      ParseRowThen(rows[0], [], []);
      assert Join(texts, '\n') == RowText(rows[0]) + [];
      assert [rows[0]] + [] == rows;
    } else {
      ParseRowsRoundTrip(rows[1..]);
      ParseRowsStep(rows);
    }
  }

  /** The step of `ParseRowsRoundTrip`: the first row read back in front of the others. */
  lemma ParseRowsStep(rows: seq<seq<string>>)
    requires |rows| > 1 && |rows[0]| > 0
    requires ParseRows(Join(RowTexts(rows[1..]), '\n')) == Some(rows[1..])
    ensures ParseRows(Join(RowTexts(rows), '\n')) == Some(rows)
  {
    var texts := RowTexts(rows);
    assert texts[0] == RowText(rows[0]) && texts[1..] == RowTexts(rows[1..]);
    var rest := Join(RowTexts(rows[1..]), '\n');
    var suffix := "\n" + rest;
    JoinFirst(texts);
    assert suffix[1..] == rest;
    ParseRowThen(rows[0], suffix, rows[1..]);
    assert [rows[0]] + rows[1..] == rows;
  }

  lemma JoinFirst(texts: seq<string>)
    requires |texts| > 1
    ensures Join(texts, '\n') == texts[0] + ("\n" + Join(texts[1..], '\n'))
  {
  }

  /** `p.motivacion || ''`. */
  function OrEmpty(o: Option<string>): string
  {
    if o.Some? then o.value else ""
  }

  /** One data row of the export; `formatDate` is `toLocaleDateString('es-ES', …)`. */
  function CsvRow(p: Postulacion, formatDate: string -> string): (cells: seq<string>)
    ensures |cells| == 9
  {
    [p.userId, p.mensajeroNombre, p.mensajeroEmail, p.mensajeroTelefono, formatDate(p.fecha), p.estado,
     OrEmpty(p.motivacion), OrEmpty(p.experiencia), OrEmpty(p.disponibilidad)]
  }

  function CsvRows(ps: seq<Postulacion>, formatDate: string -> string): (rows: seq<seq<string>>)
    ensures |rows| == |ps|
    ensures forall i :: 0 <= i < |ps| ==> rows[i] == CsvRow(ps[i], formatDate)
  {
    if ps == [] then [] else [CsvRow(ps[0], formatDate)] + CsvRows(ps[1..], formatDate)
  }

  /** The byte-order mark put in front so that spreadsheets read the file as UTF-8. */
  const Bom := '\U{FEFF}'

  /**
   * `handleExportToCSV`: nothing to export gives `None` (an error toast); otherwise the BOM, the
   * header line and one line per application.
   */
  function ExportCsv(headers: seq<string>, ps: seq<Postulacion>, formatDate: string -> string): (r: Option<string>)
    ensures r.None? <==> ps == []
    ensures r.Some? ==> |r.value| > 0 && r.value[0] == Bom
  {
    if ps == [] then None
    else Some([Bom] + Join([Join(HeaderCells(headers), ';')] + RowTexts(CsvRows(ps, formatDate)), '\n'))
  }

  lemma {:induction false} HeaderCellsOfPlainText(headers: seq<string>)
    requires forall i :: 0 <= i < |headers| ==> '"' !in headers[i]
    ensures HeaderCells(headers) == EscapeAll(headers)
  {
    if headers != [] {
      HeaderCellsOfPlainText(headers[1..]);
    }
  }

  /**
   * When no header contains a quote, the exported file after its BOM reads back as the header
   * row followed by one nine-cell row per application, in order.
   */
  lemma ExportReadsBack(headers: seq<string>, ps: seq<Postulacion>, formatDate: string -> string)
    requires ps != [] && headers != []
    requires forall i :: 0 <= i < |headers| ==> '"' !in headers[i]
    ensures ExportCsv(headers, ps, formatDate).Some?
    ensures ParseRows(ExportCsv(headers, ps, formatDate).value[1..]) == Some([headers] + CsvRows(ps, formatDate))
  {
    var rows := [headers] + CsvRows(ps, formatDate);
    HeaderCellsOfPlainText(headers);
    assert RowTexts(rows) == [Join(HeaderCells(headers), ';')] + RowTexts(CsvRows(ps, formatDate)) by {
      assert rows[1..] == CsvRows(ps, formatDate);
    }
    ParseRowsRoundTrip(rows);
  }

  /** A UTF-16 code unit that `[a-zA-Z0-9]` matches. */
  predicate IsAlnumUnit(u: nat)
  {
    48 <= u <= 57 || 65 <= u <= 90 || 97 <= u <= 122
  }

  /** What the replacement makes of one code unit: itself when it matches, else '_'. */
  function SanitizeUnit(u: nat): char
  {
    if IsAlnumUnit(u) then u as char else '_'
  }

  /**
   * `titulo.replace(/[^a-zA-Z0-9]/g, '_')`. Without the `u` flag the pattern looks at UTF-16
   * code units, so a character above U+FFFF (two units) becomes "__".
   */
  function SanitizeTitle(t: string): (r: string)
    ensures |r| == Utf16Length(t)
    ensures forall i :: 0 <= i < |r| ==> IsAlnum(r[i]) || r[i] == '_'
  {
    if t == [] then []
    else
      (if IsAlnum(t[0]) then [t[0]] else if t[0] as int > 0xFFFF then "__" else "_") + SanitizeTitle(t[1..])
  }

  /** Code unit by code unit, each alphanumeric unit is kept and every other becomes '_'. */
  lemma {:induction false} SanitizeTitleUnits(t: string)
    ensures |SanitizeTitle(t)| == |EdgeCommon.CodeUnits(t)|
    ensures forall k :: 0 <= k < |SanitizeTitle(t)| ==>
      SanitizeTitle(t)[k] == SanitizeUnit(EdgeCommon.CodeUnits(t)[k])
  {
    if t != [] {
      SanitizeTitleUnits(t[1..]);
      var head := if IsAlnum(t[0]) then [t[0]] else if t[0] as int > 0xFFFF then "__" else "_";
      var units := EdgeCommon.FirstUnits(t);
      assert SanitizeTitle(t) == head + SanitizeTitle(t[1..]);
      assert EdgeCommon.CodeUnits(t) == units + EdgeCommon.CodeUnits(t[1..]);
      assert |head| == |units|;
      forall k | 0 <= k < |head|
        ensures head[k] == SanitizeUnit(units[k])
      {
        if |units| == 1 {
          assert units[0] == t[0] as int;
        }
      }
    }
  }

  /** The replacement leaves a title that is already sanitised as it is. */
  lemma {:induction false} SanitizedIsFixed(s: string)
    requires forall i :: 0 <= i < |s| ==> IsAlnum(s[i]) || s[i] == '_'
    ensures SanitizeTitle(s) == s
  {
    if s != [] {
      SanitizedIsFixed(s[1..]);
      assert s == [s[0]] + s[1..];
    }
  }

  lemma SanitizeTitleIdempotent(t: string)
    ensures SanitizeTitle(SanitizeTitle(t)) == SanitizeTitle(t)
  {
    SanitizedIsFixed(SanitizeTitle(t));
  }

  /**
   * The export's file name. `isoNow` is `new Date().toISOString()`; a missing campaign or an
   * empty title names the file after "Campana".
   */
  function CsvFileName(titulo: Option<string>, isoNow: string): (name: string)
    ensures titulo.None? || titulo.value == "" ==>
      name == "ONUS_Postulaciones_Campana_" + Split(isoNow, 'T')[0] + ".csv"
    ensures titulo.Some? && titulo.value != "" ==>
      name == "ONUS_Postulaciones_" + SanitizeTitle(titulo.value) + "_" + Split(isoNow, 'T')[0] + ".csv"
  {
    var fecha := Split(isoNow, 'T')[0];
    var campanaNombre := if titulo.Some? && SanitizeTitle(titulo.value) != "" then SanitizeTitle(titulo.value) else "Campana";
    "ONUS_Postulaciones_" + campanaNombre + "_" + fecha + ".csv"
  }
}
