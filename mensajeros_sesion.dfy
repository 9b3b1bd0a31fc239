/**
 * The courier's session page (`MensajerosSesion`): the defaults given to campaign rows, the local
 * campaign filter with its 'Todas'/'Todos' wildcards, and the set of campaigns the courier has
 * applied to.
 */
module MensajerosSesion {
  import opened JsText

  /** The wildcard of the city and workday selects. */
  const Todas := "Todas"
  /** The wildcard of the vehicle and schedule selects. */
  const Todos := "Todos"

  datatype Campana = Campana(
    id: string, nombre: string, descripcion: string, ciudad: string, vehiculo: string,
    horario: string, jornada: string, pago: string, fechaInicio: string, fechaFin: string, activa: bool)

  /** A `campaigns` row as loaded; `None` is a null or absent column. */
  datatype CampaignRow = CampaignRow(
    id: string, nombre: Option<string>, titulo: Option<string>, descripcion: Option<string>,
    ciudad: Option<string>, vehiculo: Option<string>, horario: Option<string>, jornada: Option<string>,
    pago: Option<string>, tarifa: Option<string>, fechaInicio: Option<string>, fechaFin: Option<string>,
    createdAt: Option<string>, activa: Option<bool>, isActive: Option<bool>)

  /**
   * The mapping of one campaign row. `nowIso` is the current time used when the row has no
   * dates. A missing vehicle, schedule or workday becomes the wildcard.
   */
  function MapCampaign(c: CampaignRow, nowIso: string): (r: Campana)
    ensures c.vehiculo.None? ==> r.vehiculo == Todos
    ensures c.horario.None? ==> r.horario == Todos
    ensures c.jornada.None? ==> r.jornada == Todas
    ensures c.ciudad.None? ==> r.ciudad != Todas
    ensures r.activa == (if c.activa.Some? then c.activa.value else if c.isActive.Some? then c.isActive.value else true)
  {
    Campana(
      c.id,
      OrElse(c.nombre, OrElse(c.titulo, "Campa\U{00F1}a")),
      OrElse(c.descripcion, "Sin descripci\U{00F3}n"),
      OrElse(c.ciudad, "\U{2014}"),
      OrElse(c.vehiculo, Todos),
      OrElse(c.horario, Todos),
      OrElse(c.jornada, Todas),
      OrElse(c.pago, OrElse(c.tarifa, "\U{2014}")),
      OrElse(c.fechaInicio, OrElse(c.createdAt, nowIso)),
      OrElse(c.fechaFin, OrElse(c.createdAt, nowIso)),
      if c.activa.Some? then c.activa.value else if c.isActive.Some? then c.isActive.value else true)
  }

  datatype Filtros = Filtros(ciudad: string, radioKm: int, vehiculo: string, horario: string, jornada: string)

  /** `x || fallback` on a select's value: an empty selection takes the wildcard. */
  function OrDefault(x: string, fallback: string): string
  {
    if x == "" then fallback else x
  }

  /** The `filtros` record of `applyLocalFilter`. */
  function FiltrosOf(ciudad: string, radioKm: int, vehiculo: string, horario: string, jornada: string): (f: Filtros)
    ensures f.ciudad != "" && f.vehiculo != "" && f.horario != "" && f.jornada != ""
    ensures ciudad == "" ==> f.ciudad == Todas
    ensures vehiculo == "" ==> f.vehiculo == Todos
    ensures horario == "" ==> f.horario == Todos
    ensures jornada == "" ==> f.jornada == Todas
  {
    Filtros(OrDefault(ciudad, Todas), radioKm, OrDefault(vehiculo, Todos), OrDefault(horario, Todos), OrDefault(jornada, Todas))
  }

  /**
   * The predicate of `applyLocalFilter`. A chosen city must match exactly; a chosen vehicle,
   * schedule or workday passes campaigns that match it or that are themselves the wildcard.
   * The radius takes no part.
   */
  predicate Matches(f: Filtros, c: Campana)
  {
    (f.ciudad == Todas || c.ciudad == f.ciudad)
    && (f.vehiculo == Todos || c.vehiculo == Todos || c.vehiculo == f.vehiculo)
    && (f.horario == Todos || c.horario == Todos || c.horario == f.horario)
    && (f.jornada == Todas || c.jornada == Todas || c.jornada == f.jornada)
  }

  /** `items.filter(c => …)` with that predicate. */
  function FilterCampanas(items: seq<Campana>, f: Filtros): (r: seq<Campana>)
    ensures |r| <= |items|
    ensures forall c :: c in r <==> c in items && Matches(f, c)
  {
    if items == [] then []
    else (if Matches(f, items[0]) then [items[0]] else []) + FilterCampanas(items[1..], f)
  }

  /** The filter keeps the campaigns' order: filtering a concatenation filters each part. */
  lemma {:induction false} FilterConcat(a: seq<Campana>, b: seq<Campana>, f: Filtros)
    ensures FilterCampanas(a + b, f) == FilterCampanas(a, f) + FilterCampanas(b, f)
  {
    if a == [] {
      assert a + b == b;
    } else {
      assert (a + b)[0] == a[0];
      assert (a + b)[1..] == a[1..] + b;
      FilterConcat(a[1..], b, f);
    }
  }

  /** With every select left blank nothing is filtered out, whatever the radius. */
  lemma {:induction false} BlankFiltersKeepAll(items: seq<Campana>, radioKm: int)
    ensures FilterCampanas(items, FiltrosOf("", radioKm, "", "", "")) == items
  {
    if items != [] {
      BlankFiltersKeepAll(items[1..], radioKm);
    }
  }

  /** The radius is recorded in `filtros` but never changes which campaigns pass. */
  lemma {:induction false} RadiusIsIgnored(items: seq<Campana>, f: Filtros, radioKm: int)
    ensures FilterCampanas(items, f.(radioKm := radioKm)) == FilterCampanas(items, f)
  {
    if items != [] {
      RadiusIsIgnored(items[1..], f, radioKm);
    }
  }

  /** A campaign whose city is literally "Todas" is not a wildcard: a chosen city excludes it. */
  lemma CityIsNeverAWildcard(f: Filtros, c: Campana)
    requires f.ciudad != Todas && c.ciudad == Todas
    ensures !Matches(f, c)
  {
  }

  /**
   * A campaign row without vehicle, schedule or workday passes every choice of those three; only
   * the city can exclude it.
   */
  lemma DefaultedCampaignPasses(row: CampaignRow, nowIso: string, f: Filtros)
    requires row.vehiculo.None? && row.horario.None? && row.jornada.None?
    ensures Matches(f, MapCampaign(row, nowIso)) <==> (f.ciudad == Todas || MapCampaign(row, nowIso).ciudad == f.ciudad)
  {
  }

  // ---------------------------------------------------------------------------------------
  // Applications

  predicate NoDuplicates(s: seq<string>)
  {
    forall i, j :: 0 <= i < j < |s| ==> s[i] != s[j]
  }

  /** `Array.from(new Set(s))`: every value once, at the place of its first occurrence. */
  function UniqueInOrder(s: seq<string>): (r: seq<string>)
    ensures NoDuplicates(r)
    ensures forall x :: x in r <==> x in s
  {
    if s == [] then []
    else
      var init := UniqueInOrder(s[..|s| - 1]);
      assert forall x :: x in s <==> x in s[..|s| - 1] || x == s[|s| - 1] by {
        assert s == s[..|s| - 1] + [s[|s| - 1]];
      }
      if s[|s| - 1] in init then init else init + [s[|s| - 1]]
  }

  /** A list without repeats keeps its order and contents through the set. */
  lemma {:induction false} UniqueInOrderKeepsDistinct(s: seq<string>)
    requires NoDuplicates(s)
    ensures UniqueInOrder(s) == s
  {
    if s != [] {
      var init := s[..|s| - 1];
      assert NoDuplicates(init);
      UniqueInOrderKeepsDistinct(init);
      assert s[|s| - 1] !in init by {
        forall i | 0 <= i < |init| ensures init[i] != s[|s| - 1] {
          assert init[i] == s[i];
        }
      }
      assert s == init + [s[|s| - 1]];
    }
  }

  lemma {:induction false} DistinctCountsOnce(s: seq<string>, x: string)
    requires NoDuplicates(s)
    ensures multiset(s)[x] == (if x in s then 1 else 0)
  {
    if s != [] {
      var init := s[..|s| - 1];
      assert s == init + [s[|s| - 1]];
      assert NoDuplicates(init);
      DistinctCountsOnce(init, x);
      if x == s[|s| - 1] {
        assert x !in init by {
          forall i | 0 <= i < |init| ensures init[i] != x {
            assert init[i] == s[i];
          }
        }
      }
    }
  }

  /**
   * After an application to `id`, the applied set holds `id` exactly once, holds every campaign it
   * held before, and nothing else.
   */
  lemma AppliedOnce(prev: seq<string>, id: string)
    ensures multiset(UniqueInOrder(prev + [id]))[id] == 1
    ensures forall x :: x in UniqueInOrder(prev + [id]) <==> x in prev || x == id
  {
    DistinctCountsOnce(UniqueInOrder(prev + [id]), id);
  }

  // ---------------------------------------------------------------------------------------
  // The page

  datatype MensajeroAuth = MensajeroAuth(
    codigo: string, nombre: string, email: string, telefono: string, activo: bool, fechaLogin: string,
    filtros: Option<Filtros>)

  datatype FormData = FormData(motivacion: string, experiencia: string, disponibilidad: string)

  /** How the application form's submit ends. */
  datatype SubmitOutcome = MissingConfiguration | NavigateToLogin | InsertFailed | Applied

  class MensajerosSesionView {
    var mensajero: Option<MensajeroAuth>
    var campanas: seq<Campana>
    var campanasFiltradas: seq<Campana>
    var showFilters: bool
    var ciudad: string
    var radioKm: int
    var vehiculo: string
    var horario: string
    var jornada: string
    var postulaciones: seq<string>
    var selectedCampaign: Option<Campana>
    var showFormModal: bool
    var formData: FormData

    constructor()
      ensures mensajero.None? && campanas == [] && campanasFiltradas == [] && postulaciones == []
      ensures ciudad == "" && radioKm == 50 && vehiculo == "" && horario == "" && jornada == ""
      ensures !showFilters && !showFormModal && selectedCampaign.None?
    {
      mensajero := None;
      campanas := [];
      campanasFiltradas := [];
      showFilters := false;
      ciudad := "";
      radioKm := 50;
      vehiculo := "";
      horario := "";
      jornada := "";
      postulaciones := [];
      selectedCampaign := None;
      showFormModal := false;
      formData := FormData("", "", "");
    }

    function CurrentFiltros(): Filtros
      reads this
    {
      FiltrosOf(ciudad, radioKm, vehiculo, horario, jornada)
    }

    /**
     * `applyLocalFilter`: records the filters on the signed-in courier, shows the campaigns that
     * pass them and closes the filter panel.
     */
    method ApplyLocalFilter(items: seq<Campana>)
      modifies this
      ensures campanasFiltradas == FilterCampanas(items, old(CurrentFiltros()))
      ensures !showFilters
      ensures mensajero == (if old(mensajero).Some? then Some(old(mensajero).value.(filtros := Some(old(CurrentFiltros())))) else None)
      ensures campanas == old(campanas) && postulaciones == old(postulaciones)
      ensures CurrentFiltros() == old(CurrentFiltros())
      ensures selectedCampaign == old(selectedCampaign) && showFormModal == old(showFormModal) && formData == old(formData)
    {
      var filtros := CurrentFiltros();
      if mensajero.Some? {
        mensajero := Some(mensajero.value.(filtros := Some(filtros)));
      }
      campanasFiltradas := FilterCampanas(items, filtros);
      showFilters := false;
    }

    /** `handleBuscarCampanas`: the filter over every loaded campaign. */
    method HandleBuscarCampanas()
      modifies this
      ensures campanasFiltradas == FilterCampanas(old(campanas), old(CurrentFiltros()))
      ensures !showFilters && campanas == old(campanas) && postulaciones == old(postulaciones)
    {
      ApplyLocalFilter(campanas);
    }

    /**
     * The application form's submit. `configured` says whether the backend client exists,
     * `signedIn` whether the session has a user, `insertFailed` whether the insert reported an
     * error. Only a successful insert changes the state.
     */
    method SubmitApplication(configured: bool, signedIn: bool, insertFailed: bool) returns (outcome: SubmitOutcome)
      requires selectedCampaign.Some?
      modifies this
      ensures outcome == (if !configured then MissingConfiguration else if !signedIn then NavigateToLogin
                          else if insertFailed then InsertFailed else Applied)
      ensures outcome == Applied ==>
        postulaciones == UniqueInOrder(old(postulaciones) + [old(selectedCampaign).value.id])
        && !showFormModal && formData == FormData("", "", "")
      ensures outcome != Applied ==>
        postulaciones == old(postulaciones) && showFormModal == old(showFormModal) && formData == old(formData)
      ensures campanas == old(campanas) && campanasFiltradas == old(campanasFiltradas) && mensajero == old(mensajero)
      ensures selectedCampaign == old(selectedCampaign)
    {
      if !configured {
        return MissingConfiguration;
      }
      if !signedIn {
        return NavigateToLogin;
      }
      if insertFailed {
        return InsertFailed;
      }
      postulaciones := UniqueInOrder(postulaciones + [selectedCampaign.value.id]);
      showFormModal := false;
      formData := FormData("", "", "");
      return Applied;
    }
  }
}
