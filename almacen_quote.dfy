/**
 * The warehouse and logistics quote sheet (`TarifarioAlmacenLogistica`): eight typed lists of
 * selected services, a free adjustment, the total as eight left-fold sums, reset, and the slug
 * that names the downloaded PDF.
 */
module AlmacenQuote {
  import opened JsText

  /**
   * A selected service of any of the eight lists. The lists differ only in their descriptive
   * fields (`tipo`, `descripcion`, `servicio`, `concepto`), which the total never reads.
   */
  datatype Linea = Linea(nombre: string, precio: real, cantidad: real)

  datatype OtrosAjustes = OtrosAjustes(concepto: string, valor: string)

  datatype AlmacenState = AlmacenState(
    nombreCliente: string,
    almacenajeSeleccionado: seq<Linea>,
    recepcionSeleccionada: seq<Linea>,
    ubicacionSeleccionada: seq<Linea>,
    pickingSeleccionado: seq<Linea>,
    packingSeleccionado: seq<Linea>,
    despachoSeleccionado: seq<Linea>,
    inventariosSeleccionados: seq<Linea>,
    extrasSeleccionados: seq<Linea>,
    otrosAjustes: OtrosAjustes)

  function InitialState(): AlmacenState
  {
    AlmacenState("", [], [], [], [], [], [], [], [], OtrosAjustes("", ""))
  }

  /** The number of lists the sheet sums. */
  const ListCount := 8

  /** The eight lists in the order `calcularTotal` adds them. */
  function Lists(st: AlmacenState): (ls: seq<seq<Linea>>)
    ensures |ls| == ListCount
  {
    [st.almacenajeSeleccionado, st.recepcionSeleccionada, st.ubicacionSeleccionada,
     st.pickingSeleccionado, st.packingSeleccionado, st.despachoSeleccionado,
     st.inventariosSeleccionados, st.extrasSeleccionados]
  }

  /** `arr.reduce((a, b) => a + b.precio * b.cantidad, 0)`: a left fold, the last line added last. */
  function Sum(lines: seq<Linea>): real
  {
    if lines == [] then 0.0
    else Sum(lines[..|lines| - 1]) + lines[|lines| - 1].precio * lines[|lines| - 1].cantidad
  }

  lemma {:induction false} SumConcat(a: seq<Linea>, b: seq<Linea>)
    ensures Sum(a + b) == Sum(a) + Sum(b)
  {
    if b == [] {
      assert a + b == a;
    } else {
      var init := b[..|b| - 1];
      assert (a + b)[..|a + b| - 1] == a + init;
      SumConcat(a, init);
    }
  }

  /** Appending a line with precio p and cantidad q to a list raises its sum by exactly p × q. */
  lemma SumAppend(lines: seq<Linea>, l: Linea)
    ensures Sum(lines + [l]) == Sum(lines) + l.precio * l.cantidad
  {
    SumConcat(lines, [l]);
    assert Sum([l]) == Sum([]) + l.precio * l.cantidad;
  }

  /** The sums of `lists`, added left to right. */
  function SumAll(lists: seq<seq<Linea>>): real
  {
    if lists == [] then 0.0 else SumAll(lists[..|lists| - 1]) + Sum(lists[|lists| - 1])
  }

  /** `state.otrosAjustes.valor ? parseFloat(state.otrosAjustes.valor) : 0`. */
  function Otros(valor: string): JsNumber
  {
    if valor != "" then ParseFloat(valor) else Finite(0.0)
  }

  /** `calcularTotal` before `toFixed(2)`. */
  function TotalOf(st: AlmacenState): JsNumber
  {
    JsAdd(Finite(SumAll(Lists(st))), Otros(st.otrosAjustes.valor))
  }

  /**
   * The total is finite exactly when the adjustment reads as a finite number (or is empty), and
   * then it is the sum over all eight lists of precio × cantidad plus the adjustment.
   */
  lemma TotalIsListsPlusAdjustment(st: AlmacenState)
    ensures TotalOf(st).Finite? <==> st.otrosAjustes.valor == "" || ParseFloat(st.otrosAjustes.valor).Finite?
    ensures st.otrosAjustes.valor == "" ==> TotalOf(st) == Finite(SumAll(Lists(st)))
    ensures st.otrosAjustes.valor != "" && ParseFloat(st.otrosAjustes.valor).Finite? ==>
      TotalOf(st) == Finite(SumAll(Lists(st)) + ParseFloat(st.otrosAjustes.valor).value)
    ensures st.otrosAjustes.valor != "" && ParseFloat(st.otrosAjustes.valor).NaN? ==> TotalOf(st) == NaN
  {
  }

  lemma InitialTotalIsZero()
    ensures TotalOf(InitialState()) == Finite(0.0)
  {
    assert SumAll(Lists(InitialState())) == 0.0 by {
      var ls := Lists(InitialState());
      assert forall k :: 0 <= k <= |ls| ==> SumAll(ls[..k]) == 0.0 by {
        forall k | 0 <= k <= |ls| ensures SumAll(ls[..k]) == 0.0 {
          SumAllOfEmptyLists(ls, k);
        }
      }
      assert ls[..|ls|] == ls;
    }
  }

  lemma {:induction false} SumAllOfEmptyLists(ls: seq<seq<Linea>>, k: nat)
    requires k <= |ls| && forall j :: 0 <= j < |ls| ==> ls[j] == []
    ensures SumAll(ls[..k]) == 0.0
  {
    if k > 0 {
      assert ls[..k][..k - 1] == ls[..k - 1];
      SumAllOfEmptyLists(ls, k - 1);
    }
  }

  /** Replacing list `k` changes the sum over all lists by exactly the change in that list's sum. */
  lemma {:induction false} SumAllUpdate(ls: seq<seq<Linea>>, k: nat, lines: seq<Linea>)
    requires k < |ls|
    ensures SumAll(ls[k := lines]) == SumAll(ls) + (Sum(lines) - Sum(ls[k]))
  {
    var n := |ls| - 1;
    assert ls[k := lines][..n] == if k < n then ls[..n][k := lines] else ls[..n];
    if k < n {
      SumAllUpdate(ls[..n], k, lines);
    }
  }

  /** Appends `l` to the `k`-th list of the sheet, counting from 0 in the order of `Lists`. */
  function AddLine(st: AlmacenState, k: nat, l: Linea): (st': AlmacenState)
    requires k < ListCount
    ensures Lists(st') == Lists(st)[k := Lists(st)[k] + [l]]
    ensures st'.nombreCliente == st.nombreCliente && st'.otrosAjustes == st.otrosAjustes
  {
    match k
    case 0 => st.(almacenajeSeleccionado := st.almacenajeSeleccionado + [l])
    case 1 => st.(recepcionSeleccionada := st.recepcionSeleccionada + [l])
    case 2 => st.(ubicacionSeleccionada := st.ubicacionSeleccionada + [l])
    case 3 => st.(pickingSeleccionado := st.pickingSeleccionado + [l])
    case 4 => st.(packingSeleccionado := st.packingSeleccionado + [l])
    case 5 => st.(despachoSeleccionado := st.despachoSeleccionado + [l])
    case 6 => st.(inventariosSeleccionados := st.inventariosSeleccionados + [l])
    case _ => st.(extrasSeleccionados := st.extrasSeleccionados + [l])
  }

  /**
   * Selecting one more line with precio p and cantidad q, in any of the eight lists, raises a
   * finite total by exactly p × q and leaves a NaN total NaN.
   */
  lemma AddedLineRaisesTotal(st: AlmacenState, k: nat, l: Linea)
    requires k < ListCount
    ensures TotalOf(st).Finite? ==> TotalOf(AddLine(st, k, l)) == Finite(TotalOf(st).value + l.precio * l.cantidad)
    ensures TotalOf(st).NaN? ==> TotalOf(AddLine(st, k, l)).NaN?
  {
    var ls := Lists(st);
    SumAllUpdate(ls, k, ls[k] + [l]);
    SumAppend(ls[k], l);
  }

  // ---------------------------------------------------------------------------------------
  // The PDF file name

  /**
   * The slug of `generarPDF`: '-' and the lower-cased name with every run of other characters
   * replaced by one '-', that is its words joined by single dashes. Nothing is trimmed, so a
   * dash for a leading or trailing run of other characters stays.
   */
  function AlmacenSlug(nombreCliente: string): (slug: string)
    ensures slug == "" <==> nombreCliente == ""
    ensures nombreCliente != "" ==>
      var body := slug[1..];
      slug[0] == '-' && |body| > 0 && SlugChars(body) && NoDoubleDash(body)
      && Alnums(body) == Alnums(ToLower(nombreCliente))
      && (body[0] == '-' <==> !IsAlnum(nombreCliente[0]))
    ensures nombreCliente != "" ==> slug == "-" + Dashed(ToLower(nombreCliente))
  {
    if nombreCliente == "" then ""
    else
      var body := ReplaceNonAlnumRuns(ToLower(nombreCliente));
      assert IsAlnum(ToLower(nombreCliente)[0]) <==> IsAlnum(nombreCliente[0]);
      ReplaceNonAlnumRunsIsJoin(ToLower(nombreCliente));
      "-" + body
  }

  function PdfFileName(nombreCliente: string): (name: string)
    ensures nombreCliente == "" ==> name == "tarifario-almacen-logistica-2026.pdf"
  {
    "tarifario-almacen-logistica-2026" + AlmacenSlug(nombreCliente) + ".pdf"
  }

  /** A name that starts with a space or a symbol gives a slug that starts with two dashes. */
  lemma LeadingSymbolGivesDoubleDash(nombreCliente: string)
    requires nombreCliente != "" && !IsAlnum(nombreCliente[0])
    ensures AlmacenSlug(nombreCliente)[..2] == "--"
  {
    var slug := AlmacenSlug(nombreCliente);
    var body := slug[1..];
    assert slug[0] == '-' && |body| > 0;
    assert body[0] == '-';
    assert slug[1] == body[0];
    TwoDashes(slug);
  }

  lemma TwoDashes(s: string)
    requires |s| >= 2 && s[0] == '-' && s[1] == '-'
    ensures s[..2] == "--"
  {
  }

  // ---------------------------------------------------------------------------------------
  // The component

  class AlmacenSheet {
    var nombreCliente: string
    var almacenajeSeleccionado: seq<Linea>
    var recepcionSeleccionada: seq<Linea>
    var ubicacionSeleccionada: seq<Linea>
    var pickingSeleccionado: seq<Linea>
    var packingSeleccionado: seq<Linea>
    var despachoSeleccionado: seq<Linea>
    var inventariosSeleccionados: seq<Linea>
    var extrasSeleccionados: seq<Linea>
    var otrosAjustes: OtrosAjustes

    function State(): AlmacenState
      reads this
    {
      AlmacenState(nombreCliente, almacenajeSeleccionado, recepcionSeleccionada, ubicacionSeleccionada,
                   pickingSeleccionado, packingSeleccionado, despachoSeleccionado, inventariosSeleccionados,
                   extrasSeleccionados, otrosAjustes)
    }

    /** The `nombreCliente` prop is accepted and ignored: the sheet starts with no client name. */
    constructor(nombreClienteProp: Option<string>)
      ensures State() == InitialState()
    {
      nombreCliente := "";
      almacenajeSeleccionado := [];
      recepcionSeleccionada := [];
      ubicacionSeleccionada := [];
      pickingSeleccionado := [];
      packingSeleccionado := [];
      despachoSeleccionado := [];
      inventariosSeleccionados := [];
      extrasSeleccionados := [];
      otrosAjustes := OtrosAjustes("", "");
    }

    /** `handleActualizar`, the `resetear` of the imperative handle: the prop is ignored here too. */
    method HandleActualizar()
      modifies this
      ensures State() == InitialState()
    {
      nombreCliente := "";
      almacenajeSeleccionado := [];
      recepcionSeleccionada := [];
      ubicacionSeleccionada := [];
      pickingSeleccionado := [];
      packingSeleccionado := [];
      despachoSeleccionado := [];
      inventariosSeleccionados := [];
      extrasSeleccionados := [];
      otrosAjustes := OtrosAjustes("", "");
    }
  }
}
