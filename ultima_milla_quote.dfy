/**
 * The last-mile quote sheet (`TarifarioUltimaMilla`): selected vehicle days, distance tramos and
 * extras, a free adjustment, the running total, reset, and the guard in front of the
 * "send quote" call.
 *
 * The sheet stores its lines untyped, so every number a line carries is a `JsNumber`: a line
 * without `precio` multiplies `undefined` and contributes NaN, exactly as the page would.
 */
module UltimaMillaQuote {
  import opened JsText

  /** A vehicle or extra line: it adds `precio * cantidad`. */
  datatype PricedLine = PricedLine(precio: JsNumber, cantidad: JsNumber)

  /** A distance tramo: it adds its flat `valor`, with no quantity. */
  datatype Tramo = Tramo(nombre: string, valor: JsNumber)

  datatype OtrosAjustes = OtrosAjustes(concepto: string, valor: string)

  datatype UltimaState = UltimaState(
    nombreCliente: string,
    vehiculosSeleccionados: seq<PricedLine>,
    tramosSeleccionados: seq<Tramo>,
    extrasSeleccionados: seq<PricedLine>,
    otrosAjustes: OtrosAjustes)

  function InitialState(): UltimaState
  {
    UltimaState("", [], [], [], OtrosAjustes("", ""))
  }

  function LineAmount(l: PricedLine): JsNumber
  {
    JsMul(l.precio, l.cantidad)
  }

  /** The running total after adding the amounts of `lines`, in order, to `acc`. */
  function RunPriced(acc: JsNumber, lines: seq<PricedLine>): JsNumber
  {
    if lines == [] then acc
    else JsAdd(RunPriced(acc, lines[..|lines| - 1]), LineAmount(lines[|lines| - 1]))
  }

  /** The running total after adding the `valor` of every tramo, in order, to `acc`. */
  function RunTramos(acc: JsNumber, tramos: seq<Tramo>): JsNumber
  {
    if tramos == [] then acc
    else JsAdd(RunTramos(acc, tramos[..|tramos| - 1]), tramos[|tramos| - 1].valor)
  }

  /** The text `parseFloat` reads when the adjustment box is empty. */
  const DefaultValor := "0"

  /** `parseFloat(valor || '0')`: no guard against a value that does not parse. */
  function AdjustmentValue(valor: string): JsNumber
  {
    ParseFloat(if valor == "" then DefaultValor else valor)
  }

  /** The lines' running total, before the adjustment. */
  function LinesTotal(st: UltimaState): JsNumber
  {
    RunPriced(RunTramos(RunPriced(Finite(0.0), st.vehiculosSeleccionados), st.tramosSeleccionados),
              st.extrasSeleccionados)
  }

  /** `calcularTotal` before `toFixed(2)`. */
  function TotalOf(st: UltimaState): JsNumber
  {
    JsAdd(LinesTotal(st), AdjustmentValue(st.otrosAjustes.valor))
  }

  // ---------------------------------------------------------------------------------------
  // The total in real arithmetic

  predicate AllLinesFinite(lines: seq<PricedLine>)
  {
    forall i :: 0 <= i < |lines| ==> LineAmount(lines[i]).Finite?
  }

  predicate AllTramosFinite(tramos: seq<Tramo>)
  {
    forall i :: 0 <= i < |tramos| ==> tramos[i].valor.Finite?
  }

  /** Σ precio × cantidad over lines whose amounts are finite. */
  function PricedSum(lines: seq<PricedLine>): real
    requires AllLinesFinite(lines)
  {
    if lines == [] then 0.0
    else PricedSum(lines[..|lines| - 1]) + LineAmount(lines[|lines| - 1]).value
  }

  /** Σ valor over tramos whose values are finite. */
  function TramoSum(tramos: seq<Tramo>): real
    requires AllTramosFinite(tramos)
  {
    if tramos == [] then 0.0
    else TramoSum(tramos[..|tramos| - 1]) + tramos[|tramos| - 1].valor.value
  }

  /** The running total stays finite exactly when it starts finite and every amount is finite. */
  lemma {:induction false} RunPricedFinite(acc: JsNumber, lines: seq<PricedLine>)
    ensures RunPriced(acc, lines).Finite? <==> acc.Finite? && AllLinesFinite(lines)
    ensures RunPriced(acc, lines).Finite? ==> RunPriced(acc, lines).value == acc.value + PricedSum(lines)
  {
    if lines != [] {
      var init := lines[..|lines| - 1];
      RunPricedFinite(acc, init);
      if AllLinesFinite(lines) {
        assert AllLinesFinite(init) by {
          forall i | 0 <= i < |init| ensures LineAmount(init[i]).Finite? {
            assert init[i] == lines[i];
          }
        }
      }
    }
  }

  lemma {:induction false} RunTramosFinite(acc: JsNumber, tramos: seq<Tramo>)
    ensures RunTramos(acc, tramos).Finite? <==> acc.Finite? && AllTramosFinite(tramos)
    ensures RunTramos(acc, tramos).Finite? ==> RunTramos(acc, tramos).value == acc.value + TramoSum(tramos)
  {
    if tramos != [] {
      var init := tramos[..|tramos| - 1];
      RunTramosFinite(acc, init);
      if AllTramosFinite(tramos) {
        assert AllTramosFinite(init) by {
          forall i | 0 <= i < |init| ensures init[i].valor.Finite? {
            assert init[i] == tramos[i];
          }
        }
      }
    }
  }

  /**
   * The total is finite exactly when every vehicle and extra amount, every tramo value and the
   * adjustment are finite, and then it is Σ vehicles + Σ tramos + Σ extras + adjustment.
   */
  lemma TotalIsFiniteSum(st: UltimaState)
    ensures TotalOf(st).Finite? <==>
      AllLinesFinite(st.vehiculosSeleccionados) && AllTramosFinite(st.tramosSeleccionados)
      && AllLinesFinite(st.extrasSeleccionados) && AdjustmentValue(st.otrosAjustes.valor).Finite?
    ensures TotalOf(st).Finite? ==>
      TotalOf(st).value == PricedSum(st.vehiculosSeleccionados) + TramoSum(st.tramosSeleccionados)
                           + PricedSum(st.extrasSeleccionados) + AdjustmentValue(st.otrosAjustes.valor).value
  {
    var v := RunPriced(Finite(0.0), st.vehiculosSeleccionados);
    var t := RunTramos(v, st.tramosSeleccionados);
    RunPricedFinite(Finite(0.0), st.vehiculosSeleccionados);
    RunTramosFinite(v, st.tramosSeleccionados);
    RunPricedFinite(t, st.extrasSeleccionados);
  }

  /** With nothing selected and an empty adjustment the sheet shows 0.00. */
  lemma InitialTotalIsZero()
    ensures TotalOf(InitialState()) == Finite(0.0)
  {
    ParseFloatZero();
  }

  /**
   * Selecting one more tramo adds its flat `valor` once, whatever else is selected: no
   * quantity enters.
   */
  lemma TramoAddsItsValor(st: UltimaState, t: Tramo)
    requires TotalOf(st).Finite? && t.valor.Finite?
    ensures TotalOf(st.(tramosSeleccionados := st.tramosSeleccionados + [t]))
            == Finite(TotalOf(st).value + t.valor.value)
  {
    var st' := st.(tramosSeleccionados := st.tramosSeleccionados + [t]);
    assert st'.tramosSeleccionados[..|st'.tramosSeleccionados| - 1] == st.tramosSeleccionados;
    TotalIsFiniteSum(st);
    assert AllTramosFinite(st'.tramosSeleccionados) by {
      forall i | 0 <= i < |st'.tramosSeleccionados| ensures st'.tramosSeleccionados[i].valor.Finite? {
        if i < |st.tramosSeleccionados| {
          assert st'.tramosSeleccionados[i] == st.tramosSeleccionados[i];
        }
      }
    }
    TotalIsFiniteSum(st');
  }

  /** An empty adjustment box adds nothing: the total is the lines' total, whatever it is. */
  lemma EmptyAdjustmentAddsNothing(st: UltimaState)
    requires st.otrosAjustes.valor == ""
    ensures TotalOf(st) == LinesTotal(st)
  {
    ParseFloatZero();
    JsAddZero(LinesTotal(st));
  }

  /**
   * An adjustment with no digit and no "Infinity" in it does not parse, and with no guard the
   * whole total becomes NaN.
   */
  lemma NonNumericAdjustmentMakesTotalNaN(st: UltimaState)
    requires st.otrosAjustes.valor != ""
    requires forall i :: 0 <= i < |st.otrosAjustes.valor| ==>
      !IsDigit(st.otrosAjustes.valor[i]) && st.otrosAjustes.valor[i] != 'I'
    ensures TotalOf(st) == NaN
  {
    ParseFloatNeedsDigit(st.otrosAjustes.valor);
  }

  // ---------------------------------------------------------------------------------------
  // Sending the quote

  datatype Toast = ToastError(message: string) | ToastSuccess(message: string)

  /** The body of the `send-presupuesto-email` request. */
  datatype PresupuestoRequest = PresupuestoRequest(tipo: string, cliente: string, total: JsNumber, detalle: UltimaState)

  datatype Envio = Envio(request: Option<PresupuestoRequest>, toast: Toast)

  const MissingClientMessage := "Indica el nombre del cliente"
  const SentMessage := "Presupuesto enviado correctamente"
  const SendFailedMessage := "Error al enviar el presupuesto"

  /**
   * `enviarPresupuesto`. `invokeError` is what the function call reports: `None` for success,
   * `Some(m)` for an error whose message is `m` ("" when it has none).
   */
  function EnviarPresupuesto(st: UltimaState, invokeError: Option<string>): (r: Envio)
    ensures r.request.Some? <==> st.nombreCliente != ""
    ensures st.nombreCliente == "" ==> r.toast == ToastError(MissingClientMessage)
    ensures r.request.Some? ==>
      r.request.value == PresupuestoRequest("ultima_milla", st.nombreCliente, TotalOf(st), st)
    ensures r.toast.ToastSuccess? <==> st.nombreCliente != "" && invokeError.None?
    ensures st.nombreCliente != "" && invokeError.Some? ==>
      r.toast == ToastError(if invokeError.value != "" then invokeError.value else SendFailedMessage)
  {
    if st.nombreCliente == "" then Envio(None, ToastError(MissingClientMessage))
    else
      var request := Some(PresupuestoRequest("ultima_milla", st.nombreCliente, TotalOf(st), st));
      match invokeError
      case None => Envio(request, ToastSuccess(SentMessage))
      case Some(m) => Envio(request, ToastError(if m != "" then m else SendFailedMessage))
  }

  /** A fresh or reset sheet has no client name, so it never reaches the function call. */
  lemma FreshSheetNeverSends(invokeError: Option<string>)
    ensures EnviarPresupuesto(InitialState(), invokeError) == Envio(None, ToastError(MissingClientMessage))
  {
  }

  // ---------------------------------------------------------------------------------------
  // The component

  class UltimaMillaSheet {
    var nombreCliente: string
    var vehiculosSeleccionados: seq<PricedLine>
    var tramosSeleccionados: seq<Tramo>
    var extrasSeleccionados: seq<PricedLine>
    var otrosAjustes: OtrosAjustes

    function State(): UltimaState
      reads this
    {
      UltimaState(nombreCliente, vehiculosSeleccionados, tramosSeleccionados, extrasSeleccionados, otrosAjustes)
    }

    constructor()
      ensures State() == InitialState()
    {
      nombreCliente := "";
      vehiculosSeleccionados := [];
      tramosSeleccionados := [];
      extrasSeleccionados := [];
      otrosAjustes := OtrosAjustes("", "");
    }

    /** `resetear`, exposed through the imperative handle. */
    method Resetear()
      modifies this
      ensures State() == InitialState()
    {
      nombreCliente := "";
      vehiculosSeleccionados := [];
      tramosSeleccionados := [];
      extrasSeleccionados := [];
      otrosAjustes := OtrosAjustes("", "");
    }

    /** `calcularTotal`: one running total over the three lists, then the adjustment. */
    method CalcularTotal() returns (total: JsNumber)
      ensures total == TotalOf(State())
    {
      total := Finite(0.0);
      var i := 0;
      while i < |vehiculosSeleccionados|
        invariant 0 <= i <= |vehiculosSeleccionados|
        invariant total == RunPriced(Finite(0.0), vehiculosSeleccionados[..i])
      {
        assert vehiculosSeleccionados[..i + 1][..i] == vehiculosSeleccionados[..i];
        total := JsAdd(total, JsMul(vehiculosSeleccionados[i].precio, vehiculosSeleccionados[i].cantidad));
        i := i + 1;
      }
      assert vehiculosSeleccionados[..i] == vehiculosSeleccionados;
      ghost var afterVehicles := total;
      i := 0;
      while i < |tramosSeleccionados|
        invariant 0 <= i <= |tramosSeleccionados|
        invariant total == RunTramos(afterVehicles, tramosSeleccionados[..i])
      {
        assert tramosSeleccionados[..i + 1][..i] == tramosSeleccionados[..i];
        total := JsAdd(total, tramosSeleccionados[i].valor);
        i := i + 1;
      }
      assert tramosSeleccionados[..i] == tramosSeleccionados;
      ghost var afterTramos := total;
      i := 0;
      while i < |extrasSeleccionados|
        invariant 0 <= i <= |extrasSeleccionados|
        invariant total == RunPriced(afterTramos, extrasSeleccionados[..i])
      {
        assert extrasSeleccionados[..i + 1][..i] == extrasSeleccionados[..i];
        total := JsAdd(total, JsMul(extrasSeleccionados[i].precio, extrasSeleccionados[i].cantidad));
        i := i + 1;
      }
      assert extrasSeleccionados[..i] == extrasSeleccionados;
      var valor := if otrosAjustes.valor == "" then DefaultValor else otrosAjustes.valor;
      total := JsAdd(total, ParseFloat(valor));
    }
  }
}
