/**
 * The "Mensajería Express" quote sheet: the weight-band tariff, the four ledgers of quoted
 * lines (services, weight surcharges, size surcharges, extra services), the free adjustment,
 * the estimated total, the PDF file name and the list of items sent by e-mail.
 *
 * The component keeps everything in one React state record that each handler replaces with
 * an updated copy; here the record is `QuoteState` and the component is the class
 * `ExpressSheet`, whose fields are the record's fields and whose methods are the handlers.
 */
module ExpressQuote {
  import opened JsText

  // ----- tariff -----

  /** One entry of the weight tariff: four prices, or 'Consultar' (price on request). */
  datatype Tariff = Priced(hasta2kg: real, hasta5kg: real, hasta10kg: real, kgAdicional: real) | Consultar

  /** The priced bands never get cheaper with weight and the per-kilo rate is not negative. */
  predicate Ascending(t: Tariff)
  {
    t.Priced? ==> 0.0 < t.hasta2kg <= t.hasta5kg <= t.hasta10kg && 0.0 <= t.kgAdicional
  }

  /** The services of the catalogue. */
  const Servicios: seq<string> := ["19h", "14h", "12h", "10h", "08:30h", "HOY"]

  /** The tariff of a service; None for a name the table does not hold. */
  function Tarifa(servicio: string): (t: Option<Tariff>)
    ensures t.Some? <==> servicio in Servicios
    ensures t.Some? ==> Ascending(t.value)
    ensures t == Some(Consultar) <==> servicio == "HOY"
  {
    if servicio == "19h" then Some(Priced(9.87, 10.17, 13.08, 0.81))
    else if servicio == "14h" then Some(Priced(14.04, 15.42, 24.03, 1.68))
    else if servicio == "12h" then Some(Priced(15.66, 17.73, 29.08, 1.86))
    else if servicio == "10h" then Some(Priced(29.59, 32.63, 49.0, 2.62))
    else if servicio == "08:30h" then Some(Priced(56.62, 62.11, 86.5, 3.86))
    else if servicio == "HOY" then Some(Consultar)
    else None
  }

  /** The price of a shipment of `peso` kilos under a priced tariff. */
  function BandPrice(t: Tariff, peso: real): real
    requires t.Priced?
  {
    if peso <= 2.0 then t.hasta2kg
    else if peso <= 5.0 then t.hasta5kg
    else if peso <= 10.0 then t.hasta10kg
    else t.hasta10kg + (peso - 10.0) * t.kgAdicional
  }

  /**
   * `calcularPrecioEnvio`: 0 for an unknown service and for one priced on request. The source looks
   * the service up on a plain object, where a prototype key such as `toString` would also resolve;
   * the service selector offers only the six tariff names, so the lookup here is by those names.
   */
  function CalcularPrecioEnvio(servicio: string, peso: real): (precio: real)
    ensures precio >= 0.0
    ensures precio > 0.0 <==> servicio in Servicios && servicio != "HOY"
  {
    match Tarifa(servicio)
    case Some(Priced(_, _, _, _)) => BandPrice(Tarifa(servicio).value, peso)
    case _ => 0.0
  }

  /** Under an ascending tariff a heavier shipment never costs less. */
  lemma BandPriceMonotone(t: Tariff, p1: real, p2: real)
    requires t.Priced? && Ascending(t) && p1 <= p2
    ensures BandPrice(t, p1) <= BandPrice(t, p2)
  {
    if p1 > 10.0 {
      ProductNonNegative(p2 - p1, t.kgAdicional);
      assert (p2 - 10.0) * t.kgAdicional == (p1 - 10.0) * t.kgAdicional + (p2 - p1) * t.kgAdicional;
    } else if p2 > 10.0 {
      ProductNonNegative(p2 - 10.0, t.kgAdicional);
    }
  }

  lemma ProductNonNegative(a: real, b: real)
    requires a >= 0.0 && b >= 0.0
    ensures a * b >= 0.0
  {
  }

  /** For every service of the table the shipping price is monotone in the weight. */
  lemma PriceMonotoneInWeight(servicio: string, p1: real, p2: real)
    requires p1 <= p2
    ensures CalcularPrecioEnvio(servicio, p1) <= CalcularPrecioEnvio(servicio, p2)
  {
    var t := Tarifa(servicio);
    if t.Some? && t.value.Priced? {
      BandPriceMonotone(t.value, p1, p2);
    }
  }

  /** Above ten kilos every extra kilo costs exactly the per-kilo rate on top of the 10 kg price. */
  lemma PriceAboveTenKilos(servicio: string, extra: real)
    requires extra > 0.0
    requires Tarifa(servicio).Some? && Tarifa(servicio).value.Priced?
    ensures CalcularPrecioEnvio(servicio, 10.0 + extra)
         == CalcularPrecioEnvio(servicio, 10.0) + extra * Tarifa(servicio).value.kgAdicional
  {
  }

  /** Each band price applies up to and including its upper bound. */
  lemma BandBoundaries(servicio: string)
    requires Tarifa(servicio).Some? && Tarifa(servicio).value.Priced?
    ensures CalcularPrecioEnvio(servicio, 2.0) == Tarifa(servicio).value.hasta2kg
    ensures CalcularPrecioEnvio(servicio, 5.0) == Tarifa(servicio).value.hasta5kg
    ensures CalcularPrecioEnvio(servicio, 10.0) == Tarifa(servicio).value.hasta10kg
  {
  }

  // ----- the quote record -----

  datatype ServicioSeleccionado = ServicioSeleccionado(servicio: string, peso: int, cantidad: JsNumber, precio: JsNumber)
  datatype Suplemento = Suplemento(descripcion: string, precio: JsNumber, cantidad: JsNumber)
  datatype ServicioAdicional = ServicioAdicional(concepto: string, precio: JsNumber, cantidad: JsNumber)
  datatype OtrosAjustes = OtrosAjustes(concepto: string, valor: string)

  datatype QuoteState = QuoteState(
    nombreCliente: string,
    logoCliente: Option<string>,
    serviciosSeleccionados: seq<ServicioSeleccionado>,
    suplementosPeso: seq<Suplemento>,
    suplementosDimensiones: seq<Suplemento>,
    serviciosAdicionales: seq<ServicioAdicional>,
    otrosAjustes: OtrosAjustes)

  /** `getInitialState`: the named client and nothing quoted. */
  function InitialState(clientName: string): QuoteState
  {
    QuoteState(clientName, None, [], [], [], [], OtrosAjustes("", ""))
  }

  /** A partial record merged over a line (`{ ...line, ...patch }`): None leaves a field as it was. */
  datatype ServicioPatch = ServicioPatch(servicio: Option<string>, peso: Option<int>, cantidad: Option<JsNumber>, precio: Option<JsNumber>)
  datatype SuplementoPatch = SuplementoPatch(descripcion: Option<string>, precio: Option<JsNumber>, cantidad: Option<JsNumber>)
  datatype AdicionalPatch = AdicionalPatch(concepto: Option<string>, precio: Option<JsNumber>, cantidad: Option<JsNumber>)

  function Override<T>(current: T, patch: Option<T>): T
  {
    if patch.Some? then patch.value else current
  }

  function PatchServicio(s: ServicioSeleccionado, p: ServicioPatch): ServicioSeleccionado
  {
    ServicioSeleccionado(Override(s.servicio, p.servicio), Override(s.peso, p.peso),
                         Override(s.cantidad, p.cantidad), Override(s.precio, p.precio))
  }

  function PatchSuplemento(s: Suplemento, p: SuplementoPatch): Suplemento
  {
    Suplemento(Override(s.descripcion, p.descripcion), Override(s.precio, p.precio), Override(s.cantidad, p.cantidad))
  }

  function PatchAdicional(s: ServicioAdicional, p: AdicionalPatch): ServicioAdicional
  {
    ServicioAdicional(Override(s.concepto, p.concepto), Override(s.precio, p.precio), Override(s.cantidad, p.cantidad))
  }

  // ----- list edits shared by the four ledgers -----

  /** `list.filter((_, i) => i !== index)`: drops the line at `index`, if there is one. */
  function RemoveAt<T>(s: seq<T>, index: int): (r: seq<T>)
    ensures 0 <= index < |s| ==> r == s[..index] + s[index + 1..]
    ensures !(0 <= index < |s|) ==> r == s
  {
    if s == [] then []
    else (if index == 0 then [] else [s[0]]) + RemoveAt(s[1..], index - 1)
  }

  /** `list.map((x, i) => i === index ? f(x) : x)`: changes the line at `index` only. */
  function MapAt<T>(s: seq<T>, index: int, f: T -> T): (r: seq<T>)
    ensures |r| == |s|
    ensures forall i :: 0 <= i < |s| && i != index ==> r[i] == s[i]
    ensures 0 <= index < |s| ==> r[index] == f(s[index])
  {
    if s == [] then []
    else [if index == 0 then f(s[0]) else s[0]] + MapAt(s[1..], index - 1, f)
  }

  // ----- the estimated total -----

  /** `Number.isFinite(x) ? x : 0`. */
  function FiniteOrZero(n: JsNumber): real
  {
    if n.Finite? then n.value else 0.0
  }

  function LineAmount(precio: JsNumber, cantidad: JsNumber): real
  {
    FiniteOrZero(precio) * FiniteOrZero(cantidad)
  }

  function ServicioAmount(s: ServicioSeleccionado): real { LineAmount(s.precio, s.cantidad) }
  function SuplementoAmount(s: Suplemento): real { LineAmount(s.precio, s.cantidad) }
  function AdicionalAmount(s: ServicioAdicional): real { LineAmount(s.precio, s.cantidad) }

  /** The amounts of a ledger added up in list order, as `forEach` accumulates them. */
  function SumOf<T>(s: seq<T>, amount: T -> real): real
  {
    if s == [] then 0.0 else SumOf(s[..|s| - 1], amount) + amount(s[|s| - 1])
  }

  lemma {:induction false} SumOfConcat<T>(a: seq<T>, b: seq<T>, amount: T -> real)
    ensures SumOf(a + b, amount) == SumOf(a, amount) + SumOf(b, amount)
    decreases |b|
  {
    if b == [] {
      assert a + b == a;
    } else {
      assert (a + b)[..|a + b| - 1] == a + b[..|b| - 1];
      SumOfConcat(a, b[..|b| - 1], amount);
    }
  }

  /** Deleting a line takes exactly that line's amount off the ledger's sum. */
  lemma RemoveAtSubtractsLine<T>(s: seq<T>, index: int, amount: T -> real)
    requires 0 <= index < |s|
    ensures SumOf(RemoveAt(s, index), amount) == SumOf(s, amount) - amount(s[index])
  {
    var a, x, b := s[..index], s[index], s[index + 1..];
    assert s == (a + [x]) + b;
    SumOfConcat(a + [x], b, amount);
    SumOfAppend(a, x, amount);
    SumOfConcat(a, b, amount);
  }

  /** Appending a line adds its amount. */
  lemma SumOfAppend<T>(s: seq<T>, x: T, amount: T -> real)
    ensures SumOf(s + [x], amount) == SumOf(s, amount) + amount(x)
  {
    assert (s + [x])[..|s|] == s;
  }

  /** The sum of a ledger does not depend on the order of its lines. */
  lemma {:induction false} SumOfPermutation<T>(s: seq<T>, t: seq<T>, amount: T -> real)
    requires multiset(s) == multiset(t)
    ensures SumOf(s, amount) == SumOf(t, amount)
    decreases |s|
  {
    if s != [] {
      var init, x := s[..|s| - 1], s[|s| - 1];
      assert s == init + [x];
      assert x in multiset(t);
      var j :| 0 <= j < |t| && t[j] == x;
      var t' := RemoveAt(t, j);
      assert t == t[..j] + [x] + t[j + 1..];
      assert t' == t[..j] + t[j + 1..];
      assert multiset(t') == multiset(t) - multiset{x};
      assert multiset(init) == multiset(s) - multiset{x};
      SumOfPermutation(init, t', amount);
      RemoveAtSubtractsLine(t, j, amount);
    }
  }

  /** The sum of the four ledgers. */
  function LinesSum(st: QuoteState): real
  {
    SumOf(st.serviciosSeleccionados, ServicioAmount) + SumOf(st.suplementosPeso, SuplementoAmount)
    + SumOf(st.suplementosDimensiones, SuplementoAmount) + SumOf(st.serviciosAdicionales, AdicionalAmount)
  }

  /** The text read in place of an empty adjustment. */
  const ZeroText: string := "0"

  /** `parseFloat(valor || '0')`. */
  function AdjustmentValue(valor: string): JsNumber
  {
    ParseFloat(if valor == "" then ZeroText else valor)
  }

  /** `totalEstimado` before `toFixed(2)`: the ledgers plus the adjustment, which is skipped when NaN. */
  function TotalOf(st: QuoteState): JsNumber
  {
    AddAdjustment(LinesSum(st), AdjustmentValue(st.otrosAjustes.valor))
  }

  /** `if (!Number.isNaN(otros)) total += otros`. */
  function AddAdjustment(lines: real, otros: JsNumber): JsNumber
  {
    match otros
    case Finite(v) => Finite(lines + v)
    case NaN => Finite(lines)
    case PosInfinity => PosInfinity
    case NegInfinity => NegInfinity
  }

  /** A fresh or reset quote totals 0. */
  lemma InitialTotalIsZero(clientName: string)
    ensures TotalOf(InitialState(clientName)) == Finite(0.0)
  {
    ParseFloatZero();
  }

  /** Reordering the lines of the ledgers leaves the total as it was. */
  lemma TotalIgnoresLineOrder(st: QuoteState, st': QuoteState)
    requires st'.otrosAjustes == st.otrosAjustes
    requires multiset(st'.serviciosSeleccionados) == multiset(st.serviciosSeleccionados)
    requires multiset(st'.suplementosPeso) == multiset(st.suplementosPeso)
    requires multiset(st'.suplementosDimensiones) == multiset(st.suplementosDimensiones)
    requires multiset(st'.serviciosAdicionales) == multiset(st.serviciosAdicionales)
    ensures TotalOf(st') == TotalOf(st)
  {
    SumOfPermutation(st'.serviciosSeleccionados, st.serviciosSeleccionados, ServicioAmount);
    SumOfPermutation(st'.suplementosPeso, st.suplementosPeso, SuplementoAmount);
    SumOfPermutation(st'.suplementosDimensiones, st.suplementosDimensiones, SuplementoAmount);
    SumOfPermutation(st'.serviciosAdicionales, st.serviciosAdicionales, AdicionalAmount);
  }

  /** Adding a service line raises the ledgers' sum by that line's amount. */
  lemma AddedServiceRaisesSum(st: QuoteState, line: ServicioSeleccionado)
    ensures LinesSum(st.(serviciosSeleccionados := st.serviciosSeleccionados + [line]))
         == LinesSum(st) + ServicioAmount(line)
  {
    SumOfAppend(st.serviciosSeleccionados, line, ServicioAmount);
  }

  /** Deleting a service line lowers the ledgers' sum by that line's amount. */
  lemma RemovedServiceLowersSum(st: QuoteState, index: int)
    requires 0 <= index < |st.serviciosSeleccionados|
    ensures LinesSum(st.(serviciosSeleccionados := RemoveAt(st.serviciosSeleccionados, index)))
         == LinesSum(st) - ServicioAmount(st.serviciosSeleccionados[index])
  {
    RemoveAtSubtractsLine(st.serviciosSeleccionados, index, ServicioAmount);
  }

  /** With the same adjustment, a change in the ledgers' sum moves a finite total by as much. */
  lemma TotalFollowsLines(st: QuoteState, st': QuoteState, delta: real)
    requires TotalOf(st).Finite? && st'.otrosAjustes == st.otrosAjustes
    requires LinesSum(st') == LinesSum(st) + delta
    ensures TotalOf(st') == Finite(TotalOf(st).value + delta)
  {
    var otros := AdjustmentValue(st.otrosAjustes.valor);
    assert TotalOf(st) == AddAdjustment(LinesSum(st), otros);
    assert TotalOf(st') == AddAdjustment(LinesSum(st'), otros);
  }

  // ----- what the edit boxes write -----

  /** The quantity boxes: `parseInt(text, 10)` when it is a positive number, 1 otherwise. */
  function CoerceCantidad(text: string): (n: JsNumber)
    ensures n.Finite? && n.value >= 1.0 && n.value == n.value.Floor as real
    ensures ParseInt(text).Some? && ParseInt(text).value > 0 ==> n == Finite(ParseInt(text).value as real)
  {
    var p := ParseInt(text);
    if p.Some? && p.value > 0 then Finite(p.value as real) else Finite(1.0)
  }

  /** Typing the numeral of a positive quantity stores that quantity. */
  lemma CantidadOfNumeral(k: nat)
    requires k > 0
    ensures CoerceCantidad(NatToString(k)) == Finite(k as real)
  {
    ParseIntOfNumeral(k);
  }

  /** The price boxes: `parseFloat(text)` when it is finite, 0 otherwise. */
  function CoercePrecio(text: string): (n: JsNumber)
    ensures n.Finite?
    ensures ParseFloat(text).Finite? ==> n == ParseFloat(text)
    ensures !ParseFloat(text).Finite? ==> n == Finite(0.0)
  {
    var p := ParseFloat(text);
    if p.Finite? then p else Finite(0.0)
  }

  /** `'–'`, the dash the "Servicio" box writes between the service and the weight. */
  const EnDash: char := '\U{2013}'

  /** What the "Servicio" box shows for a line: `${servicio} – ${peso} kg`. */
  function ServicioText(s: ServicioSeleccionado): string
  {
    s.servicio + " " + [EnDash] + " " + IntToString(s.peso) + " kg"
  }

  /** `text.match(/\d+/)`: the first run of digits, if any. */
  function FirstDigits(text: string): (r: Option<string>)
    ensures r.Some? ==> |r.value| > 0 && AllDigits(r.value)
    ensures r.None? <==> forall i :: 0 <= i < |text| ==> !IsDigit(text[i])
  {
    if text == [] then None
    else if IsDigit(text[0]) then Some(text[..DigitRun(text)])
    else FirstDigits(text[1..])
  }

  /**
   * The "Servicio" box's change handler: with at least two dash-separated parts it sets the
   * service to the trimmed first part (kept as it was when that is empty) and the weight to the
   * first number of the second part (kept when there is none); otherwise it changes nothing.
   */
  function ServicioTextPatch(current: ServicioSeleccionado, text: string): (p: Option<ServicioPatch>)
    ensures p.Some? <==> EnDash in text
    ensures p.Some? ==> p.value.cantidad.None? && p.value.precio.None?
    ensures p.Some? ==> p.value.servicio.Some? && (current.servicio != "" ==> p.value.servicio.value != "")
    ensures p.Some? ==> p.value.peso.Some? && (p.value.peso.value >= 0 || p.value.peso.value == current.peso)
  {
    var partes := Split(text, EnDash);
    if |partes| >= 2 then
      Some(ServicioPatch(Some(ServicioFromText(current, partes[0])), Some(PesoFromText(current, partes[1])), None, None))
    else
      assert EnDash !in text by {
        if EnDash in text {
          SplitHead(text, EnDash);
        }
      }
      None
  }

  /** `partes[0]?.trim() || s.servicio`. */
  function ServicioFromText(current: ServicioSeleccionado, part: string): (srv: string)
    ensures current.servicio != "" ==> srv != ""
  {
    var trimmed := Trim(part);
    if trimmed != "" then trimmed else current.servicio
  }

  /** The first number in `part` (`parseInt` of the first `/\d+/` match), or the current weight. */
  function PesoFromText(current: ServicioSeleccionado, part: string): (peso: int)
    ensures peso >= 0 || peso == current.peso
  {
    var m := FirstDigits(part);
    if m.Some? then
      ParseIntOfDigits(m.value);
      ParseInt(m.value).value
    else current.peso
  }

  /**
   * Reading back what the "Servicio" box shows for a line changes nothing: the patch it
   * builds restores the same service and weight.
   */
  lemma ServicioTextRoundTrip(l: ServicioSeleccionado)
    requires l.peso >= 0 && EnDash !in l.servicio && Trim(l.servicio) == l.servicio
    ensures ServicioTextPatch(l, ServicioText(l)) == Some(ServicioPatch(Some(l.servicio), Some(l.peso), None, None))
  {
    var head, tail := l.servicio + " ", " " + NatToString(l.peso) + " kg";
    ServicioTextParts(l);
    TrimOfPaddedWord(l.servicio);
    PesoOfShownWeight(l);
    assert ServicioTextPatch(l, ServicioText(l))
        == Some(ServicioPatch(Some(ServicioFromText(l, head)), Some(PesoFromText(l, tail)), None, None));
  }

  /** The weight part the box shows reads back as the line's weight. */
  lemma PesoOfShownWeight(l: ServicioSeleccionado)
    requires l.peso >= 0
    ensures PesoFromText(l, " " + NatToString(l.peso) + " kg") == l.peso
  {
    var digits := NatToString(l.peso);
    var tail := " " + digits + " kg";
    assert tail[1..] == digits + " kg";
    DigitRunOfNumeral(digits, " kg");
    assert FirstDigits(tail) == Some(digits);
    ParseIntOfNumeral(l.peso);
  }

  /** The text the "Servicio" box shows splits at its one dash into the service and the weight. */
  lemma ServicioTextParts(l: ServicioSeleccionado)
    requires l.peso >= 0 && EnDash !in l.servicio
    ensures Split(ServicioText(l), EnDash) == [l.servicio + " ", " " + NatToString(l.peso) + " kg"]
  {
    var head := l.servicio + " ";
    var tail := " " + NatToString(l.peso) + " kg";
    var text := ServicioText(l);
    assert text == head + [EnDash] + tail;
    assert text[..|head|] == head && text[|head|] == EnDash;
    IndexOfFirst(text, EnDash, |head|);
    assert text[|head| + 1..] == tail;
    assert EnDash !in tail by {
      assert forall i :: 0 <= i < |tail| ==> tail[i] == ' ' || IsDigit(tail[i]) || tail[i] == 'k' || tail[i] == 'g';
    }
  }

  /** `IndexOf` finds the first occurrence. */
  lemma IndexOfFirst(s: string, c: char, k: nat)
    requires k < |s| && s[k] == c && c !in s[..k]
    ensures c in s && IndexOf(s, c) == k
  {
    assert s[k] in s;
  }

  /** A word without outer white space, followed by one blank, trims back to the word. */
  lemma TrimOfPaddedWord(w: string)
    requires Trim(w) == w
    ensures Trim(w + " ") == w
  {
    if w != [] {
      assert !IsJsSpace(w[0]) && !IsJsSpace(w[|w| - 1]);
      TrimStartOfUnspaced(w + " ");
      TrimEndOfSpaceSuffix(w);
      TrimEndOfUnspaced(w);
    } else {
      assert TrimStart(" ") == "";
    }
  }

  /** A run of digits followed by a non-digit is read whole. */
  lemma DigitRunOfNumeral(digits: string, after: string)
    requires AllDigits(digits) && |digits| > 0 && after != [] && !IsDigit(after[0])
    ensures FirstDigits(digits + after) == Some(digits)
  {
    var s := digits + after;
    DigitRunPrefix(digits, after);
    assert s[..|digits|] == digits;
  }

  lemma {:induction false} DigitRunPrefix(digits: string, after: string)
    requires AllDigits(digits) && (after == [] || !IsDigit(after[0]))
    ensures DigitRun(digits + after) == |digits|
  {
    if digits != [] {
      assert (digits + after)[1..] == digits[1..] + after;
      DigitRunPrefix(digits[1..], after);
    } else {
      assert digits + after == after;
    }
  }

  /** The regular expression `/^-?\d*\.?\d*$/` the adjustment box accepts. */
  predicate AdjustmentPattern(v: string)
  {
    var u := if StartsWith(v, "-") then v[1..] else v;
    var rest := u[DigitRun(u)..];
    rest == [] || (rest[0] == '.' && AllDigits(rest[1..]))
  }

  predicate HasDigit(s: string)
  {
    exists i :: 0 <= i < |s| && IsDigit(s[i])
  }

  /**
   * Whatever the adjustment box accepts never makes the total infinite: it reads as a finite
   * number, or as NaN (skipped) exactly when it holds no digit, such as "-" or ".".
   */
  lemma AcceptedAdjustmentIsFinite(v: string)
    requires v == "" || AdjustmentPattern(v)
    ensures AdjustmentValue(v).Finite? || AdjustmentValue(v).NaN?
    ensures AdjustmentValue(v).NaN? <==> v != "" && !HasDigit(v)
  {
    if v == "" {
      ParseFloatZero();
    } else {
      var u := if StartsWith(v, "-") then v[1..] else v;
      AcceptedAdjustmentIsDecimal(v, u);
      AcceptedNumeral(v, u);
    }
  }

  /** An accepted non-empty adjustment is read as a signed decimal literal, never as `Infinity`. */
  lemma AcceptedAdjustmentIsDecimal(v: string, u: string)
    requires v != "" && AdjustmentPattern(v) && u == (if StartsWith(v, "-") then v[1..] else v)
    ensures !StartsWithInfinity(u)
    ensures ParseFloat(v) == SignedDecimal(SignOf(v).0, u)
  {
    assert v[0] == '-' || IsDigit(v[0]) || v[0] == '.';
    assert !IsJsSpace(v[0]);
    TrimStartOfUnspaced(v);
    assert SignOf(v).1 == u;
    assert u == [] || IsDigit(u[0]) || u[0] == '.';
  }

  /** After the optional minus, an accepted adjustment starts with a numeral iff it holds a digit. */
  lemma AcceptedNumeral(v: string, u: string)
    requires AdjustmentPattern(v) && u == (if StartsWith(v, "-") then v[1..] else v)
    ensures StartsWithNumeral(u) <==> HasDigit(v)
  {
    var n1 := DigitRun(u);
    var rest := u[n1..];
    if rest != [] {
      AllDigitsRun(rest[1..]);
    }
    if HasDigit(v) {
      var i :| 0 <= i < |v| && IsDigit(v[i]);
      var k := |v| - |u|;
      assert IsDigit(u[i - k]);
      if n1 == 0 {
        assert rest == u && |rest| > 1;
      }
    }
    if StartsWithNumeral(u) {
      var k := |v| - |u|;
      if n1 > 0 {
        assert IsDigit(v[k]);
      } else {
        assert IsDigit(v[k + 1]);
      }
    }
  }

  /** The record satisfies what the adjustment box enforces on every edit. */
  lemma AcceptedAdjustmentKeepsTotalFinite(st: QuoteState)
    requires st.otrosAjustes.valor == "" || AdjustmentPattern(st.otrosAjustes.valor)
    ensures TotalOf(st).Finite?
  {
    AcceptedAdjustmentIsFinite(st.otrosAjustes.valor);
  }

  // ----- PDF file name and e-mail items -----

  /**
   * The client part of the PDF file name:
   * `'-' + name.toLowerCase().replace(/[^a-z0-9]+/gi, '-').replace(/^-+|-+$/g, '')`, that is '-'
   * and the words of the lower-cased name joined by single dashes.
   */
  function ExpressSlug(nombreCliente: string): (slug: string)
    ensures nombreCliente == "" ==> slug == ""
    ensures nombreCliente != "" ==> |slug| >= 1 && slug[0] == '-'
    ensures nombreCliente != "" ==>
      var body := slug[1..];
      SlugChars(body) && NoDoubleDash(body) && (body == [] || (body[0] != '-' && body[|body| - 1] != '-'))
      && Alnums(body) == Alnums(ToLower(nombreCliente))
    ensures nombreCliente != "" ==> slug == "-" + Join(Words(ToLower(nombreCliente)), '-')
  {
    if nombreCliente == "" then ""
    else
      StripReplacedIsJoin(ToLower(nombreCliente));
      "-" + StripEdgeDashes(ReplaceNonAlnumRuns(ToLower(nombreCliente)))
  }

  function PdfFileName(nombreCliente: string): string
  {
    "tarifario-mensajeria-express-2026" + ExpressSlug(nombreCliente) + ".pdf"
  }

  /** A client name of lower-case letters and digits appears in the file name as it is. */
  lemma SlugOfPlainName(nombreCliente: string)
    requires nombreCliente != [] && forall i :: 0 <= i < |nombreCliente| ==> IsLower(nombreCliente[i]) || IsDigit(nombreCliente[i])
    ensures ExpressSlug(nombreCliente) == "-" + nombreCliente
  {
    assert ToLower(nombreCliente) == nombreCliente;
    ReplaceKeepsAlnumText(nombreCliente);
    assert StripLeadingDashes(nombreCliente) == nombreCliente;
    assert StripTrailingDashes(nombreCliente) == nombreCliente;
  }

  lemma {:induction false} ReplaceKeepsAlnumText(s: string)
    requires forall i :: 0 <= i < |s| ==> IsAlnum(s[i])
    ensures ReplaceNonAlnumRuns(s) == s
  {
    if s != [] {
      ReplaceKeepsAlnumText(s[1..]);
    }
  }

  /** The price of an e-mailed item: a number, or the adjustment text as typed. */
  datatype EmailPrice = PriceNumber(n: JsNumber) | PriceText(text: string)
  datatype EmailItem = EmailItem(nombre: string, cantidad: JsNumber, precio: EmailPrice)

  function ServicioItem(s: ServicioSeleccionado): EmailItem
  {
    EmailItem(s.servicio + " (" + IntToString(s.peso) + "kg)", s.cantidad, PriceNumber(s.precio))
  }

  function SuplementoItem(s: Suplemento): EmailItem { EmailItem(s.descripcion, s.cantidad, PriceNumber(s.precio)) }
  function AdicionalItem(s: ServicioAdicional): EmailItem { EmailItem(s.concepto, s.cantidad, PriceNumber(s.precio)) }

  function Map<T, U>(s: seq<T>, f: T -> U): (r: seq<U>)
    ensures |r| == |s| && forall i :: 0 <= i < |s| ==> r[i] == f(s[i])
  {
    seq(|s|, i requires 0 <= i < |s| => f(s[i]))
  }

  function LineCount(st: QuoteState): nat
  {
    |st.serviciosSeleccionados| + |st.suplementosPeso| + |st.suplementosDimensiones| + |st.serviciosAdicionales|
  }

  /** The item lines of the quote e-mail, one per ledger line, in ledger order. */
  function LineItems(st: QuoteState): seq<EmailItem>
  {
    Map(st.serviciosSeleccionados, ServicioItem) + Map(st.suplementosPeso, SuplementoItem)
    + Map(st.suplementosDimensiones, SuplementoItem) + Map(st.serviciosAdicionales, AdicionalItem)
  }

  /**
   * `itemsEmail`: the ledger lines, then the adjustment as one more item when its concept or
   * its value is filled in, named after the concept or `defaultLabel`, quantity 1.
   */
  function ItemsEmail(st: QuoteState, defaultLabel: string): (items: seq<EmailItem>)
    ensures var hasAdjustment := st.otrosAjustes.concepto != "" || st.otrosAjustes.valor != "";
      |items| == LineCount(st) + (if hasAdjustment then 1 else 0)
      && items[..LineCount(st)] == LineItems(st)
      && (hasAdjustment ==>
            items[LineCount(st)] == EmailItem(
              if st.otrosAjustes.concepto != "" then st.otrosAjustes.concepto else defaultLabel,
              Finite(1.0),
              if st.otrosAjustes.valor != "" then PriceText(st.otrosAjustes.valor) else PriceNumber(Finite(0.0))))
  {
    var lines := LineItems(st);
    var a := st.otrosAjustes;
    if a.concepto != "" || a.valor != "" then
      lines + [EmailItem(if a.concepto != "" then a.concepto else defaultLabel, Finite(1.0),
                         if a.valor != "" then PriceText(a.valor) else PriceNumber(Finite(0.0)))]
    else lines
  }

  function ItemAmount(it: EmailItem): real
  {
    if it.precio.PriceNumber? then LineAmount(it.precio.n, it.cantidad) else 0.0
  }

  lemma {:induction false} SumOfMap<T>(s: seq<T>, toItem: T -> EmailItem, amount: T -> real)
    requires forall x :: ItemAmount(toItem(x)) == amount(x)
    ensures SumOf(Map(s, toItem), ItemAmount) == SumOf(s, amount)
    decreases |s|
  {
    if s != [] {
      assert Map(s, toItem)[..|s| - 1] == Map(s[..|s| - 1], toItem);
      SumOfMap(s[..|s| - 1], toItem, amount);
    }
  }

  /** The e-mailed line items carry exactly the amounts the total adds up from the ledgers. */
  lemma EmailItemsCarryLineAmounts(st: QuoteState)
    ensures SumOf(LineItems(st), ItemAmount) == LinesSum(st)
  {
    var a := Map(st.serviciosSeleccionados, ServicioItem);
    var b := Map(st.suplementosPeso, SuplementoItem);
    var c := Map(st.suplementosDimensiones, SuplementoItem);
    var d := Map(st.serviciosAdicionales, AdicionalItem);
    SumOfConcat(a + b + c, d, ItemAmount);
    SumOfConcat(a + b, c, ItemAmount);
    SumOfConcat(a, b, ItemAmount);
    SumOfMap(st.serviciosSeleccionados, ServicioItem, ServicioAmount);
    SumOfMap(st.suplementosPeso, SuplementoItem, SuplementoAmount);
    SumOfMap(st.suplementosDimensiones, SuplementoItem, SuplementoAmount);
    SumOfMap(st.serviciosAdicionales, AdicionalItem, AdicionalAmount);
  }

  // ----- the component -----

  /** The largest logo file the sheet takes: 5 MiB. */
  const MaxLogoBytes: int := 5 * 1024 * 1024

  class ExpressSheet {
    var nombreCliente: string
    var logoCliente: Option<string>
    var serviciosSeleccionados: seq<ServicioSeleccionado>
    var suplementosPeso: seq<Suplemento>
    var suplementosDimensiones: seq<Suplemento>
    var serviciosAdicionales: seq<ServicioAdicional>
    var otrosAjustes: OtrosAjustes

    function State(): QuoteState
      reads this
    {
      QuoteState(nombreCliente, logoCliente, serviciosSeleccionados, suplementosPeso,
                 suplementosDimensiones, serviciosAdicionales, otrosAjustes)
    }

    /** A missing `nombreCliente` property is passed as "". */
    constructor (nombreClienteProp: string)
      ensures State() == InitialState(nombreClienteProp)
    {
      nombreCliente := nombreClienteProp;
      logoCliente := None;
      serviciosSeleccionados := [];
      suplementosPeso := [];
      suplementosDimensiones := [];
      serviciosAdicionales := [];
      otrosAjustes := OtrosAjustes("", "");
    }

    /** `handleReset` (the parent's `resetear`): back to the initial record for the current property. */
    method HandleReset(nombreClienteProp: string)
      modifies this
      ensures State() == InitialState(nombreClienteProp)
    {
      nombreCliente := nombreClienteProp;
      logoCliente := None;
      serviciosSeleccionados := [];
      suplementosPeso := [];
      suplementosDimensiones := [];
      serviciosAdicionales := [];
      otrosAjustes := OtrosAjustes("", "");
    }

    /** The effect on a new `nombreCliente` property: it fills in the name only while the name is blank. */
    method SyncNombreCliente(nombreClienteProp: string)
      modifies this
      ensures State() == if nombreClienteProp != "" && Trim(old(nombreCliente)) == ""
                         then old(State()).(nombreCliente := nombreClienteProp)
                         else old(State())
    {
      if nombreClienteProp != "" && Trim(nombreCliente) == "" {
        nombreCliente := nombreClienteProp;
      }
    }

    method SetNombreCliente(text: string)
      modifies this
      ensures State() == old(State()).(nombreCliente := text)
    {
      nombreCliente := text;
    }

    /**
     * `handleLogoClienteChange`: a file over 5 MiB is refused with an alert; otherwise the
     * reader's outcome decides. `readResult` is `reader.result`: the data URL, or None (`null`)
     * after a read error, which alerts and is still stored by `onloadend`, clearing the logo.
     * `fileSize` is None when no file was picked.
     */
    method CargarLogo(fileSize: Option<int>, readResult: Option<string>) returns (alerted: bool)
      modifies this
      ensures alerted <==> fileSize.Some? && (fileSize.value > MaxLogoBytes || readResult.None?)
      ensures State() == if fileSize.Some? && fileSize.value <= MaxLogoBytes
                         then old(State()).(logoCliente := readResult)
                         else old(State())
    {
      alerted := false;
      if fileSize.None? {
        return;
      }
      if fileSize.value > MaxLogoBytes {
        alerted := true;
        return;
      }
      if readResult.None? {
        alerted := true;
      }
      logoCliente := readResult;
    }

    method EliminarLogoCliente()
      modifies this
      ensures State() == old(State()).(logoCliente := None)
    {
      logoCliente := None;
    }

    /**
     * `agregarServicio`: a line of quantity 1 at the tariff price; a same-day ("HOY") request,
     * which has no price, only raises the "contact us" alert.
     */
    method AgregarServicio(servicio: string, peso: int) returns (alerted: bool)
      modifies this
      ensures alerted <==> servicio == "HOY"
      ensures State() == if alerted then old(State())
        else old(State()).(serviciosSeleccionados := old(serviciosSeleccionados)
               + [ServicioSeleccionado(servicio, peso, Finite(1.0), Finite(CalcularPrecioEnvio(servicio, peso as real)))])
    {
      var precio := CalcularPrecioEnvio(servicio, peso as real);
      if precio == 0.0 && servicio == "HOY" {
        return true;
      }
      serviciosSeleccionados := serviciosSeleccionados + [ServicioSeleccionado(servicio, peso, Finite(1.0), Finite(precio))];
      return false;
    }

    method AgregarSuplementoPeso(descripcion: string, precio: real)
      modifies this
      ensures State() == old(State()).(suplementosPeso := old(suplementosPeso) + [Suplemento(descripcion, Finite(precio), Finite(1.0))])
    {
      suplementosPeso := suplementosPeso + [Suplemento(descripcion, Finite(precio), Finite(1.0))];
    }

    /** The size surcharge is described as `Suplemento ${rango}`. */
    method AgregarSuplementoDimension(rango: string, precio: real)
      modifies this
      ensures State() == old(State()).(suplementosDimensiones := old(suplementosDimensiones)
                           + [Suplemento("Suplemento " + rango, Finite(precio), Finite(1.0))])
    {
      suplementosDimensiones := suplementosDimensiones + [Suplemento("Suplemento " + rango, Finite(precio), Finite(1.0))];
    }

    method AgregarServicioAdicional(concepto: string, precio: real)
      modifies this
      ensures State() == old(State()).(serviciosAdicionales := old(serviciosAdicionales)
                           + [ServicioAdicional(concepto, Finite(precio), Finite(1.0))])
    {
      serviciosAdicionales := serviciosAdicionales + [ServicioAdicional(concepto, Finite(precio), Finite(1.0))];
    }

    method EliminarServicio(index: int)
      modifies this
      ensures State() == old(State()).(serviciosSeleccionados := RemoveAt(old(serviciosSeleccionados), index))
    {
      serviciosSeleccionados := RemoveAt(serviciosSeleccionados, index);
    }

    method EliminarSuplementoPeso(index: int)
      modifies this
      ensures State() == old(State()).(suplementosPeso := RemoveAt(old(suplementosPeso), index))
    {
      suplementosPeso := RemoveAt(suplementosPeso, index);
    }

    method EliminarSuplementoDimension(index: int)
      modifies this
      ensures State() == old(State()).(suplementosDimensiones := RemoveAt(old(suplementosDimensiones), index))
    {
      suplementosDimensiones := RemoveAt(suplementosDimensiones, index);
    }

    method EliminarServicioAdicional(index: int)
      modifies this
      ensures State() == old(State()).(serviciosAdicionales := RemoveAt(old(serviciosAdicionales), index))
    {
      serviciosAdicionales := RemoveAt(serviciosAdicionales, index);
    }

    method ActualizarServicio(index: int, patch: ServicioPatch)
      modifies this
      ensures State() == old(State()).(serviciosSeleccionados :=
                           MapAt(old(serviciosSeleccionados), index, s => PatchServicio(s, patch)))
    {
      serviciosSeleccionados := MapAt(serviciosSeleccionados, index, s => PatchServicio(s, patch));
    }

    method ActualizarSuplementoPeso(index: int, patch: SuplementoPatch)
      modifies this
      ensures State() == old(State()).(suplementosPeso := MapAt(old(suplementosPeso), index, s => PatchSuplemento(s, patch)))
    {
      suplementosPeso := MapAt(suplementosPeso, index, s => PatchSuplemento(s, patch));
    }

    method ActualizarSuplementoDimension(index: int, patch: SuplementoPatch)
      modifies this
      ensures State() == old(State()).(suplementosDimensiones :=
                           MapAt(old(suplementosDimensiones), index, s => PatchSuplemento(s, patch)))
    {
      suplementosDimensiones := MapAt(suplementosDimensiones, index, s => PatchSuplemento(s, patch));
    }

    method ActualizarServicioAdicional(index: int, patch: AdicionalPatch)
      modifies this
      ensures State() == old(State()).(serviciosAdicionales :=
                           MapAt(old(serviciosAdicionales), index, s => PatchAdicional(s, patch)))
    {
      serviciosAdicionales := MapAt(serviciosAdicionales, index, s => PatchAdicional(s, patch));
    }

    method SetAjusteConcepto(text: string)
      modifies this
      ensures State() == old(State()).(otrosAjustes := old(otrosAjustes).(concepto := text))
    {
      otrosAjustes := otrosAjustes.(concepto := text);
    }

    /** The adjustment box keeps an edit only when it is empty or matches `/^-?\d*\.?\d*$/`. */
    method SetAjusteValor(text: string) returns (accepted: bool)
      modifies this
      ensures accepted <==> text == "" || AdjustmentPattern(text)
      ensures State() == if accepted then old(State()).(otrosAjustes := old(otrosAjustes).(valor := text)) else old(State())
    {
      accepted := text == "" || AdjustmentPattern(text);
      if accepted {
        otrosAjustes := otrosAjustes.(valor := text);
      }
    }

    /** `totalEstimado`: the four ledgers accumulated in order, then the adjustment. */
    method TotalEstimado() returns (total: JsNumber)
      ensures total == TotalOf(State())
    {
      var sum := SumLoop(serviciosSeleccionados, ServicioAmount);
      var sumPeso := SumLoop(suplementosPeso, SuplementoAmount);
      var sumDim := SumLoop(suplementosDimensiones, SuplementoAmount);
      var sumAd := SumLoop(serviciosAdicionales, AdicionalAmount);
      assert LinesSum(State()) == sum + sumPeso + sumDim + sumAd;
      total := AddAdjustment(sum + sumPeso + sumDim + sumAd, AdjustmentValue(otrosAjustes.valor));
    }
  }

  /** One `forEach` of `totalEstimado`: `total += amount(line)` for each line in order. */
  method SumLoop<T>(lines: seq<T>, amount: T -> real) returns (total: real)
    ensures total == SumOf(lines, amount)
  {
    total := 0.0;
    var i := 0;
    while i < |lines|
      invariant 0 <= i <= |lines|
      invariant total == SumOf(lines[..i], amount)
    {
      assert lines[..i + 1][..i] == lines[..i];
      total := total + amount(lines[i]);
      i := i + 1;
    }
    assert lines[..i] == lines;
  }
}
