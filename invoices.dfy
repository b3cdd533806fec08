/**
 * The invoice ledger ("facturas"): line items, totals with the percentage
 * discount, sequential numbering, the pending/partial/paid state, payments
 * ("pagos") and the reversal of the last payment ("reversiones").
 * Money is exact (`real`); the source's 0.01 rounding slack is `Tolerance`.
 */
module Invoices {
  import opened Wrappers
  import opened Text
  import Agenda

  /** The slack `confirmarPago` allows above the pending balance. */
  const Tolerance: real := 0.01

  datatype PayMethod = Efectivo | Tarjeta | Transferencia

  datatype Payment = Payment(id: string, monto: real, metodo: PayMethod, fecha: int, comprobante: Option<string>)

  datatype InvoiceState = Pendiente | Partial | Pagada

  /** A procedure line: `cantidad` units at `precioUnitario` each. */
  datatype LineItem = LineItem(id: string, descripcion: string, cantidad: int, precioUnitario: real)

  /** A lab order attached to an invoice before it is created; only `precio` is billed. */
  datatype LabLine = LabLine(
    id: string, tipo: string, dientes: string, descripcion: string, laboratorio: string,
    precio: real, costo: real)

  /** A discount percentage as the discount slider offers it. */
  type Percent = d: real | 0.0 <= d <= 100.0

  datatype Invoice = Invoice(
    id: string,
    numero: string,
    fecha: int,
    paciente: string,
    pacienteId: Option<string>,
    procedimientos: seq<LineItem>,
    ordenesLab: seq<LabLine>,
    subtotal: real,
    descuento: Percent,
    total: real,
    profesional: string,
    estado: InvoiceState,
    pagos: seq<Payment>,
    notas: string,
    tieneOrdenesLab: bool,
    citaId: Option<string>,
    citaHora: Option<Agenda.TimeOfDay>,
    citaMotivo: Option<string>)

  // ---------------------------------------------------------------------
  // Line items
  // ---------------------------------------------------------------------

  datatype LineItemError = MissingFields | NegativePrice | NonPositiveQuantity

  /** The line items `agregarProcedimiento` lets into the draft. */
  predicate ValidLine(item: LineItem) {
    item.descripcion != [] && item.cantidad > 0 && item.precioUnitario > 0.0
  }

  /**
   * `agregarProcedimiento`: a field that is empty, unparsable (`None`) or zero
   * is reported as missing; then a negative price; then a non-positive
   * quantity. An accepted line is appended to the draft.
   */
  function AddLineItem(draft: seq<LineItem>, id: string, descripcion: string, cantidad: Option<int>, precio: Option<real>)
    : (r: Result<seq<LineItem>, LineItemError>)
    ensures r == Err(MissingFields) <==>
              descripcion == [] || cantidad.None? || cantidad == Some(0) || precio.None? || precio == Some(0.0)
    ensures r.Ok? <==>
              descripcion != [] && cantidad.Some? && cantidad.value > 0 && precio.Some? && precio.value > 0.0
    ensures r.Ok? ==> r.value == draft + [LineItem(id, descripcion, cantidad.value, precio.value)]
                      && ValidLine(r.value[|draft|])
    ensures r == Err(NegativePrice) ==> precio.value < 0.0
    ensures r == Err(NonPositiveQuantity) ==> cantidad.value < 0 && precio.value > 0.0
  {
    if descripcion == [] || cantidad.None? || cantidad == Some(0) || precio.None? || precio == Some(0.0) then
      Err(MissingFields)
    else if precio.value < 0.0 then Err(NegativePrice)
    else if cantidad.value <= 0 then Err(NonPositiveQuantity)
    else Ok(draft + [LineItem(id, descripcion, cantidad.value, precio.value)])
  }

  // ---------------------------------------------------------------------
  // Totals
  // ---------------------------------------------------------------------

  /** Σ cantidad · precioUnitario over the procedure lines. */
  function LinesTotal(items: seq<LineItem>): real {
    if items == [] then 0.0
    else
      var last := items[|items| - 1];
      LinesTotal(items[..|items| - 1]) + (last.cantidad as real) * last.precioUnitario
  }

  /** Σ precio over the lab orders. */
  function LabTotal(labs: seq<LabLine>): real {
    if labs == [] then 0.0 else LabTotal(labs[..|labs| - 1]) + labs[|labs| - 1].precio
  }

  /** Draft lines that were accepted carry a positive amount, so the sum is positive. */
  lemma {:induction false} LinesTotalPositive(items: seq<LineItem>)
    requires forall k :: 0 <= k < |items| ==> ValidLine(items[k])
    ensures items != [] ==> LinesTotal(items) > 0.0
    ensures LinesTotal(items) >= 0.0
  {
    if items != [] {
      var last := items[|items| - 1];
      LinesTotalPositive(items[..|items| - 1]);
      assert (last.cantidad as real) >= 1.0;
      assert (last.cantidad as real) * last.precioUnitario >= last.precioUnitario;
    }
  }

  lemma {:induction false} LabTotalPositive(labs: seq<LabLine>)
    requires forall k :: 0 <= k < |labs| ==> labs[k].precio > 0.0
    ensures labs != [] ==> LabTotal(labs) > 0.0
    ensures LabTotal(labs) >= 0.0
  {
    if labs != [] {
      LabTotalPositive(labs[..|labs| - 1]);
    }
  }

  /** `subtotal · (1 − descuento/100)`: never negative, never above the subtotal. */
  function DiscountedTotal(subtotal: real, descuento: Percent): (t: real)
    ensures subtotal >= 0.0 ==> 0.0 <= t <= subtotal
    ensures descuento == 0.0 ==> t == subtotal
    ensures descuento == 100.0 ==> t == 0.0
  {
    var keep := 1.0 - descuento / 100.0;
    assert 0.0 <= keep <= 1.0;
    assert subtotal >= 0.0 ==> subtotal * keep <= subtotal * 1.0;
    subtotal * keep
  }

  // ---------------------------------------------------------------------
  // Numbering
  // ---------------------------------------------------------------------

  const NumberPrefix: string := "F-"
  const NumberWidth: nat := 4

  /** `parseInt(numero.replace('F-', '')) || 0`. */
  function NumberValue(numero: string): nat {
    ParseLeadingInt(RemoveFirst(numero, NumberPrefix))
  }

  /** The largest of some numbers, 0 for none. */
  function MaxOf(vs: seq<nat>): (m: nat)
    ensures forall i :: 0 <= i < |vs| ==> vs[i] <= m
    ensures m == 0 || m in vs
  {
    if vs == [] then 0
    else
      var front := vs[..|vs| - 1];
      var init := MaxOf(front);
      var v := vs[|vs| - 1];
      assert forall i :: 0 <= i < |front| ==> front[i] == vs[i];
      assert init in front ==> init in vs;
      if v > init then v else init
  }

  /** The `reduce` that takes the largest number in use, starting from 0. */
  function MaxNumber(facturas: seq<Invoice>): (m: nat)
    ensures forall i :: 0 <= i < |facturas| ==> NumberValue(facturas[i].numero) <= m
    ensures m == 0 || exists i :: 0 <= i < |facturas| && NumberValue(facturas[i].numero) == m
  {
    var vs := seq(|facturas|, i requires 0 <= i < |facturas| => NumberValue(facturas[i].numero));
    var m := MaxOf(vs);
    assert forall i :: 0 <= i < |facturas| ==> NumberValue(facturas[i].numero) <= m by {
      forall i | 0 <= i < |facturas| ensures NumberValue(facturas[i].numero) <= m {
        assert vs[i] == NumberValue(facturas[i].numero);
      }
    }
    assert m == 0 || exists i :: 0 <= i < |facturas| && NumberValue(facturas[i].numero) == m by {
      if m != 0 {
        var i :| 0 <= i < |vs| && vs[i] == m;
        assert NumberValue(facturas[i].numero) == m;
      }
    }
    m
  }

  /** `'F-' + String(n).padStart(4, '0')`. */
  function FormatNumber(n: nat): string {
    NumberPrefix + PadStart(DecimalString(n), NumberWidth, '0')
  }

  /** Reading a formatted number back gives the number: the format is unambiguous. */
  lemma FormatNumberRoundTrip(n: nat)
    ensures NumberValue(FormatNumber(n)) == n
  {
    var ds := DecimalString(n);
    var padded := PadStart(ds, NumberWidth, '0');
    var k := |padded| - |ds|;
    LeadingZerosIgnored(k, ds);
    assert padded == Repeat('0', k) + ds;
    assert StartsWith(FormatNumber(n), NumberPrefix);
    assert RemoveFirst(FormatNumber(n), NumberPrefix) == padded;
    LeadingDigitsOfDigits(padded);
  }

  /** The number `generarFactura` assigns: one above every number in use. */
  function NextNumber(facturas: seq<Invoice>): (numero: string)
    ensures NumberValue(numero) == MaxNumber(facturas) + 1
    ensures forall i :: 0 <= i < |facturas| ==> NumberValue(facturas[i].numero) < NumberValue(numero)
    ensures StartsWith(numero, NumberPrefix) && |numero| >= |NumberPrefix| + NumberWidth
  {
    FormatNumberRoundTrip(MaxNumber(facturas) + 1);
    FormatNumber(MaxNumber(facturas) + 1)
  }

  /** No two invoices carry the same number value. */
  predicate NumbersUnique(facturas: seq<Invoice>) {
    forall i, j :: 0 <= i < j < |facturas| ==> NumberValue(facturas[i].numero) != NumberValue(facturas[j].numero)
  }

  /** A number above every existing one keeps the numbers distinct. */
  lemma NumbersUniqueAppend(facturas: seq<Invoice>, f: Invoice)
    requires NumbersUnique(facturas)
    requires forall i :: 0 <= i < |facturas| ==> NumberValue(facturas[i].numero) < NumberValue(f.numero)
    ensures NumbersUnique(facturas + [f])
  {
  }

  // ---------------------------------------------------------------------
  // Payments and the derived state
  // ---------------------------------------------------------------------

  /** Σ monto over a list of payments. */
  function Paid(pagos: seq<Payment>): real {
    if pagos == [] then 0.0 else Paid(pagos[..|pagos| - 1]) + pagos[|pagos| - 1].monto
  }

  function Balance(f: Invoice): real {
    f.total - Paid(f.pagos)
  }

  /** The state rule of `confirmarReversion`, which the model takes as the derivation of `estado`. */
  function StateOf(paid: real, total: real): InvoiceState {
    if paid == 0.0 then Pendiente else if paid < total then Partial else Pagada
  }

  /** The state rule of `confirmarPago`; with no payment at all it leaves the state alone. */
  function StateAfterPayment(current: InvoiceState, paid: real, total: real): InvoiceState {
    if paid >= total then Pagada else if paid > 0.0 then Partial else current
  }

  /** After a positive payment the two rules agree. */
  lemma PaymentRuleMatchesStateOf(current: InvoiceState, paid: real, total: real)
    requires paid > 0.0
    ensures StateAfterPayment(current, paid, total) == StateOf(paid, total)
  {
  }

  predicate PositivePayments(pagos: seq<Payment>) {
    forall k :: 0 <= k < |pagos| ==> pagos[k].monto > 0.0
  }

  lemma {:induction false} PaidOfPositive(pagos: seq<Payment>)
    requires PositivePayments(pagos)
    ensures Paid(pagos) >= 0.0
    ensures Paid(pagos) == 0.0 <==> pagos == []
  {
    if pagos != [] {
      PaidOfPositive(pagos[..|pagos| - 1]);
    }
  }

  /**
   * What every invoice in the ledger satisfies: its payments are positive,
   * they never exceed the total by more than the tolerance, its state is the
   * one its payments determine, and its total is not negative.
   */
  predicate InvoiceOk(f: Invoice) {
    && PositivePayments(f.pagos)
    && Paid(f.pagos) <= f.total + Tolerance
    && f.estado == StateOf(Paid(f.pagos), f.total)
    && f.total >= 0.0
  }

  datatype PaymentError = InvalidAmount | Overpayment

  /**
   * `confirmarPago` on one invoice: a non-positive amount, or one above the
   * balance plus the tolerance, is refused and nothing changes; otherwise the
   * payment becomes the last one and the state follows from the new sum.
   */
  function ApplyPayment(f: Invoice, p: Payment): (r: Result<Invoice, PaymentError>)
    ensures r == Err(InvalidAmount) <==> p.monto <= 0.0
    ensures r == Err(Overpayment) <==> 0.0 < p.monto && p.monto > Balance(f) + Tolerance
    ensures r.Ok? <==> 0.0 < p.monto <= Balance(f) + Tolerance
    ensures r.Ok? ==> r.value == f.(pagos := f.pagos + [p], estado := r.value.estado)
    ensures r.Ok? ==> Paid(r.value.pagos) == Paid(f.pagos) + p.monto
    ensures r.Ok? ==> Paid(r.value.pagos) <= f.total + Tolerance
    ensures r.Ok? ==> r.value.estado == StateAfterPayment(f.estado, Paid(f.pagos) + p.monto, f.total)
  {
    if p.monto <= 0.0 then Err(InvalidAmount)
    else if p.monto > Balance(f) + Tolerance then Err(Overpayment)
    else
      var pagos := f.pagos + [p];
      assert pagos[..|pagos| - 1] == f.pagos;
      Ok(f.(pagos := pagos, estado := StateAfterPayment(f.estado, Paid(pagos), f.total)))
  }

  /** An accepted payment keeps the ledger invariant, and the new state is paid exactly when the sum reaches the total. */
  lemma PaymentKeepsInvoiceOk(f: Invoice, p: Payment)
    requires InvoiceOk(f)
    requires ApplyPayment(f, p).Ok?
    ensures InvoiceOk(ApplyPayment(f, p).value)
    ensures ApplyPayment(f, p).value.estado == if Paid(f.pagos) + p.monto >= f.total then Pagada else Partial
  {
    var g := ApplyPayment(f, p).value;
    PaidOfPositive(f.pagos);
    PaymentRuleMatchesStateOf(f.estado, Paid(g.pagos), g.total);
  }

  /** The payment record `confirmarPago` builds; a proof image is kept only for transfers. */
  function MakePayment(id: string, monto: real, metodo: PayMethod, now: int, proof: Option<string>): (p: Payment)
    ensures p.monto == monto && p.metodo == metodo && p.fecha == now
    ensures p.id == id
    ensures p.comprobante == if metodo == Transferencia then proof else None
    ensures p.comprobante.Some? ==> metodo == Transferencia
  {
    Payment(id, monto, metodo, now, if metodo == Transferencia then proof else None)
  }

  // ---------------------------------------------------------------------
  // Reversal of the last payment
  // ---------------------------------------------------------------------

  datatype Reversal = Reversal(
    id: string,
    facturaId: string,
    facturaNumero: string,
    paciente: string,
    montoReversado: real,
    metodoPago: PayMethod,
    motivo: string,
    reversadoPor: string,
    fecha: int,
    pagoOriginal: Payment)

  datatype ReversalError = NotAdmin | NoPayments | MissingReason

  /**
   * `abrirReversarCobro` + `confirmarReversion` on one invoice, once the
   * admin check passed: refused without payments, then without a (trimmed)
   * reason; otherwise exactly the last payment is removed, the state is
   * recomputed from the rest, and a reversal record copies the removed payment.
   */
  function ReverseLast(f: Invoice, motivo: string, actor: string, now: int, id: string)
    : (r: Result<(Invoice, Reversal), ReversalError>)
    ensures r == Err(NoPayments) <==> f.pagos == []
    ensures r == Err(MissingReason) <==> f.pagos != [] && Trim(motivo) == []
    ensures r.Ok? ==>
              var (g, rev) := r.value;
              var last := f.pagos[|f.pagos| - 1];
              && f.pagos == g.pagos + [last]
              && g == f.(pagos := g.pagos, estado := g.estado)
              && g.estado == StateOf(Paid(g.pagos), f.total)
              && rev.pagoOriginal == last
              && rev.montoReversado == last.monto && rev.metodoPago == last.metodo
              && rev.facturaId == f.id && rev.facturaNumero == f.numero && rev.paciente == f.paciente
              && rev.motivo == Trim(motivo) && rev.motivo != []
              && rev.reversadoPor == actor && rev.fecha == now && rev.id == id
  {
    if f.pagos == [] then Err(NoPayments)
    else if Trim(motivo) == [] then Err(MissingReason)
    else
      var last := f.pagos[|f.pagos| - 1];
      var rest := f.pagos[..|f.pagos| - 1];
      assert f.pagos == rest + [last];
      var g := f.(pagos := rest, estado := StateOf(Paid(rest), f.total));
      Ok((g, Reversal(id, f.id, f.numero, f.paciente, last.monto, last.metodo, Trim(motivo), actor, now, last)))
  }

  /** A reversal keeps the ledger invariant: the sum only goes down, by the removed amount. */
  lemma ReversalKeepsInvoiceOk(f: Invoice, motivo: string, actor: string, now: int, id: string)
    requires InvoiceOk(f)
    requires ReverseLast(f, motivo, actor, now, id).Ok?
    ensures InvoiceOk(ReverseLast(f, motivo, actor, now, id).value.0)
    ensures var (g, rev) := ReverseLast(f, motivo, actor, now, id).value;
            Paid(g.pagos) == Paid(f.pagos) - rev.montoReversado && rev.montoReversado > 0.0
  {
    var (g, rev) := ReverseLast(f, motivo, actor, now, id).value;
    assert f.pagos[..|f.pagos| - 1] == g.pagos;
    PaidOfPositive(g.pagos);
  }

  /**
   * Paying and then reversing is the identity on the invoice: the payment
   * list, the sum and the state are as before, and the one reversal record
   * carries the amount and method just paid.
   */
  lemma PayThenReverseRestores(f: Invoice, p: Payment, motivo: string, actor: string, now: int, id: string)
    requires InvoiceOk(f)
    requires ApplyPayment(f, p).Ok?
    requires Trim(motivo) != []
    ensures var g := ApplyPayment(f, p).value;
            var r := ReverseLast(g, motivo, actor, now, id);
            && r.Ok?
            && r.value.0 == f
            && r.value.1.montoReversado == p.monto && r.value.1.metodoPago == p.metodo
            && r.value.1.pagoOriginal == p
  {
    var g := ApplyPayment(f, p).value;
    assert g.pagos[..|g.pagos| - 1] == f.pagos;
  }

  // ---------------------------------------------------------------------
  // Creating an invoice
  // ---------------------------------------------------------------------

  datatype InvoiceError = MissingPatient | PatientNotSelected | NoItems | MissingProfessional

  /** The invoice form: the patient as picked, the draft lines, the discount and the notes. */
  datatype InvoiceForm = InvoiceForm(
    paciente: string,
    seleccionado: bool,
    pacienteId: Option<string>,
    procedimientos: seq<LineItem>,
    ordenesLab: seq<LabLine>,
    descuento: Percent,
    notas: string)

  /** What the draft lists can hold: lines `agregarProcedimiento` accepted, lab orders with a positive price. */
  predicate DraftOk(form: InvoiceForm) {
    && (forall k :: 0 <= k < |form.procedimientos| ==> ValidLine(form.procedimientos[k]))
    && (forall k :: 0 <= k < |form.ordenesLab| ==> form.ordenesLab[k].precio > 0.0)
  }

  /**
   * The checks of `generarFactura`, in order, and the professional it bills:
   * the current user, or — for an admin — the professional the admin picked,
   * which must not be empty.
   */
  function CheckInvoiceForm(form: InvoiceForm, isAdmin: bool, currentUser: string, picked: string)
    : (r: Result<string, InvoiceError>)
    ensures r == Err(MissingPatient) <==> form.paciente == []
    ensures r == Err(PatientNotSelected) <==> form.paciente != [] && !form.seleccionado
    ensures r == Err(NoItems) <==>
              form.paciente != [] && form.seleccionado && form.procedimientos == [] && form.ordenesLab == []
    ensures r.Ok? <==>
              form.paciente != [] && form.seleccionado && (form.procedimientos != [] || form.ordenesLab != [])
              && (isAdmin ==> picked != [])
    ensures r.Ok? ==> r.value == if isAdmin then picked else currentUser
  {
    if form.paciente == [] then Err(MissingPatient)
    else if !form.seleccionado then Err(PatientNotSelected)
    else if form.procedimientos == [] && form.ordenesLab == [] then Err(NoItems)
    else if isAdmin && picked == [] then Err(MissingProfessional)
    else Ok(if isAdmin then picked else currentUser)
  }

  /**
   * The invoice `generarFactura` appends: numbered above every existing
   * number, subtotal = procedures + lab orders, total after the discount,
   * pending, without payments, and linked to the appointment found (if any).
   */
  function BuildInvoice(form: InvoiceForm, existing: seq<Invoice>, profesional: string, now: int, id: string,
                        link: Option<Agenda.Appointment>): (f: Invoice)
    requires DraftOk(form)
    ensures f.subtotal == LinesTotal(form.procedimientos) + LabTotal(form.ordenesLab)
    ensures f.total == DiscountedTotal(f.subtotal, form.descuento)
    ensures f.estado == Pendiente && f.pagos == []
    ensures InvoiceOk(f)
    ensures forall i :: 0 <= i < |existing| ==> NumberValue(existing[i].numero) < NumberValue(f.numero)
    ensures f.profesional == profesional && f.paciente == form.paciente && f.fecha == now && f.id == id
    ensures f.numero == NextNumber(existing)
    ensures f.pacienteId == form.pacienteId && f.procedimientos == form.procedimientos
    ensures f.ordenesLab == form.ordenesLab && f.tieneOrdenesLab == (form.ordenesLab != [])
    ensures f.descuento == form.descuento && f.notas == form.notas
    ensures f.citaId == (if link.Some? then Some(link.value.id) else None)
    ensures f.citaHora == (if link.Some? then Some(link.value.hora) else None)
    ensures f.citaMotivo == (if link.Some? then Some(link.value.motivo) else None)
  {
    LinesTotalPositive(form.procedimientos);
    LabTotalPositive(form.ordenesLab);
    var subtotal := LinesTotal(form.procedimientos) + LabTotal(form.ordenesLab);
    Invoice(
      id, NextNumber(existing), now, form.paciente, form.pacienteId,
      form.procedimientos, form.ordenesLab, subtotal, form.descuento,
      DiscountedTotal(subtotal, form.descuento), profesional, Pendiente, [], form.notas,
      form.ordenesLab != [],
      if link.Some? then Some(link.value.id) else None,
      if link.Some? then Some(link.value.hora) else None,
      if link.Some? then Some(link.value.motivo) else None)
  }

  // ---------------------------------------------------------------------
  // Deleting an invoice
  // ---------------------------------------------------------------------

  lemma NumbersUniqueCons(f: Invoice, rest: seq<Invoice>)
    requires NumbersUnique(rest)
    requires forall g :: g in rest ==> NumberValue(g.numero) != NumberValue(f.numero)
    ensures NumbersUnique([f] + rest)
  {
    var r := [f] + rest;
    forall i, j | 0 <= i < j < |r| ensures NumberValue(r[i].numero) != NumberValue(r[j].numero) {
      assert r[j] == rest[j - 1];
      if i > 0 {
        assert r[i] == rest[i - 1];
      }
    }
  }

  /** `facturas.filter(f => f.id !== id)`: the others stay, in order. */
  function WithoutInvoice(facturas: seq<Invoice>, id: string): (r: seq<Invoice>)
    ensures forall f :: f in r <==> f in facturas && f.id != id
    ensures |r| <= |facturas|
    ensures NumbersUnique(facturas) ==> NumbersUnique(r)
  {
    if facturas == [] then []
    else
      var head := facturas[0];
      var tail := facturas[1..];
      var rest := WithoutInvoice(tail, id);
      assert facturas == [head] + tail;
      assert NumbersUnique(facturas) ==> NumbersUnique(tail);
      if head.id == id then rest
      else
        assert NumbersUnique(facturas) ==> NumbersUnique([head] + rest) by {
          if NumbersUnique(facturas) {
            forall g | g in rest ensures NumberValue(g.numero) != NumberValue(head.numero) {
              var t :| 0 <= t < |tail| && tail[t] == g;
              assert facturas[t + 1] == g;
            }
            NumbersUniqueCons(head, rest);
          }
        }
        [head] + rest
  }

  /** The filter keeps each element it selects as often as it occurs, and nothing else. */
  lemma {:induction false} WithoutInvoiceCounts(xs: seq<Invoice>, id: string)
    ensures forall x :: multiset(WithoutInvoice(xs, id))[x] == if x.id != id then multiset(xs)[x] else 0
    decreases |xs|
  {
    if xs != [] {
      assert xs == [xs[0]] + xs[1..];
      WithoutInvoiceCounts(xs[1..], id);
    }
  }

  /** The filter keeps list order: filtering `a + b` filters `a`, then `b`. */
  lemma {:induction false} WithoutInvoiceConcat(a: seq<Invoice>, b: seq<Invoice>, id: string)
    ensures WithoutInvoice(a + b, id) == WithoutInvoice(a, id) + WithoutInvoice(b, id)
    decreases |a|
  {
    if a == [] {
      assert a + b == b;
    } else {
      assert (a + b)[1..] == a[1..] + b;
      WithoutInvoiceConcat(a[1..], b, id);
    }
  }

  /** `facturas.find(f => f.id === id)`: the index of the first invoice with that id. */
  function FindInvoice(facturas: seq<Invoice>, id: string): (r: Option<nat>)
    ensures r.Some? ==> r.value < |facturas| && facturas[r.value].id == id
                        && forall j :: 0 <= j < r.value ==> facturas[j].id != id
    ensures r.None? <==> forall j :: 0 <= j < |facturas| ==> facturas[j].id != id
  {
    FirstIndex(facturas, (f: Invoice) => f.id == id)
  }

  // ---------------------------------------------------------------------
  // The procedure summary stamped on the linked appointment
  // ---------------------------------------------------------------------

  /** `Array.prototype.join(', ')`. */
  function JoinComma(parts: seq<string>): string {
    if parts == [] then [] else if |parts| == 1 then parts[0] else parts[0] + ", " + JoinComma(parts[1..])
  }

  /**
   * The summary as written: `tempProcedimientos.map(p => p.nombre).join(', ')`.
   * Procedure lines have no `nombre` field, so every piece is `undefined`,
   * which `join` renders as the empty string.
   */
  function SummaryAsWritten(items: seq<LineItem>): string {
    JoinComma(seq(|items|, _ => ""))
  }

  /** The evidently intended summary: the procedure descriptions, comma-separated. */
  function ProcedureSummary(items: seq<LineItem>): (s: string)
    ensures items != [] ==> StartsWith(s, items[0].descripcion)
    ensures |items| == 1 ==> s == items[0].descripcion
  {
    JoinComma(seq(|items|, k requires 0 <= k < |items| => items[k].descripcion))
  }

  /** Text found in `s` is still found after anything is put in front of it. */
  lemma {:induction false} ContainsAfterPrefix(p: string, s: string, t: string)
    requires Contains(s, t)
    ensures Contains(p + s, t)
    decreases |p|
  {
    if p != [] {
      assert (p + s)[1..] == p[1..] + s;
      ContainsAfterPrefix(p[1..], s, t);
    } else {
      assert p + s == s;
    }
  }

  /** Every part occurs, in full, in the comma-joined text. */
  lemma {:induction false} JoinCommaContains(parts: seq<string>, k: nat)
    requires k < |parts|
    ensures Contains(JoinComma(parts), parts[k])
    decreases |parts|
  {
    if k == 0 {
      assert StartsWith(JoinComma(parts), parts[0]);
    } else {
      JoinCommaContains(parts[1..], k - 1);
      ContainsAfterPrefix(parts[0] + ", ", JoinComma(parts[1..]), parts[k]);
      assert JoinComma(parts) == (parts[0] + ", ") + JoinComma(parts[1..]);
    }
  }

  /** The corrected summary names every procedure line's description. */
  lemma ProcedureSummaryNamesEveryLine(items: seq<LineItem>, k: nat)
    requires k < |items|
    ensures Contains(ProcedureSummary(items), items[k].descripcion)
  {
    var parts := seq(|items|, k requires 0 <= k < |items| => items[k].descripcion);
    JoinCommaContains(parts, k);
  }

  /** As written, no procedure description ever reaches the appointment. */
  lemma SummaryAsWrittenLosesDescriptions()
    ensures var items := [LineItem("p1", "Limpieza", 1, 1500.0)];
            SummaryAsWritten(items) == [] && ProcedureSummary(items) == "Limpieza"
  {
  }

  /** As written, the summary holds only separators: for n lines, n − 1 copies of ", ". */
  lemma {:induction false} SummaryAsWrittenIsSeparators(items: seq<LineItem>)
    requires items != []
    ensures |SummaryAsWritten(items)| == 2 * (|items| - 1)
    ensures forall i :: 0 <= i < |SummaryAsWritten(items)| ==> SummaryAsWritten(items)[i] in ", "
    decreases |items|
  {
    if |items| > 1 {
      SummaryAsWrittenIsSeparators(items[1..]);
      assert seq(|items|, _ => "")[1..] == seq(|items[1..]|, _ => "");
    }
  }
}
