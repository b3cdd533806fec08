/**
 * Dental-lab orders ("laboratorios"): the orders created with an invoice,
 * the transition table behind the advance buttons, and the timeline entry
 * each advance appends.
 */
module Lab {
  import opened Wrappers
  import opened Text
  import Invoices

  datatype LabState =
    | TomaDeImpresion | EnviadoALaboratorio | ListoParaPrueba | ReenviadoALaboratorio | Entregado

  datatype LabEvent = LabEvent(estado: LabState, fecha: int, usuario: string, notas: string)

  datatype LabOrder = LabOrder(
    id: string,
    facturaId: string,
    facturaNumero: string,
    paciente: string,
    profesional: string,
    tipo: string,
    dientes: string,
    descripcion: string,
    laboratorio: string,
    precio: real,
    costo: real,
    margen: real,
    timeline: seq<LabEvent>,
    estadoActual: LabState,
    fechaCreacion: int,
    creadoPor: string)

  /** The buttons `renderizarBotonesAvance` offers for each state, in display order. */
  function NextStates(s: LabState): seq<LabState> {
    match s
    case TomaDeImpresion => [EnviadoALaboratorio]
    case EnviadoALaboratorio => [ListoParaPrueba]
    case ListoParaPrueba => [ReenviadoALaboratorio, Entregado]
    case ReenviadoALaboratorio => [ListoParaPrueba]
    case Entregado => []
  }

  /**
   * Delivery is final and reachable only from "ready for fitting"; every
   * other state offers a way forward.
   */
  lemma TransitionTable(s: LabState)
    ensures NextStates(s) == [] <==> s == Entregado
    ensures Entregado in NextStates(s) <==> s == ListoParaPrueba
    ensures s !in NextStates(s)
  {
  }

  /** The timeline is never empty and its last entry is the current state. */
  predicate TimelineConsistent(o: LabOrder) {
    o.timeline != [] && o.timeline[|o.timeline| - 1].estado == o.estadoActual
  }

  /** Every step of the timeline is one the buttons offer. */
  predicate FollowsTable(timeline: seq<LabEvent>) {
    forall i :: 0 <= i < |timeline| - 1 ==> timeline[i + 1].estado in NextStates(timeline[i].estado)
  }

  /** The orders `crearOrdenesLabDesdeFactura` adds for a new invoice, one per draft lab line. */
  function OrdersForInvoice(f: Invoices.Invoice, ids: seq<string>, now: int, user: string): (r: seq<LabOrder>)
    requires |ids| == |f.ordenesLab|
    ensures |r| == |f.ordenesLab|
    ensures forall k :: 0 <= k < |r| ==>
              && r[k].id == ids[k] && r[k].facturaId == f.id && r[k].facturaNumero == f.numero
              && r[k].paciente == f.paciente && r[k].profesional == f.profesional
              && r[k].tipo == f.ordenesLab[k].tipo && r[k].dientes == f.ordenesLab[k].dientes
              && r[k].descripcion == f.ordenesLab[k].descripcion
              && r[k].laboratorio == f.ordenesLab[k].laboratorio
              && r[k].precio == f.ordenesLab[k].precio && r[k].costo == f.ordenesLab[k].costo
              && r[k].margen == f.ordenesLab[k].precio - f.ordenesLab[k].costo
              && r[k].timeline == [LabEvent(TomaDeImpresion, now, user, "Impresi\U{F3}n tomada")]
              && r[k].estadoActual == TomaDeImpresion
              && r[k].fechaCreacion == now && r[k].creadoPor == user
              && TimelineConsistent(r[k]) && FollowsTable(r[k].timeline)
  {
    seq(|ids|, k requires 0 <= k < |ids| =>
      var t := f.ordenesLab[k];
      LabOrder(ids[k], f.id, f.numero, f.paciente, f.profesional, t.tipo, t.dientes, t.descripcion,
               t.laboratorio, t.precio, t.costo, t.precio - t.costo,
               [LabEvent(TomaDeImpresion, now, user, "Impresi\U{F3}n tomada")], TomaDeImpresion, now, user))
  }

  /** `laboratorios.find(o => o.id === id)`: the index of the first order with that id. */
  function FindOrder(ordenes: seq<LabOrder>, id: string): (r: Option<nat>)
    ensures r.Some? ==> r.value < |ordenes| && ordenes[r.value].id == id
                        && forall j :: 0 <= j < r.value ==> ordenes[j].id != id
    ensures r.None? <==> forall j :: 0 <= j < |ordenes| ==> ordenes[j].id != id
  {
    FirstIndex(ordenes, (o: LabOrder) => o.id == id)
  }

  /**
   * `avanzarEstadoLab` once the user answered the notes prompt: one timeline
   * entry for the new state (blank notes become a fixed text) and the new
   * current state. The target is taken as given: the source checks no
   * transition here, only the buttons restrict it.
   */
  function Advance(o: LabOrder, nuevo: LabState, now: int, user: string, notas: string): (r: LabOrder)
    ensures r.timeline == o.timeline + [LabEvent(nuevo, now, user, if Trim(notas) == [] then "Sin notas adicionales" else Trim(notas))]
    ensures r.estadoActual == nuevo && TimelineConsistent(r)
    ensures r == o.(timeline := r.timeline, estadoActual := nuevo)
  {
    var entry := LabEvent(nuevo, now, user, if Trim(notas) == [] then "Sin notas adicionales" else Trim(notas));
    o.(timeline := o.timeline + [entry], estadoActual := nuevo)
  }

  /** Advancing along a button keeps the whole timeline within the transition table. */
  lemma AdvanceFollowsTable(o: LabOrder, nuevo: LabState, now: int, user: string, notas: string)
    requires TimelineConsistent(o) && FollowsTable(o.timeline)
    requires nuevo in NextStates(o.estadoActual)
    ensures FollowsTable(Advance(o, nuevo, now, user, notas).timeline)
  {
    var t := Advance(o, nuevo, now, user, notas).timeline;
    assert forall i :: 0 <= i < |o.timeline| ==> t[i] == o.timeline[i];
  }

  /** In a timeline that follows the table, delivery is the last entry and comes right after a fitting. */
  lemma {:induction false} DeliveredIsFinal(timeline: seq<LabEvent>, i: nat)
    requires FollowsTable(timeline)
    requires i < |timeline| && timeline[i].estado == Entregado
    ensures i == |timeline| - 1
    ensures i > 0 ==> timeline[i - 1].estado == ListoParaPrueba
  {
    assert i < |timeline| - 1 ==> timeline[i + 1].estado in NextStates(timeline[i].estado);
    if i > 0 {
      TransitionTable(timeline[i - 1].estado);
      assert timeline[i].estado in NextStates(timeline[i - 1].estado);
    }
  }
}
