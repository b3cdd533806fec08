/**
 * What patients still owe: the invoices of a patient, a patient's balance
 * and the amount still to collect ("por cobrar") on unpaid invoices.
 */
module Balances {
  import opened Wrappers
  import opened Invoices

  datatype Patient = Patient(id: string, nombre: string)

  /**
   * `getFacturasDePaciente`: an invoice is the patient's when it carries the
   * patient's id (a non-empty one) or, for older invoices, the patient's name.
   */
  predicate BelongsTo(f: Invoice, p: Patient) {
    (f.pacienteId.Some? && f.pacienteId.value != [] && f.pacienteId.value == p.id) || f.paciente == p.nombre
  }

  function InvoicesOf(facturas: seq<Invoice>, p: Patient): (r: seq<Invoice>)
    ensures forall f :: f in r <==> f in facturas && BelongsTo(f, p)
  {
    if facturas == [] then []
    else
      var f := facturas[|facturas| - 1];
      var init := facturas[..|facturas| - 1];
      assert forall x :: x in facturas <==> x in init || x == f;
      InvoicesOf(init, p) + (if BelongsTo(f, p) then [f] else [])
  }

  /** The filter keeps every matching invoice as often as it occurs and nothing else. */
  lemma {:induction false} InvoicesOfCounts(facturas: seq<Invoice>, p: Patient)
    ensures forall f :: multiset(InvoicesOf(facturas, p))[f] == if BelongsTo(f, p) then multiset(facturas)[f] else 0
    decreases |facturas|
  {
    if facturas != [] {
      var init := facturas[..|facturas| - 1];
      assert facturas == init + [facturas[|facturas| - 1]];
      InvoicesOfCounts(init, p);
    }
  }

  /** The filter keeps list order: filtering `a + b` filters `a`, then `b`. */
  lemma {:induction false} InvoicesOfConcat(a: seq<Invoice>, b: seq<Invoice>, p: Patient)
    ensures InvoicesOf(a + b, p) == InvoicesOf(a, p) + InvoicesOf(b, p)
    decreases |b|
  {
    if b == [] {
      assert a + b == a;
    } else {
      var ab, init, f := a + b, b[..|b| - 1], b[|b| - 1];
      var tail := if BelongsTo(f, p) then [f] else [];
      assert ab[..|ab| - 1] == a + init;
      assert ab[|ab| - 1] == f;
      assert InvoicesOf(ab, p) == InvoicesOf(a + init, p) + tail;
      assert InvoicesOf(b, p) == InvoicesOf(init, p) + tail;
      InvoicesOfConcat(a, init, p);
    }
  }

  /** The fallback when no patient record has the name: match by name only. */
  function InvoicesNamed(facturas: seq<Invoice>, nombre: string): (r: seq<Invoice>)
    ensures forall f :: f in r <==> f in facturas && f.paciente == nombre
  {
    if facturas == [] then []
    else
      var f := facturas[|facturas| - 1];
      var init := facturas[..|facturas| - 1];
      assert forall x :: x in facturas <==> x in init || x == f;
      InvoicesNamed(init, nombre) + (if f.paciente == nombre then [f] else [])
  }

  /** The filter keeps every matching invoice as often as it occurs and nothing else. */
  lemma {:induction false} InvoicesNamedCounts(facturas: seq<Invoice>, nombre: string)
    ensures forall f :: multiset(InvoicesNamed(facturas, nombre))[f] == if f.paciente == nombre then multiset(facturas)[f] else 0
    decreases |facturas|
  {
    if facturas != [] {
      var init := facturas[..|facturas| - 1];
      assert facturas == init + [facturas[|facturas| - 1]];
      InvoicesNamedCounts(init, nombre);
    }
  }

  /** The filter keeps list order: filtering `a + b` filters `a`, then `b`. */
  lemma {:induction false} InvoicesNamedConcat(a: seq<Invoice>, b: seq<Invoice>, nombre: string)
    ensures InvoicesNamed(a + b, nombre) == InvoicesNamed(a, nombre) + InvoicesNamed(b, nombre)
    decreases |b|
  {
    if b == [] {
      assert a + b == a;
    } else {
      var ab, init, f := a + b, b[..|b| - 1], b[|b| - 1];
      var tail := if f.paciente == nombre then [f] else [];
      assert ab[..|ab| - 1] == a + init;
      assert ab[|ab| - 1] == f;
      assert InvoicesNamed(ab, nombre) == InvoicesNamed(a + init, nombre) + tail;
      assert InvoicesNamed(b, nombre) == InvoicesNamed(init, nombre) + tail;
      InvoicesNamedConcat(a, init, nombre);
    }
  }

  /** `pacientes.find(p => p.nombre === nombre)`. */
  function FindPatient(pacientes: seq<Patient>, nombre: string): (r: Option<Patient>)
    ensures r.Some? ==> r.value in pacientes && r.value.nombre == nombre
    ensures r.None? <==> forall k :: 0 <= k < |pacientes| ==> pacientes[k].nombre != nombre
    ensures r.Some? && pacientes != [] && pacientes[0].nombre == nombre ==> r.value == pacientes[0]
    ensures r.Some? ==> exists k :: 0 <= k < |pacientes| && pacientes[k] == r.value
                                    && forall j :: 0 <= j < k ==> pacientes[j].nombre != nombre
  {
    if pacientes == [] then None
    else if pacientes[0].nombre == nombre then Some(pacientes[0])
    else
      var r := FindPatient(pacientes[1..], nombre);
      assert forall k :: 1 <= k < |pacientes| ==> pacientes[k] == pacientes[1..][k - 1];
      assert r.Some? ==> exists k :: 0 <= k < |pacientes| && pacientes[k] == r.value
                                     && forall j :: 0 <= j < k ==> pacientes[j].nombre != nombre by {
        if r.Some? {
          var k :| 0 <= k < |pacientes[1..]| && pacientes[1..][k] == r.value
                   && forall j :: 0 <= j < k ==> pacientes[1..][j].nombre != nombre;
          assert pacientes[k + 1] == r.value;
          forall j | 0 <= j < k + 1 ensures pacientes[j].nombre != nombre {
            if j > 0 { assert pacientes[j] == pacientes[1..][j - 1]; }
          }
        }
      }
      r
  }

  /** Σ (total − Σ pagos) over a list of invoices. */
  function Outstanding(facturas: seq<Invoice>): real {
    if facturas == [] then 0.0
    else Outstanding(facturas[..|facturas| - 1]) + Balance(facturas[|facturas| - 1])
  }

  function TotalBilled(facturas: seq<Invoice>): real {
    if facturas == [] then 0.0 else TotalBilled(facturas[..|facturas| - 1]) + facturas[|facturas| - 1].total
  }

  function TotalCollected(facturas: seq<Invoice>): real {
    if facturas == [] then 0.0 else TotalCollected(facturas[..|facturas| - 1]) + Paid(facturas[|facturas| - 1].pagos)
  }

  /** What is outstanding is what was billed less what was collected. */
  lemma {:induction false} OutstandingIsBilledLessCollected(facturas: seq<Invoice>)
    ensures Outstanding(facturas) == TotalBilled(facturas) - TotalCollected(facturas)
  {
    if facturas != [] {
      OutstandingIsBilledLessCollected(facturas[..|facturas| - 1]);
    }
  }

  predicate AllOk(facturas: seq<Invoice>) {
    forall k :: 0 <= k < |facturas| ==> InvoiceOk(facturas[k])
  }

  /** Under the ledger invariant each invoice is overpaid by at most the tolerance. */
  lemma {:induction false} OutstandingLowerBound(facturas: seq<Invoice>)
    requires AllOk(facturas)
    ensures Outstanding(facturas) >= -Tolerance * (|facturas| as real)
  {
    if facturas != [] {
      OutstandingLowerBound(facturas[..|facturas| - 1]);
    }
  }

  /**
   * `calcularBalancePaciente`: the outstanding amount of the patient's
   * invoices, or of the invoices with that name when no patient record has it.
   */
  function PatientBalance(pacientes: seq<Patient>, facturas: seq<Invoice>, nombre: string): (b: real)
    ensures FindPatient(pacientes, nombre).None? ==> b == Outstanding(InvoicesNamed(facturas, nombre))
    ensures FindPatient(pacientes, nombre).Some? ==> b == Outstanding(InvoicesOf(facturas, FindPatient(pacientes, nombre).value))
  {
    match FindPatient(pacientes, nombre)
    case None => Outstanding(InvoicesNamed(facturas, nombre))
    case Some(p) => Outstanding(InvoicesOf(facturas, p))
  }

  /** Σ (total − Σ pagos) over the invoices not yet paid: the dashboard's "por cobrar". */
  function PorCobrar(facturas: seq<Invoice>): real {
    if facturas == [] then 0.0
    else
      var f := facturas[|facturas| - 1];
      PorCobrar(facturas[..|facturas| - 1]) + (if f.estado != Pagada then Balance(f) else 0.0)
  }

  /** Under the ledger invariant nothing unpaid is overpaid, so "por cobrar" is never negative. */
  lemma {:induction false} PorCobrarNonNegative(facturas: seq<Invoice>)
    requires AllOk(facturas)
    ensures PorCobrar(facturas) >= 0.0
  {
    if facturas != [] {
      PorCobrarNonNegative(facturas[..|facturas| - 1]);
      PaidOfPositive(facturas[|facturas| - 1].pagos);
    }
  }

  /** An unpaid invoice's balance is what it owes; the paid ones owe between −tolerance and 0 each. */
  lemma {:induction false} OutstandingSplitsByState(facturas: seq<Invoice>)
    requires AllOk(facturas)
    ensures PorCobrar(facturas) - Tolerance * (|facturas| as real) <= Outstanding(facturas) <= PorCobrar(facturas)
  {
    if facturas != [] {
      OutstandingSplitsByState(facturas[..|facturas| - 1]);
    }
  }

  /** `misFacturas`: the invoices billed to one professional. */
  function InvoicesBilledTo(facturas: seq<Invoice>, profesional: string): (r: seq<Invoice>)
    ensures forall f :: f in r <==> f in facturas && f.profesional == profesional
  {
    if facturas == [] then []
    else
      var f := facturas[|facturas| - 1];
      var init := facturas[..|facturas| - 1];
      assert forall x :: x in facturas <==> x in init || x == f;
      InvoicesBilledTo(init, profesional) + (if f.profesional == profesional then [f] else [])
  }

  /** The filter keeps every matching invoice as often as it occurs and nothing else. */
  lemma {:induction false} InvoicesBilledToCounts(facturas: seq<Invoice>, profesional: string)
    ensures forall f :: multiset(InvoicesBilledTo(facturas, profesional))[f] == if f.profesional == profesional then multiset(facturas)[f] else 0
    decreases |facturas|
  {
    if facturas != [] {
      var init := facturas[..|facturas| - 1];
      assert facturas == init + [facturas[|facturas| - 1]];
      InvoicesBilledToCounts(init, profesional);
    }
  }

  /** The filter keeps list order: filtering `a + b` filters `a`, then `b`. */
  lemma {:induction false} InvoicesBilledToConcat(a: seq<Invoice>, b: seq<Invoice>, profesional: string)
    ensures InvoicesBilledTo(a + b, profesional) == InvoicesBilledTo(a, profesional) + InvoicesBilledTo(b, profesional)
    decreases |b|
  {
    if b == [] {
      assert a + b == a;
    } else {
      var ab, init, f := a + b, b[..|b| - 1], b[|b| - 1];
      var tail := if f.profesional == profesional then [f] else [];
      assert ab[..|ab| - 1] == a + init;
      assert ab[|ab| - 1] == f;
      assert InvoicesBilledTo(ab, profesional) == InvoicesBilledTo(a + init, profesional) + tail;
      assert InvoicesBilledTo(b, profesional) == InvoicesBilledTo(init, profesional) + tail;
      InvoicesBilledToConcat(a, init, profesional);
    }
  }

  /** The professional's own "por cobrar" on the earnings tab. */
  function ProfessionalPorCobrar(facturas: seq<Invoice>, profesional: string): real {
    PorCobrar(InvoicesBilledTo(facturas, profesional))
  }

  lemma {:induction false} PorCobrarConcat(a: seq<Invoice>, b: seq<Invoice>)
    ensures PorCobrar(a + b) == PorCobrar(a) + PorCobrar(b)
  {
    if b == [] {
      assert a + b == a;
    } else {
      assert (a + b)[..|a + b| - 1] == a + b[..|b| - 1];
      PorCobrarConcat(a, b[..|b| - 1]);
    }
  }

  /** The professionals' shares add up to the whole: split by one name, the rest is the others'. */
  lemma {:induction false} ProfessionalShare(facturas: seq<Invoice>, profesional: string)
    ensures ProfessionalPorCobrar(facturas, profesional) + PorCobrar(InvoicesNotBilledTo(facturas, profesional))
            == PorCobrar(facturas)
  {
    if facturas != [] {
      var init := facturas[..|facturas| - 1];
      var f := facturas[|facturas| - 1];
      ProfessionalShare(init, profesional);
      PorCobrarConcat(InvoicesBilledTo(init, profesional), if f.profesional == profesional then [f] else []);
      PorCobrarConcat(InvoicesNotBilledTo(init, profesional), if f.profesional != profesional then [f] else []);
      assert PorCobrar([f]) == PorCobrar([]) + (if f.estado != Pagada then Balance(f) else 0.0) by {
        assert [f][..0] == [];
      }
    }
  }

  function InvoicesNotBilledTo(facturas: seq<Invoice>, profesional: string): (r: seq<Invoice>)
    ensures forall f :: f in r <==> f in facturas && f.profesional != profesional
  {
    if facturas == [] then []
    else
      var f := facturas[|facturas| - 1];
      assert forall x :: x in facturas <==> x in facturas[..|facturas| - 1] || x == f;
      InvoicesNotBilledTo(facturas[..|facturas| - 1], profesional) + (if f.profesional != profesional then [f] else [])
  }
}
