/**
 * Staff ("personal") payroll: the commission rate by staff kind, the
 * commission accrued since the last payout, salary advances ("avances") and
 * what paying a salary or deleting a staff member does to them.
 */
module Payroll {
  import opened Wrappers
  import opened Invoices

  /** `Profesional` is the legacy name the data migration rewrites to `Regular`. */
  datatype StaffKind = Regular | Especialista | Empleado | Profesional

  datatype Staff = Staff(
    id: string,
    nombre: string,
    tipo: StaffKind,
    isAdmin: bool,
    sueldo: Option<real>,
    lastPaymentDate: Option<int>)

  /** `getComisionRate`: a percentage of what the professional's invoices collected. */
  function CommissionRate(k: StaffKind): (r: nat)
    ensures r == 60 <==> k == Regular
    ensures r == 50 <==> k == Especialista
    ensures r == 0 <==> k != Regular && k != Especialista
  {
    match k
    case Regular => 60
    case Especialista => 50
    case _ => 0
  }

  // ---------------------------------------------------------------------
  // Commission accrual
  // ---------------------------------------------------------------------

  /** The accrual window opens after the last payout, or after the epoch if there was none. */
  function WindowStart(p: Staff): int {
    p.lastPaymentDate.GetOr(0)
  }

  /** The invoices `calcularComisionesAcumuladas` counts for `p`. */
  predicate Accrues(f: Invoice, p: Staff) {
    f.profesional == p.nombre && f.estado == Pagada && f.fecha > WindowStart(p)
  }

  /** Σ over accruing invoices of (Σ pagos) · rate / 100. */
  function AccruedCommission(facturas: seq<Invoice>, p: Staff): real {
    if facturas == [] then 0.0
    else
      var f := facturas[|facturas| - 1];
      AccruedCommission(facturas[..|facturas| - 1], p)
        + (if Accrues(f, p) then Paid(f.pagos) * (CommissionRate(p.tipo) as real) / 100.0 else 0.0)
  }

  /** Σ pagos over the invoices in `p`'s current window. */
  function WindowCollected(facturas: seq<Invoice>, p: Staff): real {
    if facturas == [] then 0.0
    else
      var f := facturas[|facturas| - 1];
      WindowCollected(facturas[..|facturas| - 1], p) + (if Accrues(f, p) then Paid(f.pagos) else 0.0)
  }

  /** The accrual is the rate applied once to everything collected in the window. */
  lemma {:induction false} AccrualIsRateOfCollected(facturas: seq<Invoice>, p: Staff)
    ensures AccruedCommission(facturas, p) == WindowCollected(facturas, p) * (CommissionRate(p.tipo) as real) / 100.0
  {
    if facturas != [] {
      AccrualIsRateOfCollected(facturas[..|facturas| - 1], p);
      match p.tipo
      case Regular =>
      case Especialista =>
      case Empleado =>
      case Profesional =>
    }
  }

  predicate AllPositivePayments(facturas: seq<Invoice>) {
    forall i :: 0 <= i < |facturas| ==> PositivePayments(facturas[i].pagos)
  }

  /** The accrual never goes negative. */
  lemma {:induction false} AccrualNonNegative(facturas: seq<Invoice>, p: Staff)
    requires AllPositivePayments(facturas)
    ensures AccruedCommission(facturas, p) >= 0.0
  {
    if facturas != [] {
      AccrualNonNegative(facturas[..|facturas| - 1], p);
      PaidOfPositive(facturas[|facturas| - 1].pagos);
    }
  }

  /**
   * `confirmarPagoProfesional` sets `lastPaymentDate` to now: afterwards no
   * invoice dated at or before now accrues anything.
   */
  lemma {:induction false} PayoutClearsAccrual(facturas: seq<Invoice>, p: Staff, now: int)
    requires forall i :: 0 <= i < |facturas| ==> facturas[i].fecha <= now
    ensures AccruedCommission(facturas, p.(lastPaymentDate := Some(now))) == 0.0
  {
    if facturas != [] {
      PayoutClearsAccrual(facturas[..|facturas| - 1], p, now);
    }
  }

  /** Moving the window start later can only lower the accrual. */
  lemma {:induction false} LaterWindowAccruesLess(facturas: seq<Invoice>, p: Staff, t1: int, t2: int)
    requires AllPositivePayments(facturas)
    requires t1 <= t2
    ensures AccruedCommission(facturas, p.(lastPaymentDate := Some(t2)))
            <= AccruedCommission(facturas, p.(lastPaymentDate := Some(t1)))
  {
    if facturas != [] {
      LaterWindowAccruesLess(facturas[..|facturas| - 1], p, t1, t2);
      PaidOfPositive(facturas[|facturas| - 1].pagos);
    }
  }

  /**
   * The window is on the invoice's creation date: an invoice created at or
   * before the window start adds nothing, whatever is paid on it later.
   */
  lemma LateSettlementNotAccrued(facturas: seq<Invoice>, f: Invoice, p: Staff)
    requires f.fecha <= WindowStart(p)
    ensures AccruedCommission(facturas + [f], p) == AccruedCommission(facturas, p)
  {
    assert (facturas + [f])[..|facturas|] == facturas;
  }

  // ---------------------------------------------------------------------
  // Salary advances
  // ---------------------------------------------------------------------

  datatype Advance = Advance(id: string, personalId: string, monto: real, notas: string, fecha: int, registradoPor: string)

  /** `calcularTotalAvances`: Σ monto over `personalId`'s advances. */
  function TotalAdvances(avances: seq<Advance>, personalId: string): real {
    if avances == [] then 0.0
    else
      var a := avances[|avances| - 1];
      TotalAdvances(avances[..|avances| - 1], personalId) + (if a.personalId == personalId then a.monto else 0.0)
  }

  lemma TotalAdvancesAppend(avances: seq<Advance>, a: Advance, personalId: string)
    ensures TotalAdvances(avances + [a], personalId)
            == TotalAdvances(avances, personalId) + (if a.personalId == personalId then a.monto else 0.0)
  {
    assert (avances + [a])[..|avances|] == avances;
  }

  datatype AdvanceError = InvalidAdvance | AdvanceExceedsSalary

  /** Advances are capped only for employees with a (non-zero) salary on record. */
  predicate SalaryCapped(p: Staff) {
    p.tipo == Empleado && p.sueldo.Some? && p.sueldo.value != 0.0
  }

  /**
   * The checks of `registrarAvance`: the amount must be a positive number,
   * and for a capped employee no more than the salary not yet advanced.
   */
  function CheckAdvance(p: Staff, avances: seq<Advance>, monto: Option<real>): (r: Outcome<AdvanceError>)
    ensures r == Fail(InvalidAdvance) <==> monto.None? || monto.value <= 0.0
    ensures r == Fail(AdvanceExceedsSalary) <==>
              monto.Some? && monto.value > 0.0 && SalaryCapped(p)
              && monto.value > p.sueldo.value - TotalAdvances(avances, p.id)
    ensures r == Pass && SalaryCapped(p) ==> TotalAdvances(avances, p.id) + monto.value <= p.sueldo.value
  {
    if monto.None? || monto.value <= 0.0 then Fail(InvalidAdvance)
    else if SalaryCapped(p) && monto.value > p.sueldo.value - TotalAdvances(avances, p.id) then
      Fail(AdvanceExceedsSalary)
    else Pass
  }

  /** After an accepted advance, a capped employee's advances still fit in the salary. */
  lemma AcceptedAdvanceWithinSalary(p: Staff, avances: seq<Advance>, a: Advance)
    requires a.personalId == p.id
    requires CheckAdvance(p, avances, Some(a.monto)) == Pass
    ensures a.monto > 0.0
    ensures SalaryCapped(p) ==> TotalAdvances(avances + [a], p.id) <= p.sueldo.value
  {
    TotalAdvancesAppend(avances, a, p.id);
  }

  /** The `filter` that drops every advance of `personalId`, keeping the others in order. */
  function WithoutAdvancesOf(avances: seq<Advance>, personalId: string): (r: seq<Advance>)
    ensures forall a :: a in r <==> a in avances && a.personalId != personalId
    ensures TotalAdvances(r, personalId) == 0.0
    ensures forall other :: other != personalId ==> TotalAdvances(r, other) == TotalAdvances(avances, other)
  {
    if avances == [] then []
    else
      var init := avances[..|avances| - 1];
      var a := avances[|avances| - 1];
      var rest := WithoutAdvancesOf(init, personalId);
      assert forall x :: x in avances <==> x in init || x == a;
      if a.personalId == personalId then rest
      else
        forall other ensures TotalAdvances(rest + [a], other) == TotalAdvances(rest, other) + (if a.personalId == other then a.monto else 0.0) {
          TotalAdvancesAppend(rest, a, other);
        }
        rest + [a]
  }

  /** The filter keeps each element it selects as often as it occurs, and nothing else. */
  lemma {:induction false} WithoutAdvancesOfCounts(xs: seq<Advance>, personalId: string)
    ensures forall x :: multiset(WithoutAdvancesOf(xs, personalId))[x] == if x.personalId != personalId then multiset(xs)[x] else 0
    decreases |xs|
  {
    if xs != [] {
      assert xs == xs[..|xs| - 1] + [xs[|xs| - 1]];
      WithoutAdvancesOfCounts(xs[..|xs| - 1], personalId);
    }
  }

  /** The filter keeps list order: filtering `a + b` filters `a`, then `b`. */
  lemma {:induction false} WithoutAdvancesOfConcat(a: seq<Advance>, b: seq<Advance>, personalId: string)
    ensures WithoutAdvancesOf(a + b, personalId) == WithoutAdvancesOf(a, personalId) + WithoutAdvancesOf(b, personalId)
    decreases |b|
  {
    if b == [] {
      assert a + b == a;
    } else {
      assert (a + b)[..|a + b| - 1] == a + b[..|b| - 1];
      WithoutAdvancesOfConcat(a, b[..|b| - 1], personalId);
    }
  }

  /** `confirmarPagoEmpleado`'s net pay: the salary minus the advances (no salary on record: none). */
  function NetSalary(p: Staff, avances: seq<Advance>): (r: Option<real>)
    ensures r.Some? <==> p.sueldo.Some?
    ensures r.Some? ==> r.value + TotalAdvances(avances, p.id) == p.sueldo.value
  {
    if p.sueldo.Some? then Some(p.sueldo.value - TotalAdvances(avances, p.id)) else None
  }

  /** `personal.find(p => p.id === id)`: the first staff member with that id. */
  function FindStaff(personal: seq<Staff>, id: string): (r: Option<nat>)
    ensures r.Some? ==> r.value < |personal| && personal[r.value].id == id
                        && forall j :: 0 <= j < r.value ==> personal[j].id != id
    ensures r.None? <==> forall j :: 0 <= j < |personal| ==> personal[j].id != id
  {
    FirstIndex(personal, (s: Staff) => s.id == id)
  }

  /** The `filter` that drops every staff member with that id. */
  function WithoutStaff(personal: seq<Staff>, id: string): (r: seq<Staff>)
    ensures forall s :: s in r <==> s in personal && s.id != id
    ensures |r| <= |personal|
  {
    if personal == [] then []
    else
      var rest := WithoutStaff(personal[1..], id);
      assert forall s :: s in personal <==> s == personal[0] || s in personal[1..];
      if personal[0].id == id then rest else [personal[0]] + rest
  }

  /** The filter keeps each element it selects as often as it occurs, and nothing else. */
  lemma {:induction false} WithoutStaffCounts(xs: seq<Staff>, id: string)
    ensures forall x :: multiset(WithoutStaff(xs, id))[x] == if x.id != id then multiset(xs)[x] else 0
    decreases |xs|
  {
    if xs != [] {
      assert xs == [xs[0]] + xs[1..];
      WithoutStaffCounts(xs[1..], id);
    }
  }

  /** The filter keeps list order: filtering `a + b` filters `a`, then `b`. */
  lemma {:induction false} WithoutStaffConcat(a: seq<Staff>, b: seq<Staff>, id: string)
    ensures WithoutStaff(a + b, id) == WithoutStaff(a, id) + WithoutStaff(b, id)
    decreases |a|
  {
    if a == [] {
      assert a + b == b;
    } else {
      assert (a + b)[1..] == a[1..] + b;
      WithoutStaffConcat(a[1..], b, id);
    }
  }

  /** `limpiarDatosAntiguos` on one staff member: the legacy kind becomes `Regular`. */
  function MigrateStaff(p: Staff): (r: Staff)
    ensures r.tipo != Profesional
    ensures r == p.(tipo := r.tipo)
    ensures CommissionRate(r.tipo) == if p.tipo == Profesional then 60 else CommissionRate(p.tipo)
  {
    if p.tipo == Profesional then p.(tipo := Regular) else p
  }

  /** How many records still carry the legacy kind. */
  function CountLegacy(personal: seq<Staff>): (n: nat)
    ensures n <= |personal|
  {
    if personal == [] then 0
    else CountLegacy(personal[..|personal| - 1]) + (if personal[|personal| - 1].tipo == Profesional then 1 else 0)
  }

  /** The count is zero exactly when no record carries the legacy kind. */
  lemma {:induction false} NoLegacyIffZero(personal: seq<Staff>)
    ensures CountLegacy(personal) == 0 <==> forall k :: 0 <= k < |personal| ==> personal[k].tipo != Profesional
  {
    if personal != [] {
      var front := personal[..|personal| - 1];
      NoLegacyIffZero(front);
      assert forall k :: 0 <= k < |front| ==> front[k] == personal[k];
    }
  }
}
