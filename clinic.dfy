/**
 * The clinic's global state (`appData`) as one object, and the handlers
 * that change it. Each handler is modelled from the point where the user
 * confirmed; ids, the clock and the current user arrive as parameters, and
 * `saveCount` counts the calls to `saveData`.
 */
module Ledger {
  import opened Wrappers
  import opened Invoices
  import Agenda
  import Lab
  import Payroll
  import Cuadre
  import Balances
  import Audit

  datatype StaffError = StaffNotFound | CannotDeleteAdmin
  datatype DeleteError = InvoiceNotFound | DeleteNotAdmin
  datatype LabAdvanceError = ReceptionNotAllowed | OrderNotFound | NotesCancelled
  datatype ExpenseError = ExpenseMissingFields

  class Clinic {
    var facturas: seq<Invoice>
    var reversiones: seq<Reversal>
    var gastos: seq<Cuadre.Expense>
    var avances: seq<Payroll.Advance>
    var personal: seq<Payroll.Staff>
    var pacientes: seq<Balances.Patient>
    var citas: seq<Agenda.Appointment>
    var laboratorios: seq<Lab.LabOrder>
    var cuadresDiarios: seq<Cuadre.DayEntry>
    var auditLogs: seq<Audit.AuditEntry>
    var saveCount: nat

    /**
     * What every handler keeps: each invoice satisfies the payment
     * invariant, invoice numbers are distinct, reversals and advances are
     * positive amounts, every lab order's timeline ends in its current state,
     * and no day is stored twice.
     */
    predicate Valid()
      reads this
    {
      && (forall f :: f in facturas ==> InvoiceOk(f))
      && NumbersUnique(facturas)
      && (forall rev :: rev in reversiones ==> rev.montoReversado > 0.0)
      && (forall a :: a in avances ==> a.monto > 0.0)
      && (forall o :: o in laboratorios ==> Lab.TimelineConsistent(o))
      && Cuadre.KeysUnique(cuadresDiarios)
    }

    constructor ()
      ensures Valid()
      ensures facturas == [] && reversiones == [] && gastos == [] && avances == [] && personal == []
      ensures pacientes == [] && citas == [] && laboratorios == [] && cuadresDiarios == [] && auditLogs == []
      ensures saveCount == 0
    {
      facturas := [];
      reversiones := [];
      gastos := [];
      avances := [];
      personal := [];
      pacientes := [];
      citas := [];
      laboratorios := [];
      cuadresDiarios := [];
      auditLogs := [];
      saveCount := 0;
    }

    // -------------------------------------------------------------------
    // Invoices, payments, reversals
    // -------------------------------------------------------------------

    /**
     * `generarFactura` with `crearOrdenesLabDesdeFactura`: on a valid form
     * the invoice is appended, the first same-day appointment of the patient
     * with the billing professional is marked completed, one lab order per
     * lab line is appended, and the data is saved (twice with lab orders).
     */
    method CreateInvoice(form: InvoiceForm, isAdmin: bool, currentUser: string, picked: string,
                         now: int, id: string, labIds: seq<string>)
      returns (r: Result<Invoice, InvoiceError>)
      requires Valid()
      requires DraftOk(form) && |labIds| == |form.ordenesLab|
      modifies this`facturas, this`citas, this`laboratorios, this`saveCount
      ensures Valid()
      ensures r.Err? <==> CheckInvoiceForm(form, isAdmin, currentUser, picked).Err?
      ensures r.Err? ==> r.error == CheckInvoiceForm(form, isAdmin, currentUser, picked).error && unchanged(this)
      ensures r.Ok? ==>
                && CheckInvoiceForm(form, isAdmin, currentUser, picked) == Ok(r.value.profesional)
                && Recorded(old(facturas), old(citas), old(laboratorios), old(saveCount),
                            form, r.value, now, id, labIds, currentUser)
    {
      var check := CheckInvoiceForm(form, isAdmin, currentUser, picked);
      if check.Err? {
        return Err(check.error);
      }
      var f := RecordInvoice(form, check.value, now, id, labIds, currentUser);
      return Ok(f);
    }

    /**
     * The new state after recording invoice `f` from `form`: `f` is the
     * built invoice (linked to the first same-day appointment of the patient
     * with its professional), it is appended, that appointment is completed
     * with the procedure summary, the lab orders are appended, and the data
     * is saved once, or twice when there are lab orders.
     */
    ghost predicate Recorded(f0: seq<Invoice>, c0: seq<Agenda.Appointment>, l0: seq<Lab.LabOrder>, s0: nat,
                             form: InvoiceForm, f: Invoice, now: int, id: string, labIds: seq<string>, user: string)
      requires DraftOk(form) && |labIds| == |form.ordenesLab|
      reads this
    {
      && Linked(f0, c0, form, f, now, id)
      && laboratorios == l0 + Lab.OrdersForInvoice(f, labIds, now, user)
      && saveCount == s0 + (if form.ordenesLab != [] then 2 else 1)
    }

    /**
     * The invoice and appointment part of `Recorded`: `f` is the built invoice,
     * appended, and the appointment it links to (if any) is completed.
     */
    ghost predicate Linked(f0: seq<Invoice>, c0: seq<Agenda.Appointment>, form: InvoiceForm, f: Invoice, now: int, id: string)
      requires DraftOk(form)
      reads this
    {
      var link := Agenda.FindLinkCandidate(c0, form.paciente, f.profesional, Agenda.DayStart(now));
      && f == BuildInvoice(form, f0, f.profesional, now, id, if link.Some? then Some(c0[link.value]) else None)
      && facturas == f0 + [f]
      && citas == (if link.Some?
                   then c0[link.value := Agenda.MarkCompleted(c0[link.value], now, ProcedureSummary(form.procedimientos))]
                   else c0)
    }

    /** The part of `generarFactura` after the form checks passed. */
    method RecordInvoice(form: InvoiceForm, profesional: string, now: int, id: string, labIds: seq<string>, user: string)
      returns (f: Invoice)
      requires Valid()
      requires DraftOk(form) && |labIds| == |form.ordenesLab|
      modifies this`facturas, this`citas, this`laboratorios, this`saveCount
      ensures Valid()
      ensures f.profesional == profesional
      ensures Recorded(old(facturas), old(citas), old(laboratorios), old(saveCount), form, f, now, id, labIds, user)
    {
      f := AddLinkedInvoice(form, profesional, now, id);
      AppendLabOrders(Lab.OrdersForInvoice(f, labIds, now, user));
    }

    /** Builds and appends the invoice, completing the appointment it is linked to. */
    method AddLinkedInvoice(form: InvoiceForm, profesional: string, now: int, id: string) returns (f: Invoice)
      requires Valid() && DraftOk(form)
      modifies this`facturas, this`citas
      ensures Valid()
      ensures f.profesional == profesional
      ensures Linked(old(facturas), old(citas), form, f, now, id)
    {
      var link := Agenda.FindLinkCandidate(citas, form.paciente, profesional, Agenda.DayStart(now));
      var cita := if link.Some? then Some(citas[link.value]) else None;
      f := BuildInvoice(form, facturas, profesional, now, id, cita);
      AppendInvoice(f);
      CompleteLinked(link, now, ProcedureSummary(form.procedimientos));
    }

    /** Appends a new invoice whose number is above every stored one. */
    method AppendInvoice(f: Invoice)
      requires Valid() && InvoiceOk(f)
      requires forall i :: 0 <= i < |facturas| ==> NumberValue(facturas[i].numero) < NumberValue(f.numero)
      modifies this`facturas
      ensures Valid()
      ensures facturas == old(facturas) + [f]
    {
      NumbersUniqueAppend(facturas, f);
      facturas := facturas + [f];
    }

    /** Marks the linked appointment, if any, as completed with the procedure summary. */
    method CompleteLinked(link: Option<nat>, now: int, summary: string)
      requires Valid() && (link.Some? ==> link.value < |citas|)
      modifies this`citas
      ensures Valid()
      ensures citas == (if link.Some? then old(citas)[link.value := Agenda.MarkCompleted(old(citas)[link.value], now, summary)]
                        else old(citas))
    {
      if link.Some? {
        citas := citas[link.value := Agenda.MarkCompleted(citas[link.value], now, summary)];
      }
    }

    /**
     * Appends lab orders that each start with a consistent timeline; the
     * data is saved once for the orders, when there are any, and once more.
     */
    method AppendLabOrders(ordenes: seq<Lab.LabOrder>)
      requires Valid()
      requires forall k :: 0 <= k < |ordenes| ==> Lab.TimelineConsistent(ordenes[k])
      modifies this`laboratorios, this`saveCount
      ensures Valid()
      ensures laboratorios == old(laboratorios) + ordenes
      ensures saveCount == old(saveCount) + (if ordenes != [] then 2 else 1)
    {
      laboratorios := laboratorios + ordenes;
      saveCount := saveCount + (if ordenes != [] then 2 else 1);
    }

    /**
     * `confirmarPago` on the invoice at `k`: an amount that is missing or not
     * a number is refused like a non-positive one; an accepted payment
     * replaces the invoice by its paid version and saves.
     */
    method ConfirmPayment(k: nat, monto: Option<real>, metodo: PayMethod, proof: Option<string>, now: int, id: string)
      returns (r: Result<Invoice, PaymentError>)
      requires Valid() && k < |facturas|
      modifies this`facturas, this`saveCount
      ensures Valid()
      ensures monto.None? ==> r == Err(InvalidAmount)
      ensures monto.Some? ==> r == ApplyPayment(old(facturas)[k], MakePayment(id, monto.value, metodo, now, proof))
      ensures r.Err? ==> unchanged(this)
      ensures r.Ok? ==> facturas == old(facturas)[k := r.value] && saveCount == old(saveCount) + 1
    {
      if monto.None? {
        return Err(InvalidAmount);
      }
      var f := facturas[k];
      var p := MakePayment(id, monto.value, metodo, now, proof);
      r := ApplyPayment(f, p);
      if r.Ok? {
        PaymentKeepsInvoiceOk(f, p);
        ReplaceInvoice(k, r.value);
        saveCount := saveCount + 1;
      }
    }

    /** Replaces the invoice at `k` by a valid one with the same number. */
    method ReplaceInvoice(k: nat, g: Invoice)
      requires Valid() && k < |facturas|
      requires InvoiceOk(g) && g.numero == facturas[k].numero
      modifies this`facturas
      ensures Valid()
      ensures facturas == old(facturas)[k := g]
    {
      UpdateKeepsValid(k, g);
      facturas := facturas[k := g];
    }

    /** Filters the invoice out of the list and saves. */
    method RemoveInvoice(facturaId: string)
      requires Valid()
      modifies this`facturas, this`saveCount
      ensures Valid()
      ensures facturas == WithoutInvoice(old(facturas), facturaId)
      ensures saveCount == old(saveCount) + 1
    {
      facturas := WithoutInvoice(facturas, facturaId);
      saveCount := saveCount + 1;
    }

    /** Replacing one invoice by one with the same number and the invariant keeps the ledger valid. */
    lemma UpdateKeepsValid(k: nat, g: Invoice)
      requires Valid() && k < |facturas|
      requires InvoiceOk(g) && g.numero == facturas[k].numero
      ensures forall f :: f in facturas[k := g] ==> InvoiceOk(f)
      ensures NumbersUnique(facturas[k := g])
    {
      var upd := facturas[k := g];
      forall f | f in upd ensures InvoiceOk(f) {
        var i :| 0 <= i < |upd| && upd[i] == f;
        if i != k {
          assert f == facturas[i];
        }
      }
      assert forall i :: 0 <= i < |upd| ==> upd[i].numero == facturas[i].numero;
    }

    /**
     * `abrirReversarCobro` + `confirmarReversion`: only an admin may reverse;
     * the invoice (first with that id) must exist and have payments, and a
     * reason must be given. Then its last payment is undone and one reversal
     * record is appended.
     */
    method ReversePayment(facturaId: string, isAdmin: bool, motivo: string, actor: string, now: int, id: string)
      returns (r: Result<Reversal, ReversalError>)
      requires Valid()
      modifies this`facturas, this`reversiones, this`saveCount
      ensures Valid()
      ensures !isAdmin ==> r == Err(NotAdmin)
      ensures isAdmin && FindInvoice(old(facturas), facturaId).None? ==> r == Err(NoPayments)
      ensures isAdmin && FindInvoice(old(facturas), facturaId).Some? ==>
                var k := FindInvoice(old(facturas), facturaId).value;
                var res := ReverseLast(old(facturas)[k], motivo, actor, now, id);
                && (res.Err? ==> r == Err(res.error))
                && (res.Ok? ==> r == Ok(res.value.1)
                                && facturas == old(facturas)[k := res.value.0]
                                && reversiones == old(reversiones) + [res.value.1])
      ensures r.Err? ==> unchanged(this)
      ensures r.Ok? ==> saveCount == old(saveCount) + 1
    {
      if !isAdmin {
        return Err(NotAdmin);
      }
      var found := FindInvoice(facturas, facturaId);
      if found.None? {
        return Err(NoPayments);
      }
      var k := found.value;
      var res := ReverseLast(facturas[k], motivo, actor, now, id);
      if res.Err? {
        return Err(res.error);
      }
      ReversalKeepsInvoiceOk(facturas[k], motivo, actor, now, id);
      CommitReversal(k, res.value.0, res.value.1);
      return Ok(res.value.1);
    }

    /** Stores the reversed invoice and the reversal record, then saves. */
    method CommitReversal(k: nat, g: Invoice, rev: Reversal)
      requires Valid() && k < |facturas|
      requires InvoiceOk(g) && g.numero == facturas[k].numero && rev.montoReversado > 0.0
      modifies this`facturas, this`reversiones, this`saveCount
      ensures Valid()
      ensures facturas == old(facturas)[k := g] && reversiones == old(reversiones) + [rev]
      ensures saveCount == old(saveCount) + 1
    {
      ReplaceInvoice(k, g);
      reversiones := reversiones + [rev];
      saveCount := saveCount + 1;
    }

    /**
     * `eliminarFactura`: the invoice must exist and the user must be an
     * admin; the audit entry is written (and saved) before the invoice is
     * filtered out and the data saved again.
     */
    method DeleteInvoice(facturaId: string, isAdmin: bool, totalText: string, logId: string, now: int, user: string)
      returns (r: Outcome<DeleteError>)
      requires Valid()
      modifies this`facturas, this`auditLogs, this`saveCount
      ensures Valid()
      ensures FindInvoice(old(facturas), facturaId).None? ==> r == Fail(InvoiceNotFound)
      ensures FindInvoice(old(facturas), facturaId).Some? && !isAdmin ==> r == Fail(DeleteNotAdmin)
      ensures r.Fail? ==> unchanged(this)
      ensures r.Pass? ==>
                var f := old(facturas)[FindInvoice(old(facturas), facturaId).value];
                && auditLogs == old(auditLogs) + [Audit.InvoiceDeletionEntry(f, totalText, logId, now, user)]
                && facturas == WithoutInvoice(old(facturas), facturaId)
                && saveCount == old(saveCount) + 2
      ensures r.Pass? <==> FindInvoice(old(facturas), facturaId).Some? && isAdmin
    {
      var found := FindInvoice(facturas, facturaId);
      if found.None? {
        return Fail(InvoiceNotFound);
      }
      if !isAdmin {
        return Fail(DeleteNotAdmin);
      }
      var f := facturas[found.value];
      var entry := Audit.InvoiceDeletionEntry(f, totalText, logId, now, user);
      RecordAudit(entry.accion, entry.tipo, entry.detalles, logId, now, user);
      RemoveInvoice(facturaId);
      return Pass;
    }

    /** `registrarAuditoria`: exactly one entry is appended and the data saved. */
    method RecordAudit(accion: Audit.AuditAction, tipo: string, detalles: string, id: string, now: int, user: string)
      modifies this`auditLogs, this`saveCount
      requires Valid()
      ensures Valid()
      ensures auditLogs == old(auditLogs) + [Audit.AuditEntry(id, now, user, accion, tipo, detalles)]
      ensures saveCount == old(saveCount) + 1
    {
      auditLogs := auditLogs + [Audit.AuditEntry(id, now, user, accion, tipo, detalles)];
      saveCount := saveCount + 1;
    }

    // -------------------------------------------------------------------
    // Staff, commissions and advances
    // -------------------------------------------------------------------

    /**
     * `confirmarPagoProfesional`: pays the accrued commission and moves the
     * window start to now, so nothing dated up to now accrues any more.
     */
    method PayCommission(staffId: string, now: int) returns (paid: Option<real>)
      modifies this`personal, this`saveCount
      requires Valid()
      ensures Valid()
      ensures Payroll.FindStaff(old(personal), staffId).None? ==> paid.None? && unchanged(this)
      ensures Payroll.FindStaff(old(personal), staffId).Some? ==>
                var k := Payroll.FindStaff(old(personal), staffId).value;
                var p := old(personal)[k];
                && paid == Some(Payroll.AccruedCommission(facturas, p))
                && personal == old(personal)[k := p.(lastPaymentDate := Some(now))]
                && saveCount == old(saveCount) + 1
                && ((forall i :: 0 <= i < |facturas| ==> facturas[i].fecha <= now) ==>
                      Payroll.AccruedCommission(facturas, personal[k]) == 0.0)
    {
      var found := Payroll.FindStaff(personal, staffId);
      if found.None? {
        return None;
      }
      var k := found.value;
      var p := personal[k];
      paid := Some(Payroll.AccruedCommission(facturas, p));
      personal := personal[k := p.(lastPaymentDate := Some(now))];
      saveCount := saveCount + 1;
      if forall i :: 0 <= i < |facturas| ==> facturas[i].fecha <= now {
        Payroll.PayoutClearsAccrual(facturas, p, now);
      }
    }

    /**
     * `registrarAvance` for the staff member at `k`: the checks of
     * `CheckAdvance`; an accepted advance is appended, and a capped
     * employee's advances then still fit in the salary.
     */
    method RegisterAdvance(k: nat, monto: Option<real>, notas: string, now: int, id: string, user: string)
      returns (r: Outcome<Payroll.AdvanceError>)
      requires Valid() && k < |personal|
      modifies this`avances, this`saveCount
      ensures Valid()
      ensures r == Payroll.CheckAdvance(personal[k], old(avances), monto)
      ensures r.Fail? ==> unchanged(this)
      ensures r.Pass? ==>
                && avances == old(avances) + [Payroll.Advance(id, personal[k].id, monto.value, notas, now, user)]
                && saveCount == old(saveCount) + 1
                && (Payroll.SalaryCapped(personal[k]) ==> Payroll.TotalAdvances(avances, personal[k].id) <= personal[k].sueldo.value)
    {
      var p := personal[k];
      r := Payroll.CheckAdvance(p, avances, monto);
      if r.Pass? {
        var a := Payroll.Advance(id, p.id, monto.value, notas, now, user);
        Payroll.AcceptedAdvanceWithinSalary(p, avances, a);
        avances := avances + [a];
        saveCount := saveCount + 1;
      }
    }

    /**
     * `confirmarPagoEmpleado`: the net pay is the salary minus the advances
     * (none without a salary on record), and all that person's advances are cleared.
     */
    method PayEmployee(staffId: string) returns (found: bool, neto: Option<real>)
      requires Valid()
      modifies this`avances, this`saveCount
      ensures Valid()
      ensures found <==> Payroll.FindStaff(personal, staffId).Some?
      ensures !found ==> neto.None? && unchanged(this)
      ensures found ==>
                var p := personal[Payroll.FindStaff(personal, staffId).value];
                && neto == Payroll.NetSalary(p, old(avances))
                && avances == Payroll.WithoutAdvancesOf(old(avances), staffId)
                && Payroll.TotalAdvances(avances, staffId) == 0.0
                && saveCount == old(saveCount) + 1
    {
      var k := Payroll.FindStaff(personal, staffId);
      if k.None? {
        return false, None;
      }
      var p := personal[k.value];
      neto := Payroll.NetSalary(p, avances);
      avances := Payroll.WithoutAdvancesOf(avances, p.id);
      saveCount := saveCount + 1;
      found := true;
    }

    /**
     * `eliminarPersonal`: an unknown id or an admin account is refused;
     * otherwise the person and all their advances are removed.
     */
    method DeleteStaff(staffId: string) returns (r: Outcome<StaffError>)
      requires Valid()
      modifies this`personal, this`avances, this`saveCount
      ensures Valid()
      ensures Payroll.FindStaff(old(personal), staffId).None? ==> r == Fail(StaffNotFound)
      ensures Payroll.FindStaff(old(personal), staffId).Some? ==>
                (old(personal)[Payroll.FindStaff(old(personal), staffId).value].isAdmin <==> r == Fail(CannotDeleteAdmin))
      ensures r.Fail? ==> unchanged(this)
      ensures r.Pass? ==>
                && personal == Payroll.WithoutStaff(old(personal), staffId)
                && avances == Payroll.WithoutAdvancesOf(old(avances), staffId)
                && saveCount == old(saveCount) + 1
    {
      var k := Payroll.FindStaff(personal, staffId);
      if k.None? {
        return Fail(StaffNotFound);
      }
      if personal[k.value].isAdmin {
        return Fail(CannotDeleteAdmin);
      }
      personal := Payroll.WithoutStaff(personal, staffId);
      avances := Payroll.WithoutAdvancesOf(avances, staffId);
      saveCount := saveCount + 1;
      return Pass;
    }

    // -------------------------------------------------------------------
    // Expenses and the daily cash reconciliation
    // -------------------------------------------------------------------

    /**
     * `registrarGasto`: description, amount and supplier are required (an
     * amount of 0 or not a number counts as missing); the expense is appended.
     */
    method RegisterExpense(descripcion: string, monto: Option<real>, proveedor: string, metodo: PayMethod,
                           now: int, id: string, user: string)
      returns (r: Outcome<ExpenseError>)
      modifies this`gastos, this`saveCount
      requires Valid()
      ensures Valid()
      ensures r.Fail? <==> descripcion == [] || monto.None? || monto == Some(0.0) || proveedor == []
      ensures r.Fail? ==> unchanged(this)
      ensures r.Pass? ==>
                && gastos == old(gastos) + [Cuadre.Expense(id, now, descripcion, monto.value, metodo, proveedor, user)]
                && saveCount == old(saveCount) + 1
    {
      if descripcion == [] || monto.None? || monto == Some(0.0) || proveedor == [] {
        return Fail(ExpenseMissingFields);
      }
      gastos := gastos + [Cuadre.Expense(id, now, descripcion, monto.value, metodo, proveedor, user)];
      saveCount := saveCount + 1;
      return Pass;
    }

    /**
     * The computing part of `updateCuadreTab`: today's figures, stored (and
     * saved) only when the day had activity and a key field changed.
     */
    method UpdateCuadre(now: int, efectivoInicial: Option<real>) returns (c: Cuadre.DailyCuadre, saved: bool)
      requires Valid()
      modifies this`cuadresDiarios, this`saveCount
      ensures Valid()
      ensures c == Cuadre.ComputeCuadre(facturas, gastos, Agenda.DayStart(now), efectivoInicial)
      ensures (cuadresDiarios, saved) == Cuadre.SaveIfActive(old(cuadresDiarios), c)
      ensures saveCount == old(saveCount) + (if saved then 1 else 0)
    {
      c := Cuadre.ComputeCuadre(facturas, gastos, Agenda.DayStart(now), efectivoInicial);
      var res := Cuadre.SaveIfActive(cuadresDiarios, c);
      cuadresDiarios := res.0;
      saved := res.1;
      if saved {
        saveCount := saveCount + 1;
      }
    }

    // -------------------------------------------------------------------
    // Appointments, lab orders, data migration
    // -------------------------------------------------------------------

    /** `guardarCita`: the checks of `CheckAppointment`; an accepted appointment is appended. */
    method SaveAppointment(form: Agenda.AppointmentForm, now: int, id: string, user: string)
      returns (r: Outcome<Agenda.AppointmentError>)
      modifies this`citas, this`saveCount
      requires Valid()
      ensures Valid()
      ensures r == Agenda.CheckAppointment(form, old(citas), now)
      ensures r.Fail? ==> unchanged(this)
      ensures r.Pass? ==>
                && Agenda.FieldsPresent(form)
                && citas == old(citas) + [Agenda.NewAppointment(form, id, user, now)]
                && saveCount == old(saveCount) + 1
    {
      r := Agenda.CheckAppointment(form, citas, now);
      if r.Pass? {
        AppendAppointment(Agenda.NewAppointment(form, id, user, now));
      }
    }

    /** The push and save of `guardarCita` once every check has passed. */
    method AppendAppointment(c: Agenda.Appointment)
      modifies this`citas, this`saveCount
      requires Valid()
      ensures Valid()
      ensures citas == old(citas) + [c]
      ensures saveCount == old(saveCount) + 1
    {
      citas := citas + [c];
      saveCount := saveCount + 1;
    }

    /**
     * `avanzarEstadoLab`: reception may not advance orders; the order must
     * exist; cancelling the notes prompt (`None`) changes nothing. Otherwise
     * the order gets one timeline entry and its new state.
     */
    method AdvanceLabOrder(orderId: string, nuevo: Lab.LabState, isReception: bool, notas: Option<string>, now: int, user: string)
      returns (r: Outcome<LabAdvanceError>)
      requires Valid()
      modifies this`laboratorios, this`saveCount
      ensures Valid()
      ensures isReception ==> r == Fail(ReceptionNotAllowed)
      ensures !isReception && Lab.FindOrder(old(laboratorios), orderId).None? ==> r == Fail(OrderNotFound)
      ensures !isReception && Lab.FindOrder(old(laboratorios), orderId).Some? && notas.None? ==> r == Fail(NotesCancelled)
      ensures r.Fail? ==> unchanged(this)
      ensures r.Pass? <==> !isReception && Lab.FindOrder(old(laboratorios), orderId).Some? && notas.Some?
      ensures r.Pass? ==>
                var k := Lab.FindOrder(old(laboratorios), orderId).value;
                && laboratorios == old(laboratorios)[k := Lab.Advance(old(laboratorios)[k], nuevo, now, user, notas.value)]
                && saveCount == old(saveCount) + 1
    {
      if isReception {
        return Fail(ReceptionNotAllowed);
      }
      var found := Lab.FindOrder(laboratorios, orderId);
      if found.None? {
        return Fail(OrderNotFound);
      }
      if notas.None? {
        return Fail(NotesCancelled);
      }
      var k := found.value;
      var o := Lab.Advance(laboratorios[k], nuevo, now, user, notas.value);
      forall x | x in laboratorios[k := o] ensures Lab.TimelineConsistent(x) {
        var i :| 0 <= i < |laboratorios[k := o]| && laboratorios[k := o][i] == x;
        if i != k {
          assert x == laboratorios[i];
        }
      }
      laboratorios := laboratorios[k := o];
      saveCount := saveCount + 1;
      return Pass;
    }

    /**
     * `cambiarEstadoCita` once confirmed (`notas` is the answer to the notes
     * prompt, "" when none): the status change is recorded in the history.
     */
    method ChangeAppointmentStatus(citaId: string, nuevo: Agenda.AppointmentStatus, now: int, user: string, notas: string)
      returns (found: bool)
      modifies this`citas, this`saveCount
      requires Valid()
      ensures Valid()
      ensures found <==> Agenda.FindAppointment(old(citas), citaId).Some?
      ensures !found ==> unchanged(this)
      ensures found ==>
                var k := Agenda.FindAppointment(old(citas), citaId).value;
                && citas == old(citas)[k := Agenda.ChangeStatus(old(citas)[k], nuevo, now, user, notas)]
                && Agenda.HistoryTracksStatus(citas[k])
                && saveCount == old(saveCount) + 1
    {
      var k := Agenda.FindAppointment(citas, citaId);
      if k.None? {
        return false;
      }
      Agenda.ChangeStatusTracksHistory(citas[k.value], nuevo, now, user, notas);
      citas := citas[k.value := Agenda.ChangeStatus(citas[k.value], nuevo, now, user, notas)];
      saveCount := saveCount + 1;
      return true;
    }

    /**
     * `limpiarDatosAntiguos`: every legacy staff kind becomes `Regular` and
     * every appointment without a status becomes `Pendiente`; the changes
     * are counted and saved only when there were any.
     */
    method CleanOldData() returns (cambios: nat)
      modifies this`personal, this`citas, this`saveCount
      requires Valid()
      ensures Valid()
      ensures |personal| == |old(personal)| && |citas| == |old(citas)|
      ensures forall k :: 0 <= k < |personal| ==> personal[k] == Payroll.MigrateStaff(old(personal)[k])
      ensures forall k :: 0 <= k < |citas| ==> citas[k] == Agenda.MigrateAppointment(old(citas)[k])
      ensures cambios == Payroll.CountLegacy(old(personal)) + Agenda.CountMissingStatus(old(citas))
      ensures saveCount == old(saveCount) + (if cambios > 0 then 1 else 0)
      ensures Payroll.CountLegacy(personal) == 0 && Agenda.CountMissingStatus(citas) == 0
    {
      var legacy := MigrateStaffRecords();
      var missing := MigrateAppointmentRecords();
      Payroll.NoLegacyIffZero(personal);
      Agenda.NoneMissingIffZero(citas);
      cambios := legacy + missing;
      if cambios > 0 {
        saveCount := saveCount + 1;
      }
    }

    /** The staff loop of `limpiarDatosAntiguos`, one record at a time. */
    method MigrateStaffRecords() returns (cambios: nat)
      modifies this`personal
      requires Valid()
      ensures Valid()
      ensures |personal| == |old(personal)|
      ensures forall k :: 0 <= k < |personal| ==> personal[k] == Payroll.MigrateStaff(old(personal)[k])
      ensures cambios == Payroll.CountLegacy(old(personal))
    {
      var before := personal;
      var ps := personal;
      cambios := 0;
      var i := 0;
      while i < |ps|
        invariant 0 <= i <= |ps| == |before|
        invariant forall k :: 0 <= k < i ==> ps[k] == Payroll.MigrateStaff(before[k])
        invariant forall k :: i <= k < |ps| ==> ps[k] == before[k]
        invariant cambios == Payroll.CountLegacy(before[..i])
      {
        assert before[..i + 1][..i] == before[..i];
        if ps[i].tipo == Payroll.Profesional {
          cambios := cambios + 1;
        }
        ps := ps[i := Payroll.MigrateStaff(ps[i])];
        i := i + 1;
      }
      assert before[..i] == before;
      personal := ps;
    }

    /** The appointment loop of `limpiarDatosAntiguos`, one record at a time. */
    method MigrateAppointmentRecords() returns (cambios: nat)
      modifies this`citas
      requires Valid()
      ensures Valid()
      ensures |citas| == |old(citas)|
      ensures forall k :: 0 <= k < |citas| ==> citas[k] == Agenda.MigrateAppointment(old(citas)[k])
      ensures cambios == Agenda.CountMissingStatus(old(citas))
    {
      var before := citas;
      var cs := citas;
      cambios := 0;
      var j := 0;
      while j < |cs|
        invariant 0 <= j <= |cs| == |before|
        invariant forall k :: 0 <= k < j ==> cs[k] == Agenda.MigrateAppointment(before[k])
        invariant forall k :: j <= k < |cs| ==> cs[k] == before[k]
        invariant cambios == Agenda.CountMissingStatus(before[..j])
      {
        assert before[..j + 1][..j] == before[..j];
        if cs[j].estado.None? {
          cambios := cambios + 1;
        }
        cs := cs[j := Agenda.MigrateAppointment(cs[j])];
        j := j + 1;
      }
      assert before[..j] == before;
      citas := cs;
    }
  }
}
