/**
 * Appointments ("citas"): the same-day search that links an appointment to a
 * new invoice, the validation of a new appointment (opening hours and room
 * overlap), the status history kept when an appointment changes status, and
 * the migration that gives legacy appointments a status.
 */
module Agenda {
  import opened Wrappers
  import opened Text

  const MsPerMinute: int := 60 * 1000
  const MsPerHour: int := 60 * MsPerMinute
  const MsPerDay: int := 24 * MsPerHour

  /** `new Date(t).setHours(0,0,0,0)`: the start of the day holding instant `t`. */
  function DayStart(t: int): (d: int)
    ensures d <= t < d + MsPerDay
    ensures d % MsPerDay == 0
  {
    t - t % MsPerDay
  }

  /** The start of a day lies on that same day (`setHours(0, 0, 0, 0)` twice is once). */
  lemma DayStartIdempotent(t: int)
    ensures DayStart(DayStart(t)) == DayStart(t)
  {
  }

  datatype AppointmentStatus =
    | Pendiente | Confirmada | EnSalaDeEspera | Completada | Cancelada | Inasistencia

  /** The `HH:MM` an appointment is booked for. */
  datatype TimeOfDay = TimeOfDay(hour: int, minute: int)

  datatype StatusEntry = StatusEntry(estado: AppointmentStatus, fecha: int, usuario: string, notas: string)

  /**
   * An appointment. Fields the source may lack on old records are options:
   * `estado` (records from before statuses existed), `creadoPor`,
   * `fechaCreacion` and `historialEstados` (created on the first status change).
   */
  datatype Appointment = Appointment(
    id: string,
    paciente: string,
    pacienteId: Option<string>,
    profesional: string,
    fecha: int,
    hora: TimeOfDay,
    consultorio: int,
    motivo: string,
    estado: Option<AppointmentStatus>,
    creadoPor: Option<string>,
    fechaCreacion: Option<int>,
    historialEstados: Option<seq<StatusEntry>>,
    fechaCompletada: Option<int>,
    procedimientosRealizados: Option<string>,
    ultimaModificacion: Option<int>,
    modificadoPor: Option<string>,
    notasProcedimiento: Option<string>)

  /** JavaScript's `s || fallback` on an optional string: missing and empty both fall back. */
  function OrElse(s: Option<string>, fallback: string): string {
    if s.Some? && s.value != [] then s.value else fallback
  }

  // ---------------------------------------------------------------------
  // Linking an appointment to a new invoice
  // ---------------------------------------------------------------------

  /** An appointment a new invoice for `paciente` by `profesional` on day `hoy` may be linked to. */
  predicate LinkCandidate(c: Appointment, paciente: string, profesional: string, hoy: int) {
    && c.paciente == paciente
    && hoy <= DayStart(c.fecha) < hoy + MsPerDay
    && c.profesional == profesional
    && c.estado != Some(Cancelada)
    && c.estado != Some(Inasistencia)
  }

  /** `citas.find(...)`: the index of the FIRST candidate, or None when there is none. */
  function FindLinkCandidate(citas: seq<Appointment>, paciente: string, profesional: string, hoy: int): (r: Option<nat>)
    ensures r.Some? ==> r.value < |citas| && LinkCandidate(citas[r.value], paciente, profesional, hoy)
    ensures r.Some? ==> forall j :: 0 <= j < r.value ==> !LinkCandidate(citas[j], paciente, profesional, hoy)
    ensures r.None? <==> forall j :: 0 <= j < |citas| ==> !LinkCandidate(citas[j], paciente, profesional, hoy)
  {
    if citas == [] then None
    else if LinkCandidate(citas[0], paciente, profesional, hoy) then Some(0)
    else
      match FindLinkCandidate(citas[1..], paciente, profesional, hoy)
      case None => None
      case Some(k) => Some(k + 1)
  }

  /** The linked appointment once the invoice exists: completed, stamped, and summarised. */
  function MarkCompleted(c: Appointment, now: int, summary: string): (r: Appointment)
    ensures r.estado == Some(Completada) && r.fechaCompletada == Some(now)
    ensures r.procedimientosRealizados == Some(summary)
    ensures r.id == c.id && r.historialEstados == c.historialEstados && r.fecha == c.fecha
    ensures r == c.(estado := r.estado, fechaCompletada := r.fechaCompletada,
                    procedimientosRealizados := r.procedimientosRealizados)
  {
    c.(estado := Some(Completada), fechaCompletada := Some(now), procedimientosRealizados := Some(summary))
  }

  // ---------------------------------------------------------------------
  // Validating a new appointment
  // ---------------------------------------------------------------------

  const OpeningHour: int := 8
  const ClosingHour: int := 20
  const SlotMinutes: int := 30

  /** Statuses that free the room: such appointments never clash. */
  predicate IgnoredForOverlap(estado: Option<AppointmentStatus>) {
    estado == Some(Cancelada) || estado == Some(Inasistencia) || estado == Some(Completada)
  }

  function Abs(x: int): nat {
    if x < 0 then -x else x
  }

  /** An existing appointment occupies room `consultorio` less than 30 minutes from instant `t`. */
  predicate Clashes(c: Appointment, consultorio: int, t: int) {
    && c.consultorio == consultorio
    && !IgnoredForOverlap(c.estado)
    && Abs(t - c.fecha) < SlotMinutes * MsPerMinute
  }

  /** The appointments a booking of room `consultorio` at `t` would overlap, in list order. */
  function Overlapping(citas: seq<Appointment>, consultorio: int, t: int): (r: seq<Appointment>)
    ensures forall c :: c in r <==> c in citas && Clashes(c, consultorio, t)
    ensures forall c :: multiset(r)[c] == if Clashes(c, consultorio, t) then multiset(citas)[c] else 0
  {
    if citas == [] then []
    else
      var rest := Overlapping(citas[1..], consultorio, t);
      assert citas == [citas[0]] + citas[1..];
      assert forall c :: c in citas <==> c == citas[0] || c in citas[1..];
      if Clashes(citas[0], consultorio, t) then [citas[0]] + rest else rest
  }

  /** The filter keeps list order: the overlaps of `a + b` are those of `a`, then those of `b`. */
  lemma {:induction false} OverlappingConcat(a: seq<Appointment>, b: seq<Appointment>, consultorio: int, t: int)
    ensures Overlapping(a + b, consultorio, t) == Overlapping(a, consultorio, t) + Overlapping(b, consultorio, t)
    decreases |a|
  {
    if a == [] {
      assert a + b == b;
    } else {
      assert (a + b)[1..] == a[1..] + b;
      OverlappingConcat(a[1..], b, consultorio, t);
    }
  }

  /** The overlap reported first is the first clashing appointment in list order. */
  lemma {:induction false} FirstOverlapIsFirstClash(citas: seq<Appointment>, consultorio: int, t: int)
    requires Overlapping(citas, consultorio, t) != []
    ensures exists i :: 0 <= i < |citas| && citas[i] == Overlapping(citas, consultorio, t)[0]
                        && forall j :: 0 <= j < i ==> !Clashes(citas[j], consultorio, t)
    decreases |citas|
  {
    if !Clashes(citas[0], consultorio, t) {
      FirstOverlapIsFirstClash(citas[1..], consultorio, t);
      var i :| 0 <= i < |citas[1..]| && citas[1..][i] == Overlapping(citas[1..], consultorio, t)[0]
               && forall j :: 0 <= j < i ==> !Clashes(citas[1..][j], consultorio, t);
      assert citas[i + 1] == Overlapping(citas, consultorio, t)[0];
      assert forall j :: 0 <= j < i + 1 ==> !Clashes(citas[j], consultorio, t) by {
        forall j | 0 <= j < i + 1 ensures !Clashes(citas[j], consultorio, t) {
          if j > 0 { assert citas[j] == citas[1..][j - 1]; }
        }
      }
    } else {
      assert citas[0] == Overlapping(citas, consultorio, t)[0];
    }
  }

  /** The form behind `guardarCita`; `None` stands for an empty or unparsable field. */
  datatype AppointmentForm = AppointmentForm(
    paciente: string,
    seleccionado: bool,
    pacienteId: Option<string>,
    profesional: string,
    dia: Option<int>,
    hora: Option<TimeOfDay>,
    consultorio: Option<int>,
    motivo: string)

  datatype AppointmentError =
    | MissingFields
    | PatientNotSelected
    | PastDate
    | OutsideOpeningHours
    | Overlap(existing: Appointment)

  predicate FieldsPresent(form: AppointmentForm) {
    && Trim(form.paciente) != []
    && form.profesional != []
    && form.dia.Some?
    && form.hora.Some?
    && form.consultorio.Some? && form.consultorio.value != 0
    && Trim(form.motivo) != []
  }

  /** The instant a booking for `dia` at `hora` starts. */
  function SlotStart(dia: int, hora: TimeOfDay): int {
    dia + hora.hour * MsPerHour + hora.minute * MsPerMinute
  }

  /** The first three checks of `guardarCita` pass: fields, patient picked, not in the past, in opening hours. */
  predicate BeforeOverlapCheck(form: AppointmentForm, now: int) {
    && FieldsPresent(form) && form.seleccionado
    && DayStart(form.dia.value) >= DayStart(now)
    && OpeningHour <= form.hora.value.hour < ClosingHour
  }

  /**
   * The checks of `guardarCita`, in the source's order, each refusing exactly
   * when the earlier ones pass and it fails. An accepted booking is in opening
   * hours, not in the past, and at least 30 minutes away from every
   * appointment that still holds the same room; an overlap reports the first
   * clashing appointment in list order.
   */
  function CheckAppointment(form: AppointmentForm, citas: seq<Appointment>, now: int): (r: Outcome<AppointmentError>)
    ensures r == Fail(MissingFields) <==> !FieldsPresent(form)
    ensures r == Fail(PatientNotSelected) <==> FieldsPresent(form) && !form.seleccionado
    ensures r == Fail(PastDate) <==>
              FieldsPresent(form) && form.seleccionado && DayStart(form.dia.value) < DayStart(now)
    ensures r == Fail(OutsideOpeningHours) <==>
              && FieldsPresent(form) && form.seleccionado && DayStart(form.dia.value) >= DayStart(now)
              && !(OpeningHour <= form.hora.value.hour < ClosingHour)
    ensures r.Fail? && r.error.Overlap? <==>
              BeforeOverlapCheck(form, now) && Overlapping(citas, form.consultorio.value, SlotStart(form.dia.value, form.hora.value)) != []
    ensures r.Fail? && r.error.Overlap? ==>
              && r.error.existing == Overlapping(citas, form.consultorio.value, SlotStart(form.dia.value, form.hora.value))[0]
              && r.error.existing in citas
              && Clashes(r.error.existing, form.consultorio.value, SlotStart(form.dia.value, form.hora.value))
    ensures r == Pass <==>
              && BeforeOverlapCheck(form, now)
              && forall c :: c in citas && c.consultorio == form.consultorio.value && !IgnoredForOverlap(c.estado) ==>
                   Abs(SlotStart(form.dia.value, form.hora.value) - c.fecha) >= SlotMinutes * MsPerMinute
  {
    if !FieldsPresent(form) then Fail(MissingFields)
    else if !form.seleccionado then Fail(PatientNotSelected)
    else if DayStart(form.dia.value) < DayStart(now) then Fail(PastDate)
    else if form.hora.value.hour < OpeningHour || form.hora.value.hour >= ClosingHour then Fail(OutsideOpeningHours)
    else
      var clashes := Overlapping(citas, form.consultorio.value, SlotStart(form.dia.value, form.hora.value));
      if clashes != [] then
        assert clashes[0] in clashes;
        Fail(Overlap(clashes[0]))
      else Pass
  }

  /**
   * The record `guardarCita` appends: the trimmed patient and reason, the
   * chosen professional, slot and room, created by the user now, Pendiente,
   * with no history and nothing stamped yet.
   */
  function NewAppointment(form: AppointmentForm, id: string, user: string, now: int): (c: Appointment)
    requires FieldsPresent(form)
    ensures c.id == id && c.paciente == Trim(form.paciente) && c.pacienteId == form.pacienteId
    ensures c.profesional == form.profesional && c.motivo == Trim(form.motivo)
    ensures c.fecha == SlotStart(form.dia.value, form.hora.value) && c.hora == form.hora.value
    ensures c.consultorio == form.consultorio.value
    ensures c.estado == Some(Pendiente) && c.creadoPor == Some(user) && c.fechaCreacion == Some(now)
    ensures c.historialEstados.None? && c.fechaCompletada.None? && c.procedimientosRealizados.None?
    ensures c.ultimaModificacion.None? && c.modificadoPor.None? && c.notasProcedimiento.None?
  {
    Appointment(
      id, Trim(form.paciente), form.pacienteId, form.profesional,
      SlotStart(form.dia.value, form.hora.value), form.hora.value, form.consultorio.value,
      Trim(form.motivo), Some(Pendiente), Some(user), Some(now), None, None, None, None, None, None)
  }

  // ---------------------------------------------------------------------
  // Status history
  // ---------------------------------------------------------------------

  /** The history as it stands before a change: the stored one, or a first entry for the current status. */
  function HistoryBeforeChange(c: Appointment): (h: seq<StatusEntry>)
    ensures c.historialEstados.Some? ==> h == c.historialEstados.value
    ensures c.historialEstados.None? ==>
              h == [StatusEntry(c.estado.GetOr(Pendiente), c.fechaCreacion.GetOr(c.fecha), OrElse(c.creadoPor, "Sistema"), "Estado inicial")]
  {
    match c.historialEstados
    case Some(h) => h
    case None => [StatusEntry(c.estado.GetOr(Pendiente), c.fechaCreacion.GetOr(c.fecha), OrElse(c.creadoPor, "Sistema"), "Estado inicial")]
  }

  /**
   * `cambiarEstadoCita` after the user confirmed: one entry for the new status
   * is appended to the history (created first if absent); a completion with
   * notes also stores the notes on the appointment and on that entry.
   */
  function ChangeStatus(c: Appointment, nuevo: AppointmentStatus, now: int, user: string, notas: string): (r: Appointment)
    ensures r.historialEstados.Some?
    ensures var before := HistoryBeforeChange(c);
            var h := r.historialEstados.value;
            && |h| == |before| + 1 && h[..|before|] == before
            && h[|before|].estado == nuevo && h[|before|].fecha == now && h[|before|].usuario == user
            && h[|before|].notas == (if nuevo == Completada && notas != [] then notas else [])
    ensures r.estado == Some(nuevo) && r.ultimaModificacion == Some(now) && r.modificadoPor == Some(user)
    ensures r.notasProcedimiento == (if nuevo == Completada && notas != [] then Some(notas) else c.notasProcedimiento)
    ensures r.id == c.id && r.fecha == c.fecha && r.consultorio == c.consultorio
    ensures r == c.(historialEstados := r.historialEstados, estado := r.estado,
                    ultimaModificacion := r.ultimaModificacion, modificadoPor := r.modificadoPor,
                    notasProcedimiento := r.notasProcedimiento)
  {
    var before := HistoryBeforeChange(c);
    var withNotes := nuevo == Completada && notas != [];
    var entry := StatusEntry(nuevo, now, user, if withNotes then notas else []);
    c.(historialEstados := Some(before + [entry]),
       estado := Some(nuevo),
       ultimaModificacion := Some(now),
       modificadoPor := Some(user),
       notasProcedimiento := if withNotes then Some(notas) else c.notasProcedimiento)
  }

  /** The history's last entry records the appointment's current status. */
  predicate HistoryTracksStatus(c: Appointment) {
    c.historialEstados.Some? ==>
      var h := c.historialEstados.value;
      h != [] && Some(h[|h| - 1].estado) == c.estado
  }

  /**
   * Every status change keeps the history in step with the status, and the
   * first change also records the status the appointment had before it.
   */
  lemma ChangeStatusTracksHistory(c: Appointment, nuevo: AppointmentStatus, now: int, user: string, notas: string)
    ensures HistoryTracksStatus(ChangeStatus(c, nuevo, now, user, notas))
    ensures c.historialEstados.None? ==>
              var h := ChangeStatus(c, nuevo, now, user, notas).historialEstados.value;
              |h| == 2 && h[0].estado == c.estado.GetOr(Pendiente) && h[1].estado == nuevo
  {
  }

  /** `citas.find(c => c.id === id)`: the index of the first appointment with that id. */
  function FindAppointment(citas: seq<Appointment>, id: string): (r: Option<nat>)
    ensures r.Some? ==> r.value < |citas| && citas[r.value].id == id
                        && forall j :: 0 <= j < r.value ==> citas[j].id != id
    ensures r.None? <==> forall j :: 0 <= j < |citas| ==> citas[j].id != id
  {
    FirstIndex(citas, (c: Appointment) => c.id == id)
  }

  /** `limpiarDatosAntiguos` on one appointment: a missing status becomes Pendiente. */
  function MigrateAppointment(c: Appointment): (r: Appointment)
    ensures r.estado.Some?
    ensures c.estado.None? ==> r.estado == Some(Pendiente)
    ensures c.estado.Some? ==> r == c
    ensures r == c.(estado := r.estado)
  {
    if c.estado.None? then c.(estado := Some(Pendiente)) else c
  }

  /** How many appointments have no status yet. */
  function CountMissingStatus(citas: seq<Appointment>): (n: nat)
    ensures n <= |citas|
  {
    if citas == [] then 0
    else CountMissingStatus(citas[..|citas| - 1]) + (if citas[|citas| - 1].estado.None? then 1 else 0)
  }

  /** The count is zero exactly when every appointment has a status. */
  lemma {:induction false} NoneMissingIffZero(citas: seq<Appointment>)
    ensures CountMissingStatus(citas) == 0 <==> forall k :: 0 <= k < |citas| ==> citas[k].estado.Some?
  {
    if citas != [] {
      var front := citas[..|citas| - 1];
      NoneMissingIffZero(front);
      assert forall k :: 0 <= k < |front| ==> front[k] == citas[k];
    }
  }
}
