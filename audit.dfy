/** The append-only audit log ("auditLogs"). */
module Audit {
  import Invoices

  datatype AuditAction = Eliminar | Modificar | Acceso

  /** One log entry as `registrarAuditoria` builds it; `usuario` is the current user. */
  datatype AuditEntry = AuditEntry(
    id: string,
    fecha: int,
    usuario: string,
    accion: AuditAction,
    tipo: string,
    detalles: string)

  /**
   * The details `eliminarFactura` logs: number, patient and total. The total
   * arrives already formatted as currency, since that formatting depends on
   * the locale.
   */
  function InvoiceDeletionDetails(f: Invoices.Invoice, totalText: string): (d: string)
    ensures |d| == |f.numero| + |f.paciente| + |totalText| + 31
    ensures d[..8] == "Factura " && d[8..8 + |f.numero|] == f.numero
    ensures var a := 8 + |f.numero|;
            && d[a..a + 13] == " - Paciente: "
            && d[a + 13..a + 13 + |f.paciente|] == f.paciente
            && d[a + 13 + |f.paciente|..a + 23 + |f.paciente|] == " - Total: "
    ensures d[|d| - |totalText|..] == totalText
  {
    "Factura " + f.numero + " - Paciente: " + f.paciente + " - Total: " + totalText
  }

  function InvoiceDeletionEntry(f: Invoices.Invoice, totalText: string, id: string, now: int, usuario: string)
    : (e: AuditEntry)
    ensures e.id == id
    ensures e.accion == Eliminar && e.tipo == "factura" && e.usuario == usuario && e.fecha == now
    ensures e.detalles == InvoiceDeletionDetails(f, totalText)
  {
    AuditEntry(id, now, usuario, Eliminar, "factura", InvoiceDeletionDetails(f, totalText))
  }
}
