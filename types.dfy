/**
 * The view entities of the dashboard (src/types/index.ts).  Dates stay the
 * ISO strings the source keeps them as; amounts are reals.
 */
module Types {
  import opened Wire

  datatype ObraStatus = Planificacion | EnProgreso | Pausada | Completada

  datatype Obra = Obra(
    id: string,
    name: string,
    address: string,
    startDate: string,
    estimatedEndDate: string,
    status: ObraStatus,
    budget: real,
    constructoraId: string,
    responsable: string,
    description: string)

  datatype ResidenteStatus = Activo | Inactivo

  datatype Residente = Residente(
    id: string,
    name: string,
    email: string,
    phone: string,
    obraId: string,
    constructoraId: string,
    position: string,
    createdAt: string,
    status: ResidenteStatus)

  /**
   * Payment status and method.  The mapper casts the backend's text to these
   * unions without checking it, so a text outside the union is kept as it is
   * (`UnlistedStatus`, `UnlistedMethod`).
   */
  datatype PaymentStatus = Completado | Pendiente | Fallido | UnlistedStatus(text: string)

  datatype PaymentMethod = Tarjeta | Transferencia | Oxxo | Paypal | Stripe | UnlistedMethod(text: string)

  /** `paymentMethod` is the source's `method` field. */
  datatype Payment = Payment(
    id: string,
    constructoraId: string,
    amount: real,
    date: string,
    status: PaymentStatus,
    paymentMethod: PaymentMethod,
    concept: string,
    reference: string)

  /** `plan` is whatever lower-cased plan name the backend gave (an unchecked cast). */
  datatype Constructora = Constructora(
    id: string,
    name: string,
    rfc: string,
    email: string,
    phone: string,
    address: string,
    plan: string,
    planExpiry: string,
    montoMinimo: Option<real>,
    montoMaximo: Option<real>,
    createdAt: string)

  datatype ReportType = Avance | Incidente | Material | Personal

  datatype ReportStatus = Borrador | Enviado

  /** `kind` is the source's `type` field. */
  datatype Report = Report(
    id: string,
    obraId: string,
    residenteId: string,
    title: string,
    description: string,
    date: string,
    kind: ReportType,
    status: ReportStatus,
    attachments: Option<seq<string>>)

  function ObraId(o: Obra): string { o.id }
  function ResidenteId(r: Residente): string { r.id }
  function PaymentId(p: Payment): string { p.id }
  function ReportId(r: Report): string { r.id }

  /** `text as Payment['status']`. */
  function PaymentStatusOf(text: string): PaymentStatus {
    if text == "completado" then Completado
    else if text == "pendiente" then Pendiente
    else if text == "fallido" then Fallido
    else UnlistedStatus(text)
  }

  function PaymentStatusText(s: PaymentStatus): string {
    match s
    case Completado => "completado"
    case Pendiente => "pendiente"
    case Fallido => "fallido"
    case UnlistedStatus(t) => t
  }

  /** `text as Payment['method']`. */
  function PaymentMethodOf(text: string): PaymentMethod {
    if text == "tarjeta" then Tarjeta
    else if text == "transferencia" then Transferencia
    else if text == "oxxo" then Oxxo
    else if text == "paypal" then Paypal
    else if text == "stripe" then Stripe
    else UnlistedMethod(text)
  }

  function PaymentMethodText(m: PaymentMethod): string {
    match m
    case Tarjeta => "tarjeta"
    case Transferencia => "transferencia"
    case Oxxo => "oxxo"
    case Paypal => "paypal"
    case Stripe => "stripe"
    case UnlistedMethod(t) => t
  }

  /** The cast keeps the backend's text: reading the status back gives that text. */
  lemma PaymentCastsKeepText(status: string, methodText: string)
    ensures PaymentStatusText(PaymentStatusOf(status)) == status
    ensures PaymentMethodText(PaymentMethodOf(methodText)) == methodText
  {
  }
}

/** The row shapes the backend returns, as the components declare them. */
module Rows {
  import opened Wire

  /** A row of `obras`. A missing `is_active` reads as false. */
  datatype ObraRow = ObraRow(
    id: string,
    nombre: string,
    direccion: Option<string>,
    fechaInicio: Option<string>,
    fechaFinEstimada: Option<string>,
    isActive: bool,
    presupuesto: WireNumber,
    constructoraId: string,
    descripcion: Option<string>)

  /** A row of `residentes`. */
  datatype ResidenteRow = ResidenteRow(
    id: string,
    nombre: Option<string>,
    apellidos: Option<string>,
    email: Option<string>,
    telefono: Option<string>,
    constructoraId: string,
    createdAt: Option<string>,
    isActive: bool)

  /** A row of `pagos`. */
  datatype PagoRow = PagoRow(
    id: string,
    constructoraId: string,
    monto: WireNumber,
    fechaPago: Option<string>,
    status: Option<string>,
    metodoPago: Option<string>,
    concepto: Option<string>,
    referenciaPago: Option<string>)

  /** The tenant's `constructoras` row. */
  datatype ConstructoraRow = ConstructoraRow(
    id: string,
    nombreEmpresa: Option<string>,
    rfc: Option<string>,
    email: Option<string>,
    telefono: Option<string>,
    direccion: Option<string>,
    planId: Option<string>,
    subscriptionEndDate: Option<string>,
    montoMinimo: WireNumber,
    montoMaximo: WireNumber,
    createdAt: Option<string>)

  /** A row of `plans`. */
  datatype PlanRow = PlanRow(id: string, name: Option<string>)

  /** The part of a `gastos_obra` row the spend total reads. */
  datatype GastoRow = GastoRow(obraId: string, montoTotal: WireNumber)
}
