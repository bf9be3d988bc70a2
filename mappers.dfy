/**
 * The obra row mapping that the dashboard, the obras tab and both obra
 * dialogs write out in the same shape: `is_active` becomes the status,
 * `presupuesto` goes through `Number(x || 0)`, missing texts become ''.
 */
module Mappers {
  import opened Wire
  import opened Types
  import opened Rows

  /** `is_active ? 'en_progreso' : 'pausada'`. */
  function ObraStatusOf(isActive: bool): (s: ObraStatus)
    ensures s == EnProgreso <==> isActive
    ensures s == Pausada <==> !isActive
  {
    if isActive then EnProgreso else Pausada
  }

  /** An obra row as a view entity, with the responsable name the caller chose. */
  function ObraFromRow(ob: ObraRow, responsable: string): (o: Obra)
    ensures o.id == ob.id && o.name == ob.nombre && o.constructoraId == ob.constructoraId
    ensures o.status == EnProgreso <==> ob.isActive
    ensures o.status == Pausada <==> !ob.isActive
    ensures o.budget == Amount(ob.presupuesto)
    ensures o.budget == 0.0 <==> ob.presupuesto in {Absent, EmptyText, Num(0.0), NumericText(0.0)}
    ensures o.address == Or(ob.direccion, "") && o.description == Or(ob.descripcion, "")
    ensures o.startDate == Or(ob.fechaInicio, "") && o.estimatedEndDate == Or(ob.fechaFinEstimada, "")
    ensures Truthy(ob.direccion) || o.address == ""
    ensures o.responsable == responsable
  {
    Obra(
      id := ob.id,
      name := ob.nombre,
      address := Or(ob.direccion, ""),
      startDate := Or(ob.fechaInicio, ""),
      estimatedEndDate := Or(ob.fechaFinEstimada, ""),
      status := ObraStatusOf(ob.isActive),
      budget := Amount(ob.presupuesto),
      constructoraId := ob.constructoraId,
      responsable := responsable,
      description := Or(ob.descripcion, ""))
  }

  /** `is_active ? 'activo' : 'inactivo'`. */
  function ResidenteStatusOf(isActive: bool): (s: ResidenteStatus)
    ensures s == Activo <==> isActive
  {
    if isActive then Activo else Inactivo
  }

  /**
   * The obra form both dialogs share.  `budget` is what `parseFloat` made of
   * the budget input: `None` stands for NaN (an input that is not a number).
   */
  datatype ObraForm = ObraForm(
    name: string,
    address: string,
    description: string,
    startDate: string,
    estimatedEndDate: string,
    budget: Option<real>)

  /** The obra fields both dialogs send. */
  datatype ObraFields = ObraFields(
    nombre: string,
    direccion: string,
    descripcion: string,
    fechaInicio: Option<string>,
    fechaFinEstimada: Option<string>,
    presupuesto: real)

  /** `budget || 0`: NaN and 0 both send 0. */
  function FormBudget(budget: Option<real>): (r: real)
    ensures r == 0.0 <==> budget.None? || budget.value == 0.0
    ensures budget.Some? ==> r == budget.value
  {
    if budget.Some? && budget.value != 0.0 then budget.value else 0.0
  }

  /** The form as sent: empty dates become `null`, the budget goes through `budget || 0`. */
  function FieldsOf(form: ObraForm): (f: ObraFields)
    ensures f.nombre == form.name && f.direccion == form.address && f.descripcion == form.description
    ensures f.fechaInicio.None? <==> form.startDate == ""
    ensures f.fechaInicio.Some? ==> f.fechaInicio.value == form.startDate
    ensures f.fechaFinEstimada.None? <==> form.estimatedEndDate == ""
    ensures f.fechaFinEstimada.Some? ==> f.fechaFinEstimada.value == form.estimatedEndDate
    ensures f.presupuesto == FormBudget(form.budget)
    ensures f.presupuesto == 0.0 <==> form.budget.None? || form.budget.value == 0.0
  {
    ObraFields(
      nombre := form.name,
      direccion := form.address,
      descripcion := form.description,
      fechaInicio := NonEmpty(form.startDate),
      fechaFinEstimada := NonEmpty(form.estimatedEndDate),
      presupuesto := FormBudget(form.budget))
  }

  /** What a dialog asks its parent to do, in order. */
  datatype DialogEffect = ObraSaved(obra: Obra) | CloseDialog
}
