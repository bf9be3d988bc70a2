/**
 * The edit dialog (src/components/constructora/EditObraDialog.tsx): the form
 * starts from the obra being edited; submitting sends the form's fields,
 * maps the backend's answer back to an obra, hands it to the parent and
 * closes.
 */
module EditObra {
  import opened Wire
  import opened Types
  import opened Rows
  import opened Mappers

  /** The form as the dialog fills it from the obra being edited. */
  function InitialForm(obra: Obra): (form: ObraForm)
    ensures form.name == obra.name && form.address == obra.address && form.description == obra.description
    ensures form.startDate == obra.startDate && form.estimatedEndDate == obra.estimatedEndDate
    ensures form.budget == Some(obra.budget)
  {
    ObraForm(
      name := obra.name,
      address := obra.address,
      description := obra.description,
      startDate := OrElse(obra.startDate, ""),
      estimatedEndDate := OrElse(obra.estimatedEndDate, ""),
      budget := Some(if obra.budget != 0.0 then obra.budget else 0.0))
  }

  /**
   * The updated obra: the answer's fields, the edited obra's tenant when the
   * answer has none, and the edited obra's responsable, or "Sin asignar"
   * when that was empty.
   */
  function UpdatedObra(obra: Obra, updated: ObraRow): (o: Obra)
    ensures o.id == updated.id && o.name == updated.nombre
    ensures o.status == EnProgreso <==> updated.isActive
    ensures o.status == Pausada <==> !updated.isActive
    ensures o.budget == Amount(updated.presupuesto)
    ensures updated.constructoraId != "" ==> o.constructoraId == updated.constructoraId
    ensures updated.constructoraId == "" ==> o.constructoraId == obra.constructoraId
    ensures o.address == Or(updated.direccion, "") && o.description == Or(updated.descripcion, "")
    ensures o.startDate == Or(updated.fechaInicio, "") && o.estimatedEndDate == Or(updated.fechaFinEstimada, "")
    ensures obra.responsable != "" ==> o.responsable == obra.responsable
    ensures obra.responsable == "" ==> o.responsable == "Sin asignar"
  {
    ObraFromRow(updated, OrElse(obra.responsable, "Sin asignar"))
      .(constructoraId := OrElse(updated.constructoraId, obra.constructoraId))
  }

  /**
   * `handleSubmit`: `fields` is what is sent for the obra; when the backend
   * answers, the updated obra is handed to the parent and then the dialog
   * closes.  When the request fails nothing further happens.
   */
  function Submit(obra: Obra, form: ObraForm, answer: Response<ObraRow>): (out: (ObraFields, seq<DialogEffect>))
    ensures out.0 == FieldsOf(form)
    ensures answer.Failed? ==> out.1 == []
    ensures answer.Ok? ==> out.1 == [ObraSaved(UpdatedObra(obra, answer.value)), CloseDialog]
  {
    (FieldsOf(form), if answer.Ok? then [ObraSaved(UpdatedObra(obra, answer.value)), CloseDialog] else [])
  }

  /** The row a backend that stores the fields as sent would answer with. */
  function StoredRow(id: string, fields: ObraFields, isActive: bool, constructoraId: string): ObraRow {
    ObraRow(
      id := id,
      nombre := fields.nombre,
      direccion := Some(fields.direccion),
      fechaInicio := fields.fechaInicio,
      fechaFinEstimada := fields.fechaFinEstimada,
      isActive := isActive,
      presupuesto := Num(fields.presupuesto),
      constructoraId := constructoraId,
      descripcion := Some(fields.descripcion))
  }

  /**
   * Submitting the form unchanged, to a backend that stores what it is sent,
   * gives back the obra that was edited (for an obra that is in progress or
   * paused and has a responsable).
   */
  lemma UnchangedEditRoundTrip(obra: Obra)
    requires obra.status == EnProgreso || obra.status == Pausada
    requires obra.responsable != "" && obra.constructoraId != ""
    ensures var fields := FieldsOf(InitialForm(obra));
            UpdatedObra(obra, StoredRow(obra.id, fields, obra.status == EnProgreso, obra.constructoraId)) == obra
  {
  }
}
