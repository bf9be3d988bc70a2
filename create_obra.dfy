/**
 * The create dialog (src/components/constructora/CreateObraDialog.tsx):
 * without a tenant nothing is sent; otherwise the form is sent as an active
 * obra of the tenant, and the created obra is handed to the parent before
 * the dialog closes.
 */
module CreateObra {
  import opened Wire
  import opened Types
  import opened Rows
  import opened Mappers

  /** The body of `createObra`. */
  datatype CreateObraPayload = CreateObraPayload(constructoraId: string, fields: ObraFields, isActive: bool)

  /** The created obra: the answer's fields and no responsable yet. */
  function CreatedObra(created: ObraRow): (o: Obra)
    ensures o.id == created.id && o.name == created.nombre && o.constructoraId == created.constructoraId
    ensures o.address == Or(created.direccion, "") && o.description == Or(created.descripcion, "")
    ensures o.startDate == Or(created.fechaInicio, "") && o.estimatedEndDate == Or(created.fechaFinEstimada, "")
    ensures o.status == EnProgreso <==> created.isActive
    ensures o.status == Pausada <==> !created.isActive
    ensures o.budget == Amount(created.presupuesto)
    ensures o.responsable == "Sin asignar"
  {
    ObraFromRow(created, "Sin asignar")
  }

  /**
   * `handleSubmit`: the payload sent, if any, and what the parent is asked
   * to do.  Without a tenant id nothing is sent and nothing happens; a failed
   * request ends it too.
   */
  function Submit(constructoraId: Option<string>, form: ObraForm, answer: Response<ObraRow>)
    : (out: (Option<CreateObraPayload>, seq<DialogEffect>))
    ensures !Truthy(constructoraId) ==> out.0 == None && out.1 == []
    ensures Truthy(constructoraId) ==>
              out.0 == Some(CreateObraPayload(constructoraId.value, FieldsOf(form), true))
    ensures out.1 != [] <==> Truthy(constructoraId) && answer.Ok?
    ensures out.1 != [] ==> out.1 == [ObraSaved(CreatedObra(answer.value)), CloseDialog]
  {
    if !Truthy(constructoraId) then (None, [])
    else
      var payload := CreateObraPayload(constructoraId.value, FieldsOf(form), true);
      if answer.Ok? then (Some(payload), [ObraSaved(CreatedObra(answer.value)), CloseDialog])
      else (Some(payload), [])
  }

  /** How many effects hand an obra to the parent. */
  function SavedCount(effects: seq<DialogEffect>): (n: nat)
    ensures n == 0 <==> forall k :: 0 <= k < |effects| ==> !effects[k].ObraSaved?
  {
    if effects == [] then 0 else (if effects[0].ObraSaved? then 1 else 0) + SavedCount(effects[1..])
  }

  /** A successful submit hands over the created obra exactly once, and closing comes last. */
  lemma CreatedOnceThenClosed(constructoraId: Option<string>, form: ObraForm, answer: Response<ObraRow>)
    requires Truthy(constructoraId) && answer.Ok?
    ensures var effects := Submit(constructoraId, form, answer).1;
            SavedCount(effects) == 1 && effects[|effects| - 1] == CloseDialog
  {
    var effects := Submit(constructoraId, form, answer).1;
    assert effects[1..] == [CloseDialog];
    assert effects[1..][1..] == [];
  }
}
