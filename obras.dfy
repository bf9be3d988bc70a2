/**
 * The obras tab (src/components/constructora/ObrasTab.tsx): it loads every
 * obra, keeps the tenant's, names each one's responsable from the active
 * assignments, and keeps its list in step with deletes and with the create
 * and edit dialogs.
 */
module Obras {
  import opened Wire
  import opened Text
  import opened Lists
  import opened Types
  import opened Rows
  import opened Mappers
  import opened Assignments

  /** The name fields `residentesById` keeps per residente. */
  datatype NameParts = NameParts(nombre: Option<string>, apellidos: Option<string>)

  predicate KeepAll(rr: ResidenteRow) { true }
  function RowId(rr: ResidenteRow): string { rr.id }
  function PartsOf(rr: ResidenteRow): NameParts { NameParts(rr.nombre, rr.apellidos) }

  /** `residentesById`: every residente row by id, a later row overwriting an earlier one. */
  function ResidentesById(rows: seq<ResidenteRow>): (m: map<string, NameParts>)
    ensures forall id :: id in m <==> exists i :: 0 <= i < |rows| && rows[i].id == id
  {
    IndexKeySet(rows, KeepAll, RowId, PartsOf);
    Index(rows, KeepAll, RowId, PartsOf)
  }

  const Unassigned: string := "Sin asignar"

  /**
   * The responsable shown for an obra: the joined name of the residente of
   * its active assignment, or "Sin asignar" when it has none, when that
   * residente id is empty, or when the residente is not among the rows.
   */
  function Responsable(byObra: map<string, string>, byId: map<string, NameParts>, obraId: string): (name: string)
    ensures obraId !in byObra || byObra[obraId] == "" || byObra[obraId] !in byId ==> name == Unassigned
    ensures obraId in byObra && byObra[obraId] != "" && byObra[obraId] in byId ==>
              name == DisplayName(byId[byObra[obraId]].nombre, byId[byObra[obraId]].apellidos)
  {
    if obraId in byObra && byObra[obraId] != "" && byObra[obraId] in byId then
      DisplayName(byId[byObra[obraId]].nombre, byId[byObra[obraId]].apellidos)
    else Unassigned
  }

  /**
   * The responsable in terms of the rows: "Sin asignar" without an open
   * assignment for the obra or without a row for its residente; otherwise
   * the name of the last row of the residente of the last open assignment.
   */
  lemma ResponsableFromRows(asignaciones: seq<Assignment>, residentes: seq<ResidenteRow>, obraId: string)
    ensures (forall i :: 0 <= i < |asignaciones| ==> !(IsOpen(asignaciones[i]) && asignaciones[i].obraId == obraId)) ==>
              Responsable(ActiveByObra(asignaciones), ResidentesById(residentes), obraId) == Unassigned
    ensures forall i :: IsLastKeptRow(asignaciones, IsOpen, ObraOf, obraId, i)
                        && (forall j :: 0 <= j < |residentes| ==> residentes[j].id != asignaciones[i].residenteId) ==>
              Responsable(ActiveByObra(asignaciones), ResidentesById(residentes), obraId) == Unassigned
    ensures forall i, j :: IsLastKeptRow(asignaciones, IsOpen, ObraOf, obraId, i) && asignaciones[i].residenteId != ""
                           && IsLastKeptRow(residentes, KeepAll, RowId, asignaciones[i].residenteId, j) ==>
              Responsable(ActiveByObra(asignaciones), ResidentesById(residentes), obraId)
                == DisplayName(residentes[j].nombre, residentes[j].apellidos)
  {
    var byObra := ActiveByObra(asignaciones);
    var byId := ResidentesById(residentes);
    ActiveByObraIsLastOpen(asignaciones, obraId);
    if obraId in byObra {
      var i :| 0 <= i < |asignaciones| && IsOpen(asignaciones[i]) && asignaciones[i].obraId == obraId
               && byObra[obraId] == asignaciones[i].residenteId
               && forall j :: i < j < |asignaciones| ==> !(IsOpen(asignaciones[j]) && asignaciones[j].obraId == obraId);
      var resId := asignaciones[i].residenteId;
      forall i' | IsLastKeptRow(asignaciones, IsOpen, ObraOf, obraId, i')
        ensures i' == i
      {
      }
      IndexLastWins(residentes, KeepAll, RowId, PartsOf, resId);
      if resId in byId {
        var j :| IsLastKeptRow(residentes, KeepAll, RowId, resId, j) && byId[resId] == PartsOf(residentes[j]);
        forall j' | IsLastKeptRow(residentes, KeepAll, RowId, resId, j')
          ensures j' == j
        {
        }
      } else {
        assert forall j :: 0 <= j < |residentes| ==> residentes[j].id != resId;
      }
    }
  }

  /** `ob.constructora_id === constructoraId`. */
  function OfConstructora(constructoraId: string): ObraRow -> bool {
    (ob: ObraRow) => ob.constructoraId == constructoraId
  }

  /** What the tab's load receives. */
  datatype ObrasData = ObrasData(
    obras: seq<ObraRow>,
    residentes: seq<ResidenteRow>,
    asignaciones: seq<Assignment>)

  /** The obras tab's state. */
  class ObrasTab {
    var obras: seq<Obra>

    constructor ()
      ensures obras == []
    {
      obras := [];
    }

    /**
     * The load effect: the tenant's obras, in backend order, each mapped with
     * its responsable.  Without a tenant id or when a request fails the list
     * is left as it was.
     */
    method Load(constructoraId: Option<string>, fetched: Response<ObrasData>)
      modifies this
      ensures !Truthy(constructoraId) || fetched.Failed? ==> obras == old(obras)
      ensures Truthy(constructoraId) && fetched.Ok? ==>
                var d := fetched.value;
                var kept := Filter(d.obras, OfConstructora(constructoraId.value));
                var byObra := ActiveByObra(d.asignaciones);
                var byId := ResidentesById(d.residentes);
                && |obras| == |kept|
                && (forall k :: 0 <= k < |kept| ==> obras[k] == ObraFromRow(kept[k], Responsable(byObra, byId, kept[k].id)))
                && (forall k :: 0 <= k < |obras| ==> obras[k].constructoraId == constructoraId.value)
    {
      if !Truthy(constructoraId) || fetched.Failed? {
        return;
      }
      var d := fetched.value;
      var cid := constructoraId.value;
      var byId := BuildIndex(d.residentes, KeepAll, RowId, PartsOf);
      var byObra := BuildIndex(d.asignaciones, IsOpen, ObraOf, ResidenteOf);
      var kept := Filter(d.obras, OfConstructora(cid));
      FilterMembership(d.obras, OfConstructora(cid));
      assert forall k :: 0 <= k < |kept| ==> kept[k] in kept;
      obras := Map(kept, (ob: ObraRow) => ObraFromRow(ob, Responsable(byObra, byId, ob.id)));
    }

    /** `handleDelete`: once the backend confirms, the obra with that id is dropped. */
    method Delete(obraId: string, ok: bool)
      modifies this
      ensures obras == if ok then RemoveById(old(obras), ObraId, obraId) else old(obras)
    {
      if ok {
        obras := RemoveById(obras, ObraId, obraId);
      }
    }

    /** The create dialog's callback: the new obra goes last. */
    method OnObraCreated(created: Obra)
      modifies this
      ensures obras == old(obras) + [created]
    {
      obras := obras + [created];
    }

    /** The edit dialog's callback: the obra with the same id is replaced in place. */
    method OnObraUpdated(updated: Obra)
      modifies this
      ensures obras == ReplaceById(old(obras), ObraId, updated)
    {
      obras := ReplaceById(obras, ObraId, updated);
    }
  }
}
