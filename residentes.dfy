/**
 * The residentes tab (src/components/constructora/ResidentesTab.tsx): it
 * loads the tenant's residentes and obras together with every assignment,
 * shows each residente's current obra, creates and deletes residentes, and
 * reassigns a residente to another obra by closing its open assignments and
 * creating a new one.
 */
module Residentes {
  import opened Wire
  import opened Text
  import opened Lists
  import opened Types
  import opened Rows
  import opened Mappers
  import opened Assignments
  import Dashboard

  /** The tab's residente mapping; it falls back with `??` where the dashboard uses `||`. */
  function TabResidente(rr: ResidenteRow, now: string): (r: Residente)
    ensures r.id == rr.id && r.name == DisplayName(rr.nombre, rr.apellidos)
    ensures r.obraId == "" && r.position == "Residente"
    ensures r.status == Activo <==> rr.isActive
    ensures r.constructoraId == rr.constructoraId
    ensures r.email == Coalesce(rr.email, "") && r.phone == Coalesce(rr.telefono, "")
    ensures rr.createdAt.None? ==> r.createdAt == now
    ensures rr.createdAt.Some? ==> r.createdAt == rr.createdAt.value
  {
    Residente(
      id := rr.id,
      name := DisplayName(rr.nombre, rr.apellidos),
      email := Coalesce(rr.email, ""),
      phone := Coalesce(rr.telefono, ""),
      obraId := "",
      constructoraId := rr.constructoraId,
      position := "Residente",
      createdAt := Coalesce(rr.createdAt, now),
      status := ResidenteStatusOf(rr.isActive))
  }

  /**
   * The tab and the dashboard map a residente row alike, except that an
   * empty `created_at` is kept here and replaced by `now` there.
   */
  lemma TabResidenteAgreesWithDashboard(rr: ResidenteRow, now: string)
    ensures rr.createdAt != Some("") ==> TabResidente(rr, now) == Dashboard.MapResidente(rr, now)
    ensures rr.createdAt == Some("") ==>
              TabResidente(rr, now) == Dashboard.MapResidente(rr, now).(createdAt := "")
  {
  }

  /** The tab's obra mapping, with `??` fallbacks. */
  function TabObra(ob: ObraRow): (o: Obra)
    ensures o.status == EnProgreso <==> ob.isActive
    ensures o.responsable == ""
  {
    Obra(
      id := ob.id,
      name := ob.nombre,
      address := Coalesce(ob.direccion, ""),
      startDate := Coalesce(ob.fechaInicio, ""),
      estimatedEndDate := Coalesce(ob.fechaFinEstimada, ""),
      status := ObraStatusOf(ob.isActive),
      budget := Amount(ob.presupuesto),
      constructoraId := ob.constructoraId,
      responsable := "",
      description := Coalesce(ob.descripcion, ""))
  }

  /** With '' as the fallback, `??` and `||` agree, so the tab maps obras as the dashboard does. */
  lemma TabObraAgreesWithDashboard(ob: ObraRow)
    ensures TabObra(ob) == Dashboard.MapObra(ob)
  {
  }

  /** `activeByResidente[id] || ''`: the residente's current obra, or '' when it has none. */
  function AssignedObra(active: map<string, string>, residenteId: string): (obraId: string)
    ensures residenteId !in active ==> obraId == ""
    ensures residenteId in active ==> obraId == active[residenteId]
  {
    if residenteId in active then OrElse(active[residenteId], "") else ""
  }

  /** `obras.find(o => o.id === obraId)?.name || 'Sin asignar'`. */
  function ObraName(obras: seq<Obra>, obraId: string): (name: string)
    ensures name != ""
    ensures (forall k :: 0 <= k < |obras| ==> obras[k].id != obraId) ==> name == "Sin asignar"
    ensures name == "Sin asignar" || exists k :: 0 <= k < |obras| && obras[k].id == obraId && obras[k].name == name
    ensures forall i :: 0 <= i < |obras| && obras[i].id == obraId && (forall k :: 0 <= k < i ==> obras[k].id != obraId) ==>
              name == if obras[i].name != "" then obras[i].name else "Sin asignar"
  {
    var first := FirstIndex(obras, (o: Obra) => o.id == obraId);
    if first < |obras| then OrElse(obras[first].name, "Sin asignar") else "Sin asignar"
  }

  /** The "new residente" form. */
  datatype ResidenteForm = ResidenteForm(
    name: string,
    position: string,
    email: string,
    password: string,
    phone: string,
    obraId: Option<string>,
    status: ResidenteStatus)

  /** The body of `createResidente`. */
  datatype CreateResidentePayload = CreateResidentePayload(
    constructoraId: string,
    telefono: string,
    nombre: string,
    apellidos: string,
    email: string,
    password: Option<string>,
    obraId: Option<string>,
    isActive: bool)

  /** The create payload: an empty password is left out. */
  function ResidentePayload(constructoraId: string, form: ResidenteForm): (p: CreateResidentePayload)
    ensures p.constructoraId == constructoraId && p.obraId == form.obraId
    ensures p.telefono == form.phone && p.email == form.email
    ensures p.password.None? <==> form.password == ""
    ensures p.password.Some? ==> p.password.value == form.password
    ensures p.isActive <==> form.status == Activo
  {
    var (nombre, apellidos) := SplitName(form.name);
    CreateResidentePayload(
      constructoraId := constructoraId,
      telefono := form.phone,
      nombre := nombre,
      apellidos := apellidos,
      email := form.email,
      password := NonEmpty(form.password),
      obraId := form.obraId,
      isActive := form.status == Activo)
  }

  /**
   * The full name is split at its first space into nombre and apellidos;
   * joining them back with the display-name rule gives the trimmed name.
   */
  lemma PayloadNameRoundTrip(constructoraId: string, form: ResidenteForm)
    ensures var p := ResidentePayload(constructoraId, form);
            DisplayName(Some(p.nombre), Some(p.apellidos)) == Trim(form.name) && ' ' !in p.nombre
  {
    NameRoundTrip(form.name);
    SplitNameShape(form.name);
  }

  /** The residente shown after a successful create: the backend's fields, then the form's. */
  function CreatedResidente(created: ResidenteRow, form: ResidenteForm, now: string): (r: Residente)
    ensures r.id == created.id && r.name == DisplayName(created.nombre, created.apellidos)
    ensures Truthy(form.obraId) ==> r.obraId == form.obraId.value
    ensures !Truthy(form.obraId) ==> r.obraId == ""
    ensures r.position != "" && (form.position != "" ==> r.position == form.position)
    ensures form.position == "" ==> r.position == "Residente"
    ensures !Truthy(created.email) ==> r.email == form.email
    ensures Truthy(created.email) ==> r.email == created.email.value
    ensures r.phone == Or(created.telefono, form.phone)
    ensures r.constructoraId == created.constructoraId
    ensures r.createdAt == Or(created.createdAt, now)
    ensures r.status == Activo <==> created.isActive
  {
    Residente(
      id := created.id,
      name := DisplayName(created.nombre, created.apellidos),
      email := Or(created.email, form.email),
      phone := Or(created.telefono, form.phone),
      obraId := Or(form.obraId, ""),
      constructoraId := created.constructoraId,
      position := OrElse(form.position, "Residente"),
      createdAt := Or(created.createdAt, now),
      status := ResidenteStatusOf(created.isActive))
  }

  /** What the tab's load receives. */
  datatype ResidentesData = ResidentesData(
    residentes: seq<ResidenteRow>,
    obras: seq<ObraRow>,
    asignaciones: seq<Assignment>)

  /** How a reassignment ended. */
  datatype SaveOutcome = NoSelection | Saved | BackendError

  /**
   * A row whose id was closed belongs to the residente and was open, when
   * the closed ids come from open rows of that residente's list.
   */
  lemma ClosedRowsWereOpen(rows0: seq<Assignment>, list: seq<Assignment>, r: string, closed: set<nat>, i: nat)
    requires DistinctIds(rows0) && list == Filter(rows0, OfResidente(r)) && i <= |list|
    requires forall id :: id in closed ==> exists k :: 0 <= k < i && list[k].id == id && IsOpen(list[k])
    ensures forall j :: 0 <= j < |rows0| && rows0[j].id in closed ==> rows0[j].residenteId == r && IsOpen(rows0[j])
  {
    FilterMembership(rows0, OfResidente(r));
    forall j | 0 <= j < |rows0| && rows0[j].id in closed
      ensures rows0[j].residenteId == r && IsOpen(rows0[j])
    {
      var k :| 0 <= k < i && list[k].id == rows0[j].id && IsOpen(list[k]);
      assert list[k] in rows0;
      var j' :| 0 <= j' < |rows0| && rows0[j'] == list[k];
      assert j' == j;
    }
  }

  /** Each row is as it was, or was an open row of `r` and is now closed at `now`. */
  predicate PartlyClosed(before: seq<Assignment>, after: seq<Assignment>, r: string, now: string) {
    |after| == |before|
    && forall j :: 0 <= j < |before| ==>
         after[j] == before[j] || (before[j].residenteId == r && IsOpen(before[j]) && after[j] == Closed(before[j], now))
  }

  /** An open row of `r` is in its list, so its id was collected. */
  lemma OpenRowWasCollected(rows0: seq<Assignment>, list: seq<Assignment>, r: string, closed: set<nat>, j: nat)
    requires list == Filter(rows0, OfResidente(r))
    requires forall k :: 0 <= k < |list| && IsOpen(list[k]) ==> list[k].id in closed
    requires j < |rows0| && rows0[j].residenteId == r && IsOpen(rows0[j])
    ensures rows0[j].id in closed
  {
    FilterMembership(rows0, OfResidente(r));
    assert rows0[j] in list;
    var k :| 0 <= k < |list| && list[k] == rows0[j];
  }

  /** Closing exactly the rows whose ids were collected from the open rows of `r` is `CloseOpenOf`. */
  lemma ClosedAllOpenRows(rows0: seq<Assignment>, list: seq<Assignment>, r: string, now: string,
                          closed: set<nat>, after: seq<Assignment>)
    requires DistinctIds(rows0) && list == Filter(rows0, OfResidente(r))
    requires forall k :: 0 <= k < |list| && IsOpen(list[k]) ==> list[k].id in closed
    requires forall id :: id in closed ==> exists k :: 0 <= k < |list| && list[k].id == id && IsOpen(list[k])
    requires |after| == |rows0|
    requires forall j :: 0 <= j < |rows0| ==> after[j] == if rows0[j].id in closed then Closed(rows0[j], now) else rows0[j]
    ensures after == CloseOpenOf(rows0, r, now)
  {
    ClosedRowsWereOpen(rows0, list, r, closed, |list|);
    var expected := CloseOpenOf(rows0, r, now);
    forall j | 0 <= j < |rows0|
      ensures after[j] == expected[j]
    {
      if rows0[j].residenteId == r && IsOpen(rows0[j]) {
        OpenRowWasCollected(rows0, list, r, closed, j);
      }
    }
  }

  /**
   * The first part of a reassignment: list the residente's assignments and
   * close each open one, one backend call at a time.  `calls` is how many
   * calls were issued; the call numbered `failAt` throws and ends the loop.
   */
  method CloseOpenAssignments(store: AssignmentStore, r: string, now: string, failAt: Option<nat>)
    returns (ok: bool, calls: nat)
    requires store.Valid()
    modifies store
    ensures store.Valid() && store.nextId == old(store.nextId)
    ensures ok ==> store.rows == CloseOpenOf(old(store.rows), r, now)
    ensures !ok ==> PartlyClosed(old(store.rows), store.rows, r, now)
    ensures failAt.None? ==> ok
  {
    ghost var rows0 := store.rows;
    calls := 0;
    if failAt == Some(calls) {
      return false, calls;
    }
    var list := store.ListOf(r);
    calls := calls + 1;
    ghost var closed: set<nat> := {};
    var i := 0;
    while i < |list|
      invariant 0 <= i <= |list|
      invariant store.Valid() && |store.rows| == |rows0| && store.nextId == old(store.nextId)
      invariant forall j :: 0 <= j < |rows0| ==>
                  store.rows[j] == if rows0[j].id in closed then Closed(rows0[j], now) else rows0[j]
      invariant forall k :: 0 <= k < i && IsOpen(list[k]) ==> list[k].id in closed
      invariant forall id :: id in closed ==> exists k :: 0 <= k < i && list[k].id == id && IsOpen(list[k])
      modifies store
    {
      var a := list[i];
      if a.isActive && !Truthy(a.fechaFin) {
        if failAt == Some(calls) {
          ClosedRowsWereOpen(rows0, list, r, closed, i);
          return false, calls;
        }
        store.Update(a.id, false, Some(now));
        calls := calls + 1;
        closed := closed + {a.id};
      }
      i := i + 1;
    }
    ClosedAllOpenRows(rows0, list, r, now, closed, store.rows);
    ok := true;
  }

  /** Closing every open row of `r` is one way of closing some of them. */
  lemma CloseOpenOfIsPartlyClosed(rows: seq<Assignment>, r: string, now: string)
    ensures PartlyClosed(rows, CloseOpenOf(rows, r, now), r, now)
  {
  }

  /**
   * After the open rows of `r` are closed and one open row to `o` is
   * appended, that row is the only open one of `r`, and both resolvers map
   * `r` and `o` to each other.
   */
  lemma ReassignedRows(rows0: seq<Assignment>, r: string, o: string, now: string, created: Assignment)
    requires created.residenteId == r && created.obraId == o && IsOpen(created)
    ensures var rows := CloseOpenOf(rows0, r, now) + [created];
            && Filter(rows, OpenOf(r)) == [created]
            && r in ActiveByResidente(rows) && ActiveByResidente(rows)[r] == o
            && o in ActiveByObra(rows) && ActiveByObra(rows)[o] == r
  {
    OnlyNewRowOpen(rows0, r, now, created);
    IndexAppend(CloseOpenOf(rows0, r, now), created, IsOpen, ResidenteOf, ObraOf);
    IndexAppend(CloseOpenOf(rows0, r, now), created, IsOpen, ObraOf, ResidenteOf);
  }

  /** The residentes tab's state. */
  class ResidentesTab {
    var residentes: seq<Residente>
    var obras: seq<Obra>
    var asignaciones: map<string, string>
    var editOpen: bool
    var editResidenteId: Option<string>
    var editObraId: Option<string>

    constructor ()
      ensures residentes == [] && obras == [] && asignaciones == map[]
      ensures !editOpen && editResidenteId == None && editObraId == None
    {
      residentes := [];
      obras := [];
      asignaciones := map[];
      editOpen := false;
      editResidenteId := None;
      editObraId := None;
    }

    /**
     * The load effect.  The current obra of a residente comes from its last
     * open assignment; every other field is the mapped row.  Without a tenant
     * id or when a request fails nothing changes.
     */
    method Load(constructoraId: Option<string>, fetched: Response<ResidentesData>, now: string)
      modifies this
      ensures editOpen == old(editOpen) && editResidenteId == old(editResidenteId) && editObraId == old(editObraId)
      ensures !Truthy(constructoraId) || fetched.Failed? ==>
                residentes == old(residentes) && obras == old(obras) && asignaciones == old(asignaciones)
      ensures Truthy(constructoraId) && fetched.Ok? ==>
                var d := fetched.value;
                && asignaciones == ActiveByResidente(d.asignaciones)
                && obras == Map(d.obras, TabObra)
                && |residentes| == |d.residentes|
                && forall k :: 0 <= k < |d.residentes| ==>
                     residentes[k] == TabResidente(d.residentes[k], now).(obraId := AssignedObra(asignaciones, d.residentes[k].id))
    {
      if !Truthy(constructoraId) || fetched.Failed? {
        return;
      }
      var d := fetched.value;
      var active := BuildIndex(d.asignaciones, IsOpen, ResidenteOf, ObraOf);
      var mapped := Map(d.residentes, (rr: ResidenteRow) => TabResidente(rr, now));
      residentes := Map(mapped, (r: Residente) => r.(obraId := AssignedObra(active, r.id)));
      obras := Map(d.obras, TabObra);
      asignaciones := active;
    }

    /**
     * `handleCreate`: without a tenant id nothing is sent.  Otherwise the
     * payload is sent and, when the backend answers, the new residente goes
     * first.
     */
    method Create(constructoraId: Option<string>, form: ResidenteForm, created: Response<ResidenteRow>, now: string)
      returns (sent: Option<CreateResidentePayload>)
      modifies this
      ensures sent == if Truthy(constructoraId) then Some(ResidentePayload(constructoraId.value, form)) else None
      ensures sent.Some? && created.Ok? ==> residentes == [CreatedResidente(created.value, form, now)] + old(residentes)
      ensures sent.None? || created.Failed? ==> residentes == old(residentes)
      ensures obras == old(obras) && asignaciones == old(asignaciones)
      ensures editOpen == old(editOpen) && editResidenteId == old(editResidenteId) && editObraId == old(editObraId)
    {
      if !Truthy(constructoraId) {
        return None;
      }
      var payload := ResidentePayload(constructoraId.value, form);
      sent := Some(payload);
      if created.Ok? {
        var shown := CreatedResidente(created.value, form, now);
        residentes := [shown] + residentes;
      }
    }

    /** `handleDelete`: once the backend confirms, the residente with that id is dropped. */
    method Delete(id: string, ok: bool)
      modifies this
      ensures residentes == if ok then RemoveById(old(residentes), ResidenteId, id) else old(residentes)
      ensures obras == old(obras) && asignaciones == old(asignaciones)
      ensures editOpen == old(editOpen) && editResidenteId == old(editResidenteId) && editObraId == old(editObraId)
    {
      if ok {
        residentes := RemoveById(residentes, ResidenteId, id);
      }
    }

    /** `openEdit`: the selection starts at the residente's current obra, if any. */
    method OpenEdit(residenteId: string)
      modifies this
      ensures editOpen && editResidenteId == Some(residenteId)
      ensures editObraId == NonEmpty(AssignedObra(asignaciones, residenteId))
      ensures residentes == old(residentes) && obras == old(obras) && asignaciones == old(asignaciones)
    {
      editResidenteId := Some(residenteId);
      editObraId := NonEmpty(AssignedObra(asignaciones, residenteId));
      editOpen := true;
    }

    /** The obra picked in the edit dialog. */
    method SelectObra(obraId: Option<string>)
      modifies this
      ensures editObraId == obraId
      ensures editOpen == old(editOpen) && editResidenteId == old(editResidenteId)
      ensures residentes == old(residentes) && obras == old(obras) && asignaciones == old(asignaciones)
    {
      editObraId := obraId;
    }

    /** The local patch after a reassignment: only residente `r` moves to obra `o`; the dialog closes. */
    method PatchAssignment(r: string, o: string)
      modifies this
      ensures asignaciones == old(asignaciones)[r := o]
      ensures |residentes| == |old(residentes)|
      ensures forall k :: 0 <= k < |residentes| ==>
                residentes[k] == if old(residentes)[k].id == r then old(residentes)[k].(obraId := o) else old(residentes)[k]
      ensures !editOpen && editResidenteId == None && editObraId == None
      ensures obras == old(obras)
    {
      residentes := Map(residentes, (x: Residente) => if x.id == r then x.(obraId := o) else x);
      asignaciones := asignaciones[r := o];
      editOpen := false;
      editResidenteId := None;
      editObraId := None;
    }

    /**
     * `handleSaveAssignment`.  Backend calls are numbered in the order they
     * are issued (the list, then one update per open row, then the create);
     * `failAt` names the one that throws, if any.  On success the residente's
     * open assignments are closed at `now`, one new open assignment to the
     * chosen obra exists, and only that residente is patched locally.  On a
     * failure no local patch is made, no assignment is created, and the
     * rows closed before the failure stay closed.
     */
    method SaveAssignment(store: AssignmentStore, now: string, failAt: Option<nat>) returns (outcome: SaveOutcome)
      requires store.Valid()
      modifies this, store
      ensures store.Valid()
      ensures !Truthy(old(editResidenteId)) || !Truthy(old(editObraId)) ==>
                && outcome == NoSelection
                && store.rows == old(store.rows) && store.nextId == old(store.nextId)
                && residentes == old(residentes) && asignaciones == old(asignaciones)
                && editOpen == old(editOpen) && editResidenteId == old(editResidenteId) && editObraId == old(editObraId)
      ensures Truthy(old(editResidenteId)) && Truthy(old(editObraId)) ==>
                var r := old(editResidenteId).value;
                var o := old(editObraId).value;
                var created := Assignment(old(store.nextId), o, r, true, Some(now), None);
                && outcome != NoSelection
                && (failAt.None? ==> outcome == Saved)
                && (outcome == Saved ==>
                      && store.rows == CloseOpenOf(old(store.rows), r, now) + [created]
                      && Filter(store.rows, OpenOf(r)) == [created]
                      && r in ActiveByResidente(store.rows) && ActiveByResidente(store.rows)[r] == o
                      && o in ActiveByObra(store.rows) && ActiveByObra(store.rows)[o] == r
                      && asignaciones == old(asignaciones)[r := o]
                      && |residentes| == |old(residentes)|
                      && (forall k :: 0 <= k < |residentes| ==>
                            residentes[k] == if old(residentes)[k].id == r then old(residentes)[k].(obraId := o)
                                             else old(residentes)[k])
                      && !editOpen && editResidenteId == None && editObraId == None)
                && (outcome == BackendError ==>
                      && store.nextId == old(store.nextId) && PartlyClosed(old(store.rows), store.rows, r, now)
                      && residentes == old(residentes) && asignaciones == old(asignaciones)
                      && editOpen == old(editOpen) && editResidenteId == old(editResidenteId)
                      && editObraId == old(editObraId))
      ensures obras == old(obras)
    {
      if !Truthy(editResidenteId) || !Truthy(editObraId) {
        return NoSelection;
      }
      var r := editResidenteId.value;
      var o := editObraId.value;
      ghost var rows0 := store.rows;
      var ok, calls := CloseOpenAssignments(store, r, now, failAt);
      if !ok {
        return BackendError;
      }
      if failAt == Some(calls) {
        CloseOpenOfIsPartlyClosed(rows0, r, now);
        return BackendError;
      }
      var created := store.Create(r, o, true, now);
      ReassignedRows(rows0, r, o, now, created);
      PatchAssignment(r, o);
      return Saved;
    }
  }
}
