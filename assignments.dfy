/**
 * Obra assignments (`asignaciones_obra`): the rows that link a residente to
 * an obra over time, the two "currently active" dictionaries the tabs build
 * from them, and the backend's assignment table as an in-memory store with
 * the list, update and create calls the reassignment procedure issues.
 */
module Assignments {
  import opened Wire
  import opened Lists

  /** An assignment row.  Ids are handed out by the store. */
  datatype Assignment = Assignment(
    id: nat,
    obraId: string,
    residenteId: string,
    isActive: bool,
    fechaInicio: Option<string>,
    fechaFin: Option<string>)

  /** `a.is_active && !a.fecha_fin`: active and not ended. */
  predicate IsOpen(a: Assignment) {
    a.isActive && !Truthy(a.fechaFin)
  }

  function ResidenteOf(a: Assignment): string { a.residenteId }
  function ObraOf(a: Assignment): string { a.obraId }

  /** Rows of one residente (the backend's `residente_id` filter). */
  function OfResidente(residenteId: string): Assignment -> bool {
    (a: Assignment) => a.residenteId == residenteId
  }

  /** Open rows of one residente. */
  function OpenOf(residenteId: string): Assignment -> bool {
    (a: Assignment) => a.residenteId == residenteId && IsOpen(a)
  }

  /** `activeByResidente`: residente id to the obra of its last open row. */
  function ActiveByResidente(rows: seq<Assignment>): (m: map<string, string>)
    ensures forall r :: r in m <==> exists i :: 0 <= i < |rows| && IsOpen(rows[i]) && rows[i].residenteId == r
  {
    IndexKeySet(rows, IsOpen, ResidenteOf, ObraOf);
    Index(rows, IsOpen, ResidenteOf, ObraOf)
  }

  /** `activeAssignByObra`: obra id to the residente of its last open row. */
  function ActiveByObra(rows: seq<Assignment>): (m: map<string, string>)
    ensures forall o :: o in m <==> exists i :: 0 <= i < |rows| && IsOpen(rows[i]) && rows[i].obraId == o
  {
    IndexKeySet(rows, IsOpen, ObraOf, ResidenteOf);
    Index(rows, IsOpen, ObraOf, ResidenteOf)
  }

  /**
   * Residente `r` has an entry exactly when one of its rows is open, and the
   * entry is the obra of the last open row of `r` in list order.
   */
  lemma ActiveByResidenteIsLastOpen(rows: seq<Assignment>, r: string)
    ensures r in ActiveByResidente(rows) <==> exists i :: 0 <= i < |rows| && IsOpen(rows[i]) && rows[i].residenteId == r
    ensures r in ActiveByResidente(rows) ==>
              exists i :: 0 <= i < |rows| && IsOpen(rows[i]) && rows[i].residenteId == r
                          && ActiveByResidente(rows)[r] == rows[i].obraId
                          && forall j :: i < j < |rows| ==> !(IsOpen(rows[j]) && rows[j].residenteId == r)
  {
    IndexLastWins(rows, IsOpen, ResidenteOf, ObraOf, r);
    if r in ActiveByResidente(rows) {
      var i :| IsLastKeptRow(rows, IsOpen, ResidenteOf, r, i) && ActiveByResidente(rows)[r] == ObraOf(rows[i]);
      assert forall j :: i < j < |rows| ==> !(IsOpen(rows[j]) && ResidenteOf(rows[j]) == r);
    }
  }

  /**
   * Obra `o` has an entry exactly when one of its rows is open, and the
   * entry is the residente of the last open row of `o` in list order.
   */
  lemma ActiveByObraIsLastOpen(rows: seq<Assignment>, o: string)
    ensures o in ActiveByObra(rows) <==> exists i :: 0 <= i < |rows| && IsOpen(rows[i]) && rows[i].obraId == o
    ensures o in ActiveByObra(rows) ==>
              exists i :: 0 <= i < |rows| && IsOpen(rows[i]) && rows[i].obraId == o
                          && ActiveByObra(rows)[o] == rows[i].residenteId
                          && forall j :: i < j < |rows| ==> !(IsOpen(rows[j]) && rows[j].obraId == o)
  {
    IndexLastWins(rows, IsOpen, ObraOf, ResidenteOf, o);
    if o in ActiveByObra(rows) {
      var i :| IsLastKeptRow(rows, IsOpen, ObraOf, o, i) && ActiveByObra(rows)[o] == ResidenteOf(rows[i]);
      assert forall j :: i < j < |rows| ==> !(IsOpen(rows[j]) && ObraOf(rows[j]) == o);
    }
  }

  /** The row after `update(id, { is_active: false, fecha_fin: now })`. */
  function Closed(a: Assignment, now: string): (c: Assignment)
    ensures c.id == a.id && c.obraId == a.obraId && c.residenteId == a.residenteId && c.fechaInicio == a.fechaInicio
    ensures !IsOpen(c) && c.fechaFin == Some(now)
  {
    a.(isActive := false, fechaFin := Some(now))
  }

  /** Every open row of residente `r` closed at `now`; every other row as it was. */
  function CloseOpenOf(rows: seq<Assignment>, r: string, now: string): (out: seq<Assignment>)
    ensures |out| == |rows|
    ensures forall k :: 0 <= k < |rows| && rows[k].residenteId != r ==> out[k] == rows[k]
    ensures forall k :: 0 <= k < |rows| ==> out[k].id == rows[k].id && !OpenOf(r)(out[k])
  {
    seq(|rows|, k requires 0 <= k < |rows| =>
      if rows[k].residenteId == r && IsOpen(rows[k]) then Closed(rows[k], now) else rows[k])
  }

  /** Appending a new open row for `r` after closing its others leaves that row as its only open one. */
  lemma OnlyNewRowOpen(rows: seq<Assignment>, r: string, now: string, created: Assignment)
    requires created.residenteId == r && IsOpen(created)
    ensures Filter(CloseOpenOf(rows, r, now) + [created], OpenOf(r)) == [created]
  {
    var closed := CloseOpenOf(rows, r, now);
    FilterDropsAll(closed, OpenOf(r));
    FilterConcat(closed, [created], OpenOf(r));
    assert [created][1..] == [];
  }

  /** No two rows share an id. */
  predicate DistinctIds(rows: seq<Assignment>) {
    forall i, j :: 0 <= i < j < |rows| ==> rows[i].id != rows[j].id
  }

  /**
   * The backend's assignment table.  `nextId` is above every id handed out
   * so far, so ids stay distinct.
   */
  class AssignmentStore {
    var rows: seq<Assignment>
    var nextId: nat

    ghost predicate Valid()
      reads this
    {
      DistinctIds(rows) && forall k :: 0 <= k < |rows| ==> rows[k].id < nextId
    }

    constructor (initial: seq<Assignment>, nextId: nat)
      requires DistinctIds(initial) && forall k :: 0 <= k < |initial| ==> initial[k].id < nextId
      ensures Valid() && rows == initial && this.nextId == nextId
    {
      rows := initial;
      this.nextId := nextId;
    }

    /** `listAsignacionesObra({ residente_id })`. */
    method ListOf(residenteId: string) returns (found: seq<Assignment>)
      ensures found == Filter(rows, OfResidente(residenteId))
    {
      found := Filter(rows, OfResidente(residenteId));
    }

    /** `updateAsignacionObra(id, { is_active, fecha_fin })`: patches the row with that id. */
    method Update(id: nat, isActive: bool, fechaFin: Option<string>)
      requires Valid()
      modifies this
      ensures Valid() && nextId == old(nextId) && |rows| == |old(rows)|
      ensures forall k :: 0 <= k < |rows| ==>
                rows[k] == if old(rows)[k].id == id then old(rows)[k].(isActive := isActive, fechaFin := fechaFin)
                           else old(rows)[k]
    {
      var before := rows;
      rows := seq(|before|, k requires 0 <= k < |before| =>
        if before[k].id == id then before[k].(isActive := isActive, fechaFin := fechaFin) else before[k]);
    }

    /** `createAsignacionObra(...)`: appends a row under a fresh id. */
    method Create(residenteId: string, obraId: string, isActive: bool, fechaInicio: string)
      returns (created: Assignment)
      requires Valid()
      modifies this
      ensures Valid()
      ensures created == Assignment(old(nextId), obraId, residenteId, isActive, Some(fechaInicio), None)
      ensures rows == old(rows) + [created] && nextId == old(nextId) + 1
    {
      created := Assignment(nextId, obraId, residenteId, isActive, Some(fechaInicio), None);
      rows := rows + [created];
      nextId := nextId + 1;
    }
  }
}
