/**
  The store of saved leave requests (models/storage.go). The `saved_forms`
  table is a map from id to row; ids come from an AUTOINCREMENT counter, so
  they start at 1 and are never reused. SQL plumbing is not modelled: the
  statements are taken to succeed, and only their not-found outcomes remain.
 */
module Storage {
  import opened Wrappers
  import opened Instants
  import opened LeaveRequests

  datatype SavedForm = SavedForm(
    id: int,
    formLabel: string,
    name: string,
    employeeId: string,
    startDate: string,
    endDate: string,
    leaveType: string,
    password: string,
    createdAt: Instant,
    updatedAt: Instant)

  predicate SameContent(a: SavedForm, b: SavedForm) {
    a.name == b.name && a.employeeId == b.employeeId && a.startDate == b.startDate
    && a.endDate == b.endDate && a.leaveType == b.leaveType && a.password == b.password
  }

  /** `SavedForm.ToLeaveRequest`: the six request fields, dropping id, label and timestamps. */
  function ToLeaveRequest(sf: SavedForm): LeaveRequest {
    LeaveRequest(sf.name, sf.employeeId, sf.startDate, sf.endDate, sf.leaveType, sf.password)
  }

  /** Two saved forms give the same request exactly when their six request fields agree; id, label and timestamps never matter. */
  lemma ToLeaveRequestProjection(a: SavedForm, b: SavedForm)
    ensures ToLeaveRequest(a) == ToLeaveRequest(b) <==> SameContent(a, b)
  {
  }

  datatype StoreError = NotFound

  /** The `saved_forms` table and the AUTOINCREMENT high-water mark. */
  datatype Table = Table(rows: map<int, SavedForm>, lastId: int)

  ghost predicate TableValid(t: Table) {
    t.lastId >= 0 && forall id :: id in t.rows ==> 1 <= id <= t.lastId && t.rows[id].id == id
  }

  datatype Inserted = Inserted(table: Table, id: int)

  /** `Save`: the INSERT ignores the form's own id, takes the next AUTOINCREMENT id and stamps both times with `now`. */
  function Insert(t: Table, form: SavedForm, now: Instant): Inserted {
    var id := t.lastId + 1;
    Inserted(Table(t.rows[id := form.(id := id, createdAt := now, updatedAt := now)], id), id)
  }

  /** `GetByID`: the row, or not-found when no row has that id. */
  function Lookup(t: Table, id: int): Result<SavedForm, StoreError> {
    if id in t.rows then Success(t.rows[id]) else Failure(NotFound)
  }

  /** `Delete`: not-found when no row was affected. */
  function Remove(t: Table, id: int): Result<Table, StoreError> {
    if id in t.rows then Success(t.(rows := t.rows - {id})) else Failure(NotFound)
  }

  /** `Update`: rewrites label and the six fields of row `form.id` and stamps `updated_at`; not-found when no row was affected. */
  function Replace(t: Table, form: SavedForm, now: Instant): Result<Table, StoreError> {
    if form.id in t.rows then
      Success(t.(rows := t.rows[form.id := form.(createdAt := t.rows[form.id].createdAt, updatedAt := now)]))
    else Failure(NotFound)
  }

  lemma InsertKeepsValid(t: Table, form: SavedForm, now: Instant)
    requires TableValid(t)
    ensures TableValid(Insert(t, form, now).table)
  {
  }

  /** After `Save`, `GetByID` of the returned id gives back the label and the six fields; the id was fresh and no other row changed. */
  lemma SaveThenGet(t: Table, form: SavedForm, now: Instant)
    requires TableValid(t)
    ensures var ins := Insert(t, form, now);
      ins.id !in t.rows
      && ins.id >= 1
      && Lookup(ins.table, ins.id).Success?
      && Lookup(ins.table, ins.id).value.id == ins.id
      && Lookup(ins.table, ins.id).value.formLabel == form.formLabel
      && Lookup(ins.table, ins.id).value.createdAt == now && Lookup(ins.table, ins.id).value.updatedAt == now
      && SameContent(Lookup(ins.table, ins.id).value, form)
      && ToLeaveRequest(Lookup(ins.table, ins.id).value) == ToLeaveRequest(form)
      && forall other :: other != ins.id ==> Lookup(ins.table, other) == Lookup(t, other)
  {
  }

  /** `GetByID` of an id that is not in the table is a not-found error. */
  lemma GetAbsentNotFound(t: Table, id: int)
    requires id !in t.rows
    ensures Lookup(t, id) == Failure(NotFound)
  {
  }

  /** Deleting a present id removes that row and only that row; a later `GetByID` of it fails. */
  lemma DeletePresent(t: Table, id: int)
    requires id in t.rows
    ensures Remove(t, id).Success?
    ensures Lookup(Remove(t, id).value, id) == Failure(NotFound)
    ensures forall other :: other != id ==> Lookup(Remove(t, id).value, other) == Lookup(t, other)
    ensures Remove(t, id).value.lastId == t.lastId
  {
  }

  /** Deleting an absent id is a not-found error and changes nothing. */
  lemma DeleteAbsent(t: Table, id: int)
    requires id !in t.rows
    ensures Remove(t, id) == Failure(NotFound)
  {
  }

  /** Updating an absent id errors; a present one gets the new label and six fields, keeps id and creation time, and no other row changes. */
  lemma UpdateSemantics(t: Table, form: SavedForm, now: Instant)
    requires TableValid(t)
    ensures form.id !in t.rows ==> Replace(t, form, now) == Failure(NotFound)
    ensures form.id in t.rows ==>
      Replace(t, form, now).Success?
      && TableValid(Replace(t, form, now).value)
      && (var row := Replace(t, form, now).value.rows[form.id];
          row.id == form.id && row.formLabel == form.formLabel && SameContent(row, form)
          && row.createdAt == t.rows[form.id].createdAt && row.updatedAt == now)
      && forall other :: other != form.id ==> Lookup(Replace(t, form, now).value, other) == Lookup(t, other)
  {
  }

  /** A deleted id is never handed out again: the next `Save` gets a different id. */
  lemma DeletedIdNotReused(t: Table, id: int, form: SavedForm, now: Instant)
    requires TableValid(t) && id in t.rows
    ensures Insert(Remove(t, id).value, form, now).id != id
  {
  }

  /** The store object: the table is a field that `Save`, `Delete` and `Update` reassign. */
  class Store {
    var rows: map<int, SavedForm>
    var lastId: int

    function Contents(): Table
      reads this
    {
      Table(rows, lastId)
    }

    ghost predicate Valid()
      reads this
    {
      TableValid(Contents())
    }

    /**
      `NewStorage`: opens the database file as it is. `CREATE TABLE IF NOT
      EXISTS` keeps the rows and the AUTOINCREMENT counter of an existing file;
      a new file starts from `Table(map[], 0)`.
     */
    constructor (existing: Table)
      requires TableValid(existing)
      ensures Valid() && Contents() == existing
    {
      rows := existing.rows;
      lastId := existing.lastId;
    }

    method Save(form: SavedForm, now: Instant) returns (id: int)
      requires Valid()
      modifies this
      ensures Valid()
      ensures Inserted(Contents(), id) == Insert(old(Contents()), form, now)
    {
      lastId := lastId + 1;
      id := lastId;
      rows := rows[id := form.(id := id, createdAt := now, updatedAt := now)];
    }

    method GetByID(id: int) returns (r: Result<SavedForm, StoreError>)
      ensures r.Success? <==> id in rows
      ensures r.Success? ==> r.value == rows[id]
    {
      if id in rows {
        r := Success(rows[id]);
      } else {
        r := Failure(NotFound);
      }
    }

    /** `List`: every row exactly once (the `created_at` ordering is not modelled). */
    method List() returns (forms: seq<SavedForm>)
      requires Valid()
      ensures |forms| == |rows|
      ensures forall i :: 0 <= i < |forms| ==> forms[i].id in rows && rows[forms[i].id] == forms[i]
      ensures forall i, j :: 0 <= i < j < |forms| ==> forms[i].id != forms[j].id
    {
      forms := [];
      var left := rows.Keys;
      while left != {}
        invariant left <= rows.Keys
        invariant forall k :: k in rows ==> rows[k].id == k
        invariant |forms| + |left| == |rows|
        invariant forall i :: 0 <= i < |forms| ==> forms[i].id in rows && forms[i].id !in left && rows[forms[i].id] == forms[i]
        invariant forall i, j :: 0 <= i < j < |forms| ==> forms[i].id != forms[j].id
        decreases |left|
      {
        var key :| key in left;
        forms := forms + [rows[key]];
        left := left - {key};
      }
    }

    method Delete(id: int) returns (err: Option<StoreError>)
      requires Valid()
      modifies this
      ensures Valid()
      ensures err == None <==> id in old(rows)
      ensures Contents() == if err == None then Remove(old(Contents()), id).value else old(Contents())
    {
      if id !in rows {
        return Some(NotFound);
      }
      rows := rows - {id};
      err := None;
    }

    method Update(form: SavedForm, now: Instant) returns (err: Option<StoreError>)
      requires Valid()
      modifies this
      ensures Valid()
      ensures err == None <==> form.id in old(rows)
      ensures Contents() == if err == None then Replace(old(Contents()), form, now).value else old(Contents())
    {
      if form.id !in rows {
        return Some(NotFound);
      }
      rows := rows[form.id := form.(createdAt := rows[form.id].createdAt, updatedAt := now)];
      err := None;
    }
  }
}
