/** The edit and delete handlers added to the spreadsheet script
    (google-apps-script-edit-delete.js): look a registration up by ID, and
    update or delete it when the requester owns it. Each scans the data rows
    once and acts on the first row with the ID only. */
module RecordEdits {
  import opened Wrappers
  import opened Seqs
  import opened Records
  import opened RecordStore

  const NoRegistrations := "No registrations found"
  const RegistrationNotFound := "Registration not found"
  const NoEditPermission := "You do not have permission to edit this registration"
  const NoDeletePermission := "You do not have permission to delete this registration"
  const UpdatedMessage := "Registration updated successfully"
  const DeletedMessage := "Registration deleted successfully"

  /** The `data` object of a successful getRegistrationById reply. */
  datatype Registration = Registration(
    id: string, name: string, phone: string, email: string,
    address: string, familyId: string, userId: string)

  datatype LookupReply = LookupRefused(message: string) | LookupFound(data: Registration)

  datatype ChangeReply = ChangeRefused(message: string) | ChangeDone(message: string)

  /** The fields of an updateRegistration request. */
  datatype UpdateRequest = UpdateRequest(
    id: string, name: string, phone: string, email: string, address: string, userId: string)

  /** The fields of a deleteRegistration request. */
  datatype DeleteRequest = DeleteRequest(id: string, userId: string)

  function HasId(id: string): IndividualRow -> bool {
    (row: IndividualRow) => row.id == id
  }

  /** Columns B to H of a row, as the reply names them. */
  function AsRegistration(row: IndividualRow): Registration {
    Registration(row.id, row.name, row.phone, row.email, row.address, row.familyId, row.userId)
  }

  /** The reply of getRegistrationById. */
  function Lookup(rows: seq<IndividualRow>, id: string): (r: LookupReply)
    ensures rows == [] ==> r == LookupRefused(NoRegistrations)
    ensures rows != [] && FirstWhere(rows, HasId(id)).None? ==> r == LookupRefused(RegistrationNotFound)
    ensures r.LookupFound? <==> FirstWhere(rows, HasId(id)).Some?
  {
    if rows == [] then LookupRefused(NoRegistrations)
    else match FirstWhere(rows, HasId(id))
      case None => LookupRefused(RegistrationNotFound)
      case Some(i) => LookupFound(AsRegistration(rows[i]))
  }

  /** A row with the request's name, phone, email and address (columns C
      to F) written over it. */
  function Edited(row: IndividualRow, req: UpdateRequest): IndividualRow {
    row.(name := req.name, phone := req.phone, email := req.email, address := req.address)
  }

  /** The reply of updateRegistration and the rows afterwards. A refusal
      leaves the rows as they were; a success rewrites columns C to F of the
      first row with the ID and nothing else. */
  function Update(rows: seq<IndividualRow>, req: UpdateRequest): (r: (ChangeReply, seq<IndividualRow>))
    ensures r.0.ChangeRefused? ==> r.1 == rows
    ensures |r.1| == |rows|
    ensures r.0.ChangeDone? <==>
      (match FirstWhere(rows, HasId(req.id))
       case None => false
       case Some(i) => rows[i].userId == req.userId)
    ensures forall j | 0 <= j < |rows| && FirstWhere(rows, HasId(req.id)) != Some(j) :: r.1[j] == rows[j]
    ensures r.0.ChangeDone? ==>
      FirstWhere(rows, HasId(req.id)).Some? &&
      r.1 == rows[FirstWhere(rows, HasId(req.id)).value := Edited(rows[FirstWhere(rows, HasId(req.id)).value], req)]
    ensures rows == [] ==> r.0 == ChangeRefused(NoRegistrations)
    ensures rows != [] && FirstWhere(rows, HasId(req.id)).None? ==> r.0 == ChangeRefused(RegistrationNotFound)
    ensures FirstWhere(rows, HasId(req.id)).Some? ==>
      rows[FirstWhere(rows, HasId(req.id)).value].userId != req.userId ==> r.0 == ChangeRefused(NoEditPermission)
    ensures r.0.ChangeDone? ==> r.0.message == UpdatedMessage
  {
    if rows == [] then (ChangeRefused(NoRegistrations), rows)
    else match FirstWhere(rows, HasId(req.id))
      case None => (ChangeRefused(RegistrationNotFound), rows)
      case Some(i) =>
        if rows[i].userId != req.userId then (ChangeRefused(NoEditPermission), rows)
        else (ChangeDone(UpdatedMessage), rows[i := Edited(rows[i], req)])
  }

  /** The reply of deleteRegistration and the rows afterwards. A refusal
      leaves the rows as they were; a success removes the first row with the
      ID and nothing else. */
  function Delete(rows: seq<IndividualRow>, req: DeleteRequest): (r: (ChangeReply, seq<IndividualRow>))
    ensures r.0.ChangeRefused? ==> r.1 == rows
    ensures r.0.ChangeDone? <==>
      (match FirstWhere(rows, HasId(req.id))
       case None => false
       case Some(i) => rows[i].userId == req.userId)
    ensures r.0.ChangeDone? ==> |r.1| == |rows| - 1
    ensures r.0.ChangeDone? ==>
      FirstWhere(rows, HasId(req.id)).Some? && r.1 == RemoveAt(rows, FirstWhere(rows, HasId(req.id)).value)
    ensures rows == [] ==> r.0 == ChangeRefused(NoRegistrations)
    ensures rows != [] && FirstWhere(rows, HasId(req.id)).None? ==> r.0 == ChangeRefused(RegistrationNotFound)
    ensures FirstWhere(rows, HasId(req.id)).Some? ==>
      rows[FirstWhere(rows, HasId(req.id)).value].userId != req.userId ==> r.0 == ChangeRefused(NoDeletePermission)
    ensures r.0.ChangeDone? ==> r.0.message == DeletedMessage
  {
    if rows == [] then (ChangeRefused(NoRegistrations), rows)
    else match FirstWhere(rows, HasId(req.id))
      case None => (ChangeRefused(RegistrationNotFound), rows)
      case Some(i) =>
        if rows[i].userId != req.userId then (ChangeRefused(NoDeletePermission), rows)
        else (ChangeDone(DeletedMessage), RemoveAt(rows, i))
  }

  /** getRegistrationById: the first row whose column B is the ID. The
      handlers run after doGet/doPost have created the sheets. */
  method GetRegistrationById(ss: Spreadsheet, id: string) returns (reply: LookupReply)
    requires ss.hasIndividualSheet
    ensures reply == Lookup(ss.individualRows, id)
  {
    var data := ss.individualRows;
    if |data| == 0 {
      return LookupRefused(NoRegistrations);
    }
    for i := 0 to |data|
      invariant forall j | 0 <= j < i :: data[j].id != id
    {
      if data[i].id == id {
        FirstWhereAt(data, HasId(id), i);
        return LookupFound(AsRegistration(data[i]));
      }
    }
    reply := LookupRefused(RegistrationNotFound);
  }

  /** updateRegistration: checks the owner column of the first row with the
      ID, then writes the four columns one by one. */
  method UpdateRegistration(ss: Spreadsheet, req: UpdateRequest) returns (reply: ChangeReply)
    requires ss.hasIndividualSheet
    modifies ss`individualRows
    ensures (reply, ss.individualRows) == Update(old(ss.individualRows), req)
  {
    var sheetData := ss.individualRows;
    if |sheetData| == 0 {
      return ChangeRefused(NoRegistrations);
    }
    for i := 0 to |sheetData|
      invariant ss.individualRows == sheetData
      invariant forall j | 0 <= j < i :: sheetData[j].id != req.id
    {
      if sheetData[i].id == req.id {
        FirstWhereAt(sheetData, HasId(req.id), i);
        if sheetData[i].userId != req.userId {
          return ChangeRefused(NoEditPermission);
        }
        ss.individualRows := ss.individualRows[i := ss.individualRows[i].(name := req.name)];
        ss.individualRows := ss.individualRows[i := ss.individualRows[i].(phone := req.phone)];
        ss.individualRows := ss.individualRows[i := ss.individualRows[i].(email := req.email)];
        ss.individualRows := ss.individualRows[i := ss.individualRows[i].(address := req.address)];
        assert ss.individualRows == sheetData[i := Edited(sheetData[i], req)];
        return ChangeDone(UpdatedMessage);
      }
    }
    reply := ChangeRefused(RegistrationNotFound);
  }

  /** deleteRegistration: checks the owner column of the first row with the
      ID, then deletes that row. */
  method DeleteRegistration(ss: Spreadsheet, req: DeleteRequest) returns (reply: ChangeReply)
    requires ss.hasIndividualSheet
    modifies ss`individualRows
    ensures (reply, ss.individualRows) == Delete(old(ss.individualRows), req)
  {
    var sheetData := ss.individualRows;
    if |sheetData| == 0 {
      return ChangeRefused(NoRegistrations);
    }
    for i := 0 to |sheetData|
      invariant ss.individualRows == sheetData
      invariant forall j | 0 <= j < i :: sheetData[j].id != req.id
    {
      if sheetData[i].id == req.id {
        FirstWhereAt(sheetData, HasId(req.id), i);
        if sheetData[i].userId != req.userId {
          return ChangeRefused(NoDeletePermission);
        }
        ss.individualRows := RemoveAt(ss.individualRows, i);
        return ChangeDone(DeletedMessage);
      }
    }
    reply := ChangeRefused(RegistrationNotFound);
  }

  /** After a successful update, looking the ID up again returns the new
      name, phone, email and address with the row's other columns. */
  lemma UpdateThenLookup(rows: seq<IndividualRow>, req: UpdateRequest)
    requires Update(rows, req).0.ChangeDone?
    ensures match FirstWhere(rows, HasId(req.id))
      case None => false
      case Some(i) => Lookup(Update(rows, req).1, req.id) == LookupFound(AsRegistration(Edited(rows[i], req)))
  {
    var after := Update(rows, req).1;
    FirstWhereSameMatches(rows, after, HasId(req.id));
  }

  /** An update, successful or not, leaves what every other ID looks up to
      unchanged. */
  lemma UpdateKeepsOtherLookups(rows: seq<IndividualRow>, req: UpdateRequest, id: string)
    requires id != req.id
    ensures Lookup(Update(rows, req).1, id) == Lookup(rows, id)
  {
    var after := Update(rows, req).1;
    FirstWhereSameMatches(rows, after, HasId(id));
    match FirstWhere(rows, HasId(id))
    case None =>
    case Some(k) =>
      assert rows[k].id == id;
  }

  /** The registration script writes no owner (column H stays empty), so
      on a sheet holding only its rows every edit or delete by a signed-in
      user is refused, whatever the ID, and changes nothing. */
  lemma UnownedRowsRefuseChanges(rows: seq<IndividualRow>, update: UpdateRequest, delete: DeleteRequest)
    requires forall k | 0 <= k < |rows| :: rows[k].userId == NoOwner
    requires update.userId != NoOwner && delete.userId != NoOwner
    ensures Update(rows, update).0.ChangeRefused? && Update(rows, update).1 == rows
    ensures Delete(rows, delete).0.ChangeRefused? && Delete(rows, delete).1 == rows
  {
  }

  /** Every row the registration script appends has an empty owner. */
  lemma WrittenRowsUnowned(data: PostData)
    ensures IndividualRowOf(data).userId == NoOwner
    ensures forall k | 0 <= k < |MemberRows(data)| :: MemberRows(data)[k].userId == NoOwner
  {
  }

  /** The number of rows carrying the ID. */
  function CountId(rows: seq<IndividualRow>, id: string): nat {
    |Filter(rows, HasId(id))|
  }

  /** A successful delete removes exactly one row with the ID; the rows
      with any other ID are kept, and in the same order. */
  lemma DeleteRemovesOneRow(rows: seq<IndividualRow>, req: DeleteRequest, id: string)
    requires Delete(rows, req).0.ChangeDone?
    ensures CountId(Delete(rows, req).1, req.id) == CountId(rows, req.id) - 1
    ensures id != req.id ==> Filter(Delete(rows, req).1, HasId(id)) == Filter(rows, HasId(id))
  {
    var i := FirstWhere(rows, HasId(req.id)).value;
    assert Delete(rows, req).1 == RemoveAt(rows, i);
    FilterRemoveAt(rows, i, HasId(req.id));
    FilterRemoveAt(rows, i, HasId(id));
  }

  /** Removing a row with no match between the first two rows carrying
      an ID leaves no match before the second one. */
  lemma NoMatchBefore(rows: seq<IndividualRow>, id: string, i: nat, j: nat)
    requires i < j < |rows|
    requires forall k | 0 <= k < j && k != i :: !HasId(id)(rows[k])
    ensures forall k | 0 <= k < j - 1 :: !HasId(id)(RemoveAt(rows, i)[k])
  {
    RemoveAtShifts(rows, i);
    forall k | 0 <= k < j - 1
      ensures !HasId(id)(RemoveAt(rows, i)[k])
    {
      if k < i {
        assert RemoveAt(rows, i)[k] == rows[k];
      } else {
        assert RemoveAt(rows, i)[k] == rows[k + 1];
      }
    }
  }

  /** Only the first row with an ID is ever reached: once it is deleted, the
      next row with the same ID, if any, is what the ID looks up to. */
  lemma DeleteExposesNextDuplicate(rows: seq<IndividualRow>, id: string, i: nat, j: nat)
    requires i < j < |rows| && rows[i].id == id && rows[j].id == id
    requires forall k | 0 <= k < j && k != i :: rows[k].id != id
    ensures Lookup(rows, id) == LookupFound(AsRegistration(rows[i]))
    ensures Lookup(RemoveAt(rows, i), id) == LookupFound(AsRegistration(rows[j]))
  {
    FirstWhereAt(rows, HasId(id), i);
    NoMatchBefore(rows, id, i, j);
    RemoveAtShifts(rows, i);
    FirstWhereAt(RemoveAt(rows, i), HasId(id), j - 1);
  }
}
