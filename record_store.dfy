/** The spreadsheet script behind the registration form
    (google-apps-script.js): two sheets kept as sequences of data rows below
    their header row, a POST dispatcher that appends registrations and bumps
    a family's member count, and a GET that lists a family's members. */
module RecordStore {
  import opened Wrappers
  import opened Seqs
  import opened Records

  const IndividualKind := "individual"
  const FamilyKind := "family"
  const GetFamilyMembersAction := "getFamilyMembers"
  const InvalidType := "Invalid registration type"
  const InvalidAction := "Invalid action"
  const FamilyIdNotFound := "Family ID not found"
  const ActiveStatus := "Active"
  /** Column G of a registration made outside any family. */
  const NoFamily := ""
  /** Column H as left by the seven-column writers of this script. */
  const NoOwner := ""

  function HasFamilyId(familyId: string): FamilyRow -> bool {
    (row: FamilyRow) => row.familyId == familyId
  }

  function InFamily(familyId: string): IndividualRow -> bool {
    (row: IndividualRow) => row.familyId == familyId
  }

  /** The row appended for an individual registration. */
  function IndividualRowOf(data: PostData): IndividualRow {
    IndividualRow(data.timestamp, data.id, data.name, data.phone, data.email, data.address, NoFamily, NoOwner)
  }

  /** The row appended for one member of a family registration. */
  function MemberRow(data: PostData, m: Member): IndividualRow {
    IndividualRow(data.timestamp, m.id, m.name, m.phone, m.email, m.address, data.familyId, NoOwner)
  }

  /** The rows a family registration appends, one per member in order. */
  function MemberRows(data: PostData): seq<IndividualRow> {
    seq(|data.members|, i requires 0 <= i < |data.members| => MemberRow(data, data.members[i]))
  }

  /** The row appended for a new family. */
  function NewFamilyRow(data: PostData): FamilyRow {
    FamilyRow(data.timestamp, data.familyId, data.familyHead, |data.members|, ActiveStatus)
  }

  /** updateFamilyRecord on the family sheet: the first row with the family's
      ID gets the new timestamp and `added` more members; no other row
      changes, and without such a row nothing changes. */
  function BumpFamily(rows: seq<FamilyRow>, familyId: string, timestamp: string, added: nat): (r: seq<FamilyRow>)
    ensures |r| == |rows|
    ensures forall j | 0 <= j < |rows| && FirstWhere(rows, HasFamilyId(familyId)) != Some(j) :: r[j] == rows[j]
    ensures forall j | 0 <= j < |rows| && FirstWhere(rows, HasFamilyId(familyId)) == Some(j) ::
      r[j] == rows[j].(timestamp := timestamp, totalMembers := rows[j].totalMembers + added)
  {
    match FirstWhere(rows, HasFamilyId(familyId))
    case None => rows
    case Some(i) => rows[i := rows[i].(timestamp := timestamp, totalMembers := rows[i].totalMembers + added)]
  }

  /** The member record getFamilyMembers builds from columns B to F. */
  function RowMember(row: IndividualRow): Member {
    Member(row.id, row.name, row.phone, row.email, row.address)
  }

  /** The members getFamilyMembers lists: every individual row whose
      column G is the family ID, in sheet order. */
  function MembersOf(rows: seq<IndividualRow>, familyId: string): seq<Member> {
    Map(Filter(rows, InFamily(familyId)), RowMember)
  }

  /** One more row adds its member at the end exactly when it belongs to
      the family. */
  lemma MembersOfSnoc(rows: seq<IndividualRow>, row: IndividualRow, familyId: string)
    ensures MembersOf(rows + [row], familyId) ==
      MembersOf(rows, familyId) + (if row.familyId == familyId then [RowMember(row)] else [])
  {
    FilterAppend(rows, [row], InFamily(familyId));
    MapAppend(Filter(rows, InFamily(familyId)), Filter([row], InFamily(familyId)), RowMember);
  }

  /** The reply of getFamilyMembers for the given sheet contents. */
  function FamilyLookup(familyRows: seq<FamilyRow>, individualRows: seq<IndividualRow>, familyId: string): FamilyMembersReply {
    match FirstWhere(familyRows, HasFamilyId(familyId))
    case None => LookupFailed(FamilyIdNotFound)
    case Some(i) => FamilyFound(familyId, familyRows[i].head, MembersOf(individualRows, familyId))
  }

  /** Members are listed in sheet order: the rows of an earlier block come
      before those of a later one. */
  lemma MembersOfAppend(a: seq<IndividualRow>, b: seq<IndividualRow>, familyId: string)
    ensures MembersOf(a + b, familyId) == MembersOf(a, familyId) + MembersOf(b, familyId)
  {
    FilterAppend(a, b, InFamily(familyId));
    MapAppend(Filter(a, InFamily(familyId)), Filter(b, InFamily(familyId)), RowMember);
  }

  /** A member is listed exactly when some row of the family carries it. */
  lemma MembersOfContains(rows: seq<IndividualRow>, familyId: string, m: Member)
    ensures m in MembersOf(rows, familyId) <==>
      exists i | 0 <= i < |rows| :: rows[i].familyId == familyId && RowMember(rows[i]) == m
  {
    var f := Filter(rows, InFamily(familyId));
    if m in MembersOf(rows, familyId) {
      var k :| 0 <= k < |f| && RowMember(f[k]) == m;
      FilterContains(rows, InFamily(familyId), f[k]);
      var i :| 0 <= i < |rows| && rows[i] == f[k];
      assert rows[i].familyId == familyId && RowMember(rows[i]) == m;
    }
    if exists i | 0 <= i < |rows| :: rows[i].familyId == familyId && RowMember(rows[i]) == m {
      var i :| 0 <= i < |rows| && rows[i].familyId == familyId && RowMember(rows[i]) == m;
      FilterContains(rows, InFamily(familyId), rows[i]);
      var k :| 0 <= k < |f| && f[k] == rows[i];
      assert MembersOf(rows, familyId)[k] == m;
    }
  }

  /** The rows a family registration writes read back, through
      getFamilyMembers, as exactly the submitted members, after the members
      already stored. */
  lemma FamilyRowsRoundTrip(rows: seq<IndividualRow>, data: PostData)
    ensures MembersOf(rows + MemberRows(data), data.familyId) == MembersOf(rows, data.familyId) + data.members
  {
    var written := MemberRows(data);
    MembersOfAppend(rows, written, data.familyId);
    FilterAll(written, InFamily(data.familyId));
    assert Map(written, RowMember) == data.members;
  }

  /** A family registration does not change any other family's members. */
  lemma OtherFamiliesUnchanged(rows: seq<IndividualRow>, data: PostData, familyId: string)
    requires familyId != data.familyId
    ensures MembersOf(rows + MemberRows(data), familyId) == MembersOf(rows, familyId)
  {
    var written := MemberRows(data);
    MembersOfAppend(rows, written, familyId);
    FilterNonEmpty(written, InFamily(familyId));
    assert rows + [] == rows;
  }

  /** An individual registration is no family's member. */
  lemma IndividualInNoFamily(rows: seq<IndividualRow>, data: PostData, familyId: string)
    requires familyId != NoFamily
    ensures MembersOf(rows + [IndividualRowOf(data)], familyId) == MembersOf(rows, familyId)
  {
    MembersOfSnoc(rows, IndividualRowOf(data), familyId);
  }

  /** A new family whose ID is not yet used is found afterwards with the
      submitted head and exactly the submitted members. */
  lemma NewFamilyRoundTrip(familyRows: seq<FamilyRow>, individualRows: seq<IndividualRow>, data: PostData)
    requires FirstWhere(familyRows, HasFamilyId(data.familyId)).None?
    requires MembersOf(individualRows, data.familyId) == []
    ensures FamilyLookup(familyRows + [NewFamilyRow(data)], individualRows + MemberRows(data), data.familyId)
      == FamilyFound(data.familyId, data.familyHead, data.members)
  {
    FirstWhereAt(familyRows + [NewFamilyRow(data)], HasFamilyId(data.familyId), |familyRows|);
    FamilyRowsRoundTrip(individualRows, data);
  }

  /** The cached Total Members of the family's first row equals the number
      of member rows getFamilyMembers would list. */
  predicate CountInSync(familyRows: seq<FamilyRow>, individualRows: seq<IndividualRow>, familyId: string) {
    match FirstWhere(familyRows, HasFamilyId(familyId))
    case None => false
    case Some(i) => familyRows[i].totalMembers == |MembersOf(individualRows, familyId)|
  }

  /** Registering a new family whose ID is unused leaves its count in sync. */
  lemma NewFamilyInSync(familyRows: seq<FamilyRow>, individualRows: seq<IndividualRow>, data: PostData)
    requires FirstWhere(familyRows, HasFamilyId(data.familyId)).None?
    requires MembersOf(individualRows, data.familyId) == []
    ensures CountInSync(familyRows + [NewFamilyRow(data)], individualRows + MemberRows(data), data.familyId)
  {
    NewFamilyRoundTrip(familyRows, individualRows, data);
  }

  /** Adding members to an existing family whose count was in sync keeps it
      in sync: the count rises by as many rows as are appended. */
  lemma ExistingFamilyStaysInSync(familyRows: seq<FamilyRow>, individualRows: seq<IndividualRow>, data: PostData)
    requires CountInSync(familyRows, individualRows, data.familyId)
    ensures CountInSync(BumpFamily(familyRows, data.familyId, data.timestamp, |data.members|),
                        individualRows + MemberRows(data), data.familyId)
  {
    var bumped := BumpFamily(familyRows, data.familyId, data.timestamp, |data.members|);
    FirstWhereSameMatches(familyRows, bumped, HasFamilyId(data.familyId));
    FamilyRowsRoundTrip(individualRows, data);
  }

  /** Submitting an existing family's looked-up members again, as the
      registration page does, stores each of them a second time. */
  lemma ResubmissionDuplicates(rows: seq<IndividualRow>, data: PostData, added: seq<Member>)
    requires data.members == MembersOf(rows, data.familyId) + added
    ensures MembersOf(rows + MemberRows(data), data.familyId)
      == MembersOf(rows, data.familyId) + MembersOf(rows, data.familyId) + added
  {
    FamilyRowsRoundTrip(rows, data);
  }

  /** A sheet's data rows after initializeSheets: a sheet it has to create
      holds only its header. */
  function AfterInit<R>(exists_: bool, rows: seq<R>): seq<R> {
    if exists_ then rows else []
  }

  class Spreadsheet {
    var hasIndividualSheet: bool
    var hasFamilySheet: bool
    /** Data rows of Individual_Registrations, row 2 onwards. */
    var individualRows: seq<IndividualRow>
    /** Data rows of Family_Registrations, row 2 onwards. */
    var familyRows: seq<FamilyRow>

    /** A spreadsheet with neither sheet. */
    constructor ()
      ensures !hasIndividualSheet && !hasFamilySheet
      ensures individualRows == [] && familyRows == []
    {
      hasIndividualSheet, hasFamilySheet := false, false;
      individualRows, familyRows := [], [];
    }

    /** Creates each missing sheet with its header row only; an existing
        sheet is left as it is, so a second call changes nothing. */
    method InitializeSheets()
      modifies this
      ensures hasIndividualSheet && hasFamilySheet
      ensures individualRows == AfterInit(old(hasIndividualSheet), old(individualRows))
      ensures familyRows == AfterInit(old(hasFamilySheet), old(familyRows))
      ensures old(hasIndividualSheet && hasFamilySheet) ==> unchanged(this)
    {
      if !hasIndividualSheet {
        hasIndividualSheet := true;
        individualRows := [];
      }
      if !hasFamilySheet {
        hasFamilySheet := true;
        familyRows := [];
      }
    }

    /** Appends one row with an empty Family ID and answers with the
        submitted ID. */
    method HandleIndividualRegistration(data: PostData) returns (reply: PostReply)
      requires hasIndividualSheet
      modifies this`individualRows
      ensures individualRows == old(individualRows) + [IndividualRowOf(data)]
      ensures reply == IndividualSaved(data.id)
    {
      individualRows := individualRows + [IndividualRowOf(data)];
      reply := IndividualSaved(data.id);
    }

    /** Appends one row per member, in member order, then either bumps the
        existing family's row or appends a new family row. */
    method HandleFamilyRegistration(data: PostData) returns (reply: PostReply)
      requires hasIndividualSheet && hasFamilySheet
      requires data.isExisting ==> |familyRows| > 0
      modifies this`individualRows, this`familyRows
      ensures individualRows == old(individualRows) + MemberRows(data)
      ensures familyRows ==
        if data.isExisting then BumpFamily(old(familyRows), data.familyId, data.timestamp, |data.members|)
        else old(familyRows) + [NewFamilyRow(data)]
      ensures reply == FamilySaved(data.familyId, |data.members|)
    {
      for k := 0 to |data.members|
        invariant individualRows == old(individualRows) + MemberRows(data)[..k]
        invariant familyRows == old(familyRows)
      {
        individualRows := individualRows + [MemberRow(data, data.members[k])];
        assert MemberRows(data)[..k + 1] == MemberRows(data)[..k] + [MemberRow(data, data.members[k])];
      }
      assert MemberRows(data)[..|data.members|] == MemberRows(data);
      if data.isExisting {
        UpdateFamilyRecord(data);
      } else {
        familyRows := familyRows + [NewFamilyRow(data)];
      }
      reply := FamilySaved(data.familyId, |data.members|);
    }

    /** Scans the Family ID column and stops at the first match. */
    method UpdateFamilyRecord(data: PostData)
      requires |familyRows| > 0
      modifies this`familyRows
      ensures familyRows == BumpFamily(old(familyRows), data.familyId, data.timestamp, |data.members|)
    {
      var i := 0;
      while i < |familyRows|
        invariant 0 <= i <= |familyRows|
        invariant familyRows == old(familyRows)
        invariant forall j | 0 <= j < i :: familyRows[j].familyId != data.familyId
      {
        if familyRows[i].familyId == data.familyId {
          FirstWhereAt(familyRows, HasFamilyId(data.familyId), i);
          var currentCount := familyRows[i].totalMembers;
          familyRows := familyRows[i := familyRows[i].(timestamp := data.timestamp)];
          familyRows := familyRows[i := familyRows[i].(totalMembers := currentCount + |data.members|)];
          return;
        }
        i := i + 1;
      }
    }

    /** Finds the first family row with the ID (its Head of Family is the
        reply's head) and lists the family's members in sheet order. */
    method GetFamilyMembers(familyId: string) returns (reply: FamilyMembersReply)
      requires |familyRows| > 0
      requires FirstWhere(familyRows, HasFamilyId(familyId)).Some? ==> |individualRows| > 0
      ensures reply == FamilyLookup(familyRows, individualRows, familyId)
    {
      var familyExists := false;
      var familyHead := "";
      var i := 0;
      while i < |familyRows|
        invariant 0 <= i <= |familyRows|
        invariant !familyExists
        invariant forall j | 0 <= j < i :: familyRows[j].familyId != familyId
      {
        if familyRows[i].familyId == familyId {
          familyExists := true;
          familyHead := familyRows[i].head;
          FirstWhereAt(familyRows, HasFamilyId(familyId), i);
          break;
        }
        i := i + 1;
      }
      if !familyExists {
        return LookupFailed(FamilyIdNotFound);
      }
      var members: seq<Member> := [];
      for k := 0 to |individualRows|
        invariant members == MembersOf(individualRows[..k], familyId)
      {
        var row := individualRows[k];
        assert individualRows[..k + 1] == individualRows[..k] + [row];
        MembersOfSnoc(individualRows[..k], row, familyId);
        if row.familyId == familyId {
          members := members + [RowMember(row)];
        }
      }
      assert individualRows[..|individualRows|] == individualRows;
      reply := FamilyFound(familyId, familyHead, members);
    }

    /** Creates missing sheets, then routes `type` "individual" and "family"
        to their handlers; any other type is refused and writes no row. */
    method DoPost(data: PostData) returns (reply: PostReply)
      requires data.kind == FamilyKind && data.isExisting ==> hasFamilySheet && |familyRows| > 0
      modifies this
      ensures hasIndividualSheet && hasFamilySheet
      ensures data.kind == IndividualKind ==>
        && individualRows == AfterInit(old(hasIndividualSheet), old(individualRows)) + [IndividualRowOf(data)]
        && familyRows == AfterInit(old(hasFamilySheet), old(familyRows))
        && reply == IndividualSaved(data.id)
      ensures data.kind == FamilyKind ==>
        && individualRows == AfterInit(old(hasIndividualSheet), old(individualRows)) + MemberRows(data)
        && familyRows == (if data.isExisting
                          then BumpFamily(old(familyRows), data.familyId, data.timestamp, |data.members|)
                          else AfterInit(old(hasFamilySheet), old(familyRows)) + [NewFamilyRow(data)])
        && reply == FamilySaved(data.familyId, |data.members|)
      ensures data.kind != IndividualKind && data.kind != FamilyKind ==>
        && individualRows == AfterInit(old(hasIndividualSheet), old(individualRows))
        && familyRows == AfterInit(old(hasFamilySheet), old(familyRows))
        && reply == PostFailed(InvalidType)
    {
      InitializeSheets();
      if data.kind == IndividualKind {
        reply := HandleIndividualRegistration(data);
      } else if data.kind == FamilyKind {
        reply := HandleFamilyRegistration(data);
      } else {
        reply := PostFailed(InvalidType);
      }
    }

    /** Creates missing sheets, then answers the getFamilyMembers action;
        any other action is refused. */
    method DoGet(action: string, familyId: string) returns (reply: FamilyMembersReply)
      requires action == GetFamilyMembersAction ==>
        && hasFamilySheet && |familyRows| > 0
        && (FirstWhere(familyRows, HasFamilyId(familyId)).Some? ==> hasIndividualSheet && |individualRows| > 0)
      modifies this
      ensures hasIndividualSheet && hasFamilySheet
      ensures individualRows == AfterInit(old(hasIndividualSheet), old(individualRows))
      ensures familyRows == AfterInit(old(hasFamilySheet), old(familyRows))
      ensures action == GetFamilyMembersAction ==> reply == FamilyLookup(familyRows, individualRows, familyId)
      ensures action != GetFamilyMembersAction ==> reply == LookupFailed(InvalidAction)
    {
      InitializeSheets();
      if action == GetFamilyMembersAction {
        reply := GetFamilyMembers(familyId);
      } else {
        reply := LookupFailed(InvalidAction);
      }
    }
  }
}
