/** The values exchanged between the registration page and the spreadsheet
    script, and the rows the script keeps. JSON fields a payload does not
    carry are given empty values. */
module Records {

  /** A person in a family submission and in a family lookup reply. */
  datatype Member = Member(id: string, name: string, phone: string, email: string, address: string)

  /** A data row of the Individual_Registrations sheet, columns A to H:
      Timestamp, Individual ID, Name, Phone, Email, Address, Family ID and
      the owner's user ID. */
  datatype IndividualRow = IndividualRow(
    timestamp: string, id: string, name: string, phone: string,
    email: string, address: string, familyId: string, userId: string)

  /** A data row of the Family_Registrations sheet, columns A to E:
      Timestamp, Family ID, Head of Family, Total Members, Status. */
  datatype FamilyRow = FamilyRow(
    timestamp: string, familyId: string, head: string, totalMembers: int, status: string)

  /** The parsed body of a POST: `type` selects the handler; the individual
      handler reads id to address, the family handler reads familyId,
      familyHead, members and isExisting. */
  datatype PostData = PostData(
    kind: string, timestamp: string,
    id: string, name: string, phone: string, email: string, address: string,
    familyId: string, familyHead: string, members: seq<Member>, isExisting: bool)

  /** The JSON replies of doPost. */
  datatype PostReply =
    | PostFailed(message: string)
    | IndividualSaved(id: string)
    | FamilySaved(familyId: string, memberCount: nat)
  {
    function Message(): string {
      match this
      case PostFailed(m) => m
      case IndividualSaved(_) => "Individual registration saved"
      case FamilySaved(_, _) => "Family registration saved"
    }
  }

  /** The JSON replies of doGet and getFamilyMembers. */
  datatype FamilyMembersReply =
    | LookupFailed(message: string)
    | FamilyFound(familyId: string, familyHead: string, members: seq<Member>)
}
