/** The signed-in user's dashboard (dashboard.js): the session check on
    load, the cards listing the user's registrations with the edit, delete
    and quit actions each card offers, the member count shown before a
    family is deleted, and sign-out. The registrations themselves come from
    the spreadsheet script's getUserRegistrations, which is not part of this
    model: its reply is a parameter. */
module Dashboard {
  import opened Wrappers
  import opened Seqs
  import opened Text
  import opened Sessions
  import Auth

  /** An individual registration or a family member as the dashboard
      receives it; `registeredBy` is the user ID of whoever created it. */
  datatype Person = Person(
    id: string, name: string, phone: string, email: string, address: string,
    timestamp: string, registeredBy: string)

  /** A family the user owns or belongs to; `memberCount` is the count the
      server reports, `members` the member records. */
  datatype Family = Family(
    familyId: string, familyHead: string, ownerId: string, memberCount: nat,
    timestamp: string, members: seq<Person>)

  /** The `data` of a successful getUserRegistrations reply. */
  datatype Registrations = Registrations(individuals: seq<Person>, families: seq<Family>, totalPeople: int)

  /** The three summary cards. */
  datatype Summary = Summary(individualCount: nat, familyCount: nat, totalPeople: int)

  /** A card or member line, and whether it shows the edit and delete
      buttons. */
  datatype PersonCard = PersonCard(id: string, editable: bool)

  /** The one family-level button a family card shows, if any; quitting
      passes the number of members the user registered. */
  datatype FamilyAction = DeleteFamilyAction | QuitFamilyAction(userMembers: nat) | NoFamilyAction

  datatype FamilyCard = FamilyCard(familyId: string, action: FamilyAction, ownerBadge: bool, members: seq<PersonCard>)

  /** What the dashboard shows: the summary, the individual cards and the
      family cards, each in the order received. */
  datatype View = View(summary: Summary, individuals: seq<PersonCard>, families: seq<FamilyCard>)

  /** The outcome of the load handler: back to the sign-in page, or the
      dashboard of the stored user. */
  datatype LoadOutcome = RedirectToSignIn | ShowDashboard(user: Session)

  function RegisteredBy(userId: string): Person -> bool {
    (p: Person) => p.registeredBy == userId
  }

  function HasFamilyId(familyId: string): Family -> bool {
    (f: Family) => f.familyId == familyId
  }

  /** A card with edit and delete exactly for what the user registered. */
  function CardFor(userId: string): Person -> PersonCard {
    (p: Person) => PersonCard(p.id, p.registeredBy == userId)
  }

  /** `family.members.filter(m => m.registeredBy === currentUser.userId).length`. */
  function UserMemberCount(f: Family, userId: string): nat {
    |Filter(f.members, RegisteredBy(userId))|
  }

  /** Delete for the owner; otherwise quit when the user registered some
      of the members; otherwise nothing. */
  function FamilyActionFor(f: Family, userId: string): FamilyAction {
    if f.ownerId == userId then DeleteFamilyAction
    else if UserMemberCount(f, userId) > 0 then QuitFamilyAction(UserMemberCount(f, userId))
    else NoFamilyAction
  }

  function FamilyCardFor(userId: string): Family -> FamilyCard {
    (f: Family) => FamilyCard(f.familyId, FamilyActionFor(f, userId), f.ownerId == userId, Map(f.members, CardFor(userId)))
  }

  /** displayRegistrations for the signed-in user `userId`. */
  function Render(data: Registrations, userId: string): View {
    View(Summary(|data.individuals|, |data.families|, data.totalPeople),
         Map(data.individuals, CardFor(userId)),
         Map(data.families, FamilyCardFor(userId)))
  }

  /** showEmptyState: zero counts and no cards. */
  const EmptyView := View(Summary(0, 0, 0), [], [])

  /** The count deleteFamily shows: the cached `memberCount` of the first
      cached family with the ID, or '0'; nothing cached reads as `[]`. */
  function DeleteFamilyCount(cached: Option<seq<Family>>, familyId: string): string {
    var families := cached.GetOr([]);
    match FirstWhere(families, HasFamilyId(familyId))
    case None => "0"
    case Some(i) => NatToString(families[i].memberCount)
  }

  /** The summary repeats the counts it is given; there is one card per
      registration and per family, in order, each individual card editable
      exactly when the user registered it, each family card carrying the
      owner badge exactly for the owner. */
  lemma RenderShows(data: Registrations, userId: string)
    ensures Render(data, userId).summary == Summary(|data.individuals|, |data.families|, data.totalPeople)
    ensures |Render(data, userId).individuals| == |data.individuals|
    ensures forall i | 0 <= i < |data.individuals| ::
      Render(data, userId).individuals[i].id == data.individuals[i].id &&
      (Render(data, userId).individuals[i].editable <==> data.individuals[i].registeredBy == userId)
    ensures |Render(data, userId).families| == |data.families|
    ensures forall i | 0 <= i < |data.families| ::
      Render(data, userId).families[i].familyId == data.families[i].familyId &&
      Render(data, userId).families[i].action == FamilyActionFor(data.families[i], userId) &&
      (Render(data, userId).families[i].ownerBadge <==> data.families[i].ownerId == userId)
  {
  }

  /** The user has registered members of a family exactly when some member
      names the user as its registrant. */
  lemma UserMemberCountPositive(f: Family, userId: string)
    ensures UserMemberCount(f, userId) > 0 <==> exists i | 0 <= i < |f.members| :: f.members[i].registeredBy == userId
    ensures UserMemberCount(f, userId) <= |f.members|
  {
    FilterNonEmpty(f.members, RegisteredBy(userId));
  }

  /** The owner is offered delete and never quit; anyone else is offered
      quit exactly when they registered one of the members, with that
      number, and nothing otherwise. */
  lemma FamilyActionRules(f: Family, userId: string)
    ensures f.ownerId == userId ==> FamilyActionFor(f, userId) == DeleteFamilyAction
    ensures FamilyActionFor(f, userId) == DeleteFamilyAction ==> f.ownerId == userId
    ensures FamilyActionFor(f, userId).QuitFamilyAction? <==>
      f.ownerId != userId && exists i | 0 <= i < |f.members| :: f.members[i].registeredBy == userId
    ensures FamilyActionFor(f, userId).QuitFamilyAction? ==>
      FamilyActionFor(f, userId).userMembers == |Filter(f.members, RegisteredBy(userId))|
    ensures FamilyActionFor(f, userId) == NoFamilyAction <==>
      f.ownerId != userId && forall i | 0 <= i < |f.members| :: f.members[i].registeredBy != userId
  {
    UserMemberCountPositive(f, userId);
  }

  /** Each member line of a family card offers edit and delete exactly when
      the user registered that member, whoever owns the family. */
  lemma MemberRightsIgnoreOwnership(f: Family, userId: string, owner: string)
    ensures FamilyCardFor(userId)(f.(ownerId := owner)).members == FamilyCardFor(userId)(f).members
    ensures forall i | 0 <= i < |f.members| ::
      FamilyCardFor(userId)(f).members[i].editable <==> f.members[i].registeredBy == userId
  {
  }

  /** The count in the delete dialog is a numeral: the cached count of the
      first family with the ID when there is one, zero otherwise. */
  lemma DeleteFamilyCountReads(cached: Option<seq<Family>>, familyId: string)
    ensures AllDigits(DeleteFamilyCount(cached, familyId))
    ensures ParseDigits(DeleteFamilyCount(cached, familyId)) ==
      match FirstWhere(cached.GetOr([]), HasFamilyId(familyId))
      case None => 0
      case Some(i) => cached.GetOr([])[i].memberCount
  {
    var families := cached.GetOr([]);
    match FirstWhere(families, HasFamilyId(familyId))
    case None =>
      assert DeleteFamilyCount(cached, familyId) == [DigitChar(0)];
    case Some(i) =>
      ParseNatToString(families[i].memberCount);
  }

  /** The dashboard page's state: the stored session, the user it was read
      as, and the families cached in `sessionStorage` for the delete
      dialog. */
  class DashboardPage {
    var storedSession: StoredSession
    var currentUser: Option<Session>
    var cachedFamilies: Option<seq<Family>>

    constructor (stored: StoredSession)
      ensures storedSession == stored && currentUser == None && cachedFamilies == None
    {
      storedSession, currentUser, cachedFamilies := stored, None, None;
    }

    /** The load handler at time `now`: with no session, back to sign-in;
        an unreadable or expired session is removed first; a live session
        becomes the current user and the dashboard is shown. */
    method OnLoad(now: int) returns (outcome: LoadOutcome)
      modifies this`storedSession, this`currentUser
      ensures old(storedSession).NoSession? ==> outcome == RedirectToSignIn && unchanged(this)
      ensures old(storedSession).Unreadable? ==>
        outcome == RedirectToSignIn && storedSession == NoSession && currentUser == old(currentUser)
      ensures old(storedSession).Stored? ==> currentUser == Some(old(storedSession).session)
      ensures old(storedSession).Stored? && IsExpired(old(storedSession).session, now) ==>
        outcome == RedirectToSignIn && storedSession == NoSession
      ensures old(storedSession).Stored? && !IsExpired(old(storedSession).session, now) ==>
        outcome == ShowDashboard(old(storedSession).session) && storedSession == old(storedSession)
    {
      match storedSession
      case NoSession =>
        return RedirectToSignIn;
      case Unreadable =>
        storedSession := NoSession;
        return RedirectToSignIn;
      case Stored(s) =>
        currentUser := Some(s);
        if IsExpired(s, now) {
          storedSession := NoSession;
          return RedirectToSignIn;
        }
        return ShowDashboard(s);
    }

    /** loadUserRegistrations given the script's reply (`None` when the
        request fails or the reply is not a success): a successful reply
        caches its families and is rendered, anything else shows the empty
        state. */
    method ShowRegistrations(reply: Option<Registrations>) returns (view: View)
      requires currentUser.Some?
      modifies this`cachedFamilies
      ensures reply.Some? ==>
        view == Render(reply.value, currentUser.value.userId) && cachedFamilies == Some(reply.value.families)
      ensures reply.None? ==> view == EmptyView && unchanged(this)
    {
      match reply
      case None =>
        view := EmptyView;
      case Some(data) =>
        cachedFamilies := Some(data.families);
        view := Render(data, currentUser.value.userId);
    }

    /** deleteFamily: the member count its dialog shows. */
    method DeleteFamilyDialog(familyId: string) returns (count: string)
      ensures AllDigits(count)
      ensures count == DeleteFamilyCount(cachedFamilies, familyId)
    {
      var families := cachedFamilies.GetOr([]);
      var found := FirstWhere(families, HasFamilyId(familyId));
      count := if found.Some? then NatToString(families[found.value].memberCount) else "0";
      DeleteFamilyCountReads(cachedFamilies, familyId);
    }

    /** confirmSignOut: the stored session is removed. */
    method ConfirmSignOut()
      modifies this`storedSession
      ensures storedSession == NoSession
    {
      storedSession := NoSession;
    }
  }

  /** A sign-in at time `signedInAt` followed by opening the dashboard at
      time `now`: a session the sign-in stores is shown for every `now`
      before thirty days have passed and removed from then on; without a
      new session an empty store still leads back to sign-in. */
  method SignInThenLoad(
    stored: StoredSession, email: string, password: string, signedInAt: int,
    server: Auth.Request -> Option<Auth.Reply>, now: int)
    returns (signIn: Auth.Outcome, outcome: LoadOutcome, afterLoad: StoredSession)
    ensures signIn == Auth.SignIn(email, password, signedInAt, server)
    ensures signIn.session.Some? && now < signedInAt + SessionLifetimeMs ==>
      outcome == ShowDashboard(signIn.session.value) && afterLoad == Stored(signIn.session.value)
    ensures signIn.session.Some? && now >= signedInAt + SessionLifetimeMs ==>
      outcome == RedirectToSignIn && afterLoad == NoSession
    ensures signIn.session.None? && stored == NoSession ==> outcome == RedirectToSignIn && afterLoad == NoSession
  {
    var auth := new Auth.AuthPage(stored);
    signIn := auth.SignInWithEmail(email, password, signedInAt, server);
    var page := new DashboardPage(auth.storedSession);
    outcome := page.OnLoad(now);
    afterLoad := page.storedSession;
  }

  /** The same for a sign-up: the new account's session lasts thirty days
      from the moment it was created. */
  method SignUpThenLoad(
    stored: StoredSession, name: string, email: string, password: string, confirmPassword: string,
    timestamp: string, signedUpAt: int, server: Auth.Request -> Option<Auth.Reply>, now: int)
    returns (signUp: Auth.Outcome, outcome: LoadOutcome, afterLoad: StoredSession)
    ensures signUp == Auth.SignUp(name, email, password, confirmPassword, timestamp, signedUpAt, server)
    ensures signUp.session.Some? && now < signedUpAt + SessionLifetimeMs ==>
      outcome == ShowDashboard(signUp.session.value) && afterLoad == Stored(signUp.session.value)
    ensures signUp.session.Some? && now >= signedUpAt + SessionLifetimeMs ==>
      outcome == RedirectToSignIn && afterLoad == NoSession
    ensures signUp.session.None? && stored == NoSession ==> outcome == RedirectToSignIn && afterLoad == NoSession
  {
    var auth := new Auth.AuthPage(stored);
    signUp := auth.SignUpWithEmail(name, email, password, confirmPassword, timestamp, signedUpAt, server);
    var page := new DashboardPage(auth.storedSession);
    outcome := page.OnLoad(now);
    afterLoad := page.storedSession;
  }
}
