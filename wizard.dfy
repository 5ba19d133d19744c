/** The registration page (script.js): a wizard whose state record moves
    through the steps of an individual or a family registration, builds the
    registration IDs from the entered names, and hands the finished payload
    to the spreadsheet script. Input fields, the clock and `Math.random` are
    parameters; the POST itself is the returned payload. */
module Wizard {
  import opened Wrappers
  import opened Text
  import opened Records
  import RecordStore

  /** The `form-section` elements, one per step, by their element IDs. */
  datatype Section =
    | RegistrationTypeStep   // step-registration-type
    | IndividualNameStep     // step-individual-name
    | IndividualFormStep     // step-individual-form
    | FamilyCheckStep        // step-family-check
    | FamilyExistingStep     // step-family-existing
    | FamilyNewStep          // step-family-new
    | FamilyPageStep         // step-family-page
    | SuccessStep            // step-success

  const EnterName := "Please enter your name"
  const FillRequired := "Please fill in all required fields"
  const EnterFamilyId := "Please enter a Family ID"
  const FamilyNotFound := "Family ID not found. Please check the ID or create a new family registration."
  const LoadFailed := "Unable to load family information. Please try again or contact support."
  const EnterHeadName := "Please enter the head of family name"
  const FillMemberDetails := "Please fill in all member details"
  const AddMemberFirst := "Please add at least one family member before completing registration"
  const SubmitFailed := "There was an error submitting your registration. Please try again or contact support."

  const ExistingOption := "existing"
  const NewOption := "new"

  /** `Math.floor(u * 1000)` for a `Math.random()` value `u` in [0, 1). */
  function RandomNumber(u: real): (n: nat)
    requires 0.0 <= u < 1.0
    ensures n < 1000
    ensures n as real <= u * 1000.0 < n as real + 1.0
  {
    (u * 1000.0).Floor
  }

  /** The three-digit random part of an ID:
      `Math.floor(u * 1000).toString().padStart(3, '0')`. */
  function RandomSuffix(u: real): string
    requires 0.0 <= u < 1.0
  {
    PadStart(NatToString(RandomNumber(u)), 3, '0')
  }

  /** The random part is always exactly three decimal digits, and reading
      them gives back the random number. */
  lemma RandomSuffixDigits(u: real)
    requires 0.0 <= u < 1.0
    ensures |RandomSuffix(u)| == 3 && AllDigits(RandomSuffix(u))
    ensures ParseDigits(RandomSuffix(u)) == RandomNumber(u)
  {
    var n := RandomNumber(u);
    var s := NatToString(n);
    assert Pow10(3) == 1000;
    NatToStringLength(n, 3);
    ParseNatToString(n);
    ParseLeadingZeros(3 - |s|, s);
    assert RandomSuffix(u) == Repeat('0', 3 - |s|) + s;
  }

  /** `name.split(' ')[0].toUpperCase()`. */
  function FirstName(name: string): string {
    ToUpper(Split(name, ' ')[0])
  }

  /** The upper-cased last space-separated part, or `''` for a one-part
      name. */
  function LastName(name: string): string {
    var parts := Split(name, ' ');
    if |parts| > 1 then ToUpper(parts[|parts| - 1]) else ""
  }

  /** `FIRST` or `FIRST-LAST`: the dash and the last name only when the last
      name is not empty. */
  function NameTag(name: string): string {
    FirstName(name) + (if LastName(name) != "" then "-" + LastName(name) else "")
  }

  /** The dash-separated fields the name contributes to an ID. */
  function NameFields(name: string): seq<string> {
    [FirstName(name)] + (if LastName(name) != "" then [LastName(name)] else [])
  }

  /** `FIRST[-LAST]-YEAR-RRR`, built by createIndividualId. */
  function IndividualId(name: string, year: nat, u: real): string
    requires 0.0 <= u < 1.0
  {
    NameTag(name) + "-" + NatToString(year) + "-" + RandomSuffix(u)
  }

  /** `FIRST[-LAST]-RRR`, built by addFamilyMember: no year. */
  function MemberId(name: string, u: real): string
    requires 0.0 <= u < 1.0
  {
    NameTag(name) + "-" + RandomSuffix(u)
  }

  /** The upper-cased last space-separated part, which for a one-part
      name is the whole name. */
  function Surname(name: string): string {
    var parts := Split(name, ' ');
    if |parts| > 1 then ToUpper(parts[|parts| - 1]) else ToUpper(parts[0])
  }

  /** `LAST-YEAR`, built by createFamilyId. */
  function FamilyId(name: string, year: nat): string {
    Surname(name) + "-" + NatToString(year)
  }

  /** No part of a name split at spaces holds a space, nor a dash when the
      name has none, and upper-casing keeps it so. */
  lemma NamePartsClean(name: string, i: nat)
    requires i < |Split(name, ' ')|
    ensures ' ' !in ToUpper(Split(name, ' ')[i])
    ensures '-' !in name ==> '-' !in ToUpper(Split(name, ' ')[i])
  {
    var part := Split(name, ' ')[i];
    ToUpperKeepsNonLetters(part, ' ');
    ToUpperKeepsNonLetters(part, '-');
  }

  lemma NameFieldsClean(name: string)
    ensures forall k | 0 <= k < |NameFields(name)| :: ' ' !in NameFields(name)[k]
    ensures '-' !in name ==> forall k | 0 <= k < |NameFields(name)| :: '-' !in NameFields(name)[k]
  {
    var parts := Split(name, ' ');
    NamePartsClean(name, 0);
    NamePartsClean(name, |parts| - 1);
  }

  lemma NameTagFields(name: string)
    ensures NameTag(name) == Join(NameFields(name), '-')
  {
    if LastName(name) != "" {
      assert NameFields(name)[1..] == [LastName(name)];
    }
  }

  /** Numerals and the random part are digits only: no space, no dash. */
  lemma DigitsClean(s: string)
    requires AllDigits(s)
    ensures ' ' !in s && '-' !in s
  {
    forall i | 0 <= i < |s|
      ensures s[i] != ' ' && s[i] != '-'
    {
      assert IsDigit(s[i]);
    }
  }

  /** Joining `parts + [a, b]` appends `-a-b` to the joined parts. */
  lemma JoinTwoMore(parts: seq<string>, a: string, b: string)
    requires |parts| >= 1
    ensures Join(parts + [a, b], '-') == Join(parts, '-') + "-" + a + "-" + b
  {
    JoinOneMore(parts, a);
    JoinOneMore(parts + [a], b);
    assert parts + [a, b] == parts + [a] + [b];
  }

  lemma {:induction false} JoinOneMore(parts: seq<string>, a: string)
    requires |parts| >= 1
    ensures Join(parts + [a], '-') == Join(parts, '-') + "-" + a
  {
    if |parts| == 1 {
      assert (parts + [a])[1..] == [a];
    } else {
      JoinOneMore(parts[1..], a);
      assert (parts + [a])[1..] == parts[1..] + [a];
    }
  }

  /** The name fields followed by space- and dash-free fields join, with dashes, into a
      string without a space, which splits back at its dashes into the
      same fields when the name itself has no dash. */
  lemma IdFieldsSplit(name: string, numerals: seq<string>)
    requires forall k | 0 <= k < |numerals| :: ' ' !in numerals[k] && '-' !in numerals[k]
    ensures '-' !in name ==> Split(Join(NameFields(name) + numerals, '-'), '-') == NameFields(name) + numerals
    ensures ' ' !in Join(NameFields(name) + numerals, '-')
  {
    var names := NameFields(name);
    var fields := names + numerals;
    NameFieldsClean(name);
    assert forall k | 0 <= k < |fields| :: ' ' !in fields[k];
    if '-' !in name {
      assert forall k | 0 <= k < |fields| :: '-' !in fields[k];
      SplitJoin(fields, '-');
    }
    SpaceFreeJoin(fields);
  }

  /** The name tag followed by one clean field. */
  lemma TagAndOneField(name: string, a: string)
    requires ' ' !in a && '-' !in a
    ensures '-' !in name ==> Split(NameTag(name) + "-" + a, '-') == NameFields(name) + [a]
    ensures ' ' !in NameTag(name) + "-" + a
  {
    NameTagFields(name);
    JoinOneMore(NameFields(name), a);
    IdFieldsSplit(name, [a]);
  }

  /** The name tag followed by two clean fields. */
  lemma TagAndTwoFields(name: string, a: string, b: string)
    requires ' ' !in a && '-' !in a && ' ' !in b && '-' !in b
    ensures '-' !in name ==> Split(NameTag(name) + "-" + a + "-" + b, '-') == NameFields(name) + [a, b]
    ensures ' ' !in NameTag(name) + "-" + a + "-" + b
  {
    NameTagFields(name);
    JoinTwoMore(NameFields(name), a, b);
    IdFieldsSplit(name, [a, b]);
  }

  /** An individual ID reads back, split at its dashes, as the upper-cased
      first name, the upper-cased last name when there is one, the year and
      the three random digits, provided the name itself has no dash; it
      never contains a space. */
  lemma IndividualIdFields(name: string, year: nat, u: real)
    requires 0.0 <= u < 1.0
    ensures '-' !in name ==>
      Split(IndividualId(name, year, u), '-') == NameFields(name) + [NatToString(year), RandomSuffix(u)]
    ensures ' ' !in IndividualId(name, year, u)
  {
    var numeral, suffix := NatToString(year), RandomSuffix(u);
    RandomSuffixDigits(u);
    DigitsClean(numeral);
    DigitsClean(suffix);
    TagAndTwoFields(name, numeral, suffix);
  }

  /** A member ID has the same name fields and random digits as an
      individual ID, but no year. */
  lemma MemberIdFields(name: string, u: real)
    requires 0.0 <= u < 1.0
    ensures '-' !in name ==>
      Split(MemberId(name, u), '-') == NameFields(name) + [RandomSuffix(u)]
    ensures ' ' !in MemberId(name, u)
  {
    var suffix := RandomSuffix(u);
    RandomSuffixDigits(u);
    DigitsClean(suffix);
    TagAndOneField(name, suffix);
  }

  /** A family ID splits into the upper-cased last name (the only name for a
      one-part name) and the year. */
  lemma FamilyIdFields(name: string, year: nat)
    ensures '-' !in name ==>
      Split(FamilyId(name, year), '-') == [Surname(name), NatToString(year)]
    ensures ' ' !in FamilyId(name, year)
  {
    var parts := Split(name, ' ');
    var fields := [Surname(name), NatToString(year)];
    assert fields[1..] == [NatToString(year)];
    assert FamilyId(name, year) == Join(fields, '-');
    NamePartsClean(name, 0);
    NamePartsClean(name, |parts| - 1);
    DigitsClean(NatToString(year));
    if '-' !in name {
      SplitJoin(fields, '-');
    }
    SpaceFreeJoin(fields);
  }

  /** Joining space-free pieces with dashes gives a space-free string. */
  lemma {:induction false} SpaceFreeJoin(parts: seq<string>)
    requires forall k | 0 <= k < |parts| :: ' ' !in parts[k]
    ensures ' ' !in Join(parts, '-')
  {
    if |parts| > 1 {
      SpaceFreeJoin(parts[1..]);
    }
  }

  /** A one-word name is its own first name and surname, upper-cased. */
  lemma OneWordName(word: string)
    requires ' ' !in word
    ensures NameTag(word) == ToUpper(word) && Surname(word) == ToUpper(word)
  {
    SplitWithoutSeparator(word, ' ');
  }

  /** A two-word name has the upper-cased words as first and last name,
      and the second word upper-cased as surname. */
  lemma TwoWordName(first: string, last: string)
    requires last != "" && ' ' !in first && ' ' !in last
    ensures NameTag(first + " " + last) == ToUpper(first) + "-" + ToUpper(last)
    ensures Surname(first + " " + last) == ToUpper(last)
  {
    var name := first + " " + last;
    SplitWithoutSeparator(last, ' ');
    SplitAtSeparator(first, last, ' ');
    assert name == first + [' '] + last;
    assert Split(name, ' ') == [first, last];
    assert |ToUpper(last)| == |last|;
  }

  /** A one-word name gives the upper-cased word, then the year and the
      digits; its family ID is the upper-cased word and the year. */
  lemma OneWordIds(word: string, year: nat, u: real)
    requires 0.0 <= u < 1.0
    requires ' ' !in word
    ensures IndividualId(word, year, u) == ToUpper(word) + "-" + NatToString(year) + "-" + RandomSuffix(u)
    ensures FamilyId(word, year) == ToUpper(word) + "-" + NatToString(year)
  {
    OneWordName(word);
  }

  /** A two-word name gives both words upper-cased, then the year and the
      digits; its family ID is the second word upper-cased and the year. */
  lemma TwoWordIds(first: string, last: string, year: nat, u: real)
    requires 0.0 <= u < 1.0
    requires last != "" && ' ' !in first && ' ' !in last
    ensures IndividualId(first + " " + last, year, u)
      == ToUpper(first) + "-" + ToUpper(last) + "-" + NatToString(year) + "-" + RandomSuffix(u)
    ensures FamilyId(first + " " + last, year) == ToUpper(last) + "-" + NatToString(year)
  {
    TwoWordName(first, last);
  }

  /** The Family ID as looked up: the entry trimmed and upper-cased. */
  function EnteredFamilyId(input: string): string {
    ToUpper(Trim(input))
  }

  /** The member addFamilyMember builds from the four entered fields: none
      unless all four are non-empty after trimming, otherwise the trimmed
      fields with an ID generated from the trimmed name. */
  function NewMember(nameInput: string, phoneInput: string, emailInput: string, addressInput: string, u: real): Option<Member>
    requires 0.0 <= u < 1.0
  {
    var name, phone, email, address := Trim(nameInput), Trim(phoneInput), Trim(emailInput), Trim(addressInput);
    if name == "" || phone == "" || email == "" || address == "" then None
    else Some(Member(MemberId(name, u), name, phone, email, address))
  }

  /** Whether a getFamilyMembers reply (`None` when the request failed)
      binds the family: `result.success && result.members.length > 0`. */
  predicate Loaded(reply: Option<FamilyMembersReply>) {
    reply.Some? && reply.value.FamilyFound? && |reply.value.members| > 0
  }

  /** The registration page's `currentState` and the visible section. */
  class RegistrationWizard {
    var registrationType: Option<string>
    var individualId: Option<string>
    var individualName: Option<string>
    var familyId: Option<string>
    var familyHead: Option<string>
    var familyMembers: seq<Member>
    var isExistingFamily: bool
    var section: Section

    /** The state the page starts in and resetForm returns to. */
    predicate IsInitial()
      reads this
    {
      && registrationType == None && individualId == None && individualName == None
      && familyId == None && familyHead == None && familyMembers == []
      && !isExistingFamily && section == RegistrationTypeStep
    }

    constructor ()
      ensures IsInitial()
    {
      registrationType, individualId, individualName := None, None, None;
      familyId, familyHead, familyMembers := None, None, [];
      isExistingFamily, section := false, RegistrationTypeStep;
    }

    /** resetForm: the initial state on the first step. */
    method ResetForm()
      modifies this
      ensures IsInitial()
    {
      registrationType, individualId, individualName := None, None, None;
      familyId, familyHead, familyMembers := None, None, [];
      isExistingFamily, section := false, RegistrationTypeStep;
    }

    /** Records the chosen type; "individual" and "family" open their first
        step, any other value leaves the page where it is. */
    method SelectRegistrationType(kind: string)
      modifies this`registrationType, this`section
      ensures registrationType == Some(kind)
      ensures section ==
        if kind == RecordStore.IndividualKind then IndividualNameStep
        else if kind == RecordStore.FamilyKind then FamilyCheckStep
        else old(section)
    {
      registrationType := Some(kind);
      if kind == RecordStore.IndividualKind {
        section := IndividualNameStep;
      } else if kind == RecordStore.FamilyKind {
        section := FamilyCheckStep;
      }
    }

    /** Trims the entered name; an empty name is refused and changes
        nothing, otherwise the name and its ID are stored. */
    method CreateIndividualId(input: string, year: nat, u: real) returns (alert: Option<string>)
      requires 0.0 <= u < 1.0
      modifies this`individualName, this`individualId, this`section
      ensures Trim(input) == "" ==> alert == Some(EnterName) && unchanged(this)
      ensures Trim(input) != "" ==>
        && alert == None
        && individualName == Some(Trim(input))
        && individualId == Some(IndividualId(Trim(input), year, u))
        && section == IndividualFormStep
    {
      var name := Trim(input);
      if name == "" {
        return Some(EnterName);
      }
      individualName := Some(name);
      individualId := Some(IndividualId(name, year, u));
      section := IndividualFormStep;
      alert := None;
    }

    /** Refuses unless phone, email and address are all non-empty after
        trimming; otherwise posts the stored ID and name with them. A field
        still `null` is sent as an empty cell. `posted` says whether the
        POST went out without a network error: only then does the success
        step open; otherwise an alert is shown and the page stays. */
    method SubmitIndividual(phoneInput: string, emailInput: string, addressInput: string, timestamp: string, posted: bool)
      returns (alert: Option<string>, payload: Option<PostData>)
      modifies this`section
      ensures var phone, email, address := Trim(phoneInput), Trim(emailInput), Trim(addressInput);
        if phone == "" || email == "" || address == "" then
          alert == Some(FillRequired) && payload == None && unchanged(this)
        else
          && payload == Some(PostData(RecordStore.IndividualKind, timestamp,
                                      individualId.GetOr(""), individualName.GetOr(""),
                                      phone, email, address, "", "", [], false))
          && (posted ==> alert == None && section == SuccessStep)
          && (!posted ==> alert == Some(SubmitFailed) && unchanged(this))
    {
      var phone, email, address := Trim(phoneInput), Trim(emailInput), Trim(addressInput);
      if phone == "" || email == "" || address == "" {
        return Some(FillRequired), None;
      }
      payload := Some(PostData(RecordStore.IndividualKind, timestamp,
                               individualId.GetOr(""), individualName.GetOr(""),
                               phone, email, address, "", "", [], false));
      if !posted {
        return Some(SubmitFailed), payload;
      }
      section := SuccessStep;
      alert := None;
    }

    /** "existing" and "new" set the flag and open their step; any other
        option changes nothing. */
    method SelectFamilyOption(option: string)
      modifies this`isExistingFamily, this`section
      ensures option == ExistingOption ==> isExistingFamily && section == FamilyExistingStep
      ensures option == NewOption ==> !isExistingFamily && section == FamilyNewStep
      ensures option != ExistingOption && option != NewOption ==> unchanged(this)
    {
      if option == ExistingOption {
        isExistingFamily := true;
        section := FamilyExistingStep;
      } else if option == NewOption {
        isExistingFamily := false;
        section := FamilyNewStep;
      }
    }

    /** Trims and upper-cases the entered Family ID and, unless it is empty,
        asks the script for the family's members (`lookup` answers, `None`
        when the request fails). Only a found family with at least one
        member is bound: its ID as entered, its members and its head. */
    method LoadFamilyById(input: string, lookup: string -> Option<FamilyMembersReply>) returns (alert: Option<string>)
      modifies this`familyId, this`familyMembers, this`familyHead, this`section
      ensures EnteredFamilyId(input) == "" ==> alert == Some(EnterFamilyId) && unchanged(this)
      ensures EnteredFamilyId(input) != "" && Loaded(lookup(EnteredFamilyId(input))) ==>
        && alert == None
        && familyId == Some(EnteredFamilyId(input))
        && familyMembers == lookup(EnteredFamilyId(input)).value.members
        && familyHead == Some(lookup(EnteredFamilyId(input)).value.familyHead)
        && section == FamilyPageStep
      ensures EnteredFamilyId(input) != "" && lookup(EnteredFamilyId(input)).None? ==>
        alert == Some(LoadFailed) && unchanged(this)
      ensures EnteredFamilyId(input) != "" && lookup(EnteredFamilyId(input)).Some? && !Loaded(lookup(EnteredFamilyId(input))) ==>
        alert == Some(FamilyNotFound) && unchanged(this)
    {
      var id := EnteredFamilyId(input);
      if id == "" {
        alert := Some(EnterFamilyId);
      } else {
        var result := lookup(id);
        if result.None? {
          alert := Some(LoadFailed);
        } else if Loaded(result) {
          familyId := Some(id);
          familyMembers := result.value.members;
          familyHead := Some(result.value.familyHead);
          section := FamilyPageStep;
          alert := None;
        } else {
          alert := Some(FamilyNotFound);
        }
      }
    }

    /** Trims the head's name; an empty name is refused and changes nothing,
        otherwise a new family with no members is started. */
    method CreateFamilyId(input: string, year: nat) returns (alert: Option<string>)
      modifies this`familyHead, this`familyId, this`familyMembers, this`section
      ensures Trim(input) == "" ==> alert == Some(EnterHeadName) && unchanged(this)
      ensures Trim(input) != "" ==>
        && alert == None
        && familyHead == Some(Trim(input))
        && familyId == Some(FamilyId(Trim(input), year))
        && familyMembers == []
        && section == FamilyPageStep
    {
      var name := Trim(input);
      if name == "" {
        return Some(EnterHeadName);
      }
      familyHead := Some(name);
      familyId := Some(FamilyId(name, year));
      familyMembers := [];
      section := FamilyPageStep;
      alert := None;
    }

    /** Refuses unless all four trimmed fields are non-empty; otherwise
        appends one member, with its generated ID, after the others. */
    method AddFamilyMember(nameInput: string, phoneInput: string, emailInput: string, addressInput: string, u: real)
      returns (alert: Option<string>)
      requires 0.0 <= u < 1.0
      modifies this`familyMembers
      ensures NewMember(nameInput, phoneInput, emailInput, addressInput, u).None? ==>
        alert == Some(FillMemberDetails) && unchanged(this)
      ensures NewMember(nameInput, phoneInput, emailInput, addressInput, u).Some? ==>
        && alert == None
        && familyMembers == old(familyMembers) + [NewMember(nameInput, phoneInput, emailInput, addressInput, u).value]
    {
      var name, phone, email, address := Trim(nameInput), Trim(phoneInput), Trim(emailInput), Trim(addressInput);
      if name == "" || phone == "" || email == "" || address == "" {
        return Some(FillMemberDetails);
      }
      familyMembers := familyMembers + [Member(MemberId(name, u), name, phone, email, address)];
      alert := None;
    }

    /** Refuses an empty member list; otherwise posts every member in the
        list, loaded ones included, with the family's ID, head and the
        existing-family flag. As for an individual, the success step opens
        only when the POST went out (`posted`). */
    method CompleteFamilyRegistration(timestamp: string, posted: bool) returns (alert: Option<string>, payload: Option<PostData>)
      modifies this`section
      ensures familyMembers == [] ==> alert == Some(AddMemberFirst) && payload == None && unchanged(this)
      ensures familyMembers != [] ==>
        payload == Some(PostData(RecordStore.FamilyKind, timestamp, "", "", "", "", "",
                                 familyId.GetOr(""), familyHead.GetOr(""),
                                 familyMembers, isExistingFamily))
      ensures familyMembers != [] && posted ==> alert == None && section == SuccessStep
      ensures familyMembers != [] && !posted ==> alert == Some(SubmitFailed) && unchanged(this)
    {
      if |familyMembers| == 0 {
        return Some(AddMemberFirst), None;
      }
      payload := Some(PostData(RecordStore.FamilyKind, timestamp, "", "", "", "", "",
                               familyId.GetOr(""), familyHead.GetOr(""),
                               familyMembers, isExistingFamily));
      if !posted {
        return Some(SubmitFailed), payload;
      }
      section := SuccessStep;
      alert := None;
    }

    /** Back from the family page to the step it came from. */
    method GoBackFromFamily()
      modifies this`section
      ensures section == if isExistingFamily then FamilyExistingStep else FamilyNewStep
    {
      section := if isExistingFamily then FamilyExistingStep else FamilyNewStep;
    }
  }

  /** Loading an existing family and completing the registration submits
      the loaded members again, as an existing family. */
  method ResubmitLoadedFamily(input: string, lookup: string -> Option<FamilyMembersReply>, timestamp: string)
    returns (payload: Option<PostData>)
    requires EnteredFamilyId(input) != "" && Loaded(lookup(EnteredFamilyId(input)))
    ensures payload.Some?
    ensures payload.value.kind == RecordStore.FamilyKind && payload.value.isExisting
    ensures payload.value.familyId == EnteredFamilyId(input)
    ensures payload.value.members == lookup(EnteredFamilyId(input)).value.members
  {
    var w := new RegistrationWizard();
    assert ExistingOption[0] != NewOption[0];
    w.SelectFamilyOption(ExistingOption);
    var alert := w.LoadFamilyById(input, lookup);
    alert, payload := w.CompleteFamilyRegistration(timestamp, true);
  }
}
