# Church retreat registration — a verified model

This project models the record-keeping core of a church retreat sign-up
site. The site is a set of browser scripts. A Google Apps Script web app
keeps the registrations in two spreadsheet tabs.

- **Spreadsheet script** (`RecordStore`, `RecordEdits`). Each tab is a
  sequence of data rows below an implicit header row.
  - `doPost` appends an individual registration, or one row per family
    member. It then adds a new family row, or bumps the member count and
    timestamp of the family's first row.
  - `doGet` lists a family's members in sheet order.
  - The edit/delete handlers find the first row with an ID. They update
    four of its columns, or delete it, only when the requester owns the
    row.
- **Registration page** (`Wizard`). The `currentState` record is a class.
  Its fields are changed by the steps of the individual and family
  wizards. Three ID formats are built from the entered names:
  - `FIRST[-LAST]-YEAR-RRR` for an individual;
  - `LAST-YEAR` for a family;
  - `FIRST[-LAST]-RRR` for a family member.
  The year and `Math.random()` are parameters. The POST body is returned
  as a `PostData` value.
- **Dashboard** (`Dashboard`, `Sessions`):
  - the 30-day session check;
  - which edit, delete and quit buttons each card offers;
  - the member count in the delete-family dialog;
  - sign-out.
- **Sign-in page** (`Auth`):
  - the password checks made before any request;
  - the checkUser / createUser / authenticateUser exchanges, with the
    script's answers as a parameter;
  - the session record each writes.
- **Language switch** (`Language`):
  - the stored language and the toggle;
  - `t(key)` with the key as its own fallback;
  - the `applyLanguage` pass over the tagged elements, which are modelled
    as arrays updated in place.

`Text` models the JavaScript string builtins the scripts use: `trim`,
`split`, `toUpperCase`, `toString` and `padStart`. `Seqs` holds the
first-match scan, filtering and mapping over rows.

Three behaviours of the code are worth knowing, and the model keeps
them as written:

- **Completing a loaded family resubmits every member.** The payload
  carries every entry of `familyMembers` (script.js:233-240). For a family
  loaded by ID, that includes the members just loaded (script.js:116-119).
  The script appends one row per member without checking for duplicates
  (google-apps-script.js:132-142) and raises the count by the whole list
  (google-apps-script.js:177). So each loaded member is stored a second
  time (`Wizard.ResubmitLoadedFamily`, `RecordStore.ResubmissionDuplicates`).
- **Rows are written without an owner.** The registration writers fill
  seven columns (google-apps-script.js:108-116, 133-141). The edit and
  delete handlers compare column 8 with the requester
  (google-apps-script-edit-delete.js:74-79, 131-136). On rows the
  registration script wrote, every signed-in user is refused
  (`RecordEdits.UnownedRowsRefuseChanges`).
- **A family is found by its ID only.** `loadFamilyById` looks the
  trimmed, upper-cased ID up and binds the family at once
  (script.js:101-133).

## Model

| member | source | states |
|---|---|---|
| RecordStore.Spreadsheet.constructor | google-apps-script.js:19-22 | a spreadsheet starts with neither tab and no rows |
| RecordStore.Spreadsheet.InitializeSheets | google-apps-script.js:25-57 | both tabs exist afterwards; a tab that had to be created holds only its header; a tab that existed keeps its rows; a second call changes nothing |
| RecordStore.Spreadsheet.DoPost | google-apps-script.js:77-101 | sheets are created first; "individual" appends exactly one individual row and replies with the ID; "family" appends the member rows and adds or bumps the family row; any other type is refused and writes no data row |
| RecordStore.Spreadsheet.DoGet | google-apps-script.js:60-74 | sheets are created first and no data row changes; getFamilyMembers answers with the family lookup; any other action is refused |
| RecordStore.Spreadsheet.HandleIndividualRegistration | google-apps-script.js:104-123 | exactly one row is appended, with an empty Family ID and no owner, and the reply carries the submitted ID |
| RecordStore.Spreadsheet.HandleFamilyRegistration | google-apps-script.js:126-165 | one individual row per member is appended, in member order and each with the family ID; a new family appends one family row with count = number of members and status Active; an existing family is bumped |
| RecordStore.Spreadsheet.UpdateFamilyRecord | google-apps-script.js:168-181 | the first family row with the ID gets the new timestamp and its count rises by the number of members; with no match the tab is unchanged |
| RecordStore.Spreadsheet.GetFamilyMembers | google-apps-script.js:184-234 | without a family row the reply is "Family ID not found"; otherwise the head comes from the first matching family row and the members are exactly the rows of the family in sheet order |
| RecordStore.BumpFamily | google-apps-script.js:172-178 | same number of rows; only the first row with the ID changes, gaining the timestamp and the added count; no other row changes |
| RecordStore.MembersOfSnoc | google-apps-script.js:215-226 | one more row adds its member at the end exactly when its Family ID matches |
| RecordStore.MembersOfAppend | google-apps-script.js:215-226 | members are listed in sheet order across blocks of rows |
| RecordStore.MembersOfContains | google-apps-script.js:215-226 | a member is listed exactly when some row of the family carries it |
| RecordStore.FamilyRowsRoundTrip | google-apps-script.js:132-142 | after a family registration the family's members read back as the old members followed by exactly the submitted ones |
| RecordStore.OtherFamiliesUnchanged | google-apps-script.js:132-142 | a family registration leaves every other family's member list unchanged |
| RecordStore.IndividualInNoFamily | google-apps-script.js:108-116 | an individual registration is listed in no family |
| RecordStore.NewFamilyRoundTrip | google-apps-script.js:150-156 | a new family with an unused ID is found afterwards with the submitted head and exactly the submitted members |
| RecordStore.NewFamilyInSync | google-apps-script.js:145-156 | a new family's Total Members equals the number of member rows listed for it |
| RecordStore.ExistingFamilyStaysInSync | google-apps-script.js:168-181 | bumping an existing family whose count matched its member rows keeps the count matching |
| RecordStore.ResubmissionDuplicates | google-apps-script.js:132-142 | resubmitting a family's stored members together with new ones lists every stored member twice |
| RecordEdits.GetRegistrationById | google-apps-script-edit-delete.js:7-51 | the reply is the lookup over the rows: "No registrations found" for an empty tab, the first row with the ID mapped to id…userId, or "Registration not found" |
| RecordEdits.UpdateRegistration | google-apps-script-edit-delete.js:54-108 | the reply and the new rows are those of `Update` on the old rows |
| RecordEdits.DeleteRegistration | google-apps-script-edit-delete.js:111-162 | the reply and the new rows are those of `Delete` on the old rows |
| RecordEdits.Update | google-apps-script-edit-delete.js:60-99 | the reply is "No registrations found" for an empty tab, "Registration not found" when no row has the ID, the edit-permission message when the first such row belongs to someone else, and "Registration updated successfully" on success; a refusal changes nothing; success happens exactly when the first row with the ID is owned by the requester, and then that row gets the new name, phone, email and address with its other columns kept; no other row changes |
| RecordEdits.Delete | google-apps-script-edit-delete.js:117-153 | the reply is "No registrations found" for an empty tab, "Registration not found" when no row has the ID, the delete-permission message when the first such row belongs to someone else, and "Registration deleted successfully" on success; a refusal changes nothing; success happens exactly when the first row with the ID is owned by the requester, and then exactly that first row is removed, the rest keeping their order |
| RecordEdits.UpdateThenLookup | google-apps-script-edit-delete.js:82-85 | after a successful update the ID looks up to the same row with the new name, phone, email and address |
| RecordEdits.UpdateKeepsOtherLookups | google-apps-script-edit-delete.js:82-85 | an update leaves what every other ID looks up to unchanged |
| RecordEdits.UnownedRowsRefuseChanges | google-apps-script-edit-delete.js:74-79 | on rows without an owner every update or delete by a signed-in user is refused and changes nothing |
| RecordEdits.WrittenRowsUnowned | google-apps-script.js:108-116 | every row the registration script appends has an empty owner column |
| RecordEdits.DeleteRemovesOneRow | google-apps-script-edit-delete.js:139 | a successful delete removes one row with the ID, and the rows with any other ID are kept in order |
| RecordEdits.DeleteExposesNextDuplicate | google-apps-script-edit-delete.js:22-37 | only the first row with an ID is seen; once it is deleted, the next duplicate is what the ID looks up to |
| Seqs.FirstWhere | google-apps-script-edit-delete.js:22-37 | the result is the index of the first matching element, and none exists when the result is None |
| Seqs.RemoveAtShifts | google-apps-script-edit-delete.js:139 | deleting a row keeps the earlier rows and shifts the later ones up by one |
| Seqs.FilterRemoveAt | google-apps-script-edit-delete.js:139 | deleting a row lowers the matching count by one when it matched and keeps it otherwise |
| Wizard.RegistrationWizard.constructor | script.js:2-10 | the page starts with no type, IDs, names or members, not an existing family, on the first step |
| Wizard.RegistrationWizard.ResetForm | script.js:297-314 | the state is back to the initial state, on the first step |
| Wizard.RegistrationWizard.SelectRegistrationType | script.js:28-36 | the type is recorded; "individual" and "family" open their first step; any other value leaves the page where it is |
| Wizard.RegistrationWizard.CreateIndividualId | script.js:39-59 | an empty trimmed name is refused and changes nothing; otherwise the trimmed name and its individual ID are stored and the form step opens |
| Wizard.RegistrationWizard.SubmitIndividual | script.js:61-88 | an empty phone, email or address is refused and nothing is sent; otherwise the payload carries the stored ID and name with the trimmed fields; the success step opens only when the POST went out, and a failed POST alerts and leaves the state unchanged |
| Wizard.RegistrationWizard.SelectFamilyOption | script.js:91-99 | "existing" sets the flag, "new" clears it, each opening its step; any other option changes nothing |
| Wizard.RegistrationWizard.LoadFamilyById | script.js:101-133 | an empty ID is refused; a failed request or a family that is not found or has no members binds nothing; otherwise the trimmed, upper-cased ID, the members and the head are bound |
| Wizard.RegistrationWizard.CreateFamilyId | script.js:135-154 | an empty name is refused and changes nothing; otherwise the head and the family ID are stored and the member list is emptied |
| Wizard.RegistrationWizard.AddFamilyMember | script.js:173-202 | unless all four trimmed fields are non-empty nothing changes; otherwise exactly one member is appended after the earlier ones |
| Wizard.RegistrationWizard.CompleteFamilyRegistration | script.js:227-250 | an empty member list is refused and nothing is sent; otherwise the payload holds every member in the list and the existing-family flag; the success step opens only when the POST went out, and a failed POST alerts and leaves the state unchanged |
| Wizard.RegistrationWizard.GoBackFromFamily | script.js:252-258 | the page returns to the existing-family or the new-family step, as the flag says |
| Wizard.ResubmitLoadedFamily | script.js:227-240 | choosing "existing", loading a family and completing sends that family's loaded members again, marked as existing |
| Wizard.RandomNumber | script.js:53 | the random number is below 1000 and is the floor of u·1000 |
| Wizard.RandomSuffixDigits | script.js:53 | the random part is exactly three digits and reads back as the random number |
| Wizard.IndividualIdFields | script.js:49-55 | for a name without a dash, an individual ID splits at its dashes into the upper-cased first name, the upper-cased last name when there is one, the year and the three digits; it holds no space |
| Wizard.MemberIdFields | script.js:185-189 | for a name without a dash, a member ID splits into the same name fields and the three digits, with no year; it holds no space |
| Wizard.FamilyIdFields | script.js:145-149 | for a name without a dash, a family ID splits into the upper-cased last (or only) name and the year; it holds no space |
| Wizard.OneWordIds | script.js:49-55 | a one-word name gives WORD-YEAR-RRR and the family ID WORD-YEAR |
| Wizard.TwoWordIds | script.js:49-55 | a two-word name gives FIRST-LAST-YEAR-RRR and the family ID LAST-YEAR |
| Sessions.ExpiryIsPermanent | dashboard.js:32-39 | once expired, a session stays expired |
| Dashboard.DashboardPage.constructor | dashboard.js:3 | the page starts with the stored session, no current user and nothing cached |
| Dashboard.DashboardPage.OnLoad | dashboard.js:20-52 | with no session, back to sign-in; an unreadable or expired session is removed and the page goes to sign-in; a live session becomes the current user and the dashboard is shown |
| Dashboard.DashboardPage.ShowRegistrations | dashboard.js:55-82 | a successful reply caches its families and is rendered; anything else shows the empty state |
| Dashboard.DashboardPage.DeleteFamilyDialog | dashboard.js:427-439 | the dialog shows a numeral, the cached count of the first matching family or 0 |
| Dashboard.DashboardPage.ConfirmSignOut | dashboard.js:14-17 | the stored session is removed |
| Dashboard.RenderShows | dashboard.js:85-229 | the summary repeats the given counts; there is one card per registration and per family, in order; an individual card is editable exactly when the user registered it; the owner badge shows exactly for the owner |
| Dashboard.UserMemberCountPositive | dashboard.js:165 | the user's member count is positive exactly when some member names the user as registrant, and it is at most the number of members |
| Dashboard.FamilyActionRules | dashboard.js:162-180 | the owner gets delete and never quit; a non-owner gets quit, with their member count, exactly when they registered a member; otherwise no action |
| Dashboard.MemberRightsIgnoreOwnership | dashboard.js:201-211 | a member line is editable exactly when the user registered that member, whoever owns the family |
| Dashboard.SignInThenLoad | dashboard.js:20-52 | a session stored by a sign-in at time t is shown by the dashboard for every now before t + 30 days and removed from then on; with no session stored, the dashboard goes back to sign-in |
| Dashboard.SignUpThenLoad | dashboard.js:20-52 | a session stored by a sign-up at time t is shown for every now before t + 30 days and removed from then on; with no session stored, the dashboard goes back to sign-in |
| Dashboard.DeleteFamilyCountReads | dashboard.js:430-437 | the dialog's count is all digits and reads as the cached count of the first family with the ID, or 0 |
| Auth.Utf16Length | auth.js:63 | a password's length in code units is between its number of characters and twice that |
| Auth.Utf16LengthBmp | auth.js:63 | for characters of the Basic Multilingual Plane the length is the number of characters |
| Auth.MismatchRefusedFirst | auth.js:58-61 | a mismatched confirmation is refused before anything else: nothing is sent and no session is written |
| Auth.CreateUserOnlyForValidPasswords | auth.js:58-100 | something is sent exactly when the confirmation matches and the password has at least 6 code units; createUser is sent exactly when in addition the email is free and btoa accepts the password, and it carries the trimmed name and email |
| Auth.ExistingEmailStops | auth.js:75-80 | when checkUser reports the email exists, no account is requested, no session is written and the sign-in tab opens |
| Auth.SignUpSession | auth.js:102-117 | a session is written exactly when the account is created; it holds the new user ID, the entered name and email and the current time, and it is live |
| Auth.SignInSession | auth.js:128-163 | one request is sent unless btoa refuses the password; a session is written exactly when the script accepts; it takes the ID and name from the reply and the email as entered |
| Auth.AuthPage.constructor | auth.js:102-117 | the page starts with the given stored session |
| Auth.AuthPage.SignUpWithEmail | auth.js:50-125 | the outcome is that of the sign-up; its session, if any, is stored, and nothing is stored otherwise |
| Auth.AuthPage.SignInWithEmail | auth.js:128-163 | the outcome is that of the sign-in; its session, if any, is stored, and nothing is stored otherwise |
| Language.ToggleTwice | language.js:16-20 | toggling twice returns to the start exactly for "en" and "zh"; any value other than "en" toggles to "en" |
| Language.LabelNamesTheOtherLanguage | language.js:486-489 | the label reads "中文" exactly while the language is "en", and "EN" after toggling from "en" |
| Language.ToggledTranslationDefined | language.js:16-20 | after a toggle the language read back is "en" or "zh" and differs from before, so with a table covering both languages t(key) is never undefined: the key itself or the new language's entry |
| Language.LocalisedStable | language.js:470-483 | localising keeps every element's key, leaves elements with unknown keys unchanged, and a second pass changes nothing |
| Language.LanguagePage.constructor | language.js:5-7 | the page starts with the given table, stored language and toggle label |
| Language.LanguagePage.T | language.js:460-463 | t(key) in the stored language; ApplyLanguage and SetLanguage state how it ties to the page |
| Language.LanguagePage.ApplyLanguage | language.js:466-490 | every tagged element with a known key is rewritten in place, in document order, and the others are kept; afterwards each element with a known key shows exactly t(key); the toggle label, if present, names the other language |
| Language.LanguagePage.SetLanguage | language.js:10-13 | exactly the given value is stored and then applied; a non-empty value is read back as the current language, and t then translates into it |
| Language.LanguagePage.ToggleLanguage | language.js:16-20 | the toggled language ("zh" from "en", "en" from anything else) is stored and applied, and the toggle label, if present, is that of the new language: "中文" after switching to "en", "EN" after switching to "zh" |
| Auth.SignUp | auth.js:50-125 | the sign-up flow; its properties are stated by MismatchRefusedFirst, CreateUserOnlyForValidPasswords, ExistingEmailStops and SignUpSession |
| Auth.SignIn | auth.js:128-163 | the sign-in flow; its properties are stated by SignInSession |
| Dashboard.Render | dashboard.js:85-229 | the dashboard view; its properties are stated by RenderShows |
| Dashboard.FamilyActionFor | dashboard.js:162-180 | the family-level button; its properties are stated by FamilyActionRules |
| Dashboard.DeleteFamilyCount | dashboard.js:430-437 | the count in the delete dialog; its properties are stated by DeleteFamilyCountReads |
| Sessions.IsExpired | dashboard.js:32-39 | the 30-day test; its properties are stated by ExpiryIsPermanent, SignInThenLoad and SignUpThenLoad |
| Language.CurrentLanguage | language.js:5-7 | getCurrentLanguage; its properties are stated by SetLanguage and ToggledTranslationDefined |
| Language.Toggled | language.js:16-20 | the toggled language; its properties are stated by ToggleTwice and ToggledTranslationDefined |
| Language.Translate | language.js:460-463 | t(key) for a given language; its properties are stated by ToggledTranslationDefined and ApplyLanguage |
| Language.Localised | language.js:470-475 | what applyLanguage makes of an element; its properties are stated by LocalisedStable |
| RecordStore.MembersOf | google-apps-script.js:215-226 | the members of a family; its properties are stated by MembersOfSnoc, MembersOfAppend and MembersOfContains |
| RecordStore.FamilyLookup | google-apps-script.js:184-234 | the getFamilyMembers reply; its properties are stated by NewFamilyRoundTrip and GetFamilyMembers |
| RecordEdits.Lookup | google-apps-script-edit-delete.js:7-51 | the getRegistrationById reply: "No registrations found" for an empty tab, "Registration not found" when no row has the ID, and a found registration exactly when some row has it; further properties are stated by UpdateThenLookup, UpdateKeepsOtherLookups and DeleteExposesNextDuplicate |
| Wizard.IndividualId | script.js:49-55 | the individual ID; its properties are stated by IndividualIdFields, OneWordIds and TwoWordIds |
| Wizard.MemberId | script.js:185-189 | the member ID; its properties are stated by MemberIdFields |
| Wizard.FamilyId | script.js:145-149 | the family ID; its properties are stated by FamilyIdFields, OneWordIds and TwoWordIds |
| Text.TrimBounds | script.js:40 | the trimmed string is a contiguous part of the input, and only whitespace is cut from each end |
| Text.JoinSplit | script.js:49 | the parts of a split, joined again with the separator, give back the string |
| Text.SplitJoin | script.js:49 | separator-free parts joined with the separator split back into the same parts |
| Text.ToUpperKeepsNonLetters | script.js:50 | every character that is not a lower-case letter stays in place; a character that is no letter, such as a space or a dash, occurs in the result exactly when it occurs in the input |
| Text.ParseNatToString | script.js:53 | a number's decimal numeral is all digits and reads back as the number |
| Text.ParseLeadingZeros | script.js:53 | zero padding in front of a numeral does not change the value it reads as |

## Left out

- All transport is left out: `fetch`, the `no-cors` POST whose reply cannot be read (script.js:261-285), and the `ContentService` JSON wrapping. Requests and replies are values, and a server's answers are function parameters. Whether the registration POST went out is the `posted` parameter of the two submit steps.
- The `SpreadsheetApp` calls are left out. A tab is its sequence of data rows. A tab created by hand without a header row is not modelled.
- `getRange` with zero data rows is Apps Script behaviour. It is a precondition instead: a non-empty family tab in `UpdateFamilyRecord`, `GetFamilyMembers`, `HandleFamilyRegistration`, `DoPost` and `DoGet`, and a non-empty individual tab in `GetFamilyMembers`.
- Cell values are typed as the script writes them, so the spreadsheet's coercion of values such as numerals in text columns is left out. Column 9 of the individual tab is read but never used, so it is left out too.
- The `doPost` catch branch that answers a JSON parse error is left out. The model starts from the parsed body.
- RecordEdits.GetRegistrationById, RecordEdits.UpdateRegistration and RecordEdits.DeleteRegistration require the individual tab to exist. Without it the script throws and its catch replies with a failure message; that path is left out.
- The edit and delete handlers are reached only through doGet/doPost routes that are commented out. They are modelled as methods on the spreadsheet that are called directly.
- The DOM is left out: rendering, `innerHTML` templates, modals, alerts, focus, `showSection` beyond the current section, and `formatDate`.
- `Math.random()`, `new Date().getFullYear()`, `Date.now()` and `toISOString()` are parameters. The year is a natural number.
- `btoa` is kept symbolic (`Btoa(plain)`). Only its refusal of characters above U+00FF is modelled, which the model treats as the generic error branch. The Base64 encoding itself is left out.
- The Google sign-in placeholder and the Firebase configuration are left out. So is config.js, which only holds a URL.
- `getUserRegistrations`, `deleteFamily`, `quitFamily`, `checkUser`, `createUser` and `authenticateUser` are not part of this model. Their implementations are not among the modelled files, so their replies are parameters.
- The translation table's contents are a parameter map. Keys inherited from the JavaScript object prototype are not modelled.
- `localStorage` and `sessionStorage` are single fields of the page classes.
- Text.ToUpper: upper-cases ASCII letters only. Full Unicode case mapping, which can change the length of a string, is left out.
- Wizard.RegistrationWizard.SubmitIndividual: a `null` ID or name is sent as an empty string, not as JSON `null`.
- Wizard.RegistrationWizard.CompleteFamilyRegistration: a `null` family ID or head is sent as an empty string, not as JSON `null`.
- Sessions.IsExpired: `loginTime` is an integer, so a missing or non-numeric login time, which never expires in the script, is not modelled.
- Wizard.ResubmitLoadedFamily: the scenario covers choosing an existing family, loading it and completing with a POST that goes out. It does not cover adding members in between.
