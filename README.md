# Bharat Seva Hospital: a Dafny model of the site's store and page logic

This project models the client-side core of the Bharat Seva Hospital web site.

**The store.** `HospitalProvider` (store/HospitalContext.tsx) caches five collections: doctors, departments, services, appointments and notices. It also caches one hospital configuration and two flags, `loading` and `dbConnected`. Every mutation follows the same three steps:

1. It changes the local cache optimistically.
2. It sends one write to the remote database.
3. It refreshes the whole cache from a six-table snapshot.

**The pages.** The model also covers the logic of the pages that read the store:

- the doctor directory's search and department filter (pages/Doctors.tsx);
- the admin panel's forms, its comma-list parsing and its appointment editing (pages/Admin.tsx);
- the booking form (pages/Appointment.tsx);
- the home page's hero title and notice preview (pages/Home.tsx).

The record shapes of types.ts become datatypes in `Types`. `Status` is a three-constructor enum. The TypeScript `Omit<E, 'id'>` shapes become `…Draft` datatypes, and the `Partial<E>` shapes become `…Patch` datatypes whose fields are `Option`s.

The store is the class `Store.HospitalStore`, with one `seq` field per collection. Each mutation is a method, and its contract gives the new state in two parts. The first part is the pure optimistic updater applied to the old state (for example `AddDoctorLocal`, `UpdateAppointmentLocal` or `Filter`). The second part is `Refreshed`, applied to the outcome of the refresh. The remote database is not modelled as a program: it is represented by values passed in as parameters.

- `RefreshOutcome` says whether the fetch threw. Otherwise it gives, per table, the data returned (or none) and the error flag.
- The ghost field `requests` records, in order, the writes the store sends: inserts, patches and deletes.
- `UpdateConfig` receives as a parameter the id rows that its `select('id')` came back with.

Each page with state is a class whose fields are that page's `useState` variables: `AdminPage.AdminPanel` and `AppointmentPage.BookingPage`. Their handlers are methods that call the store. Pure helpers are functions: the filter, the find-based lookups, the parsing and the name split.

JavaScript's truthiness is modelled where the code relies on it:

- `find(..)?.name || 'General'` also gives the default when the name is empty.
- `if (editingAptId)` does nothing for an empty id.
- `if (r.data)` replaces a collection even with an empty array.
- The configuration is replaced only when at least one row comes back.

## Model

| member | source | states |
|---|---|---|
| Store.HospitalStore.constructor | store/HospitalContext.tsx:102-118 | all five collections empty, `loading` true, `dbConnected` false, config equal to the default configuration, no writes sent |
| Store.Refreshed | store/HospitalContext.tsx:120-144 | `loading` ends false. A thrown fetch changes nothing else. Each collection is replaced by its data exactly when data came back and is otherwise kept. The config becomes the first returned row if rows came back. `dbConnected` holds iff none of the six results had an error |
| Store.ReplacedConfig | store/HospitalContext.tsx:136 | a result with at least one row makes the config its row 0; no data or no rows keeps the current config |
| Store.Replaced | store/HospitalContext.tsx:131-135 | a result carrying data, even an empty array, replaces the collection with it; a result without data keeps the collection |
| Store.RefreshIdempotent | store/HospitalContext.tsx:131-138 | applying the same refresh result twice is applying it once |
| Store.RefreshCompleteSnapshot | store/HospitalContext.tsx:131-136 | a snapshot with data for every table and at least one config row fixes the state whatever was cached before, so it discards the optimistic entries |
| Store.HospitalStore.RefreshData | store/HospitalContext.tsx:120-144 | the new state is `Refreshed(old state, outcome)`; no write is sent |
| Store.AddDoctorLocal | store/HospitalContext.tsx:171 | exactly one entry added, at the end, with id `temp`; the earlier entries are kept in order |
| Store.AddDepartmentLocal | store/HospitalContext.tsx:192 | exactly one entry added, at the end, with id `temp`; the earlier entries are kept in order |
| Store.AddServiceLocal | store/HospitalContext.tsx:206 | exactly one entry added, at the end, with id `temp`; the earlier entries are kept in order |
| Store.AddNoticeLocal | store/HospitalContext.tsx:220 | the new notice, with id `temp`, is at index 0 and the old list follows it |
| Store.BookLocal | store/HospitalContext.tsx:234 | the booking is at index 0 with id `temp` and status `Pending` whatever the request; the old list follows it |
| Store.MergeConfig | store/HospitalContext.tsx:255 | each field the patch carries overrides the config's value; each absent field is kept; an empty patch changes nothing |
| Store.MergeDoctor | store/HospitalContext.tsx:178 | `{ ...d, ...doc }`: each field the patch carries, the id included, overrides the doctor's; each absent field is kept; an empty patch changes nothing |
| Store.MergeAppointment | store/HospitalContext.tsx:241 | `{ ...a, ...apt }`: each field the patch carries, id and status included, overrides the appointment's; each absent field is kept; an empty patch changes nothing |
| Store.MergeFullPatch | store/HospitalContext.tsx:241 | spreading a patch that carries every field of `b` over any appointment gives `b` |
| Store.MergeIdempotent | store/HospitalContext.tsx:241 | spreading the same patch twice is spreading it once |
| Store.UpdateDoctorLocal | store/HospitalContext.tsx:178 | the length is kept; entries with another id are unchanged; entries with the id take the patch's fields over their own |
| Store.UpdateAppointmentLocal | store/HospitalContext.tsx:241 | the length is kept; entries with another id are unchanged; entries with the id take the patch's fields over their own |
| Store.SetStatusLocal | store/HospitalContext.tsx:248 | the length is kept; entries with another id are unchanged; entries with the id change their status and nothing else |
| Store.SetStatusIsUpdate | store/HospitalContext.tsx:241-249 | a status update is the general update with the one-field patch `{ status }` |
| Store.UpdateAppointmentTwice | store/HospitalContext.tsx:241 | repeating an update whose patch keeps the id changes nothing more |
| Store.AddThenRemoveDoctor | store/HospitalContext.tsx:171-185 | removing id `temp` after an optimistic add gives what removing it from the list before the add gives |
| Store.ConfigWrite | store/HospitalContext.tsx:256-259 | the write updates row `existing[0]` exactly when some row exists, and inserts otherwise; either way it carries the patch unchanged |
| Store.HospitalStore.AddDoctor | store/HospitalContext.tsx:170-175 | new state = refresh applied after the optimistic append; one insert of the draft is sent |
| Store.HospitalStore.UpdateDoctor | store/HospitalContext.tsx:177-182 | new state = refresh applied after the optimistic patch; one update of that id with that patch is sent |
| Store.HospitalStore.RemoveDoctor | store/HospitalContext.tsx:184-189 | new state = refresh applied after filtering out the id; one delete of that id is sent |
| Store.HospitalStore.AddDepartment | store/HospitalContext.tsx:191-196 | new state = refresh applied after the optimistic append; one insert is sent |
| Store.HospitalStore.RemoveDepartment | store/HospitalContext.tsx:198-203 | new state = refresh applied after filtering out the id; one delete is sent |
| Store.HospitalStore.AddService | store/HospitalContext.tsx:205-210 | new state = refresh applied after the optimistic append; one insert is sent |
| Store.HospitalStore.RemoveService | store/HospitalContext.tsx:212-217 | new state = refresh applied after filtering out the id; one delete is sent |
| Store.HospitalStore.AddNotice | store/HospitalContext.tsx:219-224 | new state = refresh applied after the optimistic prepend; one insert is sent |
| Store.HospitalStore.RemoveNotice | store/HospitalContext.tsx:226-231 | new state = refresh applied after filtering out the id; one delete is sent |
| Store.HospitalStore.BookAppointment | store/HospitalContext.tsx:233-238 | new state = refresh applied after the optimistic prepend; the insert sent carries status `Pending` |
| Store.HospitalStore.UpdateAppointment | store/HospitalContext.tsx:240-245 | new state = refresh applied after the optimistic patch; one update of that id with that patch is sent |
| Store.HospitalStore.UpdateAppointmentStatus | store/HospitalContext.tsx:247-252 | new state = refresh applied after the status change; the update sent carries only the status |
| Store.HospitalStore.UpdateConfig | store/HospitalContext.tsx:254-263 | new state = refresh applied after merging the patch over the config; the write sent is `ConfigWrite(existing, patch)` |
| Seqs.Filter | store/HospitalContext.tsx:185 | every kept entry comes from the input and passes the test; every input entry that passes is kept; the result is never longer |
| Seqs.FilterIsSubsequence | pages/Doctors.tsx:12 | filtering keeps the original order |
| Seqs.FilterMultiplicity | store/HospitalContext.tsx:185 | a value that passes occurs as often as in the input, and any other value does not occur, so a remove keeps exactly the entries whose id differs |
| Seqs.FilterConcat | store/HospitalContext.tsx:171-185 | filtering distributes over concatenation |
| Seqs.FilterAllKept | pages/Doctors.tsx:12-17 | when every entry passes, the filter returns its input |
| Seqs.FilterIdempotent | store/HospitalContext.tsx:185 | filtering twice is filtering once, so removing the same id twice is removing it once |
| Seqs.FilterCongruent | pages/Doctors.tsx:12-17 | two keys that decide every entry alike give the same filtered list |
| Seqs.FirstIndex | pages/Doctors.tsx:19 | the first index whose entry passes the test, or none exactly when no entry passes |
| Seqs.Find | pages/Appointment.tsx:19 | none exactly when no entry passes; otherwise the entry at the first index that passes |
| Text.ToLower | pages/Doctors.tsx:13-14 | the length is kept; no ASCII upper-case letter is left; every other character is unchanged |
| Text.ToLowerIdempotent | pages/Doctors.tsx:13-14 | lower-casing twice is lower-casing once |
| Text.ContainsIff | pages/Doctors.tsx:13-14 | `includes` holds exactly when the term occurs at some position |
| Text.ContainsEmpty | pages/Doctors.tsx:13-15 | every string includes the empty term |
| Text.CountPositive | pages/Home.tsx:21 | the separator occurs at least once exactly when the string contains it |
| Text.Split | pages/Admin.tsx:57 | the number of pieces is the number of separators plus one; no piece contains the separator |
| Text.JoinSplit | pages/Home.tsx:21-23 | joining the pieces of a split with the same separator restores the string |
| Text.SplitNoSeparator | pages/Admin.tsx:58 | a string without the separator splits into itself alone |
| Text.SplitFirstPiece | pages/Admin.tsx:57 | a separator-free piece followed by a separator splits off as the first piece |
| Text.SplitThree | pages/Admin.tsx:57 | three separator-free pieces joined by two separators split back into those three |
| Text.SplitJoin | pages/Home.tsx:21-23 | splitting a join of separator-free pieces gives the pieces back |
| Text.TrimStart | pages/Admin.tsx:57-58 | a suffix of the input; only white space was dropped; it does not start with white space |
| Text.TrimEnd | pages/Admin.tsx:57-58 | a prefix of the input; only white space was dropped; it does not end with white space |
| Text.Trim | pages/Admin.tsx:57-58 | never longer than the input; neither starts nor ends with white space |
| Text.TrimIsInfix | pages/Admin.tsx:57-58 | the trimmed text is a contiguous part of the input with only white space before and after it |
| Text.TrimUnpadded | pages/Admin.tsx:57-58 | a string without white space at either edge is its own trim |
| Text.TrimIdempotent | pages/Admin.tsx:57-58 | trimming twice is trimming once |
| DoctorsPage.FilteredDoctors | pages/Doctors.tsx:12-17 | an order-preserving subsequence of the directory in which every matching doctor occurs exactly as often as in the directory and no other doctor occurs. A doctor matches when the search term occurs in the lower-cased name or qualification, and the selector is `all` or equals the doctor's department |
| DoctorsPage.InitialFilterShowsAll | pages/Doctors.tsx:13-15 | an empty search with `all` departments shows the whole directory unchanged |
| DoctorsPage.FilterAgainChangesNothing | pages/Doctors.tsx:12-17 | filtering the shown list again with the same inputs changes nothing |
| DoctorsPage.SearchIgnoresCase | pages/Doctors.tsx:13-14 | a search term and its lower-cased form give the same list |
| DoctorsPage.ShowsNoDoctorsFound | pages/Doctors.tsx:97 | the "no doctors" message shows exactly when no doctor matches |
| DoctorsPage.DeptName | pages/Doctors.tsx:19 | the name of the first department with that id; `General` when there is none or that name is empty |
| HomePage.HeroTitleOf | pages/Home.tsx:21-23 | the first word never contains a space; with a space in the name, first word + " " + rest is the name; otherwise the rest is empty; an empty configured name falls back to the hospital's name |
| HomePage.DisplayName | pages/Home.tsx:21 | the configured name when it is not empty, else `Bharat Seva Hospital`; never empty |
| HomePage.FallbackTitle | pages/Home.tsx:21-23 | an empty configured name gives `Bharat` and `Seva Hospital` |
| HomePage.LatestNotices | pages/Home.tsx:121 | the first `min(3, n)` notices, in order |
| HomePage.ShowsNotices | pages/Home.tsx:107 | the notice section is rendered exactly when the preview is not empty |
| AdminPage.BlankDoctorForm | pages/Admin.tsx:37-44 | empty text fields, the default days and slots, and the first department's id, or empty when there are no departments |
| AdminPage.ParseList | pages/Admin.tsx:57-58 | one entry per comma plus one; entry `i` is piece `i` of the comma split, trimmed |
| AdminPage.ParsedEntriesClean | pages/Admin.tsx:57-58 | no parsed entry contains a comma or has white space at either edge |
| AdminPage.TrimmedPiece | pages/Admin.tsx:57-58 | trimming a comma-free piece leaves it comma-free and already trimmed |
| AdminPage.ParseJoined | pages/Admin.tsx:57-58 | parsing comma-free pieces joined by commas gives back each piece, trimmed |
| AdminPage.ParseThree | pages/Admin.tsx:57-58 | a text whose comma split gives three pieces parses to those three, trimmed |
| AdminPage.TrimLeadingSpace | pages/Admin.tsx:57-58 | one leading space before a word without white space at its edges is dropped by the trim |
| AdminPage.DefaultDaysParse | pages/Admin.tsx:42-58 | the default days text parses to `Mon`, `Wed`, `Fri` |
| AdminPage.ParseSingle | pages/Admin.tsx:58 | a comma-free entry without white space at its edges parses to itself alone |
| AdminPage.DefaultSlotsParse | pages/Admin.tsx:43-58 | the default slot text parses to that single slot |
| AdminPage.BlankFormDraft | pages/Admin.tsx:55-67 | submitting the untouched blank form adds a doctor with days `Mon, Wed, Fri` and the single slot `10 AM - 1 PM` |
| AdminPage.DoctorDraftOf | pages/Admin.tsx:55-59 | the payload of `addDoctor`: the text fields copied from the form; days and slots one entry per comma plus one, entry `i` the trimmed piece `i` of the comma split |
| AdminPage.EditInProgress | pages/Admin.tsx:104 | `if (editingAptId)`: true exactly for a present, non-empty edit id |
| AdminPage.DoctorLabel | pages/Admin.tsx:420 | the name of the first doctor with that id; `Unknown Specialist` when there is none or that name is empty |
| AdminPage.AdminPanel.constructor | pages/Admin.tsx:37-51 | the blank forms with the departments known at mount; no edit in progress and an empty edit buffer |
| AdminPage.AdminPanel.HandleDocAdd | pages/Admin.tsx:53-68 | the store receives the form with days and slots parsed; the form resets using the departments from before the add; the other forms are untouched |
| AdminPage.AdminPanel.HandleNoticeAdd | pages/Admin.tsx:92-96 | the store receives the notice with the given date; the form resets to an empty title and content with `isImportant` false |
| AdminPage.AdminPanel.HandleDeptAdd | pages/Admin.tsx:539-543 | the store receives the department form; that form is cleared |
| AdminPage.AdminPanel.HandleServiceAdd | pages/Admin.tsx:557-561 | the store receives the service form; that form is cleared |
| AdminPage.AdminPanel.StartEditingApt | pages/Admin.tsx:98-101 | the edit id is the row's id and the buffer holds every field of the row |
| AdminPage.AdminPanel.EditPatientName | pages/Admin.tsx:410 | only the buffer's patient name changes |
| AdminPage.AdminPanel.EditDate | pages/Admin.tsx:429 | only the buffer's date changes |
| AdminPage.AdminPanel.EditTimeSlot | pages/Admin.tsx:434 | only the buffer's time slot changes |
| AdminPage.AdminPanel.SaveAptEdit | pages/Admin.tsx:103-108 | with a non-empty edit id, the buffer is sent as an update of that id and the edit id is cleared; otherwise the store and the edit state are unchanged |
| AdminPage.SaveUnchangedEdit | pages/Admin.tsx:98-108 | saving an edit that changed nothing replaces the rows with that id by the edited row and keeps every other row |
| AppointmentPage.InitialForm | pages/Appointment.tsx:13-17 | every field empty except the doctor, which is the one from the navigation state, or empty without one |
| AppointmentPage.SelectedDoctor | pages/Appointment.tsx:19 | the first doctor with the form's doctor id, or none exactly when no doctor has it |
| AppointmentPage.SlotChoices | pages/Appointment.tsx:101-107 | the panel is hidden exactly when no doctor has the id, and otherwise offers the first such doctor's slots in order |
| AppointmentPage.ArrivalShowsDoctorSlots | pages/Appointment.tsx:13-19 | arriving from a doctor's card selects that doctor and offers that doctor's slots |
| AppointmentPage.SlotChoicesOfSelected | pages/Appointment.tsx:101-107 | the slot panel is shown exactly when a doctor is selected, and it offers that doctor's slots |
| AppointmentPage.RequiredFilled | pages/Appointment.tsx:74-97 | the form may be submitted exactly when name, phone, email and date are non-empty and the doctor id is non-empty and carried by one of the doctors, so that the selector is not on its placeholder |
| AppointmentPage.SlotSurvivesDoctorChange | pages/Appointment.tsx:90 | after switching to the first doctor with a given id, the panel offers that doctor's slots while the form keeps the earlier slot, even one that doctor does not offer |
| AppointmentPage.BookingPage.constructor | pages/Appointment.tsx:11-17 | the initial form; not yet submitted |
| AppointmentPage.BookingPage.SetPatientName | pages/Appointment.tsx:74 | only the patient name changes |
| AppointmentPage.BookingPage.SetPatientPhone | pages/Appointment.tsx:78 | only the phone changes |
| AppointmentPage.BookingPage.SetPatientEmail | pages/Appointment.tsx:84 | only the email changes |
| AppointmentPage.BookingPage.SetDoctor | pages/Appointment.tsx:90 | only the doctor changes; the chosen slot is kept |
| AppointmentPage.BookingPage.SetDate | pages/Appointment.tsx:97 | only the date changes |
| AppointmentPage.BookingPage.ChooseSlot | pages/Appointment.tsx:108 | only the time slot changes, and that slot is the only one drawn as chosen |
| AppointmentPage.BookingPage.HandleSubmit | pages/Appointment.tsx:21-25 | the store books the form as it stands, with status `Pending`; the page is marked submitted |
| AppointmentPage.BookingPage.Submit | pages/Appointment.tsx:70-97 | with every `required` field filled in and the selector on one of the store's doctors, the booking is made as by `handleSubmit`; otherwise nothing changes |

## Left out

- The remote database. This covers the Supabase client, the queries, `order`/`limit` and the realtime channels that trigger a refresh on every change (store/HospitalContext.tsx:122-129, 147-163). Their results are parameters: `RefreshOutcome` for a refresh and `existing` for the config lookup. The descending date order of appointments and notices is whichever order the snapshot's data has.
- Asynchrony. `Promise.all` and the interleaving of an optimistic update with a concurrent refresh are not modelled. Each mutation runs as optimistic change, then one write, then one refresh.
- Error reporting. `alert` and `console` (store/HospitalContext.tsx:165-168) are left out, along with the error of the write itself, which only triggers that alert. The refresh's own error flags are modelled.
- Photo and logo uploads through `FileReader` (pages/Admin.tsx:70-90).
- Dates. The notice's date `new Date().toLocaleDateString()` (pages/Admin.tsx:94) is a string parameter.
- Text.ToLower: only the ASCII letters are lower-cased. Unicode case mapping needs tables this model does not include. `trim` does use ECMAScript's full white-space set.
- Id uniqueness. Optimistic additions reuse the id `temp`, so the model never assumes that ids are unique. Where it matters, the lookups speak of the first match.
- Null values in database rows: the types declare strings and the model follows them.
- Field-alias normalisation, a local-storage fallback and refresh debouncing: store/HospitalContext.tsx has none of them, and the model follows the code.
- The browser's constraint validation of the admin forms (their `required` fields), and the email format check of the booking form. For the booking form, `Submit` models the non-empty check of the required fields and the specialist selector's placeholder check.
- The admin forms' field-by-field `onChange` setters for the doctor, notice, department and service forms. Each one replaces one field of its form record, like the booking form setters modelled in `BookingPage`.
- The department name under each doctor in the admin list (pages/Admin.tsx:373). It is the same first-match lookup as `DeptName`, without a default.
- The tab selection of the admin panel, the `loading` spinner of the home page and all markup and styling.
- Routing and the static pages: App.tsx, pages/Pmjay.tsx, pages/About.tsx, pages/Services.tsx, pages/Departments.tsx and pages/Contact.tsx.
- The database credentials in store/HospitalContext.tsx.
