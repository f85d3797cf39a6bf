# Ayudhra portal core, modelled in Dafny

Ayudhra is an Ayurveda healthcare portal with three kinds of accounts: patients
("users"), practitioners ("doctors") and administrators. This project models the
logic of its web front end:

- **Sessions.** The authentication service keeps the session token and the user type
  in browser storage. The auth provider adopts a stored session at start-up, and
  supports login and logout. The route guard decides where a visitor is redirected.
- **Shared widgets.** The navigation bar picks its bar shape, its dashboard link and
  its menu entries. The toast queue appends and removes notifications.
- **Sign-up.** The form is validated, and the patient or practitioner request is
  built from it.
- **Patient pages.** Session booking covers time slots, the doctor search, the booking
  form, prices and the scheduled tab. The food-scan page covers dosha arrows and
  colours, taste colours and the taste list. The patient's messaging page is also
  modelled.
- **Practitioner pages.** The dashboard figures, the patient list, the diet-plan list
  and the practitioner's messaging page.
- **Administrator pages.** The user list and the practitioner list.

Each page's derived lists and figures are modelled as pure functions over the records.
Filters, finds, `slice`, `Set` de-duplication, sort and `trim` are written out with
JavaScript's semantics. Code that changes state step by step is modelled as Dafny
classes whose methods state the whole new state:

- the storage service;
- the auth provider;
- the navbar's menu;
- the toast queue;
- the sign-up page;
- the booking form;
- the chat draft box.

The time-slot generator is a method with nested loops.

Modules:

- `Wrappers`, `Seqs`, `Text`: optional values and outcomes, sequence operations
  (filter, find, take, de-duplicate, count, sum) and string operations (lower-casing,
  `includes`, `trim`, `split`, `join`, `padStart`, `parseInt`). Each is given with
  the lemmas the pages need.
- `Records`: the record types and the per-practitioner selections shared by several
  pages.
- `AuthApi`, `AuthContext`, `Navbar`, `Toasts`, `Signup`, `Booking`, `Scan`, `Chat`,
  `DoctorDashboard`, `PatientList`, `PlanList`, `AdminUsers`, `AdminDoctors`: one per
  source file or page.

## Model

| member | source | states |
|---|---|---|
| AuthApi.TagInjective | src/lib/api/auth.ts:170-174 | the three user types are stored as three different strings, so a stored tag names one role |
| AuthApi.Read | src/lib/api/auth.ts:151-156 | reading storage yields a value exactly when a window exists and the key is stored, and then it is the stored value |
| AuthApi.Write | src/lib/api/auth.ts:145-149 | with a window the key is set to the value and every other key keeps its value; without one storage is unchanged |
| AuthApi.ReadAfterWrite | src/lib/api/auth.ts:145-156 | a token written with a window reads back as itself |
| AuthApi.WriteKeepsOtherKeys | src/lib/api/auth.ts:170-174 | writing one entry leaves the other entry's reading unchanged (token and user type are independent) |
| AuthApi.AuthService.constructor | src/lib/api/auth.ts:201 | the service starts over the given storage, with or without a window |
| AuthApi.AuthService.StoreToken | src/lib/api/auth.ts:145-149 | the token is stored under `auth_token` when a window exists; the stored user type is unchanged |
| AuthApi.AuthService.GetToken | src/lib/api/auth.ts:151-156 | returns the stored token, and null without a window |
| AuthApi.AuthService.RemoveToken | src/lib/api/auth.ts:158-163 | both entries are removed with a window and storage is untouched without one; afterwards neither reads back |
| AuthApi.AuthService.IsAuthenticated | src/lib/api/auth.ts:165-167 | true exactly when a non-empty token is stored |
| AuthApi.AuthService.SetUserType | src/lib/api/auth.ts:170-174 | the role's tag is stored under `user_type` when a window exists; the token is unchanged |
| AuthApi.AuthService.GetUserType | src/lib/api/auth.ts:176-181 | returns the stored string unchecked, and null without a window |
| AuthApi.AuthService.Logout | src/lib/api/auth.ts:183-185 | has exactly the effect of removing the token and the user type |
| AuthApi.AuthService.FinishLogin | src/lib/api/auth.ts:92-142 | a successful login stores the returned token and returns the response; a failure is passed on and stores nothing |
| AuthContext.RoleDashboard | src/contexts/AuthContext.tsx:90-99 | each role's dashboard is a root path outside `/auth` |
| AuthContext.DashboardFor | src/contexts/AuthContext.tsx:90-102 | a dashboard exists exactly for the three known tags, and it is that role's dashboard |
| AuthContext.DashboardForTag | src/contexts/AuthContext.tsx:108-117 | each role's tag leads to that role's dashboard |
| AuthContext.GuardRedirect | src/contexts/AuthContext.tsx:78-123 | no redirect while loading; any redirect goes to the login page, `/` or a role dashboard |
| AuthContext.GuardUnauthenticated | src/contexts/AuthContext.tsx:82-85 | signed out: redirected to login exactly when off the `/auth` pages |
| AuthContext.GuardWrongRole | src/contexts/AuthContext.tsx:88-104 | a known role missing from the allowed list goes to its own dashboard, on any path |
| AuthContext.GuardEmptyAllowed | src/contexts/AuthContext.tsx:88-104 | an empty allowed list turns every known role away to its dashboard |
| AuthContext.GuardAdmits | src/contexts/AuthContext.tsx:88-122 | an allowed role (or any role when no list is given) stays on a page outside `/auth` |
| AuthContext.GuardLeavesAuthPages | src/contexts/AuthContext.tsx:107-122 | a signed-in admitted role on an `/auth` page goes to its dashboard |
| AuthContext.GuardUnknownUserType | src/contexts/AuthContext.tsx:100-119 | an unknown stored user type goes to login when a list is given, and to `/` from the `/auth` pages |
| AuthContext.AuthProvider.constructor | src/contexts/AuthContext.tsx:22-24 | the provider starts signed out, with no user type, loading |
| AuthContext.AuthProvider.Initialize | src/contexts/AuthContext.tsx:27-38 | adopts the stored session only when both token and type are non-empty; loading ends either way |
| AuthContext.AuthProvider.Login | src/contexts/AuthContext.tsx:40-44 | stores only the user type (the token is unchanged) and becomes authenticated with that role |
| AuthContext.AuthProvider.Logout | src/contexts/AuthContext.tsx:46-51 | clears both entries, signs out and pushes `/auth/login` |
| AuthContext.LogoutTwice | src/contexts/AuthContext.tsx:46-51 | logging out twice leaves the same storage and session state as once; only the navigation repeats |
| AuthContext.SessionSurvivesReload | src/contexts/AuthContext.tsx:27-44 | after a login a new provider over the same storage restores the same role |
| AuthContext.FreshStart | src/contexts/AuthContext.tsx:27-38 | with empty storage start-up ends signed out, and the guard sends non-`/auth` pages to login |
| Navbar.DashboardLink | src/components/common/navbar.tsx:68-75 | the guard's dashboard for a known tag, `/` otherwise |
| Navbar.DashboardLinkAgreesWithGuard | src/components/common/navbar.tsx:68-75 | the bar's dashboard link is the dashboard the guard redirects that role to |
| Navbar.Render | src/components/common/navbar.tsx:15-66 | `/auth` pages get the logo-only bar; otherwise signed-out visitors get the sign-in bar to `/auth/login`, and others the full bar with that role's link and entries |
| Navbar.NavItemCounts | src/components/common/navbar.tsx:77-103 | five entries for a patient, four for a practitioner, three for an administrator, none for anything else |
| Navbar.NavItemsUnderDashboard | src/components/common/navbar.tsx:77-103 | each role's first entry is "Dashboard" to its dashboard, and every entry lies under it |
| Navbar.AtMostOneActive | src/components/common/navbar.tsx:138 | entries have distinct hrefs, so at most one is highlighted |
| Navbar.NavbarState.constructor | src/components/common/navbar.tsx:13 | the mobile menu starts closed |
| Navbar.NavbarState.ToggleMenu | src/components/common/navbar.tsx:167 | the menu button flips the menu |
| Navbar.NavbarState.CloseMenu | src/components/common/navbar.tsx:191 | following a mobile entry closes the menu |
| Navbar.NavbarState.HandleLogout | src/components/common/navbar.tsx:107-110 | logs out through the provider (storage cleared, signed out, login pushed) and closes the menu |
| Toasts.DisplayDuration | src/components/ui/toast.tsx:20 | a toast lasts its own duration, 5000 ms when it has none |
| Toasts.WithoutSpec | src/components/ui/toast.tsx:92-94 | drops every toast with the id and keeps every other toast as often as it occurs, in order |
| Toasts.WithoutAbsent | src/components/ui/toast.tsx:92-94 | removing an id no toast has changes nothing |
| Toasts.WithoutIdempotent | src/components/ui/toast.tsx:92-94 | removing an id twice is removing it once |
| Toasts.AddThenRemove | src/components/ui/toast.tsx:86-94 | adding a toast under a fresh id and removing that id restores the queue |
| Toasts.ToastQueue.constructor | src/components/ui/toast.tsx:84 | the queue starts empty |
| Toasts.ToastQueue.AddToast | src/components/ui/toast.tsx:86-90 | appends one toast under the new id and returns the id |
| Toasts.ToastQueue.RemoveToast | src/components/ui/toast.tsx:92-94 | afterwards no toast carries the id, and the others are kept in order |
| Toasts.ToastQueue.ShowSuccess | src/components/ui/toast.tsx:96-97 | appends a success toast |
| Toasts.ToastQueue.ShowError | src/components/ui/toast.tsx:99-100 | appends an error toast |
| Toasts.ToastQueue.ShowInfo | src/components/ui/toast.tsx:102-103 | appends an info toast |
| Toasts.ToastQueue.ShowWarning | src/components/ui/toast.tsx:105-106 | appends a warning toast |
| Signup.WithField | src/app/auth/signup/page.tsx:53-56 | the named field takes the value and every other field keeps its own |
| Signup.ValidIff | src/app/auth/signup/page.tsx:59-73 | the form passes exactly when the passwords match, have at least 6 UTF-16 code units, the e-mail has `@` and the phone is not blank |
| Signup.MismatchReportedFirst | src/app/auth/signup/page.tsx:60-62 | a password mismatch is the message even if other checks also fail |
| Signup.PasswordLengthBoundary | src/app/auth/signup/page.tsx:63-65 | 5 code units are too short and 6 are enough; for text inside the Basic Multilingual Plane this is the character count, and three emoji are already long enough |
| Text.Utf16Length | src/app/auth/signup/page.tsx:63 | `length` counts UTF-16 code units: between one and two per character, exactly one each inside the Basic Multilingual Plane |
| Signup.PatientRequest | src/app/auth/signup/page.tsx:97-101 | each optional field is sent exactly when its input is non-empty |
| Signup.AllergiesAreTrimmedPieces | src/app/auth/signup/page.tsx:100 | one trimmed, comma-free entry per comma-separated piece, and the pieces rejoin to the input |
| Signup.HeightIsParsed | src/app/auth/signup/page.tsx:98 | a height typed as digits is sent as that number |
| Text.ParseIntDecimalString | src/app/auth/signup/page.tsx:98-99 | `parseInt` reads back every number written in decimal |
| Signup.DoctorRequest | src/app/auth/signup/page.tsx:114 | one qualification per comma-separated piece, each the trimmed piece |
| Signup.DoctorFiguresAreParsed | src/app/auth/signup/page.tsx:116-117 | experience and fee typed as digits are sent as those numbers; an empty experience is sent as `NaN` |
| Signup.RequestFor | src/app/auth/signup/page.tsx:89-126 | the patient request exactly for role `user`; any other role gets the practitioner request |
| Signup.FailureMessage | src/app/auth/signup/page.tsx:127-128 | a thrown `Error` shows its message; anything else shows the fixed fallback |
| Signup.SignupPage.constructor | src/app/auth/signup/page.tsx:17-49 | the role is the `role` parameter, or `user` when that is absent or empty; the form is empty, with no error |
| Signup.SignupPage.HandleInputChange | src/app/auth/signup/page.tsx:51-57 | clears the error and changes only the named field |
| Signup.SignupPage.HandleSubmit | src/app/auth/signup/page.tsx:75-134 | an invalid form shows the validator's message and sends nothing; a valid one sends the role's request; success toasts and redirects to login, failure shows and toasts the message; loading ends in every case |
| Text.TwoDigitPad | src/app/user/sessions/page.tsx:46 | `n.toString().padStart(2, '0')` of a number below 100 is its tens digit then its units digit |
| Booking.FormatTimeIsPadded | src/app/user/sessions/page.tsx:46 | the slot label is the padded hour, a colon and the padded minute, as the template literal builds it |
| Booking.FormatTimeRoundTrip | src/app/user/sessions/page.tsx:46 | a padded `HH:MM` label is five characters with a colon, and reads back as the same minute of day |
| Booking.SlotTimes | src/app/user/sessions/page.tsx:39-51 | slot k is the label for 09:00 plus 30k minutes |
| Booking.SlotAt | src/app/user/sessions/page.tsx:44-47 | the label pushed for an hour and a minute is the slot at the position the loops have reached |
| Booking.GenerateTimeSlots | src/app/user/sessions/page.tsx:39-51 | 16 slots, the k-th of which is slot k (09:00 to 16:30 in half hours) |
| Booking.FilteredDoctorsSpec | src/app/user/sessions/page.tsx:28-33 | exactly the doctors matching name or specialization (case-insensitive) and the specialization filter, each as often as it occurs, in order |
| Booking.NoFilterListsAll | src/app/user/sessions/page.tsx:28-33 | with no term and no specialization every doctor is listed |
| Records.SpecializationsSpec | src/app/user/sessions/page.tsx:36 | the specialization list has no repeats and names exactly the doctors' specializations (the administrator's list at src/app/admin/doctors/page.tsx:15 is the same function) |
| Booking.Price | src/app/user/sessions/page.tsx:381 | consultation 500, follow-up 300, emergency 800 |
| Booking.BookingForm.constructor | src/app/user/sessions/page.tsx:12-16 | no doctor, date or time is chosen, and the type is consultation |
| Booking.BookingForm.HandleBookSession | src/app/user/sessions/page.tsx:56-76 | books exactly when doctor, date and time are all chosen, alerts the success and clears those three; otherwise alerts the missing choice and changes nothing else |
| Booking.ScheduledTabSpec | src/app/user/sessions/page.tsx:398 | the tab lists exactly the patient's scheduled or confirmed appointments, each as often as it occurs, in order |
| Booking.PatientSessionsSpec | src/app/user/sessions/page.tsx:24 | the history lists exactly the patient's sessions, each as often as it occurs, in order, and is empty exactly when they have none (shown at src/app/user/sessions/page.tsx:462-512) |
| Records.PatientsOfSpec | src/app/doctor/page.tsx:12 | a practitioner's patients are exactly the users assigned to them, each as often as it occurs, in order |
| Scan.Classify | src/app/user/scan/page.tsx:99-111 | raise keywords win; lowering keywords count only without them; neutral otherwise |
| Scan.DoshaSymbolClassifies | src/app/user/scan/page.tsx:106-111 | the arrow is up, down or `=` exactly by that classification |
| Scan.DoshaColorAgreesWithSymbol | src/app/user/scan/page.tsx:99-104 | red, green or grey exactly with the up arrow, down arrow or `=` |
| Scan.DoshaIgnoresCase | src/app/user/scan/page.tsx:99-111 | both helpers give the same answer for the lower-cased text |
| Scan.RasaColorByTaste | src/app/user/scan/page.tsx:81-97 | a taste's English and Sanskrit names share one non-default colour, and different tastes have different colours |
| Scan.RasaColorUnknown | src/app/user/scan/page.tsx:81-97 | any other name (matched case-sensitively) is grey unless it is a property every object inherits, such as `constructor`; such a name gives neither grey nor a taste's colour |
| Scan.RasaListPieces | src/app/user/scan/page.tsx:307-308 | one trimmed entry per comma-separated piece of the taste text |
| Scan.RasaListDefault | src/app/user/scan/page.tsx:307 | a missing or empty taste text shows just "Sweet" |
| Chat.Insert | src/app/user/chat/page.tsx:24 | inserting into a sorted thread keeps it sorted and adds exactly that message |
| Chat.SortByTime | src/app/user/chat/page.tsx:24 | the sort's result is ascending by timestamp and a permutation of its input |
| Chat.ThreadSpec | src/app/user/chat/page.tsx:20-25 | the conversation is exactly the messages between the two parties, each once per occurrence, oldest first (the same on the practitioner's page, src/app/doctor/chat/page.tsx:26-31) |
| Chat.Last | src/app/user/chat/page.tsx:41 | the last element, undefined for an empty thread |
| Chat.LastMessageIsLatest | src/app/user/chat/page.tsx:39-42 | absent exactly when nothing was exchanged; otherwise one of their messages, with none later (also src/app/doctor/chat/page.tsx:45-48) |
| Chat.UnreadCount | src/app/user/chat/page.tsx:44-48 | the badge never exceeds the conversation's length |
| Chat.UnreadCountSpec | src/app/user/chat/page.tsx:44-48 | the badge counts the unread messages the counterpart sent to this party, wherever they are in the list (also src/app/doctor/chat/page.tsx:50-54) |
| Chat.ChatDraft.ForPatient | src/app/user/chat/page.tsx:11-17 | the patient's page starts with an empty draft; the selection is the patient's `doctorId` exactly when some doctor has that id, and nobody otherwise (the initializer at src/app/user/chat/page.tsx:50-55) |
| Chat.ChatDraft.ForPractitioner | src/app/doctor/chat/page.tsx:12-13 | the practitioner's page starts with an empty draft and nobody selected |
| Chat.ChatDraft.Edit | src/app/user/chat/page.tsx:13 | typing replaces the draft and keeps the selection |
| Chat.ChatDraft.Select | src/app/doctor/chat/page.tsx:12 | choosing a conversation keeps the draft |
| Chat.ChatDraft.HandleSendMessage | src/app/user/chat/page.tsx:30-37 | ignored for a blank draft or no selection; otherwise sends the draft to the selection and clears the box (also src/app/doctor/chat/page.tsx:36-43) |
| Chat.SendDisabledIffBlank | src/app/user/chat/page.tsx:301 | the send button is disabled exactly for an all-white-space draft |
| Chat.AssignedDoctor | src/app/user/chat/page.tsx:17 | the first doctor whose id is the patient's `doctorId`, absent exactly when there is none |
| Chat.OtherDoctorsSpec | src/app/user/chat/page.tsx:144 | the first three of the doctors whose id is not the assigned doctor's (all of them when there are fewer), in order; the candidates are exactly those doctors, each as often as it occurs |
| Chat.FilteredPatientsSpec | src/app/doctor/chat/page.tsx:18-23 | exactly the practitioner's patients whose name contains the term, ignoring case, each as often as it occurs, in order |
| Chat.SelectedPatient | src/app/doctor/chat/page.tsx:33 | resolves only among the practitioner's own patients, to the first of them with the selected id; absent exactly when nothing (or an empty id) is selected or no own patient has it |
| DoctorDashboard.OwnRecordsSpec | src/app/doctor/page.tsx:12-15 | the practitioner's sessions, plans and messages are exactly the records naming them, each as often as it occurs, in order |
| DoctorDashboard.UpcomingAppointmentsSpec | src/app/doctor/page.tsx:16-18 | the first three of the practitioner's "scheduled" appointments in list order (all of them when there are fewer); those are exactly the practitioner's appointments with that status, each as often as it occurs |
| DoctorDashboard.PendingPlansSpec | src/app/doctor/page.tsx:20 | the figure counts the plans that are both the practitioner's and pending |
| DoctorDashboard.UnreadMessagesSpec | src/app/doctor/page.tsx:21 | the figure counts the unread messages addressed to the practitioner |
| DoctorDashboard.SessionFiguresBounded | src/app/doctor/page.tsx:22-23 | completed plus scheduled sessions never exceed the practitioner's sessions |
| PatientList.MatchesStatusSpec | src/app/doctor/patients/page.tsx:25-31 | only "needs_attention" filters, keeping the patients whose vikriti is not "Balanced" |
| PatientList.DoshaPrefixMatches | src/app/doctor/patients/page.tsx:23 | a combined constitution passes the filter of the dosha it starts with |
| PatientList.FilteredPatientsSpec | src/app/doctor/patients/page.tsx:18-34 | exactly the practitioner's patients passing search, dosha and status, each as often as it occurs, in order |
| PatientList.PatientDietPlan | src/app/doctor/patients/page.tsx:36-38 | the first active plan of that patient in the list, absent exactly when the patient has none |
| PatientList.LatestIndex | src/app/doctor/patients/page.tsx:42 | the position of the first session with the greatest time: all earlier ones are strictly earlier, none after is later |
| PatientList.Latest | src/app/doctor/patients/page.tsx:42 | the first element of the descending sort: a session with the greatest time, and no earlier entry as late |
| PatientList.LastSessionSpec | src/app/doctor/patients/page.tsx:40-43 | a session between the two, absent exactly when there is none, and no such session is later |
| PatientList.SummaryCards | src/app/doctor/patients/page.tsx:87-103 | both cards are at most the patient count; "Need Attention" equals the length of the list filtered by "needs_attention" |
| PlanList.UserById | src/app/doctor/plans/page.tsx:21 | the first user with that id, absent exactly when there is none |
| PlanList.FilteredPlansSpec | src/app/doctor/plans/page.tsx:18-27 | exactly the practitioner's plans passing search and status, each as often as it occurs, in order; a plan without a patient matches only on its own name |
| PlanList.PatientName | src/app/doctor/plans/page.tsx:29-32 | never empty; the first user with the id decides: their name, or "Unknown Patient" when it is empty or no user has the id |
| PlanList.StatusCountsBounded | src/app/doctor/plans/page.tsx:88-119 | the "Active" and "Pending" cards together never exceed "Total Plans" |
| PlanList.PatientsCoveredSpec | src/app/doctor/plans/page.tsx:135 | the card is the number of distinct patient ids, and is at most the number of plans |
| PlanList.PreviewSpec | src/app/doctor/plans/page.tsx:298-313 | the first three meals in order; the "+n more" note exactly when there are more than three; shown plus more is every meal |
| PlanList.ActionsExclusive | src/app/doctor/plans/page.tsx:257-280 | review buttons only for pending plans, contact only for active ones, never both |
| AdminUsers.FilteredUsersSpec | src/app/admin/users/page.tsx:15-20 | exactly the users passing search and dosha, each as often as it occurs, in order; an empty search with "all" lists everybody |
| AdminUsers.DoctorName | src/app/admin/users/page.tsx:22-25 | never empty; the first practitioner with the id decides: their name, or "Not Assigned" when it is empty or no practitioner has the id |
| AdminUsers.VataCount | src/app/admin/users/page.tsx:94 | the card is at most the number of users |
| AdminUsers.VataCountIsFilter | src/app/admin/users/page.tsx:94 | the card equals the length of the list filtered by "Vata" with no search |
| AdminUsers.HistoryPreviewSpec | src/app/admin/users/page.tsx:188-192 | absent for an empty history; otherwise the first entry alone, the two entries joined with ", ", or for more entries the first two joined followed by "..." |
| AdminUsers.AbhaSuffix | src/app/admin/users/page.tsx:178 | the last four characters (the whole id when it is shorter) |
| AdminUsers.AssignmentBadge | src/app/admin/users/page.tsx:220-222 | "Assigned" exactly when the user has a practitioner id |
| AdminDoctors.FilteredDoctorsSpec | src/app/admin/doctors/page.tsx:17-23 | exactly the matching practitioners, each as often as it occurs, in order; choosing a practitioner's own specialization never hides them |
| AdminDoctors.PatientCount | src/app/admin/doctors/page.tsx:25-27 | the number of users assigned to the practitioner, at most the number of users |
| AdminDoctors.ActivityBadge | src/app/admin/doctors/page.tsx:259-261 | "Active" exactly when some user is assigned, "Available" exactly when none is |
| AdminDoctors.TotalPatientsSpec | src/app/admin/doctors/page.tsx:68 | the total adds up over any split, and with non-negative figures is at least each practitioner's figure |
| AdminDoctors.RatingTierSpec | src/app/admin/doctors/page.tsx:250-256 | Top Rated from 4.5, Highly Rated from 4.0, Good below; a higher rating never gets a lower tier |

## Left out

- The REST calls of the API layer (`authClient.post`, the sign-up endpoints) and `handleAuthError`'s JSON error parsing are not modelled. A login or sign-up is represented by the backend's answer, passed in as a parameter.
- The three login methods (`loginPatient`, `loginDoctor`, `loginAdmin`) differ only in their endpoint. They share `AuthApi.AuthService.FinishLogin`.
- `useAuth`'s error outside a provider is not modelled, because it concerns React context wiring.
- React rendering is modelled only as the decisions it makes: effects, router pushes (a list of paths), the booking page's `alert` messages, and the booking request and chat message the pages hand to `console.log`, which are returned as results. The plan page's approve and reject handlers only log the plan id, so they are not modelled beyond which button a plan offers. Class names and icons are left out, apart from the colours the scan page computes.
- The pages take the signed-in party as `mockUsers[0]` / `mockDoctors[0]`. The model takes that party's id as a parameter.
- The toast id comes from `Math.random`. It is a parameter of `Toasts.ToastQueue.AddToast`.
- The toast's removal timer is not modelled, because it is a clock. Only `Toasts.DisplayDuration` is kept.
- Booking.TwoDigits and Booking.FormatTime are defined for numbers below 100 only, which covers every hour and minute the slot loop produces. `Text.TwoDigitPad` proves that on that range they equal `toString().padStart(2, '0')`.
- Timestamps are integers. `new Date(...).getTime()` and date strings are not parsed.
- Ratings are integers in tenths. Floating point is not modelled.
- The administrator's "Average Rating" card (division and `toFixed(1)`) is not modelled, because it is floating point.
- Lower-casing is ASCII only. JavaScript's Unicode case mapping is not modelled.
- `trim` uses the ECMAScript white-space and line-terminator set as of Unicode 15; a later change to the Unicode space separators is not modelled.
- `parseInt` is modelled with leading white space, one sign, the `0x` prefix and the longest digit run, and gives NaN when there are no digits. The result is an unbounded integer. Double-precision rounding of very long numerals and `-0` are not modelled.
- The scan page's analysis call, `parseFloat`, `parseNumericValue` and the charts are not modelled, because they are floating point and network.
- The analytics, login and home pages, `ProtectedRoute` and the status colour and icon helpers are not modelled: they are context or pure styling.
- The record fields the modelled pages never read are dropped.
- `selectedDoctorData` and the `messages` selection on the chat and sessions pages are not modelled, because they are display lookups.
- Chat.ThreadSpec: does not state that messages with equal timestamps keep their list order, although `Chat.SortByTime` is a stable insertion sort as JavaScript's `sort` is.
- AdminUsers.AbhaSuffix: counts the last four characters, while `slice(-4)` counts UTF-16 code units; the two differ only when one of the last four characters lies outside the Basic Multilingual Plane, whose half the source could then cut off (a lone surrogate has no `string` value here).
- Scan.RasaColor: the text an inherited function gives in a class string follows the `function name() { [native code] }` form common to browser engines; the exact text is engine-defined.
