# Healthcare portal front end: session, search and form logic in Dafny

This project models the client-side logic of a patient/doctor/admin healthcare
portal written in React and TypeScript. Almost all of that application is HTTP
wrappers and rendering; what is modelled is the part with behaviour that can be
stated:

- **Session store** (`src/lib/api/auth.ts`). `storeSession` and `clearSession`
  act on three `localStorage` keys: `accessToken`, `refreshToken` and `user`.
  The role routers' sign-in, refresh and logout paths are modelled too.
  `localStorage` is the class `Storage.LocalStorage`, a `map<string, string>`
  updated in place.
- **HTTP interceptors** (`src/lib/api/http.ts`). The request interceptor
  attaches `Authorization: Bearer <token>` when a non-empty token is stored.
  The response interceptor wipes the session and sends the window to `/auth`
  on a 401, and re-rejects every error unchanged.
- **Auth context** (`src/components/auth/AuthProvider.tsx`). `login` chooses
  the endpoint and credential field from the role. It accepts only a reply with
  a truthy `success` and a non-empty `accessToken`, and derives the role with a
  fallback chain. On every failure it clears the session. `logout` and the
  demo-only `switchRole` are modelled too. The class `AuthProvider.AuthContext`
  holds the user and the navigations made.
- **Session state machine** (`SessionTrace`). It replays login, logout,
  switchRole, requests and error responses with the same functions the
  methods' postconditions use. It proves that after a 401 no request carries a
  bearer credential until a sign-in is accepted again. It also proves that a
  stored token always comes with a signed-in user, provided that held at the
  start.
- **List filters**. Document categorisation by filename substrings
  (`src/pages/ViewRecords.tsx`). The prescription search and status counts
  (`src/pages/Prescriptions.tsx`). Both are built on one `Seqs.Filter`, which
  is proved to keep, in order, exactly the elements that pass its test.
- **Form state**. The booking form (`src/pages/BookAppointment.tsx`) and the
  patient search filters (`src/pages/PatientSearch.tsx`) are classes updated
  in place. They share the department→doctor lookup in `Catalog`; each page
  declares an identical copy of that table.
- **Analytics** (`src/pages/Analytics.tsx`). Range selection with its
  defaults, per-department totals as column sums, and the unit word.

Modelling choices:

- Strings are `seq<char>`. `toLowerCase`/`toUpperCase` are ASCII-only.
- JavaScript truthiness of an optional string means "present and non-empty"
  (`Wrappers.Truthy`). The `success` flag is a `bool`.
- `JSON.stringify` of the user is an opaque function parameter, `serialize`.
- `localStorage.setItem` of `undefined` stores the text `"undefined"`
  (`AuthApi.StoredText`).
- The backend's reply to the sign-in call is an input of `Login`. It is either
  a resolved body, possibly empty, or a thrown `HttpError`.
- Navigation is recorded as a route string. `navigate` is appended to
  `AuthContext.navigations`, and `window.location.href` is a field of
  `Http.Window`. `handleSubmit` returns the route it navigates to.
- `hasPermission` is a parameter `string -> bool`. The role guard that defines
  it is not part of this model.

Behaviour worth knowing, proved as lemmas:

- The document buckets overlap. `RX_Scan.pdf` is both a prescription and an
  imaging document (`ViewRecords.NamedBucketsOverlap`).
- The substring `ct` files `Doctor_Note.pdf` under imaging
  (`ViewRecords.CtMatchesInsideWords`).
- The unit word has no default of its own. A range the select does not offer
  shows daily data but calls its period a month
  (`Analytics.UnitWordDefaultDisagrees`). The select only offers the three
  known ranges, so the UI cannot reach this.

## Model

| member | source | states |
|---|---|---|
| `Text.Includes` | src/pages/Prescriptions.tsx:72-75 | `includes` is true exactly when some window of the string equals the term |
| `Seqs.Filter` | src/pages/Prescriptions.tsx:71 | `filter` keeps, in order, exactly the elements that pass, each with its multiplicity |
| `AuthApi.SignInPath` | src/lib/api/auth.ts:61-132 | the user, doctor and admin sign-in calls post to `/<router>/signin` |
| `AuthApi.EndpointsDistinct` | src/lib/api/auth.ts:136-145 | different routers get different sign-in, refresh-token and logout paths |
| `AuthApi.Stored` | src/lib/api/auth.ts:148-152 | after `storeSession` the three keys hold the token, the refresh token and the serialised user, and every other key is unchanged |
| `AuthApi.Cleared` | src/lib/api/auth.ts:154-158 | after `clearSession` exactly the three session keys are gone and every other entry is unchanged |
| `AuthApi.StoreThenRead` | src/lib/api/auth.ts:149 | round trip: reading `accessToken` right after storing gives the reply's token |
| `AuthApi.StoreOverwrites` | src/lib/api/auth.ts:149-151 | a second store overwrites all of the first |
| `AuthApi.ClearIdempotent` | src/lib/api/auth.ts:154-158 | clearing twice is clearing once |
| `AuthApi.ClearUndoesStore` | src/lib/api/auth.ts:148-158 | clearing after a store leaves what clearing alone would |
| `AuthApi.StoreSession` | src/lib/api/auth.ts:148-152 | the three `setItem` calls produce `Stored` of the old store |
| `AuthApi.ClearSession` | src/lib/api/auth.ts:154-158 | the three `removeItem` calls produce `Cleared` of the old store |
| `Http.BearerToken` | src/lib/api/http.ts:17-18 | a token is found exactly when `accessToken` holds a non-empty string |
| `Http.BearerIffToken` | src/lib/api/http.ts:17-20 | a request gains `Authorization` exactly when a token is stored, with value `"Bearer " + token`, and other headers stay |
| `Http.NoBearerWhenCleared` | src/lib/api/http.ts:17-21 | with the session cleared, the headers are returned unchanged |
| `Http.AttachBearer` | src/lib/api/http.ts:15-21 | the request interceptor edits the config's headers in place as above and returns the same config |
| `Http.AfterError` | src/lib/api/http.ts:30-35 | a 401 clears the three session keys; any other status, or none, leaves the store alone |
| `Http.Intercept` | src/lib/api/http.ts:26-39 | responses pass through; every error is re-rejected as the same error; a 401 clears the session and sets the location to `/auth`, and nothing else touches location |
| `AuthProvider.SignInRequest` | src/components/auth/AuthProvider.tsx:37-45 | admin and doctor sign in at their routers with `username`; every other role, or none, signs in at the user router with `email` |
| `AuthProvider.SignedInRole` | src/components/auth/AuthProvider.tsx:50 | the role is the reply's user role if truthy, else the requested role, else `patient`; never empty |
| `AuthProvider.SignedInUser` | src/components/auth/AuthProvider.tsx:50 | the context's user is the reply's user with every field (id, name, username, e-mail, phone, permissions, department) copied and only the role replaced by that fallback |
| `AuthProvider.FailureOf` | src/components/auth/AuthProvider.tsx:54-62 | a thrown call error is re-raised unchanged; a rejected envelope raises its truthy `message`, else `Invalid credentials` |
| `AuthProvider.SessionAfterLogin` | src/components/auth/AuthProvider.tsx:48-60 | after `login` a token is stored exactly when the reply was accepted, and then it is the reply's token |
| `AuthProvider.DemoUser` | src/components/auth/AuthProvider.tsx:72-75 | the demo user has id and role `r`, e-mail `r@demo` and name `R (Demo)` |
| `AuthProvider.DemoNames` | src/components/auth/AuthProvider.tsx:74 | the demo names are e.g. `Admin (Demo)` and `Hr (Demo)` |
| `AuthProvider.RejectedAdminScenario` | src/components/auth/AuthProvider.tsx:37-60 | admin `root` with reply `{success:false, message:"bad creds"}` fails with `bad creds` and leaves no token |
| `AuthProvider.PatientRoleDefaultScenario` | src/components/auth/AuthProvider.tsx:50 | an accepted reply whose user has no role yields role `patient` |
| `AuthProvider.AuthContext.constructor` | src/components/auth/AuthProvider.tsx:29 | the context starts with no user and no navigation |
| `AuthProvider.AuthContext.Login` | src/components/auth/AuthProvider.tsx:32-64 | an accepted reply stores the session, sets the user and navigates to `/dashboard`; otherwise the session is cleared, the user is null, there is no navigation and the error is raised |
| `AuthProvider.AuthContext.Logout` | src/components/auth/AuthProvider.tsx:66-69 | the three session keys are cleared and the user is null |
| `AuthProvider.AuthContext.SwitchRole` | src/components/auth/AuthProvider.tsx:72-75 | sets the demo user and leaves the session store untouched |
| `SessionTrace.StaysSignedOut` | src/components/auth/AuthProvider.tsx:58-69 | with no accepted sign-in, a store without a token stays without one through any events |
| `SessionTrace.NoBearerAfterUnauthorized` | src/lib/api/http.ts:17-37 | after a 401, no request gains a bearer header until a sign-in is accepted again |
| `SessionTrace.ReplayKeepsConsistent` | src/components/auth/AuthProvider.tsx:48-75 | every step keeps "a stored token implies a signed-in user" |
| `ViewRecords.Categorize` | src/pages/ViewRecords.tsx:62-83 | no list gives five empty buckets; `all` is the list; each bucket is an ordered subsequence holding exactly the documents that pass its test, each as many times as it occurs in the list, so the tab counts are fixed; `other` holds those in no named bucket |
| `ViewRecords.OtherIsComplement` | src/pages/ViewRecords.tsx:75-81 | the eight-way negated test is exactly "in none of prescriptions, X-ray, imaging" |
| `ViewRecords.OtherPartitions` | src/pages/ViewRecords.tsx:67-81 | `other` shares no document with a named bucket, and with the named documents it counts every document once |
| `ViewRecords.NamedBucketsOverlap` | src/pages/ViewRecords.tsx:67-74 | a document can be in two named buckets at once |
| `ViewRecords.CtMatchesInsideWords` | src/pages/ViewRecords.tsx:71-72 | `ct` inside a word such as `doctor` counts as imaging |
| `Text.DecimalString` | src/pages/ViewRecords.tsx:175 | the count is printed as decimal digits with no leading zero, and reading the digits back gives the count |
| `ViewRecords.CountCaption` | src/pages/ViewRecords.tsx:175 | the caption is the count, then `document`, plural exactly when the count is not 1 |
| `ViewRecords.CaptionExamples` | src/pages/ViewRecords.tsx:175 | `1 document uploaded`, `2 documents uploaded`, `12 documents uploaded` |
| `Prescriptions.Search` | src/pages/Prescriptions.tsx:71-76 | the result is the ordered subsequence of prescriptions whose name, id, patient id or diagnosis contains the term, ignoring case |
| `Prescriptions.EmptyTermKeepsAll` | src/pages/Prescriptions.tsx:71-76 | an empty term keeps every prescription |
| `Prescriptions.SearchIgnoresCase` | src/pages/Prescriptions.tsx:72-75 | upper- or lower-casing the term does not change the result |
| `Prescriptions.MedicationsNotSearched` | src/pages/Prescriptions.tsx:72-75 | the medications never affect a match |
| `Prescriptions.CountWithStatus` | src/pages/Prescriptions.tsx:112 | the active (and completed) count is at most the total |
| `Prescriptions.CountIsTotalIffAll` | src/pages/Prescriptions.tsx:125 | a count equals the total exactly when every prescription has that status |
| `Prescriptions.StatusCountsFit` | src/pages/Prescriptions.tsx:100-126 | active plus completed never exceeds the total |
| `Catalog.AvailableDoctors` | src/pages/BookAppointment.tsx:77 | no department gives no doctors; a known one gives its list; an unknown one gives none |
| `Catalog.OfferedDepartmentsHaveDoctors` | src/pages/BookAppointment.tsx:19-53 | the offered departments are exactly the lookup's keys, each with three doctors |
| `BookAppointment.Submit` | src/pages/BookAppointment.tsx:84-92 | rejected with the required-fields message exactly when hospital, department, doctor, date, time or reason is missing; otherwise books and navigates to `/dashboard` |
| `BookAppointment.DisabledIffRejected` | src/pages/BookAppointment.tsx:268 | the submit button is disabled exactly when submit would reject |
| `BookAppointment.NotesNeverRequired` | src/pages/BookAppointment.tsx:86 | the notes never change the outcome |
| `BookAppointment.EachRequiredFieldMatters` | src/pages/BookAppointment.tsx:86-89 | emptying any one of the six required fields of a bookable form makes it rejected |
| `BookAppointment.BookingForm.constructor` | src/pages/BookAppointment.tsx:69-75 | the form starts with today's date and every other field empty |
| `BookAppointment.BookingForm.SelectHospital` | src/pages/BookAppointment.tsx:114 | sets the hospital only |
| `BookAppointment.BookingForm.ChangeDepartment` | src/pages/BookAppointment.tsx:79-82 | sets the department and clears the doctor; nothing else changes |
| `BookAppointment.BookingForm.SelectDoctor` | src/pages/BookAppointment.tsx:160 | sets the doctor only, keeping it among the department's doctors |
| `BookAppointment.BookingForm.PickDate` | src/pages/BookAppointment.tsx:192 | sets or clears the date only |
| `BookAppointment.BookingForm.SelectTime` | src/pages/BookAppointment.tsx:210-216 | sets the time only; the selected time is always empty or one of the six slots |
| `BookAppointment.BookingForm.SelectReason` | src/pages/BookAppointment.tsx:236 | sets the reason only |
| `BookAppointment.BookingForm.EditNotes` | src/pages/BookAppointment.tsx:256 | sets the notes only |
| `BookAppointment.BookingForm.HandleSubmit` | src/pages/BookAppointment.tsx:84-92 | validates the current fields without changing them |
| `PatientSearch.Render` | src/pages/PatientSearch.tsx:75-87 | the restricted view appears exactly when none of `patient_search`, `patient_read` and `all` is granted |
| `PatientSearch.GateIsMonotone` | src/pages/PatientSearch.tsx:49 | granting more permissions never takes the search form away |
| `PatientSearch.SearchFilters.constructor` | src/pages/PatientSearch.tsx:51-54 | all four filters start empty |
| `PatientSearch.SearchFilters.ChangeDepartment` | src/pages/PatientSearch.tsx:58-61 | sets the department and clears the doctor; name and RMN stay |
| `PatientSearch.SearchFilters.SelectDoctor` | src/pages/PatientSearch.tsx:130 | sets the doctor only, keeping it among the department's doctors |
| `PatientSearch.SearchFilters.EditPatientName` | src/pages/PatientSearch.tsx:155 | sets the patient name only |
| `PatientSearch.SearchFilters.EditRmn` | src/pages/PatientSearch.tsx:168 | sets the RMN only |
| `PatientSearch.SearchFilters.Reset` | src/pages/PatientSearch.tsx:68-73 | all four filters become empty |
| `PatientSearch.SearchFilters.Search` | src/pages/PatientSearch.tsx:63-66 | reports the four filters and changes none of them |
| `Analytics.DataForRange` | src/pages/Analytics.tsx:49-60 | `3months` and `6months` select the 12-row and 6-row data; every other range selects the 7-row data |
| `Analytics.LabelFollowsData` | src/pages/Analytics.tsx:62-73 | the label follows the same mapping and default as the data, `Last 7 Days` going with the 7-day data |
| `Analytics.InitialView` | src/pages/Analytics.tsx:47 | the page starts on the 7-day data, labelled `Last 7 Days`, measured per day |
| `Analytics.UnitWord` | src/pages/Analytics.tsx:153 | the unit word is `day` exactly for `7days`, `week` exactly for `3months`, and `month` for every other range |
| `Analytics.UnitWordFollowsDataOnlyWhenOffered` | src/pages/Analytics.tsx:153 | on every range, the unit word agrees with the range the data actually shows exactly when the range is one of the three offered |
| `Analytics.UnitWordDefaultDisagrees` | src/pages/Analytics.tsx:153 | for an unoffered range the data is daily but the unit word is `month` |
| `Analytics.TotalIsColumnSum` | src/pages/Analytics.tsx:138 | the `reduce` total is the department's column sum and is never negative |
| `Analytics.SevenDayCardiology` | src/pages/Analytics.tsx:138 | the 7-day Cardiology total is 338 |

## Left out

- Async/await, toasts, React rendering and the router are not modelled. Only a navigation's target route is recorded.
- The request passes through the HTTP interceptors on the sign-in call itself. `Login` takes the call's settled reply as an input instead. `SessionTrace` puts the interceptors' effects on the store in sequence with login only as separate events. It has no window location.
- `hasPermission` and its policy live in the role guard, which is not part of this model. The gate takes it as a parameter, so the fail-closed policy cannot be checked here.
- `AuthProvider.AuthContext` does not restore the user from a session left in storage by an earlier page load, and neither does the source. So "a stored token implies a user" is proved only from a consistent start.
- The analytics average `Math.round(total / data.length)` is floating-point division and is not modelled. The charts and colours are not modelled.
- `date-fns` formatting, and the calendar's rule disabling past dates (`new Date()`), are not modelled. A date is an opaque day number.
- JavaScript's Unicode case mapping is not modelled. Case changes are ASCII-only.
- The `useUserLogin`/`useDoctorLogin`/`useAdminLogin` hooks in src/hooks/useAuth.ts store the session without checking `success`. They are not modelled. Through them a reply without a token would store the text `"undefined"` and send `Bearer undefined`.
- The thin API wrappers and query hooks are not modelled: appointments, catalog, admin, documents, doctor, and the sign-up, forgot-password, reset-password and change-password calls. They hold no logic beyond a path.
- The QR scanner, the risk check, the patient dashboard, the doctor profile and the upload page are not modelled. They are simulated features and form plumbing around timers, the camera, the DOM and toasts.
- A 401 from the sign-in call itself also sends the window to `/auth` (src/lib/api/http.ts:30-37) before `login` re-raises. `AuthProvider.AuthContext.Login` states only its own navigations, so it does not show that redirect.
- `AuthProvider.SignedInUser` is the user kept in the context. The user written to storage under `user` (src/lib/api/auth.ts:151) is the reply's user as serialised, without the fallback role.
- `Catalog.AvailableDoctors` returns no doctors for every department id outside the lookup. In JavaScript, `doctorsByDept[id] || []` gives an inherited function for ids such as `constructor` or `toString`, and `.map` then throws (src/pages/BookAppointment.tsx:77, src/pages/PatientSearch.tsx:56). The selects only offer `1` to `5`, so no user can pick such an id.
- The booking page's Cancel button navigates to `/dashboard` unconditionally and is not modelled.
- `Prescriptions.CountWithStatus`: its contract bounds the count by the total. The exact count is given by its body and by `CountIsTotalIffAll` and `StatusCountsFit`.
