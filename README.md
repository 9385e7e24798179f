# Aayush Bridge EMR: a verified model of its core

Aayush Bridge is a browser-based electronic medical record for hospitals that
practise both AYUSH medicine and allopathy. Each diagnosis is recorded under
two codes: a NAMASTE code (the national AYUSH terminology) and the matching
ICD-11 code. There are three kinds of user:

- doctors search for patients and add dual-coded diagnoses;
- hospital administrators see counts, a department breakdown and the most
  common diseases;
- government users see morbidity analytics across states, cities, diseases and
  treatment approaches.

This project models the logic behind those screens in Dafny and proves what
it promises. The modelled parts are:

- the terminology client, with its offline fallback corpus;
- the add-diagnosis dialog, including the order of its calls to the outside world;
- the reporting folds (group by key, sort by descending count, keep the top N);
- de-duplication of recent patients;
- the session store and the sign-in form;
- the route table, with its role guards;
- the per-role side navigation.

The database and the terminology registry are not modelled as services. Each
one becomes an input describing how the call ended:

- `Remote.Fetch`: an HTTP response with its status and parsed body, a network
  error, or a timeout;
- `Remote.Reply`: a database answer with its data and error, or a thrown call;
- `Wrappers.Settled`: a promise that resolves or rejects.

Each loader's `Stages` datatype lists how each awaited query ends. Given those
inputs, every operation is sequential and deterministic.

Modules follow the source files:

- `Terminology`: src/lib/terminology-api.ts
- `AddDiseaseModal`: src/components/doctor/AddDiseaseModal.tsx
- `Morbidity`: src/components/government/MorbidityAnalytics.tsx
- `AdminDashboard`, `DoctorDashboard`: src/components/dashboard/
- `PatientSearch`: src/components/doctor/PatientSearch.tsx
- `AuthStore`: src/store/auth-store.ts
- `LoginForm`: src/components/auth/LoginForm.tsx
- `AppRoutes`: src/App.tsx
- `Sidebar`: src/components/layout/Sidebar.tsx

Several modules share helpers, each written once:

- `Grouping`: the reduce-into-a-map fold, a stable descending insertion sort,
  and top-N truncation;
- `Dedup`: the `uniquePatients` first-occurrence de-duplication;
- `Text`: JavaScript string operations;
- `Records`, `Wrappers`, `Remote`, `Seqs`, `Router`: shared records, wrappers
  and small lemmas.

Screens whose state lives in React hooks are modelled as classes: the dialog,
the three dashboards, the search page, the form and the store. Each field is a
piece of state, and each method is a handler.

Where the code and its intent part ways, the model follows the code. The
cases are:

- Searching by a term that contains a comma sends more than three `ilike`
  clauses.
- The administrator's "Hospital Overview" link has no route.
- An administrator without a hospital leaves the dashboard loading.
- An id typed with surrounding spaces passes the blank check but is looked up
  untrimmed.
- The user table is a plain object literal, so an id such as "constructor"
  finds an inherited member and passes the sign-in check. This is the one
  recorded under "## Findings"; there the model keeps the written lookup
  beside the intended one.
- The grouping folds index a plain object, so a key that names an inherited
  member ("constructor", "__proto__") would be mishandled. This is listed under
  "## Left out".

## Model

| member | source | states |
|---|---|---|
| Terminology.ApiHost | src/lib/terminology-api.ts:2 | the configured registry host is the environment value when set and non-empty, and the built-in default otherwise; it is never empty |
| Terminology.ApiKey | src/lib/terminology-api.ts:3 | the configured key falls back to the built-in default in the same way, and is never empty |
| Terminology.Filter | src/lib/terminology-api.ts:183-190 | the fallback filter never returns more records than it is given |
| Terminology.FilterMembership | src/lib/terminology-api.ts:183-190 | a record is returned iff it is in the input and matches: either name contains the term ignoring ASCII case, the Hindi name contains it exactly, or some synonym contains it ignoring case |
| Terminology.FilterIsSubsequence | src/lib/terminology-api.ts:183 | the filter keeps input order: its result is a subsequence of the input |
| Terminology.FilterKeepsDistinct | src/lib/terminology-api.ts:183 | filtering a list without repeated ids repeats none |
| Terminology.FilterAllMatch | src/lib/terminology-api.ts:183-190 | when every record matches, the whole input comes back in order |
| Terminology.CorpusIdsDistinct | src/lib/terminology-api.ts:83-180 | the bundled corpus has eight records with distinct ids |
| Terminology.FallbackResultsOrdered | src/lib/terminology-api.ts:182-191 | offline results are a duplicate-free subsequence of the corpus, in corpus order, holding exactly the corpus records that match |
| Terminology.EmptyTermReturnsCorpus | src/lib/terminology-api.ts:183-184 | every string contains "", so the empty term returns the whole corpus |
| Terminology.FoundByOwnName | src/lib/terminology-api.ts:183-184 | searching offline for a corpus record's own NAMASTE name returns that record |
| Terminology.DiabetesFindsMadhumeha | src/lib/terminology-api.ts:85-94 | an offline search for "diabetes" returns first the mock-1 / NAM001 record "Madhumeha (Diabetes Mellitus)" |
| Terminology.CorpusApproachesStartAllopathic | src/lib/terminology-api.ts:83-180 | every corpus record lists at least one treatment approach, the first being 'allopathic' |
| Terminology.SearchDiseases | src/lib/terminology-api.ts:39-59 | the parsed remote body when the response is OK; for a non-OK status, an unparsable body, a network error or a timeout, the offline filter on the same term |
| Terminology.SaveDiagnosis | src/lib/terminology-api.ts:61-80 | the remote body when the response is OK; otherwise a success carrying the offline message |
| Terminology.OfflineSaveIsSoftSuccess | src/lib/terminology-api.ts:72-79 | a non-OK status, a network error and a timeout all yield success with the offline message, whatever is saved |
| AddDiseaseModal.AvailableApproaches | src/components/doctor/AddDiseaseModal.tsx:54-57 | ['allopathic'] with nothing selected or no list; otherwise the disease's own list, an empty one staying empty |
| AddDiseaseModal.FirstApproach | src/components/doctor/AddDiseaseModal.tsx:62 | the disease's first listed approach, or 'allopathic' when the list is missing or empty or its first entry is empty; never empty |
| AddDiseaseModal.SelectedApproachIsOffered | src/components/doctor/AddDiseaseModal.tsx:54-65 | the approach set on selection is among those offered, except for a disease whose list is present and empty: nothing is then offered, yet 'allopathic' is set |
| AddDiseaseModal.CorpusSelectionIsAllopathic | src/components/doctor/AddDiseaseModal.tsx:59-65 | selecting any bundled record sets 'allopathic', which is then offered |
| AddDiseaseModal.InsertRow | src/components/doctor/AddDiseaseModal.tsx:73-87 | the inserted row takes patient, doctor and hospital from the dialog and the user; codes, names and Hindi name from the disease; severity, approach and notes from the form |
| AddDiseaseModal.MirrorOf | src/components/doctor/AddDiseaseModal.tsx:92-109 | the registry copy equals the inserted row except for the hospital, which is always present and is `hospital_id \|\| ''` |
| AddDiseaseModal.MirrorHospital | src/components/doctor/AddDiseaseModal.tsx:96 | the copy keeps a hospital the row names, and sends '' otherwise |
| AddDiseaseModal.SubmitEffects | src/components/doctor/AddDiseaseModal.tsx:73-115 | a submission first inserts; on success it then sends the copy and tells the parent, whatever the registry answers; on failure it raises the alert and calls nothing else |
| AddDiseaseModal.SubmitKeepsOrder | src/components/doctor/AddDiseaseModal.tsx:73-115 | a submission keeps the dialog's effects well ordered: each registry copy comes straight after a successful insert of the same row, and each "disease added" straight after a copy |
| AddDiseaseModal.SearchKeepsOrder | src/components/doctor/AddDiseaseModal.tsx:38-42 | a registry search keeps the effects well ordered |
| AddDiseaseModal.Modal.constructor | src/components/doctor/AddDiseaseModal.tsx:18-27 | the dialog opens empty, with nothing selected, nothing loading or saving, and the form severity 'moderate', approach 'allopathic', notes '' |
| AddDiseaseModal.Modal.RunSearch | src/components/doctor/AddDiseaseModal.tsx:33-48 | a term shorter than two characters, untrimmed, clears the results and calls nothing; otherwise the search is recorded and the results become its answer, or stay as they were when the call rejects; loading ends false |
| AddDiseaseModal.Modal.HandleDiseaseSelect | src/components/doctor/AddDiseaseModal.tsx:59-65 | selects the disease and changes only the form's approach, to its first approach |
| AddDiseaseModal.Modal.HandleSubmit | src/components/doctor/AddDiseaseModal.tsx:67-118 | without a selected disease or a user nothing is called; otherwise exactly the submission's effects are appended, keeping them well ordered, and saving ends false |
| Morbidity.Category | src/components/government/MorbidityAnalytics.tsx:118 | 'NAMASTE' iff the code is present and starts with 'NAM', otherwise 'ICD', including for a missing code |
| Morbidity.Normalise | src/components/government/MorbidityAnalytics.tsx:112-123 | a raw row becomes a chart row with count 1, its place, its category, missing codes and names as '', approach defaulting to 'allopathic' and severity to 'moderate' |
| Morbidity.BuildQuery | src/components/government/MorbidityAnalytics.tsx:87-106 | the date bounds always come first; a state, city or approach condition is present iff that filter is non-empty; the category never appears |
| Morbidity.SettersChangeOneFilter | src/components/government/MorbidityAnalytics.tsx:280-321 | the city, date and approach pickers each change only their own filter, and the query follows the new value |
| Morbidity.SetStateDropsCity | src/components/government/MorbidityAnalytics.tsx:266 | picking a state clears the city, so no city condition is sent, and changes no other filter |
| Morbidity.CategoryIsIgnored | src/components/government/MorbidityAnalytics.tsx:94-106 | changing the category filter leaves the query unchanged |
| Morbidity.StateWiseData | src/components/government/MorbidityAnalytics.tsx:172-182 | the state chart is the ten largest entries of the per-state sums |
| Morbidity.TreatmentApproachData | src/components/government/MorbidityAnalytics.tsx:184-194 | the approach chart is the per-approach sums, labels with the first letter in upper case, untruncated |
| Morbidity.DiseasePrevalenceData | src/components/government/MorbidityAnalytics.tsx:196-207 | the disease chart is the eight largest sums keyed by NAMASTE name, or by ICD code when the name is empty |
| Morbidity.DiseaseKey | src/components/government/MorbidityAnalytics.tsx:199 | the NAMASTE name, or the ICD code when the name is empty |
| Morbidity.StateWiseSpec | src/components/government/MorbidityAnalytics.tsx:172-182 | the state chart has non-increasing counts, at most ten distinct states, each a state of the data with its summed count, and no left-out state outranks a kept one |
| Morbidity.DiseasePrevalenceSpec | src/components/government/MorbidityAnalytics.tsx:196-207 | the same for the disease chart, with at most eight entries |
| Morbidity.TreatmentApproachSpec | src/components/government/MorbidityAnalytics.tsx:184-194 | one entry per distinct approach, each labelled and carrying its summed count; the counts add up to the total weight |
| Morbidity.RowsWeighOne | src/components/government/MorbidityAnalytics.tsx:112-123 | each normalised row counts once, so the groupings of n rows add up to n |
| Morbidity.StatesCoveredIsGroupCount | src/components/government/MorbidityAnalytics.tsx:436 | "States Covered", the number of distinct states, equals the number of entries in the state grouping before truncation |
| Morbidity.View.SetFilters | src/components/government/MorbidityAnalytics.tsx:262-325 | a filter control sets the filters; nothing else changes |
| Morbidity.View.Load | src/components/government/MorbidityAnalytics.tsx:83-133 | the query sent is built from the current filters; on success the data are the normalised rows (none for null data); on an error or a throw, the demo rows; loading ends false |
| AdminDashboard.StatsOf | src/components/dashboard/AdminDashboard.tsx:72-77 | each statistic is its reported count, or 0 when the count is null |
| AdminDashboard.DepartmentItems | src/components/dashboard/AdminDashboard.tsx:89-93 | each doctor weighs its joined encounters (0 when missing), under its department or 'General' when that is falsy |
| AdminDashboard.DiseaseName | src/components/dashboard/AdminDashboard.tsx:110 | the NAMASTE name, else the ICD name, else 'Unknown'; never empty |
| AdminDashboard.ProblemItems | src/components/dashboard/AdminDashboard.tsx:109-113 | each active problem counts exactly once, under its disease name |
| AdminDashboard.DepartmentSpec | src/components/dashboard/AdminDashboard.tsx:89-100 | one entry per department of some doctor, each the sum of its doctors' encounters, all adding up to the total |
| AdminDashboard.TopDiseasesSpec | src/components/dashboard/AdminDashboard.tsx:115-120 | the disease chart has non-increasing counts and min(5, number of disease names) entries; no name left out outranks a kept one; each entry is a disease name cut to 20 characters with its count of active problems |
| AdminDashboard.DemoDiseasesAreRanked | src/components/dashboard/AdminDashboard.tsx:138-144 | the demo disease list is ranked, has five distinct entries, and its labels fit 20 characters |
| AdminDashboard.Dashboard.Load | src/components/dashboard/AdminDashboard.tsx:39-148 | without a hospital nothing changes, not even loading; if any query throws, all three panels show the demo figures; otherwise they show the counts, the department sums and the top diseases; loading ends false |
| DoctorDashboard.StatsOf | src/components/dashboard/DoctorDashboard.tsx:68-73 | each statistic is its reported count, or 0 when null |
| DoctorDashboard.RecentPatientsSpec | src/components/dashboard/DoctorDashboard.tsx:76-94 | the recent patients drop encounters without a patient, hold each id once at its first occurrence, keep encounter order, and number at most five |
| DoctorDashboard.Dashboard.Load | src/components/dashboard/DoctorDashboard.tsx:34-114 | without a user nothing happens; otherwise the statistics, recent patients and recent encounters are set in turn, each only if every query up to it answered; a throw leaves the later panels as they were; loading ends false |
| Dedup.FindIndex | src/components/dashboard/DoctorDashboard.tsx:90 | the index of the first entry with a patient of the id, or -1 when there is none |
| Dedup.UniquePatientsSpec | src/components/dashboard/DoctorDashboard.tsx:88-94 | `uniquePatients` has distinct ids, holds exactly the first occurrence of each id, is a subsequence of the present patients, and is no longer than its input |
| Dedup.EveryIdRepresented | src/components/doctor/PatientSearch.tsx:67-71 | every id that occurs is represented by its first occurrence |
| Dedup.Limit | src/components/dashboard/DoctorDashboard.tsx:86 | `.limit(n)`: at most n rows, a prefix of the rows queried |
| Grouping.TallySpec | src/components/government/MorbidityAnalytics.tsx:173-176 | the map built by the fold has each key once, exactly the keys of the items, each with the sum of its items' weights, the sums adding up to the total weight |
| Grouping.GroupSum | src/components/government/MorbidityAnalytics.tsx:173-177 | the reduce loop over the items yields the entries of the fold, in key insertion order |
| Grouping.SortDescSpec | src/components/government/MorbidityAnalytics.tsx:178-179 | sorting by descending count gives a non-increasing permutation of the entries |
| Grouping.TopNSpec | src/components/government/MorbidityAnalytics.tsx:178-181 | sort then slice gives min(n, length) sorted entries taken from the input, none outranked by a left-out entry |
| Grouping.RankedTally | src/components/dashboard/AdminDashboard.tsx:115-119 | the top n of a grouping are distinct keys of the items with their true sums, sorted, and none is outranked by a left-out key |
| Grouping.DistinctKeyCount | src/components/government/MorbidityAnalytics.tsx:436 | the grouping has as many entries as there are distinct keys |
| PatientSearch.OrFilterClauses | src/components/doctor/PatientSearch.tsx:33 | for a term without commas the `.or` argument is exactly three comma-separated clauses, `%term%` on name, ABHA id and phone |
| PatientSearch.CommaInTermAddsClauses | src/components/doctor/PatientSearch.tsx:33 | the term is pasted unescaped: each comma in it adds three pieces to the filter, so a term with a comma yields more than three |
| PatientSearch.RecentOfSpec | src/components/doctor/PatientSearch.tsx:66-73 | recent patients drop rows without a patient, hold each id once at its first occurrence, and represent every id that occurs |
| PatientSearch.ResultsSection | src/components/doctor/PatientSearch.tsx:159-177 | the results section is shown iff the term is non-empty: a spinner while loading, else the cards, else "no patients found" |
| PatientSearch.SectionsExclusive | src/components/doctor/PatientSearch.tsx:159-196 | the empty state never shows beside the results; for an empty term it shows iff there are no recent patients |
| PatientSearch.CardOpensPatientPage | src/components/doctor/PatientSearch.tsx:82 | a card opens `/patients/<id>`, the patient's page behind sign-in, for doctors and administrators |
| PatientSearch.AddNewPatientOpensPatientPage | src/components/doctor/PatientSearch.tsx:199 | "Add New Patient" opens `/patients/new`, which the router serves as a patient's page with id "new" |
| PatientSearch.Search.SearchPatients | src/components/doctor/PatientSearch.tsx:22-43 | a term shorter than two characters clears the results and sends nothing; otherwise the filter is sent, the results become the answer on success and stay as they were on an error or a throw, and loading ends false |
| PatientSearch.Search.LoadRecentPatients | src/components/doctor/PatientSearch.tsx:49-77 | on success the recent patients are the de-duplicated rows (none for null data); on failure they stay as they were |
| AuthStore.IndexMockUsers | src/store/auth-store.ts:15-78 | the lookup as written on the object literal: an own key gives its user; an id that is not a key but names an `Object.prototype` member gives that member; any other id gives `undefined` |
| AuthStore.InheritedNamesPassAsWritten | src/store/auth-store.ts:78-82 | every inherited name passes the written `!user` check although no demo user has that id |
| AuthStore.ConstructorPassesAsWritten | src/store/auth-store.ts:78-82 | "constructor" finds the inherited member and no user |
| AuthStore.LookupUser | src/store/auth-store.ts:78-82 | the intended lookup, on own keys only: it finds a user iff the id is a key of the table, and then finds that key's record; no trimming, no case folding |
| AuthStore.LookupRefusesInherited | src/store/auth-store.ts:78-82 | the intended lookup agrees with the written one on the table's keys, and refuses exactly what the written one refuses plus the inherited names |
| AuthStore.KeysAreNotInherited | src/store/auth-store.ts:15-62 | no key of the table is an inherited member's name |
| AuthStore.MockUsersKeyedByAbhaId | src/store/auth-store.ts:15-62 | the table has three users, and every key is the ABHA id of the user it maps to |
| AuthStore.Store.constructor | src/store/auth-store.ts:67-69 | the store starts with no user, signed out, not loading |
| AuthStore.Store.Login | src/store/auth-store.ts:71-95 | a known id signs that user in and yields it; an unknown id fails with 'Invalid ABHA ID or user not found' and leaves the user and the signed-in flag as they were; loading ends false either way |
| AuthStore.Store.Logout | src/store/auth-store.ts:97-103 | no user, signed out, not loading |
| AuthStore.Store.UpdateUser | src/store/auth-store.ts:105-107 | replaces the user only |
| AuthStore.Store.Persisted | src/store/auth-store.ts:110-114 | what is persisted is the user and the signed-in flag |
| AuthStore.Store.PersistedSignedInHasUser | src/store/auth-store.ts:84-114 | a stored session that says it is signed in carries a user |
| LoginForm.ErrorText | src/components/auth/LoginForm.tsx:25 | an Error's message, or 'Login failed' for any other thrown value |
| LoginForm.DemoCredentialsSignIn | src/components/auth/LoginForm.tsx:29-33 | each demo account's id is a key of the user table whose user has the listed name and role |
| LoginForm.Form.HandleSubmit | src/components/auth/LoginForm.tsx:12-27 | a blank id sets 'Please enter your ABHA ID' and changes nothing else; otherwise the untrimmed id is logged in; on success the location becomes /dashboard, is added to the history, and the error is cleared; on failure the error is the thrown text and the location is unchanged |
| LoginForm.BlankIds | src/components/auth/LoginForm.tsx:16 | two examples: the empty id and a whitespace-only id are refused; the general fact is Text.TrimEmptyIffBlank |
| LoginForm.PaddedIdIsLookedUpAsTyped | src/components/auth/LoginForm.tsx:16-22 | an account's id with a leading space passes the blank check but is not a key: it is looked up as typed and fails |
| AppRoutes.Dashboard | src/App.tsx:17-32 | no user, or a role none of the cases names, redirects to /login; each of doctor, admin and government selects its own dashboard |
| AppRoutes.FindRoute | src/App.tsx:47-146 | the route found is the first of the table whose pattern matches; none is found iff none matches |
| AppRoutes.AtMostOneMatch | src/App.tsx:48-144 | no path matches two routes of the table, so the first match is the only one, which is the route React Router's ranking picks |
| AppRoutes.ResolveSegments | src/App.tsx:38-151 | the sign-in page shows iff the path is /login; every other page shown is a matching layout route, behind the outer sign-in guard with that route's role guard; the location redirects to /dashboard iff it matches neither /login nor any layout route; the redirect needs sign-in except at '/' |
| AppRoutes.RootRedirectsToDashboard | src/App.tsx:40 | '/' redirects to /dashboard without the sign-in guard |
| AppRoutes.LayoutShape | src/App.tsx:48-144 | every one-segment pattern is a literal, and no two routes share a pattern |
| AppRoutes.ResolveRouteName | src/App.tsx:48-144 | `/name` for a one-segment route shows that route's page behind sign-in, under its role guard |
| AppRoutes.ResolveUnknownName | src/App.tsx:146 | `/name` for a lower-case name no route spells falls through to /dashboard, behind the outer sign-in guard |
| AppRoutes.ResolvePatientDetail | src/App.tsx:59-66 | `/patients/<id>`, for any id, shows the patient's page to doctors and administrators only |
| Sidebar.UserNavigation | src/components/layout/Sidebar.tsx:40-42 | nothing is rendered without a user; otherwise the role's items, or none for a role the table lacks |
| Sidebar.FirstItemIsDashboard | src/components/layout/Sidebar.tsx:6-28 | the table's roles are exactly the dashboard's roles, and each role's first item is Dashboard → /dashboard |
| Sidebar.PatientPageHighlightsNothing | src/components/layout/Sidebar.tsx:59 | highlighting is by exact match, so a patient's page highlights no item of any role |
| Sidebar.NavigationAgreesWithRoutes | src/components/layout/Sidebar.tsx:6-28 | every item a role is shown opens a page that role may open, except the administrator's Hospital Overview, which no route serves and which redirects to /dashboard |
| Sidebar.HandleLogout | src/components/layout/Sidebar.tsx:35-38 | the session ends (no user, signed out) and the browser goes to /login |
| Router.Router.Navigate | src/components/layout/Sidebar.tsx:63 | the location becomes the target, which is appended to the history |
| Text.TrimEmptyIffBlank | src/components/auth/LoginForm.tsx:16 | `trim()` of a string is empty iff every character is JavaScript white space |
| Text.ContainsIffOccurs | src/lib/terminology-api.ts:184 | `includes` holds iff the term occurs at some position |
| Text.SplitCount | src/components/doctor/PatientSearch.tsx:33 | splitting on a separator yields one more piece than the separator's occurrences |

## Left out

- Debouncing (the 300 ms timers of the dialog and the search page) is left out. Each model handler runs when its timer would fire.
- AddDiseaseModal.Modal.RunSearch, PatientSearch.Search.SearchPatients: each search is modelled as finishing before the next starts. In the source, the debounce cleanup cancels only a pending timer, not a request in flight, so two searches can overlap. An older answer that arrives last then overwrites the newer term's results, and it clears `loading` while the newer request is still pending. This interleaving is not modelled.
- The 1 s simulated sign-in delay and the 5 s registry timeout are left out. Time is not modelled; a timeout is one of the `Fetch` outcomes.
- The random mock morbidity rows are not generated. `Morbidity.View.Load` takes them as a `demo` parameter, because the mock uses `Math.random`.
- Date handling is left out: the default range, the month trend chart and the dates in the query builder are opaque strings.
- Floating-point percentages and averages in the analytics cards are left out.
- CSV export, alerts beyond their message, icons, layout and all JSX other than the sections `PatientSearch.ResultsSection` describes are left out.
- Browser-storage persistence, which is provided by the zustand middleware, is left out. Only `AuthStore.Store.Persisted`, the projection that is stored, is modelled.
- The internals of `ProtectedRoute` are not part of this model. The role guard of each route is recorded and checked by `AppRoutes.Permits`.
- Route matching is modelled on the segments of a path. The route table is written already split into segments. Case-insensitive matching is ASCII-only, with no percent-decoding.
- Server-side query semantics (`ilike`, joins, `count`, `.gte` and `.lte` on dates, ordering, `.limit`) are left out. Each reply is an input. `Dedup.Limit` stands for `.limit(5)` on the lists the dashboards slice.
- Response bodies are not checked against the declared record shapes. A body that does not parse is a `Response` without a body.
- String lengths count UTF-16 code units in the source, but are sequence lengths here. The truncation to 20 characters and the two-character search guard may differ for text outside the Basic Multilingual Plane.
- Lower-casing (`toLowerCase`) and upper-casing of the approach label are ASCII-only. This matches the corpus and the fixed approach names.
- Key order of the grouped maps follows insertion order. The source's `Object.entries` puts integer-like keys first, which no department, state or disease name is expected to be.
- Grouping.Tally, Grouping.GroupSum: every key is treated as an ordinary key. The source reduces into `{}` with `acc[k] || 0`. A key that names an inherited member behaves differently there: "constructor" starts from the `Object` function, so its sum becomes string concatenation, and "__proto__" ignores the numeric assignment and never appears in `Object.entries`.
- AuthStore.LookupUser, AuthStore.Store.Login, LoginForm.Form.HandleSubmit: these use the intended own-key lookup. In the source, an id naming an `Object.prototype` member passes the check and signs in with that member as the user, then goes to /dashboard. Such ids include "constructor", "toString", "valueOf", "hasOwnProperty" and "__proto__". `AuthStore.IndexMockUsers` models the written lookup, and "## Findings" records the difference.
- Sorting is modelled as a stable insertion sort. JavaScript's `sort` is also stable, so ties keep first-seen order in both.
- The catch inside `saveDiagnosis`, and the dialog's catch around the registry copy, are modelled through `Fetch` outcomes. `saveDiagnosis` never rejects.
- AdminDashboard.Dashboard.Load: when the user has no hospital, the source returns before clearing `loading`, so the spinner stays. The model keeps that behaviour.
- AuthStore.Store.Login: the transient `isLoading = true` while the lookup runs is not observable between handlers, and is not stated.
- Sidebar.HandleLogout: the store is cleared before navigating, but no reader observes the moment in between. The contract states the final state only.
- `PatientSearch.Search.SearchPatients` records the `.or` filter but not the `.limit(10)` (`PatientSearch.SearchLimit`). Whether the server applies the limit is not modelled.
- DoctorDashboard.Dashboard.Load: the `doctor_id` restriction of each query is the server's concern. The replies are inputs, so the user's id does not appear.
- The remaining screens (patient details, encounters, analytics, staff, reports, regional data, disease surveillance) and the Supabase client are not part of this model.

## Findings

| source | as written | input that shows it | evidently intended | confidence | as-written member | corrected member |
|---|---|---|---|---|---|---|
| src/store/auth-store.ts:78-82 | `mockUsers[abhaId]` on a plain object literal, refused only when falsy | "constructor" (also "toString", "valueOf", "__proto__", ...) finds an inherited, truthy member, so the user becomes `Object` and the session is signed in | only the table's own keys sign in | high, not executed | AuthStore.IndexMockUsers, AuthStore.InheritedNamesPassAsWritten, AuthStore.ConstructorPassesAsWritten | AuthStore.LookupUser, AuthStore.LookupRefusesInherited |
