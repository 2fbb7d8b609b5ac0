# UrbanPark maintenance front end — a verified model

This project models the decision logic of the UrbanPark parking-maintenance
web client, a Next.js/React application.

- **Maintenance calendar.** The month grid, the day buckets, the status colours, the filter bar's predicate and the summary counts.
- **Maintenance page state.** Loading, errors, the session and the create handler.
- **Report creation.** The chain of backend calls in the reports page's `handleSubmit`, plus the small toggles and the date guard of that page.
- **Report modal.** Its form and payloads.
- **Day modal.** The day's list of maintenances.
- **Password change.** The forced password-change form.
- **Form modals.** The maintenance and user form reducers.
- **Header.** Its session-dependent menu.

## How it is modelled

**Dates** follow the proleptic Gregorian calendar of ECMAScript `Date`
(section 21.4.1 of ECMA-262). They are `(year, month 0..11, day)` triples
with a minute of the day. `Gregorian.DayNumberOrder` shows that comparing
time values is the same as calendar order.

**`parseInt`, `String(n)` and JavaScript truthiness** are written out in
module `Js`.

**The backend** of the report workflow is the class `Informes.Store`.

- It holds a map from id to maintenance, the created headers and details, and a log of the requests it received.
- Each operation may fail nondeterministically, so every property proved about the workflow holds whichever steps fail.
- The query of completed maintenances returns records the store holds. Which of them the backend selects is not modelled.

**Pages and modals whose fields change** are classes whose methods update
those fields. Their rendering decisions are functions.

**Quirks the model keeps, as the code has them:**

- **Role id in place of user id.**
  - The admin user filter compares the chosen user's `idRol` with the maintenance's `idUsuario`.
  - The day modal names a maintenance's user by looking its `idUsuario` up among role ids.
  - The maintenance form's user option carries the user's `idRol`.
  - See `Mantenimientos.MatchesUserId`, `DayModal.UserLineUsesRoleId` and `MaintenanceModal.ChosenUserStoresRoleId`.
- **Month test ignores the year.** The summary therefore counts records of other years that no calendar cell shows (`Mantenimientos.OtherYearCountedNotShown`).
- **End-date bound is midnight.** The bound compares with midnight at the start of the end date (`Mantenimientos.EndDateStopsAtMidnight`). This holds as stated for a browser at UTC: the date input's value parses as UTC midnight while `fechaInicio` parses as local time, and the model puts both on one timeline with the offset fixed at 0.
- **Empty report date.** An empty date in the report form makes `toISOString` throw after the header has been created.
- **Reload failure.** A failed reload of the report list leaves both the success and the error message set.
- **Log-row toggle applied twice.** `handleToggleBitacoras` applied twice restores the previous state only when nothing, or that very row, was open (`Informes.ToggleBitacorasTwice`).
- **Stale file on edit.** The report modal keeps a previously chosen file when it is reopened on an existing report (`InformeModal.StaleFileOnEdit`).
- **Session expiry keeps the button disabled.** The password form leaves `isLoading` set on the expired-session branch.

## Model

| member | source | states |
|---|---|---|
| Js.ParseInt | src/app/components/MaintenanceModal.tsx:31 | `parseInt` with no radix is NaN exactly when, after leading white space and an optional sign, no digit follows |
| Js.ParseIntOfDecimal | src/app/components/InformeModal.tsx:64 | a user id written as the decimal text of `n` parses back to `n` |
| Js.ParseIntSkipsSpace | src/app/components/Header.tsx:20 | a leading white-space character (tab, vertical tab, form feed, line terminators, Unicode spaces) is skipped before the number |
| Js.ParseIntStopsAtNonDigit | src/app/components/Header.tsx:20 | `parseInt` reads the leading number and ignores any non-digit text after it |
| Gregorian.DaysInMonth | src/app/mantenimientos/page.tsx:19 | a month has 28 to 31 days; it has 29 exactly for February of a leap year |
| Gregorian.DayNumberOrder | src/app/informes/page.tsx:309 | comparing two valid dates' time values is calendar order, and equal time values mean the same date |
| Gregorian.NextMonthWeekDay | src/app/mantenimientos/page.tsx:20 | the weekday of the first of the next month is the weekday of this month's first plus its length, mod 7 |
| Seqs.Filter | src/app/mantenimientos/page.tsx:30 | `filter` keeps the elements that pass and adds none |
| Seqs.FilterCounts | src/app/mantenimientos/page.tsx:30 | `filter` keeps every copy of a passing element and no copy of a failing one |
| Seqs.FilterIsSubsequence | src/app/mantenimientos/page.tsx:286 | what `filter` keeps is an order-preserving sub-list of its input |
| Seqs.DisjointFiltersBound | src/app/mantenimientos/page.tsx:373-390 | two filters with mutually exclusive tests keep at most as many elements together as the input has |
| Seqs.Find | src/app/components/DayMantenimientosModal.tsx:34 | `find` yields the first element that passes, and nothing exactly when no element passes |
| Interfaces.ErrorText | src/app/informes/page.tsx:202 | the server's message if truthy, else the error's message, else the fallback; never empty when the fallback is not |
| Mantenimientos.StatusColor | src/app/mantenimientos/page.tsx:38-45 | each colour corresponds to exactly one case: Completado green, Pendiente orange, Cancelado red, every other status blue |
| Mantenimientos.DaysInMonthOf | src/app/mantenimientos/page.tsx:19 | `new Date(year, month + 1, 0)` is the last day of `month`, day 28 to 31 |
| Mantenimientos.FirstDayOfMonth | src/app/mantenimientos/page.tsx:20 | the weekday of the first of the month is in 0..6 |
| Mantenimientos.NextMonthStartsAfterThisOne | src/app/mantenimientos/page.tsx:19-23 | consecutive month grids line up: the next month starts on this month's start day plus its length, mod 7 |
| Mantenimientos.MantenimientosForDay | src/app/mantenimientos/page.tsx:28-36 | a record is in day d's bucket iff its start has the displayed year, month and day d |
| Mantenimientos.ForDayKeepsOrder | src/app/mantenimientos/page.tsx:28-36 | a day's bucket lists its records in the order of the fetched list, each as many times as the list holds it |
| Mantenimientos.Calendar | src/app/mantenimientos/page.tsx:22-26 | `startDay` blank cells, then the cells of days 1..`totalDays` in order, each listing that day's bucket |
| Mantenimientos.BucketsPartitionMonth | src/app/mantenimientos/page.tsx:30-35 | the day buckets together hold each record starting in the displayed month exactly once |
| Mantenimientos.InExactlyOneBucket | src/app/mantenimientos/page.tsx:30-35 | a record of the displayed month is in its own day's bucket and in no other |
| Mantenimientos.FechaFinIgnored | src/app/mantenimientos/page.tsx:28-36 | changing `fechaFin` never moves a record between buckets |
| Mantenimientos.FilteredMantenimientos | src/app/mantenimientos/page.tsx:286-295 | an order-preserving sub-list holding exactly the records that pass the start bound, the end bound, the user test and the month test |
| Mantenimientos.FilteredAreOwnAndInMonth | src/app/mantenimientos/page.tsx:290-292 | for a non-admin, every kept record has the session's user id; every kept record starts in the chosen month |
| Mantenimientos.NoDatesNoBounds | src/app/mantenimientos/page.tsx:287-288 | empty date inputs impose no bound |
| Mantenimientos.FilteredCounts | src/app/mantenimientos/page.tsx:286-295 | the filtered list holds each passing record as many times as the fetched list does, and no failing one |
| Mantenimientos.EndDateStopsAtMidnight | src/app/mantenimientos/page.tsx:288 | a record later on the end date itself is filtered out |
| Mantenimientos.YearIgnored | src/app/mantenimientos/page.tsx:292 | without date bounds, a record's year does not affect whether it is kept |
| Mantenimientos.Summarize | src/app/mantenimientos/page.tsx:373-390 | the counts are the Completado and Pendiente records of the list, and together they are at most its length, the total |
| Mantenimientos.OtherYearCountedNotShown | src/app/mantenimientos/page.tsx:292 | a kept record of another year is counted in the summary but is in no day cell of the current year |
| Mantenimientos.MantenimientosPage.constructor | src/app/mantenimientos/page.tsx:184-202 | both lists empty, both loading, no errors, no dates, the current month, no session |
| Mantenimientos.MantenimientosPage.ReadSession | src/app/mantenimientos/page.tsx:205-216 | without both cookies the page redirects; otherwise the session holds the user id and the parsed role |
| Mantenimientos.MantenimientosPage.LoadMantenimientos | src/app/mantenimientos/page.tsx:229-247 | without a user id nothing changes; an admin asks for all records and anyone else for their own; the list is replaced or the error set; loading ends |
| Mantenimientos.MantenimientosPage.LoadUsers | src/app/mantenimientos/page.tsx:254-268 | only an admin asks for users; the list is replaced or the error set; loading ends either way |
| Mantenimientos.MantenimientosPage.AddMaintenance | src/app/mantenimientos/page.tsx:274-283 | a created record is appended to the old list and the modal closes; a failure leaves the list and the modal unchanged |
| Mantenimientos.MantenimientosPage.Render | src/app/mantenimientos/page.tsx:297-390 | a spinner while a list loads, a failure panel when both failed, else the summary and calendar of the filtered list; admin controls iff admin |
| Informes.Store.CreateHeader | src/app/informes/page.tsx:153-157 | the request is logged; on success a header with a fresh id is added, on failure nothing changes |
| Informes.Store.QueryCompleted | src/app/informes/page.tsx:165 | the request is logged with the user and both dates; the records returned are records the store holds |
| Informes.Store.Update | src/app/informes/page.tsx:170 | the request is logged; on success the record under that id becomes the body, on failure the map is unchanged |
| Informes.Store.CreateDetail | src/app/informes/page.tsx:183-187 | the request is logged; on success the detail is stored |
| Informes.Store.ListInformes | src/app/informes/page.tsx:198 | the reload request is logged |
| Informes.Updates | src/app/informes/page.tsx:169-171 | one PUT per found record, in order, carrying the record with `idInforme` set to the new report |
| Informes.AssociateSetsInforme | src/app/informes/page.tsx:169-172 | after the updates every found record is stored as itself with `idInforme` set to the new report, its other fields copied |
| Informes.AssociateLeavesOthers | src/app/informes/page.tsx:169-172 | no record outside the query result is touched |
| Informes.AssociateKeepsIds | src/app/informes/page.tsx:169-172 | the updates keep every record filed under its own id |
| Informes.AttachAll | src/app/informes/page.tsx:168-175 | the updates run in order and stop at the first failure; the records before it are associated and the failing PUT is logged; with no failure all are associated |
| Informes.InformesPage.constructor | src/app/informes/page.tsx:26-45 | no reports, no user, an empty form, not submitting, no messages |
| Informes.InformesPage.Fail | src/app/informes/page.tsx:200-205 | the error text of a failed step is shown and submitting ends |
| Informes.InformesPage.Open | src/app/informes/page.tsx:153-166 | the header is created first; an empty date stops the run after the header exists; the query follows |
| Informes.InformesPage.Proceed | src/app/informes/page.tsx:168-199 | the updates, then the optional detail and the reload; the outcome fixes the store and the messages |
| Informes.InformesPage.Conclude | src/app/informes/page.tsx:177-199 | a detail is posted iff a file is chosen; success clears the form; a failed reload sets the error beside the success message |
| Informes.InformesPage.Run | src/app/informes/page.tsx:153-205 | with a known user: every request carries that user; the log grows by exactly the trace of the outcome; the header id is the store's next id; only the applied updates change the maintenances; the store keeps every record under its own id and every header id below the next one |
| Informes.InformesPage.HandleSubmit | src/app/informes/page.tsx:142-206 | no user means no request; the requests form the fixed order header, query, updates, detail, reload, cut at the first failure; successful updates stay and are not rolled back; submitting ends false; the store's invariant is kept |
| Informes.ToggleExpand | src/app/informes/page.tsx:58-66 | the expanded row collapses and its list is cleared; any other row becomes expanded and its load starts |
| Informes.FetchDone | src/app/informes/page.tsx:48-56 | a load stores the returned list, or the empty list on failure |
| Informes.ToggleExpandTwice | src/app/informes/page.tsx:58-66 | expanding a row and clicking it again collapses it and clears the list |
| Informes.ToggleBitacoras | src/app/informes/page.tsx:68-70 | the clicked row's log opens, or closes if it was the open one |
| Informes.ToggleBitacorasTwice | src/app/informes/page.tsx:68-70 | two toggles restore the state iff nothing or that row was open; otherwise all end closed |
| Informes.ChangeStartDate | src/app/informes/page.tsx:307-312 | the new start is stored; the end date is cleared exactly when it lies before the new start; afterwards start ≤ end |
| Informes.ChangeStartDateOrder | src/app/informes/page.tsx:309 | for calendar dates the guard clears the end date iff the end precedes the new start |
| InformeModal.BuildInformeData | src/app/components/InformeModal.tsx:62-68 | the existing report's id, estado (or 'Generado') and deletion flag (or false); the parsed session user; the title |
| InformeModal.BuildDetalleData | src/app/components/InformeModal.tsx:70-74 | the first detail's id when there are details, else none; the description and file as given |
| InformeModal.EditKeepsIdentity | src/app/components/InformeModal.tsx:62-74 | submitting an edited report sends back its id, state, deletion flag and first detail id |
| InformeModal.EmptyEstadoBecomesGenerado | src/app/components/InformeModal.tsx:66 | an empty state is sent as 'Generado' |
| InformeModal.UserIdRoundTrip | src/app/components/InformeModal.tsx:64 | a session id written as the decimal text of `n` reaches the payload as `n` |
| InformeModal.Render | src/app/components/InformeModal.tsx:87-223 | nothing when closed; the date inputs and the required file only in create mode; the title and the busy label |
| InformeModal.LastSegment | src/app/components/InformeModal.tsx:194 | the longest slash-free suffix of the URL |
| InformeModal.FileHint | src/app/components/InformeModal.tsx:194 | the chosen file's name, else the stored file's name when editing, else the default hint |
| InformeModal.InformeModalState.constructor | src/app/components/InformeModal.tsx:28-33 | an empty form, not submitting |
| InformeModal.InformeModalState.OnOpen | src/app/components/InformeModal.tsx:35-51 | with a report: its title and first description, dates cleared, chosen file kept; without: every field reset; closed: nothing changes |
| InformeModal.InformeModalState.SetReportStartDate | src/app/components/InformeModal.tsx:144-149 | the same start/end guard as the reports page |
| InformeModal.InformeModalState.HandleSubmit | src/app/components/InformeModal.tsx:53-85 | without a user only an alert; otherwise both payloads and the dates go to `onSubmit`; the modal closes iff it resolves; submitting ends false |
| InformeModal.StaleFileOnEdit | src/app/components/InformeModal.tsx:35-51 | a file chosen before reopening on an existing report is sent with the edit |
| DayModal.UserName | src/app/components/DayMantenimientosModal.tsx:33-36 | 'N/A' iff no user has that role id; else the full name of the first user with that role id |
| DayModal.ParqueaderoName | src/app/components/DayMantenimientosModal.tsx:38-41 | 'N/A' when no lot has the id; else the name of the first lot with that id |
| DayModal.TipoName | src/app/components/DayMantenimientosModal.tsx:43-46 | 'N/A' when no type has the id; else the name of the first type with that id |
| DayModal.StatusBadge | src/app/components/DayMantenimientosModal.tsx:48-61 | the shared base classes followed by the colour classes of the calendar's colour for that status |
| DayModal.BadgeAgreesWithCalendar | src/app/components/DayMantenimientosModal.tsx:48-61 | two statuses share a badge iff the calendar gives them the same colour |
| DayModal.ItemOf | src/app/components/DayMantenimientosModal.tsx:109-168 | the item carries the record's id and state; the description or 'No especificada', never empty; the badge of its state; the user looked up by `idUsuario` among role ids, the lot and the type by their ids; the start time, and an end-time row iff `fechaFin` is set |
| DayModal.Render | src/app/components/DayMantenimientosModal.tsx:31-192 | nothing when closed; the first record's date as title, else the fallback; one item per record in input order, else the empty state |
| DayModal.UserLineUsesRoleId | src/app/components/DayMantenimientosModal.tsx:126 | the user line names a user whose role id equals the maintenance's user id, even when another user owns it |
| UpdatePassword.ValidationError | src/app/update-password/page.tsx:20-36 | no error iff both filled, equal and at least 8 long; otherwise the first failing check's message, in the form's order |
| UpdatePassword.FailureText | src/app/update-password/page.tsx:57-66 | a refusal shows the server's message or the default text; a thrown error shows its own message |
| UpdatePassword.InputType | src/app/update-password/page.tsx:102 | the inputs show text iff the eye is toggled on |
| UpdatePassword.UpdatePasswordPage.constructor | src/app/update-password/page.tsx:8-12 | empty fields, no error, not loading, passwords hidden |
| UpdatePassword.UpdatePasswordPage.ToggleShowPassword | src/app/update-password/page.tsx:114 | the eye button flips visibility |
| UpdatePassword.UpdatePasswordPage.HandleSubmit | src/app/update-password/page.tsx:15-70 | no PUT unless every check passes; only a valid password of at least 8 characters is sent, with `contrasenaActualizada` true; success removes the cookie before navigating; loading stays set only on session expiry |
| MaintenanceModal.IdPrefixMeansNumeric | src/app/components/MaintenanceModal.tsx:31 | a field name starts with "id" iff the field is numeric |
| MaintenanceModal.Set | src/app/components/MaintenanceModal.tsx:29-32 | the spread update sets the named field and leaves every other field as it was |
| MaintenanceModal.Changed | src/app/components/MaintenanceModal.tsx:27-33 | the named field takes `parseInt(value)` when its name starts with "id", else the raw string; no other field changes |
| MaintenanceModal.InitialForm | src/app/components/MaintenanceModal.tsx:16-25 | every id 0, every text empty, the state 'Pendiente' |
| MaintenanceModal.UserOptions | src/app/components/MaintenanceModal.tsx:68-73 | a placeholder with the empty value, then one option per user whose value is the user's `idRol` |
| MaintenanceModal.ChosenUserStoresRoleId | src/app/components/MaintenanceModal.tsx:70 | choosing a user stores that user's role id as `idUsuario`; the placeholder stores NaN |
| MaintenanceModal.MaintenanceModalState.constructor | src/app/components/MaintenanceModal.tsx:16-25 | the form starts as the initial form, with a listed state |
| MaintenanceModal.MaintenanceModalState.HandleChange | src/app/components/MaintenanceModal.tsx:27-33 | the form becomes the changed form; the state stays one of Pendiente, Completado, Cancelado |
| MaintenanceModal.MaintenanceModalState.HandleSubmit | src/app/components/MaintenanceModal.tsx:35-39 | the form is handed over unchanged and the modal closes |
| UserModal.EmptyForm | src/app/components/UserModal.tsx:55-63 | `idRol` 0, every text empty, no id |
| UserModal.FormOf | src/app/components/UserModal.tsx:50-54 | a copy of the user, with the password '' when absent |
| UserModal.Changed | src/app/components/UserModal.tsx:67-73 | `idRol` takes `parseInt(value)`, any other field the raw string; no other field changes |
| UserModal.EditRoundTrip | src/app/components/UserModal.tsx:50-54 | editing a user with a password and submitting unchanged sends back that very user |
| UserModal.Render | src/app/components/UserModal.tsx:80-158 | nothing when closed; in edit mode the cédula is locked and the password optional; the title |
| UserModal.UserModalState.constructor | src/app/components/UserModal.tsx:27-34 | the empty form |
| UserModal.UserModalState.Reset | src/app/components/UserModal.tsx:49-65 | the user's fields, or the empty form |
| UserModal.UserModalState.HandleChange | src/app/components/UserModal.tsx:67-73 | the form becomes the changed form |
| UserModal.UserModalState.HandleSubmit | src/app/components/UserModal.tsx:75-78 | the form is handed over unchanged; the modal does not close itself |
| Header.DesktopLinks | src/app/components/Header.tsx:46-62 | Mantenimientos and Informes iff logged in; Parqueaderos and Personal iff logged in with role 1; login iff logged out, logout iff logged in |
| Header.MobileEntries | src/app/components/Header.tsx:84-100 | every mobile entry toggles the menu |
| Header.MobileMatchesDesktop | src/app/components/Header.tsx:84-100 | the mobile menu lists the desktop links in the same order |
| Header.LoginXorLogout | src/app/components/Header.tsx:58-62 | exactly one of login and logout shows |
| Header.AdminSeesEverySection | src/app/components/Header.tsx:49-55 | with the role cookie written as `n`, the admin sections show iff `n` is 1; the other two always do |
| Header.HeaderState.constructor | src/app/components/Header.tsx:10-12 | menu closed, logged out, no role |
| Header.HeaderState.DeriveSession | src/app/components/Header.tsx:15-25 | logged in iff both cookies are set; then the role is the parsed cookie; otherwise there is no role |
| Header.HeaderState.ToggleMenu | src/app/components/Header.tsx:27-29 | the menu flips, so two toggles restore it; a role stays known only in a session |
| Header.HeaderState.MobileNav | src/app/components/Header.tsx:81-103 | the mobile navigation renders iff the menu is open |
| Header.HeaderState.FollowMobileLink | src/app/components/Header.tsx:85 | following a mobile link closes the open menu; a role stays known only in a session |

## Left out

- HTTP transport. Base URLs, headers, multipart encoding and JSON parsing are absent. The backend is the `Informes.Store` class for the report workflow. Elsewhere a response is a parameter of the method that handles it.
- `Promise.all` concurrency. The updates run as a sequential loop, so on a failure a prefix of them has been applied. The order in which concurrent updates complete is not modelled.
- Backend query semantics. The store answers the completed-maintenance query with records it holds. It is not modelled that these are the user's completed records in the date range.
- JavaScript `Date`. Parsing, time zones, `toISOString`, `toLocaleString` and seconds are out; times are kept to the minute. The current date is a parameter.
- `Js.ParseInt`: does not model `parseInt`'s hexadecimal `0x` prefix. It is exact on every digit string, while a JavaScript number rounds values above 2^53.
- `Mantenimientos.EndDateStopsAtMidnight`: holds only for a browser at UTC. The date bounds of `Mantenimientos.FilteredMantenimientos` parse as UTC midnight and `fechaInicio` as local time. The model fixes the offset between them at 0, so at UTC−5 the real bounds fall at 19:00 local time on the previous day.
- `UpdatePassword.ValidationError`: counts characters, not UTF-16 code units, for the length check.
- Cookies, router navigation, `alert`, `setTimeout` and `console` output. The password page returns them as effects; the other pages model them as parameters or leave them out.
- The reports page's initial load (session effect, `fetchInformes`, `fetchUsers`) and its report download. These are plain HTTP calls.
- The `informes.sort(...)` on the reports page list. It is a rendering order with no rule beyond the comparison itself.
- `Informes.ToggleExpand`: does not model the race between two loads started by quick successive clicks.
- The maintenance page's filter bar form and the New button's disabled state. Its `setFilters` values are the `Filters` record.
- The user modal's role list. It is an HTTP load with no rule.
- `document.body.style.overflow` effects, styling and the remaining markup.
- The excluded pages and components: login, logout, forgot password, parking lots, maintenance types, staff, the home page, the footer, `ParqueaderoModal` and `BitacoraModal`.
- src/app/interfaces/Usuario.ts, Parqueadero.ts, TipoMantenimiento.ts and Rol.ts are not part of this model. `Interfaces.Usuario`, `Interfaces.Parqueadero` and `Interfaces.TipoMantenimiento` carry the fields the modelled code reads.
