# Campus alert lifecycle, modelled in Dafny

This project models the alert lifecycle of a campus-safety application.
Students raise high, moderate or general alerts from a dashboard. The
dashboard tracks their location through a continuous geolocation watch.
Staff see the alerts in a live feed, filter it by type, and tick alerts
off as solved.

The model covers three source files:

- `src/pages/student/StudentDashboard.tsx` becomes `StudentSide.StudentDashboard`
  (`student_dashboard.dfy`). It is a class whose fields are the component's
  state cells: `location`, `watchId`, `dialogOpen`, `alertType`,
  `showLocationCard`, `loading`, `profile` and `userName`. It also holds the
  closure value the mount effect's cleanup captured (`cleanupWatchId`). The
  pure parts are separate functions: the click gate, the payload composition
  and the role check.
- `src/pages/staff/StaffDashboard.tsx` becomes `StaffSide.StaffDashboard`
  (`staff_dashboard.dfy`). Its fields are `alerts`, `filter`, `userName`,
  `loading` and the live channel. Pure functions give the row mapping, the
  fresh/solved split, the checkbox wiring, the status mapping and the badge colour.
- `src/components/AlertDialog.tsx` becomes `Dialog.AlertDialog`
  (`alert_dialog.dfy`). It is a class holding the description draft. The
  `onSubmit` and `onOpenChange` callbacks are modelled as the `DialogEvent` a
  method returns; the student dashboard dispatches it.

The external collaborators are modelled as values or small registries:

- The alerts and profiles tables are values (`AlertStore.Store`, `alert_store.dfy`).
  The staff query is a type predicate, then a newest-first sort, then the
  profile join. The status update and the insert are functions on the table.
- The browser's `watchPosition`/`clearWatch` is a registry of watch handles
  (`Geolocation.Geolocation`). Positions arrive as `PositionEvent`s.
- The realtime service is a registry of live channel handles (`Realtime.Realtime`).
- The identity provider's answers are parameters: an optional `Session`, and
  the `{ data, error }` pair of the profile query (`Auth`). The insert's result
  is a parameter `insertError` (none = success). A query failure is a boolean.

Latitude and longitude are an opaque pair of reals. Alert types are strings,
as in the source, so that unknown types reach the defaults of
`getAlertTitle` and `getAlertColor`.

Behaviour the model reproduces as the code has it:

- Leaving the student dashboard does not release the location watch. The
  cleanup closes over the first render's `watchId`, which is null. Only logout
  clears the watch. See `UnmountKeepsWatch` and `LogoutReleasesWatch`.
- A high alert can carry a description. The dialog stays mounted, and Cancel
  keeps the draft. A draft typed for a moderate or general alert and then
  cancelled is sent with a later high alert. See `StaleDraftReachesHighAlert`.
- Changing the staff filter removes the channel and opens a new one, because
  the effect depends on `[filter]`. See `SetFilter` and `FilterChangeReplacesChannel`.

The system's stated design differs from the code in places. The model follows the code:

- The design says a high alert never has a description. The code can send one, as described above.
- The design says tracking is stopped whenever the view is torn down. The code stops it only on logout.
- The design says a filter change keeps the single channel. The code replaces it.
- The design places the missing-location failure in payload composition. The
  code blocks the click instead. The payload attaches the fix only when one is
  held. The model proves that this still never sends a high or moderate alert
  without a location: `StudentDashboard.Valid` keeps "an open located dialog
  has a fix", and `SubmitDialog` ensures the payload carries it.
- The design says a successful status write is picked up through the channel.
  The code also reloads directly after the write (`ToggleCompleted`).
- The staff role check ignores the profile query's error flag. The student check does not (`GatesAreExclusive`).
- The design keeps the draft after a failed submission so the user can retry.
  The dialog's `handleSubmit` clears the draft right after calling `onSubmit`,
  without waiting for the insert, so a failed insert leaves the dialog open
  with an empty draft. `SubmitDialog` ensures the draft is empty whatever
  `insertError` is.
- The design says a sensor error makes the location unavailable. The error
  callback only raises a warning and keeps the last fix. `AfterPosition`
  leaves the location as it was on an error, and `FixIsNeverLost` shows that
  no run of callbacks loses a held fix.

## Model

| member | source | states |
|---|---|---|
| `AlertStore.Insert` | src/pages/student/StudentDashboard.tsx:148 | an insert appends one row that carries the payload's student, type, location and description, with the store's id and time and status pending; earlier rows are untouched |
| `AlertStore.OfType` | src/pages/staff/StaffDashboard.tsx:92 | `.eq('alert_type', t)` keeps exactly the rows of type t and preserves a newest-first order |
| `AlertStore.Matching` | src/pages/staff/StaffDashboard.tsx:92 | filter "all" adds no predicate and returns the rows unchanged; any other value lets through exactly the rows of that type |
| `AlertStore.OfTypeCounts` | src/pages/staff/StaffDashboard.tsx:92 | `.eq('alert_type', t)` keeps each row of type t exactly as often as the table holds it and drops every other row |
| `AlertStore.SortNewestFirst` | src/pages/staff/StaffDashboard.tsx:90 | ordering by `created_at` descending yields a newest-first permutation of its input |
| `AlertStore.Select` | src/pages/staff/StaffDashboard.tsx:83-92 | the query result for a filter is newest first and holds each row the filter lets through as often as the table does |
| `AlertStore.SelectMembers` | src/pages/staff/StaffDashboard.tsx:72-92 | a row is in the query result iff it is stored and the filter lets it through |
| `AlertStore.SelectTypedIsSubsetOfAll` | src/pages/staff/StaffDashboard.tsx:90-92 | for a type filter, the result is exactly the rows of that type in the "all" result, in the same order |
| `AlertStore.JoinRow` | src/pages/staff/StaffDashboard.tsx:83-88 | the `student:profiles(...)` join attaches the submitter's profile when one exists and nothing otherwise |
| `AlertStore.Join` | src/pages/staff/StaffDashboard.tsx:83-88 | the joined result has one entry per returned row, in the same order, each joined to its own submitter |
| `AlertStore.SetStatus` | src/pages/staff/StaffDashboard.tsx:124-127 | the update writes the new status into every row with that id and leaves every other row unchanged |
| `AlertStore.SetStatusIdempotent` | src/pages/staff/StaffDashboard.tsx:122-127 | repeating the same status write leaves the table as one write does |
| `AlertStore.SetStatusLastWriteWins` | src/pages/staff/StaffDashboard.tsx:124-127 | of two writes to one alert, only the later one is visible |
| `Dialog.SubmittedDescription` | src/components/AlertDialog.tsx:26 | the draft reaches `onSubmit` as undefined exactly when it is empty, and verbatim otherwise |
| `Dialog.AlertTitle` | src/components/AlertDialog.tsx:30-41 | the three types have their fixed titles; every other string gets "Alert" |
| `Dialog.ShowDescriptionField` | src/components/AlertDialog.tsx:43 | the textarea is rendered for moderate and general alerts and hidden exactly for the type titled "High Alert" |
| `Dialog.ShowsLocationLine` | src/components/AlertDialog.tsx:57 | the location line is rendered exactly when a fix is known |
| `Dialog.AlertDialog.constructor` | src/components/AlertDialog.tsx:23 | the draft starts empty |
| `Dialog.AlertDialog.Edit` | src/components/AlertDialog.tsx:70 | typing replaces the draft |
| `Dialog.AlertDialog.HandleSubmit` | src/components/AlertDialog.tsx:25-28 | submit passes the normalised draft to `onSubmit`, then the draft is empty |
| `Dialog.AlertDialog.Cancel` | src/components/AlertDialog.tsx:77 | Cancel asks only to close the dialog; it submits nothing and leaves the draft as it is |
| `StudentSide.ClickAccepted` | src/pages/student/StudentDashboard.tsx:115 | a general click is always accepted; a high or moderate click is accepted exactly when a fix is known |
| `StudentSide.AfterPosition` | src/pages/student/StudentDashboard.tsx:94-106 | a success callback replaces the location with its fix; an error callback leaves it as it was, so a held fix survives it |
| `StudentSide.LocationIsLatestFix` | src/pages/student/StudentDashboard.tsx:93-107 | after any run of watch callbacks the location is the latest fix among them, or the earlier location if none was a fix |
| `StudentSide.FixIsNeverLost` | src/pages/student/StudentDashboard.tsx:93-107 | once a fix is held, no later callback makes the location unavailable |
| `StudentSide.NormaliseDescription` | src/pages/student/StudentDashboard.tsx:139 | `description \|\| null` maps both undefined and empty to null and keeps any other text |
| `StudentSide.BasePayload` | src/pages/student/StudentDashboard.tsx:136-140 | the first `alertData` carries the session user and the current type, the description as `description \|\| null` gives it (null for an absent or empty draft, the text verbatim otherwise), and no location |
| `StudentSide.ComposePayload` | src/pages/student/StudentDashboard.tsx:136-146 | the payload carries the session user, the current type, the normalised description, and the fix iff the type is high or moderate and a fix is held; a general alert never carries one |
| `StudentSide.DraftReachesPayload` | src/pages/student/StudentDashboard.tsx:139 | chained with the dialog's normalisation, a description reaches the payload iff the draft is non-empty, and then verbatim |
| `StudentSide.StoredAlertScenarios` | src/pages/student/StudentDashboard.tsx:136-148 | a high alert with a fix and an empty draft is stored pending with that fix and no description; a general alert with text and no fix is stored with that text and no location |
| `StudentSide.StudentGate` | src/pages/student/StudentDashboard.tsx:52-75 | no session redirects without signing out; a query error, a missing profile or a non-student role signs out and redirects; only a student profile is admitted |
| `StudentSide.StudentDashboard.constructor` | src/pages/student/StudentDashboard.tsx:23-31 | the initial state: type high, dialog closed, no location, no watch, card hidden, not loading |
| `StudentSide.StudentDashboard.Mount` | src/pages/student/StudentDashboard.tsx:34-50 | the cleanup captures no watch id; with geolocation supported exactly one new watch is registered with high accuracy, maximum age 0 and a 5000 ms timeout, and its id is kept; otherwise no watch is registered |
| `StudentSide.StudentDashboard.Unmount` | src/pages/student/StudentDashboard.tsx:46-49 | the cleanup clears only the watch id it captured |
| `StudentSide.StudentDashboard.HandleLogout` | src/pages/student/StudentDashboard.tsx:77-81 | logout clears the held watch, signs out and goes to the student login |
| `StudentSide.StudentDashboard.CheckAuth` | src/pages/student/StudentDashboard.tsx:52-75 | the outcome is the student gate's; profile and name are set only when admitted |
| `StudentSide.StudentDashboard.OnPosition` | src/pages/student/StudentDashboard.tsx:93-107 | callbacks come only from the registered watch; a fix overwrites the location, an error leaves it unchanged; a location is only ever held on a browser with geolocation |
| `StudentSide.StudentDashboard.HandleAlertClick` | src/pages/student/StudentDashboard.tsx:113-127 | a high or moderate click with no fix is rejected and changes nothing; otherwise the type is taken, the card is shown iff the type is high or moderate, and the dialog opens; an accepted high or moderate click opens a dialog that shows the location line and shows the textarea only for moderate |
| `StudentSide.StudentDashboard.HandleAlertSubmit` | src/pages/student/StudentDashboard.tsx:129-167 | with no session, nothing is inserted and the failure is "Not authenticated"; otherwise the composed payload is inserted; the dialog closes only on success; loading ends false |
| `StudentSide.StudentDashboard.TypeDescription` | src/components/AlertDialog.tsx:63-74 | the draft changes only while the dialog is open and shows the textarea |
| `StudentSide.StudentDashboard.CancelDialog` | src/pages/student/StudentDashboard.tsx:292-298 | Cancel closes the dialog through `onOpenChange` and the draft survives |
| `StudentSide.StudentDashboard.SubmitDialog` | src/pages/student/StudentDashboard.tsx:292-298 | the dialog's draft goes through `handleAlertSubmit` and is cleared; a high or moderate alert sent with a session always carries a location |
| `StudentSide.UnmountKeepsWatch` | src/pages/student/StudentDashboard.tsx:46-49 | after mount and unmount the watch is still registered |
| `StudentSide.LogoutReleasesWatch` | src/pages/student/StudentDashboard.tsx:78 | after mount and logout the watch is gone |
| `StudentSide.StaleDraftReachesHighAlert` | src/components/AlertDialog.tsx:77 | a draft typed for a moderate or general alert and then cancelled is inserted with a later high alert |
| `StudentSide.SensorErrorBlocksHighAlert` | src/pages/student/StudentDashboard.tsx:100-127 | after a sensor error with no fix, a high click is rejected and a general click opens the dialog |
| `StaffSide.ToFeedAlert` | src/pages/staff/StaffDashboard.tsx:97-106 | every field of a row is copied verbatim, and `student` is null when the join found nothing |
| `StaffSide.View` | src/pages/staff/StaffDashboard.tsx:97-106 | the mapped list has one entry per returned row, in the same order |
| `StaffSide.LoadedView` | src/pages/staff/StaffDashboard.tsx:94-111 | a failed query leaves the list empty; a successful one has one entry per stored row the filter lets through |
| `StaffSide.LoadedViewContents` | src/pages/staff/StaffDashboard.tsx:69-115 | a loaded feed is newest first and shows exactly the stored alerts the filter lets through; a failed load leaves it empty |
| `StaffSide.TypedFeedIsSubsetOfAll` | src/pages/staff/StaffDashboard.tsx:92 | a feed filtered on one type equals the "all" feed restricted to that type |
| `StaffSide.FeedOfType` | src/pages/staff/StaffDashboard.tsx:92 | the feed restricted to one type holds exactly that type's entries |
| `StaffSide.WithStatus` | src/pages/staff/StaffDashboard.tsx:146-147 | each list holds exactly the entries with its status and keeps a newest-first order |
| `StaffSide.FreshAlerts` | src/pages/staff/StaffDashboard.tsx:146 | "Fresh Alerts" holds exactly the pending entries and keeps a newest-first order |
| `StaffSide.CompletedAlerts` | src/pages/staff/StaffDashboard.tsx:147 | "Solved Alerts" holds exactly the completed entries and keeps a newest-first order |
| `StaffSide.WithStatusAppend` | src/pages/staff/StaffDashboard.tsx:146-147 | filtering by status distributes over concatenation: the kept entries stay in the feed's relative order |
| `StaffSide.PartitionIsExact` | src/pages/staff/StaffDashboard.tsx:146-147 | the fresh and solved lists are disjoint, together hold every entry as often as the feed, each stays newest first, and splitting the feed at any point splits both lists at the same point, so neither reorders the feed |
| `StaffSide.StatusFor` | src/pages/staff/StaffDashboard.tsx:126 | a checked box writes completed and an unchecked one writes pending |
| `StaffSide.CheckboxChecked` | src/pages/staff/StaffDashboard.tsx:197-240 | a fresh-list box is ticked exactly when its alert is completed; a solved-list box is always ticked |
| `StaffSide.ClickWrites` | src/pages/staff/StaffDashboard.tsx:198-241 | a click in the solved list writes pending; a click in the fresh list writes the status the alert does not have |
| `StaffSide.ClickFlipsStatus` | src/pages/staff/StaffDashboard.tsx:192-242 | ticking a fresh alert writes completed, unticking a solved one writes pending: a click always writes the other status |
| `StaffSide.CompletedAlertIsSolvedAfterReload` | src/pages/staff/StaffDashboard.tsx:122-147 | after an alert is set to completed, the reloaded "all" feed shows it among the solved alerts and never among the fresh ones |
| `StaffSide.AlertColor` | src/pages/staff/StaffDashboard.tsx:135-142 | the three types get their badge colours; every other string gets grey |
| `StaffSide.StaffGate` | src/pages/staff/StaffDashboard.tsx:51-67 | no session redirects without signing out; a missing profile or a non-staff role signs out and redirects; only a staff profile is admitted |
| `StaffSide.GatesAreExclusive` | src/pages/staff/StaffDashboard.tsx:61 | no profile passes both dashboards' checks; a staff row passes even when the query reported an error |
| `StaffSide.StaffDashboard.constructor` | src/pages/staff/StaffDashboard.tsx:29-32 | the initial state: no alerts, filter "all", loading, no channel |
| `StaffSide.StaffDashboard.Render` | src/pages/staff/StaffDashboard.tsx:144-147 | while loading only the loading line shows; otherwise the two lists partition `alerts` by status |
| `StaffSide.StaffDashboard.CheckAuth` | src/pages/staff/StaffDashboard.tsx:51-67 | the outcome is the staff gate's; the name is set only when admitted |
| `StaffSide.StaffDashboard.LoadAlerts` | src/pages/staff/StaffDashboard.tsx:69-115 | `alerts` becomes the mapped query result for the current filter, or empty on error; loading ends false |
| `StaffSide.StaffDashboard.RunEffect` | src/pages/staff/StaffDashboard.tsx:34-45 | the effect opens one new channel, which is then the only live one, and loads the feed |
| `StaffSide.StaffDashboard.Mount` | src/pages/staff/StaffDashboard.tsx:34-49 | after the first effect run, one channel is live and the feed is loaded |
| `StaffSide.StaffDashboard.Unmount` | src/pages/staff/StaffDashboard.tsx:46-48 | the cleanup removes the channel, and none is live afterwards |
| `StaffSide.StaffDashboard.SetFilter` | src/pages/staff/StaffDashboard.tsx:49 | a new filter value replaces the channel and reloads under the new predicate; the same value changes nothing |
| `StaffSide.StaffDashboard.OnAlertsChanged` | src/pages/staff/StaffDashboard.tsx:43 | any change event on a live channel reloads the feed under the current filter |
| `StaffSide.StaffDashboard.ToggleCompleted` | src/pages/staff/StaffDashboard.tsx:122-133 | a successful write sets the status of that id only and reloads; a failed write leaves store and list unchanged |
| `StaffSide.StaffDashboard.ClickCheckbox` | src/pages/staff/StaffDashboard.tsx:194-199 | a click writes `ClickWrites` of its box to that alert's row, then reloads; a failed write leaves the list and the loading flag as they were |
| `StaffSide.FilterChangeReplacesChannel` | src/pages/staff/StaffDashboard.tsx:41-49 | after a filter change, the first channel is closed and exactly one other channel is live |

## Left out

- Network calls to the auth, table and realtime services are not modelled. Their answers are parameters, and the store is a value.
- Toasts, `console.error` and navigation are not modelled as effects. A route and a sign-out flag are returned instead.
- Coordinates are an opaque pair. `toFixed(6)`, the maps link and `date-fns` formatting are not modelled.
- React rendering and styling are not modelled. The menu's click-outside listener, the "Location Active" badge and the dialog's subtitle text are left out too.
- The location card is modelled only as the `showLocationCard` cell. Its rendering condition (`showLocationCard && location`) is not.
- Both `loading` flags are true while a call is awaited. The model is sequential, so only their final value (false) is stated.
- The effects are asynchronous. A `loadAlerts` that is not awaited, events that interleave with a load, and callbacks reaching an unmounted component are all out of scope. Each call completes before the next begins.
- The staff effect's `init` runs `checkAuth` and then `loadAlerts`, even after a failed check. `Mount` and `SetFilter` model the channel and the load. `CheckAuth` is a separate call.
- The student mount effect calls `checkAuth()` and starts tracking whatever the check's outcome. `StudentDashboard.Mount` models only the tracking. `StudentDashboard.CheckAuth` is a separate call, so a watch is registered even for a visitor the check redirects.
- `AlertStore.SortNewestFirst`: alerts with equal `created_at` keep their table order. The database does not promise any order for ties.
- Concurrent staff writes are reduced to `SetStatusLastWriteWins`. There is no code beyond one sequential update.
- A realtime event reaching a removed channel is ignored (`OnAlertsChanged` with no channel). Delivery guarantees are the service's.
- The login and signup pages, profile editing, role selection, the splash screen, the route table and build configuration are not part of this model.
