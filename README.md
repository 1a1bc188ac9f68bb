# Rapid Aid Connect client: a Dafny model of its offline queue, state updates and form validators

This project models the logic inside the Rapid Aid Connect web client:

- **Offline request queue.** An emergency request captured while the device is offline is kept under one localStorage key (`offline-emergency-requests`). When connectivity returns, or when the user presses "Sync Now", the whole queue is handed over and then cleared.
- **One-tap capture.** The panel has three buttons: rescue, food and medical. A tap asks for the device's location and resolves a persistent device id (`emergency-device-id`). The request is then sent if the device was online, or queued if it was not. While the request is pending, all three buttons are disabled.
- **Pending-request indicator.** It shows the queue length. It is hidden when the length is zero, and it refreshes on mount, on a polling tick and on storage events for the queue key.
- **Resource inventory.** Quantities change by ±10, are clamped at zero and are reclassified as available (above 100), low (above 30) or critical. The add-resource dialog and the three status counts are modelled too.
- **Task board.** Tasks are updated by id, filtered by status, and offer the Accept (pending to in-progress) and Complete (in-progress to completed) actions.
- **Notification center.** It can mark one notification or all of them read, filters by tab, and shows an unread count and an unread-alert badge.
- **Form validators.** The volunteer, login, registration and help-request schemas each become the set of fields that carry a message. The volunteer form's checkbox toggle is modelled too.

Two kinds of module make up the model:

- **Browser-facing pieces are classes.** localStorage is a `LocalStorage` object holding a `map` from keys to stored values. The React components whose state fields change are classes too (`OneTapRequest`, `OfflineRequestMonitor`, `Inventory`, `TaskBoard`, `Center`, `AuthPage`, `HelpRequestPage`), and their methods update those fields.
- **Pure logic is functions.** Table updates, filters, counts and validators are functions. Lemmas then state what the source promises about them.

Connectivity, geolocation results, the random suffixes of generated ids, the current time and the verdict of the schema library's email check all become parameters.

Each asynchronous continuation is one atomic step:

- the geolocation callbacks;
- the 1.5-second simulated calls;
- the `await` inside a sync.

A stored value is either `Requests(rs)` or `Text(t)`:

- `Requests(rs)` is the serialised list `rs`.
- `Text(t)` is any other text the model keeps: an id, an empty string, or text that does not parse as JSON. Under the queue key it reads as an empty queue, because `getOfflineRequests` turns both an empty value and a parse error into `[]`. JSON that parses to something other than a list is left out (see below).

## Model

| member | source | states |
|---|---|---|
| OfflineStorage.LocalStorage.GetItem | client/src/utils/offlineStorage.ts:37 | reading a key returns its stored value, or nothing when absent, and changes nothing |
| OfflineStorage.LocalStorage.SetItem | client/src/utils/offlineStorage.ts:16 | writing a key replaces that key's value and leaves every other key as it was |
| OfflineStorage.LocalStorage.RemoveItem | client/src/utils/offlineStorage.ts:47 | removing a key deletes exactly that key |
| OfflineStorage.QueueOf | client/src/utils/offlineStorage.ts:35-43 | the queue is empty when the key is absent or holds empty or unparsable text, and is exactly the stored list when the key holds one |
| OfflineStorage.Enqueued | client/src/utils/offlineStorage.ts:12-16 | after storing, the queue is the old queue with the request appended at the end; the key set gains only the queue key; every other key keeps its value |
| OfflineStorage.GetOfflineRequests | client/src/utils/offlineStorage.ts:35-43 | returns the queue (empty for a missing or unparsable value) and never changes storage |
| OfflineStorage.StoreOfflineRequest | client/src/utils/offlineStorage.ts:12-16 | the store becomes `Enqueued(old store, request)`: the queue grows by the request at its end, earlier entries in order |
| OfflineStorage.ClearOfflineRequests | client/src/utils/offlineStorage.ts:46-48 | only the queue key is removed, and the queue then reads as empty |
| OfflineStorage.HasPendingRequests | client/src/utils/offlineStorage.ts:51-53 | true exactly when the queue length is positive |
| OfflineStorage.SyncOfflineRequests | client/src/utils/offlineStorage.ts:56-80 | the delivered batch is the whole old queue, none lost or duplicated; an empty queue leaves storage untouched; otherwise only the queue key is removed; the queue is empty afterwards |
| OfflineStorage.OnOnline | client/src/utils/offlineStorage.ts:83-89 | the online handler delivers the old queue and removes the key when it was non-empty, and changes nothing otherwise |
| OfflineStorage.EnqueuedAllAppends | client/src/utils/offlineStorage.ts:12-16 | storing a sequence of requests one by one leaves the old queue followed by them, in store order |
| OfflineStorage.StoresFromEmpty | client/src/utils/offlineStorage.ts:12-16 | N stores onto an empty queue give a queue of exactly those N requests, in order |
| OfflineStorage.ClearIdempotent | client/src/utils/offlineStorage.ts:46-48 | clearing leaves an empty queue, and clearing twice is the same as clearing once |
| OneTap.ResolvedDeviceId | client/src/components/OneTapRequest.tsx:19-26 | a stored non-empty id is returned as is; otherwise the id is "device-" followed by the random suffix; never empty |
| OneTap.WithDeviceId | client/src/components/OneTapRequest.tsx:19-26 | storage is written only when no non-empty id is stored; the queue is never touched |
| OneTap.GetDeviceId | client/src/components/OneTapRequest.tsx:19-26 | returns the resolved id and leaves it stored under the device-id key |
| OneTap.DeviceIdStable | client/src/components/OneTapRequest.tsx:19-26 | a second resolution returns the same id as the first and writes nothing |
| OneTap.GeneratedIdHasPrefix | client/src/components/OneTapRequest.tsx:22 | a freshly generated id begins with "device-" |
| OneTap.InlineAppend | client/src/components/OneTapRequest.tsx:61-63 | the offline branch's own append throws exactly when the queue key holds non-empty text that does not parse as JSON; otherwise the queue becomes the old queue plus the request |
| OneTap.InlineAppendAgrees | client/src/components/OneTapRequest.tsx:61-63 | on a missing, empty or well-formed queue, the offline branch's own append equals `storeOfflineRequest` |
| OneTap.InlineAppendThrowsOnCorruptQueue | client/src/components/OneTapRequest.tsx:61-63 | on queue text that does not parse, the offline branch throws, while `storeOfflineRequest` would store a one-element queue |
| OneTap.InlineAppendCounterexample | client/src/components/OneTapRequest.tsx:61-63 | the same on a concrete store holding `{oops` |
| OneTap.OneTapRequest.constructor | client/src/components/OneTapRequest.tsx:16 | nothing is being processed at first |
| OneTap.OneTapRequest.Tap | client/src/components/OneTapRequest.tsx:28-35 | a tap is ignored while the buttons are disabled (lines 101, 111, 121); otherwise it records the tapped type and the connectivity flag, and without geolocation it resets the processing state at once (lines 84-85) |
| OneTap.OneTapRequest.LocationSettled | client/src/components/OneTapRequest.tsx:36-83 | the callbacks with the offline branch corrected to store through `storeOfflineRequest` (see Findings): on error nothing is captured or stored; on success a request of the tapped type, with the position, the time and the resolved id, is captured; online leaves the queue unchanged; offline makes the queue the old one plus that request; either way the buttons are enabled again |
| OneTap.OneTapRequest.LocationSettledAsWritten | client/src/components/OneTapRequest.tsx:36-83 | the callbacks as written: the same, except that the offline branch appends with its own parse (lines 61-63); when that throws, the request is not stored, only the device id is written, and `isProcessing` stays set, so the buttons stay disabled |
| RequestMonitor.PluralSuffix | client/src/components/OfflineRequestMonitor.tsx:62 | the "s" is shown exactly when the count exceeds one |
| RequestMonitor.OfflineRequestMonitor.constructor | client/src/components/OfflineRequestMonitor.tsx:17-19 | after mounting, the displayed count is the queue length |
| RequestMonitor.OfflineRequestMonitor.UpdateRequestCount | client/src/components/OfflineRequestMonitor.tsx:12-15 | the displayed count becomes the queue length |
| RequestMonitor.OfflineRequestMonitor.OnStorageEvent | client/src/components/OfflineRequestMonitor.tsx:25-29 | only an event for the queue key refreshes the count; any other key leaves it unchanged |
| RequestMonitor.OfflineRequestMonitor.HandleSync | client/src/components/OfflineRequestMonitor.tsx:41-48 | offline or with a zero count nothing happens; otherwise the old queue is delivered, only the queue key is removed from storage (every other key keeps its value), and the queue and the count become zero and syncing ends |
| RequestMonitor.OfflineRequestMonitor.View | client/src/components/OfflineRequestMonitor.tsx:50-70 | nothing is rendered exactly when the count is zero; otherwise the count, the plural rule and a sync button exactly when online |
| ResourceInventory.Classify | client/src/components/ResourceInventory.tsx:156-158 | available iff above 100, low iff in (30, 100], critical iff at most 30 |
| ResourceInventory.ClassifyMonotone | client/src/components/ResourceInventory.tsx:190-192 | more stock never gives a worse status |
| ResourceInventory.Adjusted | client/src/components/ResourceInventory.tsx:186-194 | the new quantity is the old one plus the change, clamped at zero; the status matches it; no other field changes |
| ResourceInventory.QuantityUpdated | client/src/components/ResourceInventory.tsx:183-199 | same length; every entry with the id is adjusted and every other entry is unchanged |
| ResourceInventory.UpdatePreservesInvariants | client/src/components/ResourceInventory.tsx:183-199 | an update keeps non-negative quantities non-negative and consistent statuses consistent |
| ResourceInventory.UpdateMissingId | client/src/components/ResourceInventory.tsx:183-199 | an id not in the table changes nothing |
| ResourceInventory.FromDraft | client/src/components/ResourceInventory.tsx:155-164 | the new resource copies the draft's fields, takes the given id and is classified by its quantity |
| ResourceInventory.AddKeepsStockNonNegative | client/src/components/ResourceInventory.tsx:303 | a draft the Add button accepts (name, unit and location non-empty, quantity positive) becomes a named entry in stock, and adding it keeps every quantity of the table non-negative |
| ResourceInventory.DefaultDraftCannotBeAdded | client/src/components/ResourceInventory.tsx:113-119 | the initial draft leaves the Add button disabled |
| ResourceInventory.StatusCountsSum | client/src/components/ResourceInventory.tsx:213-219 | the available, low and critical badge counts add up to the number of resources |
| ResourceInventory.MockResources | client/src/components/ResourceInventory.tsx:45-109 | no initial quantity is negative |
| ResourceInventory.MockStatusesDisagree | client/src/components/ResourceInventory.tsx:45-109 | four initial entries carry a status other than the one their quantity classifies as; one +10 on "First Aid Kits" turns it from available to low |
| ResourceInventory.Inventory.constructor | client/src/components/ResourceInventory.tsx:112-120 | the table starts with the mock resources, an empty draft and the dialog closed, and no quantity is negative |
| ResourceInventory.Inventory.EditDraft | client/src/components/ResourceInventory.tsx:242-292 | an edit replaces the draft and nothing else |
| ResourceInventory.Inventory.AddResource | client/src/components/ResourceInventory.tsx:154-181 | callable only when the Add button is enabled, which is `CanAdd` of the draft (line 303); the table gains the classified resource at its end, the draft is reset and the dialog closed; quantities stay non-negative |
| ResourceInventory.Inventory.SetAddDialogOpen | client/src/components/ResourceInventory.tsx:223-300 | opening or dismissing the dialog, and its Cancel button (line 300), set only the dialog flag; the table and the draft are kept |
| ResourceInventory.Inventory.UpdateQuantity | client/src/components/ResourceInventory.tsx:183-199 | the table becomes `QuantityUpdated` of the old one, quantities stay non-negative, and the draft and the dialog are unchanged |
| TaskManagement.StatusUpdated | client/src/components/TaskManagement.tsx:180-188 | same length; every task with the id takes the new status and every other task is unchanged |
| TaskManagement.UpdateMissingId | client/src/components/TaskManagement.tsx:180-188 | an id not in the table changes nothing |
| TaskManagement.UpdateIdempotent | client/src/components/TaskManagement.tsx:180-188 | setting the same status twice equals setting it once |
| TaskManagement.FilteredTasks | client/src/components/TaskManagement.tsx:195-197 | "all" shows every task; any other filter shows only tasks of the table whose status equals it |
| TaskManagement.FilterExact | client/src/components/TaskManagement.tsx:195-197 | a status filter keeps every task with that status as many times as it occurs, drops every other task, and keeps table order |
| TaskManagement.OfferedTransition | client/src/components/TaskManagement.tsx:286-316 | pending rows offer Accept (to in-progress), in-progress rows offer Complete (to completed), and every other status offers no status change |
| TaskManagement.TransitionsMoveForward | client/src/components/TaskManagement.tsx:286-316 | Accept and Complete each move a task exactly one stage forward, and a completed task offers no action |
| TaskManagement.ClicksNeverGoBack | client/src/components/TaskManagement.tsx:286-316 | no sequence of action clicks moves a task backwards, and two clicks take a pending task to completed |
| TaskManagement.MockTasks | client/src/components/TaskManagement.tsx:41-95 | the initial task ids are distinct |
| TaskManagement.TaskBoard.constructor | client/src/components/TaskManagement.tsx:100-101 | the board starts with the mock tasks, whose ids are distinct, and the "all" filter |
| TaskManagement.TaskBoard.UpdateTaskStatus | client/src/components/TaskManagement.tsx:180-193 | the table becomes `StatusUpdated` of the old one, ids stay distinct, and the filter is unchanged |
| TaskManagement.TaskBoard.ClickAction | client/src/components/TaskManagement.tsx:246-316 | a button of a displayed (filtered) row applies the transition its status offers, by the row's id; a completed row changes nothing; no task on the board moves back a stage |
| TaskManagement.TaskBoard.SetFilter | client/src/components/TaskManagement.tsx:214 | the filter select changes the filter only |
| NotificationCenter.MarkedRead | client/src/components/NotificationCenter.tsx:120-124 | same length; entries with the id become read and every other entry is unchanged |
| NotificationCenter.AllMarkedRead | client/src/components/NotificationCenter.tsx:126-128 | same length; every entry is read and otherwise unchanged |
| NotificationCenter.UnreadCount | client/src/components/NotificationCenter.tsx:143 | the unread count never exceeds the number of notifications |
| NotificationCenter.AlertBadge | client/src/components/NotificationCenter.tsx:175-177 | the Alerts badge counts unread alerts, so it never exceeds the unread count |
| NotificationCenter.MarkAllShown | client/src/components/NotificationCenter.tsx:162 | "Mark all as read" is shown exactly when some notification is unread |
| NotificationCenter.UnreadCountPositiveIff | client/src/components/NotificationCenter.tsx:143 | the unread count is positive exactly when some entry is unread |
| NotificationCenter.FilteredNotifications | client/src/components/NotificationCenter.tsx:130-141 | each type tab shows only entries of the list with its type; any other tab shows the whole list |
| NotificationCenter.TabsKeepTheirType | client/src/components/NotificationCenter.tsx:130-141 | each type tab keeps every entry of its type as many times as it occurs, drops every other entry, and keeps list order |
| NotificationCenter.MarkAsReadIdempotent | client/src/components/NotificationCenter.tsx:120-124 | marking the same id read twice equals marking it once |
| NotificationCenter.MarkAsReadNeverIncreasesUnread | client/src/components/NotificationCenter.tsx:120-124 | marking read never raises the unread count, and lowers it when an unread entry has that id |
| NotificationCenter.MarkAllLeavesNothingUnread | client/src/components/NotificationCenter.tsx:126-128 | after marking all read, the unread count and the alert badge are zero and the "Mark all as read" button is hidden (line 162) |
| NotificationCenter.MockNotifications | client/src/components/NotificationCenter.tsx:77-118 | the initial list has three unread notifications, two of them alerts, so the header shows "3 new" and the Alerts badge 2 |
| NotificationCenter.Center.constructor | client/src/components/NotificationCenter.tsx:76-118 | the center starts on the "all" tab with the five mock notifications |
| NotificationCenter.Center.MarkAsRead | client/src/components/NotificationCenter.tsx:120-124 | the list becomes `MarkedRead` of the old one and the unread count does not grow |
| NotificationCenter.Center.MarkAllAsRead | client/src/components/NotificationCenter.tsx:126-128 | the list becomes `AllMarkedRead` of the old one and nothing is unread |
| NotificationCenter.Center.SetActiveTab | client/src/components/NotificationCenter.tsx:170 | the tab strip changes the tab only |
| Volunteer.ParseInt | client/src/pages/Volunteer.tsx:23 | text whose first non-blank character is a digit always parses to a non-negative number; any number needs non-blank text, and a negative one a leading minus sign |
| Volunteer.AgeAccepted | client/src/pages/Volunteer.tsx:22-25 | an accepted age is non-blank text that does not start with a minus sign |
| Volunteer.DigitPrefixIsLongest | client/src/pages/Volunteer.tsx:23 | the digits `parseInt` reads are a prefix of the text, and the longest such prefix |
| Volunteer.ParseDecimal | client/src/pages/Volunteer.tsx:23 | `parseInt` of a number's decimal numeral gives back that number |
| Volunteer.AgeOfNumeral | client/src/pages/Volunteer.tsx:22-25 | a plain numeral is accepted as an age exactly when it is at least 18 |
| Volunteer.AgeWithTrailingText | client/src/pages/Volunteer.tsx:22-25 | " 21 years" parses as 21 and is accepted, since `parseInt` skips leading blanks and stops at the first non-digit |
| Volunteer.AgeRejections | client/src/pages/Volunteer.tsx:22-25 | an empty age, a non-numeric age and a negative age are rejected |
| Volunteer.Errors | client/src/pages/Volunteer.tsx:18-39 | a field carries a message exactly when it fails its rule |
| Volunteer.AcceptedIff | client/src/pages/Volunteer.tsx:18-39 | the form is accepted exactly when name ≥ 2, email valid, phone ≥ 10, age accepted, location ≥ 3, an availability and a skill selected, motivation ≥ 20, emergency contact ≥ 10 and terms agreed |
| Volunteer.ExperienceIsOptional | client/src/pages/Volunteer.tsx:33 | the experience text never affects validation |
| Volunteer.TermsRequired | client/src/pages/Volunteer.tsx:36-38 | without agreeing to the terms the form is rejected on that field |
| Volunteer.DefaultFormRejected | client/src/pages/Volunteer.tsx:50-62 | the default values fail every rule except, possibly, the email check |
| Volunteer.Toggled | client/src/pages/Volunteer.tsx:319-325 | checking appends the id at the end; unchecking leaves no occurrence of the id and does not lengthen the selection |
| Volunteer.UncheckKeepsOthers | client/src/pages/Volunteer.tsx:369-375 | unchecking removes every occurrence of the id and keeps every other id as often as it was selected, in order |
| Volunteer.CheckThenUncheck | client/src/pages/Volunteer.tsx:319-325 | checking then unchecking an unselected option restores the selection |
| Auth.LoginErrors | client/src/pages/Auth.tsx:16-19 | a login field carries a message exactly when it fails its rule; only email and password can |
| Auth.LoginAcceptedIff | client/src/pages/Auth.tsx:16-19 | sign-in is submitted exactly when the email passes and the password has at least 6 characters |
| Auth.ShortLoginPasswordRejected | client/src/pages/Auth.tsx:18 | a password shorter than 6 characters is rejected |
| Auth.RegisterErrors | client/src/pages/Auth.tsx:22-32 | a registration field carries a message exactly when it fails its rule; the mismatch message goes to the confirmation field |
| Auth.RegisterAcceptedIff | client/src/pages/Auth.tsx:22-32 | registration is accepted exactly when name ≥ 2, email valid, phone ≥ 10, password ≥ 6, the passwords match and the role is one of the four |
| Auth.MismatchRejected | client/src/pages/Auth.tsx:29-32 | differing passwords are always rejected; with a valid role the message is on the confirmation field, and the password field is judged only on its length |
| Auth.DefaultRegisterErrors | client/src/pages/Auth.tsx:55-62 | the default role "affected" is valid, and the default form fails exactly on name, phone, password and, if that check fails, email |
| Auth.AuthPage.constructor | client/src/pages/Auth.tsx:38-40 | the page starts on the login tab with nothing pending |
| Auth.AuthPage.SetActiveTab | client/src/pages/Auth.tsx:105-108 | the tab strip changes the tab only |
| Auth.AuthPage.SubmitLogin | client/src/pages/Auth.tsx:65-66 | a sign-in becomes pending exactly when the form validates, unless one already is (line 172) |
| Auth.AuthPage.LoginSettled | client/src/pages/Auth.tsx:70-76 | the pending sign-in ends; the tab is unchanged |
| Auth.AuthPage.SubmitRegister | client/src/pages/Auth.tsx:79-80 | a registration becomes pending exactly when the form validates, unless one already is (line 378); differing passwords never start one |
| Auth.AuthPage.RegistrationSettled | client/src/pages/Auth.tsx:84-91 | a completed registration ends the pending state and sets the active tab to "login" |
| RequestHelp.Errors | client/src/pages/RequestHelp.tsx:17-25 | a field carries a message exactly when it fails its rule; the people count never does |
| RequestHelp.AcceptedIff | client/src/pages/RequestHelp.tsx:17-25 | a request is accepted exactly when name ≥ 2, phone ≥ 10, location ≥ 5, description ≥ 10, and the type and urgency are enum values |
| RequestHelp.PeopleCountNeverMatters | client/src/pages/RequestHelp.tsx:23 | any people count, so every offered option (lines 251-254), gives the same verdict |
| RequestHelp.DefaultFormErrors | client/src/pages/RequestHelp.tsx:36-44 | the default type, urgency and people count are valid options, and the default form fails exactly on name, phone, location and description |
| RequestHelp.HelpRequestPage.constructor | client/src/pages/RequestHelp.tsx:30-45 | the form starts at its defaults with nothing submitting |
| RequestHelp.HelpRequestPage.Edit | client/src/pages/RequestHelp.tsx:119-272 | an edit replaces the form values and nothing else |
| RequestHelp.HelpRequestPage.Submit | client/src/pages/RequestHelp.tsx:53-54 | a submission starts exactly when the form validates, unless one already is (line 326) |
| RequestHelp.HelpRequestPage.SubmissionSettled | client/src/pages/RequestHelp.tsx:61-71 | the submission ends and the form returns to its defaults, which are rejected |

## Left out

- Delivery failure: the simulated sync in client/src/utils/offlineStorage.ts:56-80 cannot fail, so there is no retain-on-failure path to model.
- Interleavings: each asynchronous continuation (geolocation callbacks, the 1.5-second timeouts, the `await` in a sync) is one atomic step. A second `online` event, or a storage write, arriving during a sync's delay is not modelled. The online branch of one-tap capture re-enables the buttons at once rather than 1.5 s later.
- Background-sync registration with the service worker (client/src/utils/offlineStorage.ts:18-28), toasts, console logging and the 30-second polling timer itself. A polling tick is `UpdateRequestCount`.
- A `setItem` that throws (quota exceeded) inside `storeOfflineRequest`'s try/catch. It would leave the queue unchanged in the source.
- Stored JSON under the queue key that parses to something other than a list. `getOfflineRequests` (client/src/utils/offlineStorage.ts:38) returns the parsed value as it is. For the JSON string `"abc"`, `hasPendingRequests` (line 52) sees length 3, the monitor shows 3, and `syncOfflineRequests` passes the empty test at line 59 and removes the key at line 73. For `{}` the length is `undefined`, so `hasPendingRequests` is false, yet a sync still reaches line 73. `storeOfflineRequest` alone recovers, because `.push` throws inside its try/catch (lines 13-15, 29) and nothing is written. The model has no such values.
- Geolocation options (high accuracy, 10 s timeout) and the coordinates' JSON form. A position is a record of three reals, and a timestamp is an integer.
- OneTap.GetDeviceId: requires the device-id key to hold text. localStorage values are always strings, and only `getDeviceId` writes that key; the requirement reflects the model's two kinds of stored value.
- The schema library's email check is an input (`emailValid`), not a model of the email grammar.
- String lengths count characters, where the source counts UTF-16 code units.
- Volunteer.ParseInt: leading whitespace is the ASCII set plus no-break space, BOM and the line and paragraph separators, not every Unicode space separator. Precision loss on numerals beyond 2^53 is not modelled.
- The Reject button on pending rows has no handler in the source, so it changes nothing and has no member.
- Form submission of the volunteer page (its `isSubmitting` flag, toast and reset), the file-upload inputs, and the help-request page's "Get GPS" coordinate formatting, which works on floating point.
- The rendering of every component beyond the visibility and count rules listed above.

## Findings

| source | as written | input that shows it | evidently intended | confidence | as-written member | corrected member |
|---|---|---|---|---|---|---|
| client/src/components/OneTapRequest.tsx:61-65 | The offline branch parses the stored queue itself, with `JSON.parse` and no try/catch. Unparsable queue text throws inside the geolocation callback: the request is not stored, and `setIsProcessing(null)` on line 65 is never reached, so all three buttons stay disabled (the handler step as written is `OneTap.OneTapRequest.LocationSettledAsWritten`, whose contract states both effects). | the queue key holds `{oops` while the device is offline | store through `storeOfflineRequest`, which reads an unparsable queue as empty, so the request is kept and the buttons are enabled again | not executed | OneTap.InlineAppendCounterexample | OneTap.OneTapRequest.LocationSettled |
