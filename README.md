# seduc-maestro-plataform: verified model of the dashboard logic

This project models, in Dafny, the client-side logic of an admin dashboard for
automation robots ("bots"). The dashboard runs on mock data. Its logic covers:

- the login form, with its failed-attempt lockout;
- the permission context and the `RequirePermission` gate;
- the user-edit dialog, which keeps a role's default permissions apart from customised ones;
- the users page (search, counters, invitations, status toggling, avatar initials);
- the alerts page (filters, counters, mark-read, delete, relative dates);
- the system log page and a bot's log tab (search and level filters, CSV export);
- the execution-history counters and the success rate;
- the history CSV export of `exportToCSV`;
- the schedule page (bot assignment, day filter, grouping by weekday, sorting by time) and a bot's weekly grid;
- the live console of a bot (connect, replay, input echo, clear, export text);
- the floating console heads (six visible, the rest in an overflow menu, unread badges);
- the live executions page (a progress tick driven by random draws).

The source updates component state in place, so each component with state is a
`class`. Its handlers are methods with `modifies` clauses. The list updates the
handlers perform (`filter`, `map`) are functions over `seq`, with lemmas beside
them. The only loops in the source are the two `forEach` passes of the schedule
grouping, and they are methods with loop invariants (`Agenda.Collect`,
`Agenda.SortGroups`). Timers, `await`ed delays and intervals are separate step
methods. A reading of the clock or of `Math.random()` is a parameter.

Files:

- `seqs.dfy`: order-preserving filtering and counting.
- `text.dfy`: the string operations the components use.
- `data.dfy`: the record types of the mock-data modules, and the optional value with the select-or-clear toggle rule.
- `authorization.dfy`, `user_editor.dfy`, `login.dfy`, `console.dfy`, `alerts.dfy`, `users.dfy`, `chat_heads.dfy`, `agenda_tab.dfy`, `agenda.dfy`, `csv.dfy`, `export_utils.dfy`, `logs.dfy`, `logs_tab.dfy`, `history.dfy` and `executions.dfy`: one file per component.

The role and permission vocabularies and the role-to-defaults table live in
`src/data/mockUsers.ts`, which is not part of this model. So the permission
modules are generic over `Role` and `Permission`. The defaults table is a
constructor argument of the edit dialog, and the admin role is a constructor
argument of the permission context.

## Model

| member | source | states |
|---|---|---|
| Authorization.PermissionsContext.constructor | src/hooks/usePermissions.tsx:17 | The context starts with the given current user. |
| Authorization.PermissionsContext.SetCurrentUser | src/hooks/usePermissions.tsx:17 | The current user is replaced wholesale. |
| Authorization.PermissionsContext.HasPermission | src/hooks/usePermissions.tsx:19-22 | Granted iff a user is present and the permission is in their list. |
| Authorization.PermissionsContext.HasAnyPermission | src/hooks/usePermissions.tsx:24-27 | Granted iff a user is present and some listed permission is held. The empty list is never granted. |
| Authorization.PermissionsContext.HasAllPermissions | src/hooks/usePermissions.tsx:29-32 | Granted iff a user is present and every listed permission is held. The empty list is granted exactly when a user is present. |
| Authorization.PermissionsContext.IsAdmin | src/hooks/usePermissions.tsx:34-36 | True iff a user is present and their role is the admin role. The permission list plays no part. |
| Authorization.RequirePermission | src/hooks/usePermissions.tsx:78-86 | `permission` takes precedence over `anyOf`, which takes precedence over `allOf`. Access is granted when no criterion is given. |
| Authorization.NoUserDenies | src/hooks/usePermissions.tsx:19-36 | Without a current user, every criterion denies (the empty `allOf` included) and the user is not admin. Only the absence of all criteria grants. |
| Authorization.EmptyAnyOfDenies | src/hooks/usePermissions.tsx:82-83 | An empty `anyOf` list always denies. |
| Authorization.SinglePermissionQueriesAgree | src/hooks/usePermissions.tsx:19-32 | For a one-element list, the any and all queries agree with the single-permission query. |
| UserEditor.CustomIffSetsDiffer | src/components/EditUserModal.tsx:64-66 | For duplicate-free lists, the load-time "customised" test is exactly "the permission set differs from the role's default set". |
| UserEditor.DefaultsAreNotCustom | src/components/EditUserModal.tsx:64-66 | A role's own defaults never count as customised. |
| UserEditor.Toggled | src/components/EditUserModal.tsx:84-89 | A held permission is removed (every occurrence) and the rest keep their order and their number of occurrences. An absent one is appended at the end. |
| UserEditor.ToggleTwice | src/components/EditUserModal.tsx:81-92 | Toggling twice restores the permission set. It restores the exact list when the permission was absent at first. |
| UserEditor.EditUserModal.constructor | src/components/EditUserModal.tsx:57-58 | No user is loaded and custom mode is off. |
| UserEditor.EditUserModal.Load | src/components/EditUserModal.tsx:60-69 | A user prop is copied, and custom mode is set to the load-time test. A null prop changes nothing. |
| UserEditor.EditUserModal.HandleRoleChange | src/components/EditUserModal.tsx:73-79 | The role always changes. The permissions become the new role's defaults unless custom mode is on. |
| UserEditor.EditUserModal.TogglePermission | src/components/EditUserModal.tsx:81-92 | Only in custom mode (the checkboxes are disabled otherwise). The list becomes `Toggled` of the old list. |
| UserEditor.EditUserModal.ApplyDefaultPermissions | src/components/EditUserModal.tsx:101-107 | The permissions become the role's defaults and custom mode turns off. The load-time test then agrees that the list is not customised. |
| UserEditor.EditUserModal.SetCustomPermissions | src/components/EditUserModal.tsx:200-207 | The flag follows the checkbox. Unchecking resets the permissions to the role's defaults; checking keeps them. |
| UserEditor.EditUserModal.DiffBadge | src/components/EditUserModal.tsx:229-250 | A badge appears only in custom mode: `+` iff held and not a default, `-` iff a default and not held. |
| UserEditor.EditUserModal.HandleSave | src/components/EditUserModal.tsx:94-99 | Exactly the edited record is handed over, and the dialog closes iff a user is loaded. |
| LoginPage.LockedMessage | src/pages/Login.tsx:66 | The lockout message, with the 30-second duration rendered in decimal. |
| LoginPage.RetryMessage | src/pages/Login.tsx:69-70 | The retry message names the remaining tries. The nouns are plural above one and singular otherwise. |
| LoginPage.SubmitEnabled | src/pages/Login.tsx:211 | The button is enabled iff the form is neither loading nor locked and both fields are non-empty. |
| LoginPage.AfterTicks | src/pages/Login.tsx:29-40 | After k ticks from t, the countdown is t-k while k < t and 0 from then on. |
| LoginPage.LockoutLength | src/pages/Login.tsx:9-41 | Counting from 30, the form stays locked for exactly 29 ticks and unlocks on the 30th. |
| LoginPage.LoginForm.constructor | src/pages/Login.tsx:14-22 | Empty fields, no error, no failures, unlocked, and the invariant holds. |
| LoginPage.LoginForm.CanSubmit | src/pages/Login.tsx:211 | The form's own enable state follows the enable rule. |
| LoginPage.LoginForm.SetUsername | src/pages/Login.tsx:141-143 | Only while the input is enabled. The invariant is kept. |
| LoginPage.LoginForm.SetPassword | src/pages/Login.tsx:160-162 | Only while the input is enabled. The invariant is kept. |
| LoginPage.LoginForm.Submit | src/pages/Login.tsx:43-49 | A locked form is unchanged. Otherwise the error is cleared, loading starts and the failure count is untouched. |
| LoginPage.LoginForm.CompleteSubmit | src/pages/Login.tsx:52-75 | `admin`/`admin` navigates to `/bots` without touching the counter. Any other pair counts one more failure. Below 3 failures the retry message names the remaining tries; the third failure locks the form for 30 ticks with the lockout message. Locked iff 3 failures, with the countdown in 1..30. |
| LoginPage.LoginForm.TimerTick | src/pages/Login.tsx:29-40 | The countdown follows `AfterTicks` by one tick. The form unlocks iff the tick saw at most 1, and unlocking resets the counter and clears the error. |
| Console.MockLines | src/components/bot-detail/ConsoleTab.tsx:38-47 | The eight fixed lines a connection or a replay loads. |
| Console.FormatLine | src/components/bot-detail/ConsoleTab.tsx:162 | An exported line is `[`, the timestamp, `] ` and the content, at those exact positions. |
| Console.ConsoleText | src/components/bot-detail/ConsoleTab.tsx:162-168 | The export text is empty iff the buffer is empty, and otherwise starts with `[`. |
| Console.ConsoleTextLines | src/components/bot-detail/ConsoleTab.tsx:162-168 | With single-line entries, splitting the export text on newlines gives back exactly one formatted line per buffered line, in order. |
| Console.ConsoleTab.constructor | src/components/bot-detail/ConsoleTab.tsx:83-89 | Disconnected, interactive mode, empty buffer and input. |
| Console.ConsoleTab.Connect | src/components/bot-detail/ConsoleTab.tsx:110-124 | Nothing happens when the runtime is unavailable. Otherwise the session is connecting with an interactive connection pending and the buffer untouched. |
| Console.ConsoleTab.StartReplay | src/components/bot-detail/ConsoleTab.tsx:126-134 | The session is connecting with a replay pending, whether or not the runtime is available. |
| Console.ConsoleTab.TimerFires | src/components/bot-detail/ConsoleTab.tsx:118-133 | The pending timeout makes the session interactive or a replay, with the matching mode. The buffer becomes the fixed lines and the input is kept. The invariant holds: a timeout is pending iff connecting, and a replay shows exactly the fixed lines. |
| Console.ConsoleTab.Disconnect | src/components/bot-detail/ConsoleTab.tsx:136-139 | Only while interactive. The session ends and the buffer stays. |
| Console.ConsoleTab.SetInput | src/components/bot-detail/ConsoleTab.tsx:324-331 | Only while interactive. The input box holds the typed text. |
| Console.ConsoleTab.SendInput | src/components/bot-detail/ConsoleTab.tsx:141-154 | Whitespace-only input changes nothing. Otherwise exactly one `input` line echoing the untrimmed text after `> ` is appended and the box is cleared. |
| Console.ConsoleTab.Clear | src/components/bot-detail/ConsoleTab.tsx:156-159 | Only while interactive. The buffer becomes empty. |
| Console.ConsoleTab.ExportText | src/components/bot-detail/ConsoleTab.tsx:161-168 | The copied or downloaded text is empty iff the buffer is. |
| Alerts.KeepAlert | src/pages/Alertas.tsx:67-72 | The chain of early rejections admits an alert iff its type matches (or the type select is "todos") and its read state matches the status select. |
| Alerts.FilterAlerts | src/pages/Alertas.tsx:67-72 | The shown alerts are exactly the admitted ones, each as often as in the list, in list order. |
| Alerts.FilterAllShowsEverything | src/pages/Alertas.tsx:63-72 | With both selects on "todos", every alert is shown. |
| Alerts.ReadViewsPartition | src/pages/Alertas.tsx:67-72 | For a fixed type, the unread view and the read view add up to that type's full view. |
| Alerts.ViewsOfType | src/pages/Alertas.tsx:67-72 | Narrowing by read status is filtering the type's view again. |
| Alerts.CounterBounds | src/pages/Alertas.tsx:74-76 | Errors plus warnings never exceed the list, and neither does the unread count. |
| Alerts.MarkRead | src/pages/Alertas.tsx:78-80 | The alerts with that id become read. No other field and no other alert changes. |
| Alerts.MarkReadIdempotent | src/pages/Alertas.tsx:78-80 | Marking twice equals marking once, and marking never raises the unread count. |
| Alerts.MarkAllRead | src/pages/Alertas.tsx:82-84 | Every alert becomes read and nothing else changes. |
| Alerts.MarkAllReadClearsUnread | src/pages/Alertas.tsx:74-84 | Afterwards the unread counter is 0, and a second "mark all" changes nothing. |
| Alerts.DeleteAlert | src/pages/Alertas.tsx:86-88 | Exactly the alerts with another id remain, in order. |
| Alerts.DeleteAlertCount | src/pages/Alertas.tsx:86-88 | The list shrinks by the number of alerts carrying the id, and deleting again changes nothing. |
| Alerts.FormatDate | src/pages/Alertas.tsx:90-101 | Under an hour: "Agora há pouco". Under a day: "Há Nh" with the whole hours. The second day: "Ontem". Later: the locale day/month label. |
| Alerts.FormatDateHours | src/pages/Alertas.tsx:94-98 | The hour label counts from 1 to 23. |
| Alerts.AlertsPage.constructor | src/pages/Alertas.tsx:62-64 | The initial alerts, with both selects on "todos". |
| Alerts.AlertsPage.SetFilterType | src/pages/Alertas.tsx:165 | The type select holds the chosen value. |
| Alerts.AlertsPage.SetFilterStatus | src/pages/Alertas.tsx:178 | The status select holds the chosen value. |
| Alerts.AlertsPage.MarkAsRead | src/pages/Alertas.tsx:78-80 | The list becomes `MarkRead` of the old list. |
| Alerts.AlertsPage.MarkAllAsRead | src/pages/Alertas.tsx:82-84 | The list becomes `MarkAllRead` of the old list, and the unread counter is 0. |
| Alerts.AlertsPage.Delete | src/pages/Alertas.tsx:86-88 | The list becomes `DeleteAlert` of the old list. |
| Users.FilterUsers | src/pages/Usuarios.tsx:64-68 | The shown users are exactly those whose lowercased name, email or job title contains the lowercased query, each as often as in the list, in order. |
| Users.EmptySearchShowsAll | src/pages/Usuarios.tsx:59-68 | The empty search shows every user. |
| Users.CounterBound | src/pages/Usuarios.tsx:70-71 | Active plus pending users never exceed the list. |
| Users.Invitation | src/pages/Usuarios.tsx:83-92 | The new user keeps the form's name and email. The job title falls back to "Usuário". The status is pending with no last access and exactly the chosen permission. The id starts `user-`, and the creation date is the part of the ISO timestamp before its first `T`. |
| Users.NextStatus | src/pages/Usuarios.tsx:107 | Active users become inactive; pending and inactive users become active. The result is never pending. |
| Users.ToggleTwice | src/pages/Usuarios.tsx:104-112 | Toggling twice restores an active or inactive user, but a pending user ends up inactive. |
| Users.ToggleStatus | src/pages/Usuarios.tsx:104-112 | Only users with that id change, and only their status. |
| Users.DeleteUser | src/pages/Usuarios.tsx:114-115 | Exactly the users with another id remain, in order. |
| Users.DeleteUserCount | src/pages/Usuarios.tsx:114-115 | The list shrinks by the number of users carrying the id. |
| Users.FirstCharsOfSplit | src/pages/Usuarios.tsx:123 | Splitting on spaces and taking the first character of each piece equals a single scan for the characters that start a word. |
| Users.GetInitials | src/pages/Usuarios.tsx:122-124 | At most two characters: the uppercased first characters of the first two words. The result contains no space and no lowercase ASCII letter. |
| Users.UsersPage.constructor | src/pages/Usuarios.tsx:58-61 | The initial users, an empty search, a closed dialog and an empty form with the viewer permission. |
| Users.UsersPage.SetSearch | src/pages/Usuarios.tsx:191 | The search box holds the typed text. |
| Users.UsersPage.EditForm | src/pages/Usuarios.tsx:217-250 | The invitation form holds the edited values. |
| Users.UsersPage.HandleAddUser | src/pages/Usuarios.tsx:73-102 | A form without name or email changes nothing. Otherwise the invitation is prepended, the form resets, the dialog closes, and the pending counter rises by exactly one. |
| Users.UsersPage.ToggleUserStatus | src/pages/Usuarios.tsx:104-112 | The list becomes `ToggleStatus` of the old list. |
| Users.UsersPage.Delete | src/pages/Usuarios.tsx:114-120 | The list becomes `DeleteUser` of the old list. |
| ChatHeads.VisibleSessions | src/components/ChatHeads.tsx:54-55 | The heads are the first min(6, n) sessions, a prefix of the list. |
| ChatHeads.OverflowSessions | src/components/ChatHeads.tsx:56 | The overflow holds n-6 sessions when there are more than six, and none otherwise. |
| ChatHeads.SplitIsWhole | src/components/ChatHeads.tsx:54-56 | Heads followed by overflow are exactly the session list. |
| ChatHeads.OverflowLabel | src/components/ChatHeads.tsx:125-135 | The `+k` control appears iff there are more than six sessions, and k reads back as the overflow size. |
| ChatHeads.HeadBadge | src/components/ChatHeads.tsx:98-101 | No badge at zero, the single digit up to nine, and `9+` above nine. |
| ChatHeads.MenuBadge | src/components/ChatHeads.tsx:171-175 | No badge at zero; otherwise the uncapped count, which reads back as the number. |
| ChatHeads.Renders | src/components/ChatHeads.tsx:71 | The component renders iff it is not collapsed and there is at least one session. |
| ChatHeads.RemoveSession | src/components/ChatHeads.tsx:58-61 | Exactly the sessions with another id remain, in order. |
| ChatHeads.RemoveSessionCount | src/components/ChatHeads.tsx:58-61 | The list shrinks by the number of sessions carrying the id. |
| ChatHeads.ClearUnread | src/components/ChatHeads.tsx:66-68 | The selected id's unread count drops to zero and nothing else changes. |
| ChatHeads.ClearUnreadIdempotent | src/components/ChatHeads.tsx:63-69 | Selecting twice equals selecting once. |
| ChatHeads.ChatHeadsState.constructor | src/components/ChatHeads.tsx:51-52 | The initial sessions, with the overflow menu closed. |
| ChatHeads.ChatHeadsState.HandleRemoveSession | src/components/ChatHeads.tsx:58-61 | The list becomes `RemoveSession` of the old list. |
| ChatHeads.ChatHeadsState.HandleSelectSession | src/components/ChatHeads.tsx:63-69 | The callback receives the session as shown, then its unread count is cleared. |
| ChatHeads.ChatHeadsState.HandleSelectFromOverflow | src/components/ChatHeads.tsx:154-157 | As a head click, and the overflow menu closes. |
| ChatHeads.ChatHeadsState.ToggleOverflow | src/components/ChatHeads.tsx:129 | The overflow menu flips between open and closed. |
| ChatHeads.ChatHeadsState.MenuShown | src/components/ChatHeads.tsx:149 | The menu is shown iff it is toggled open and there are more than six sessions. |
| AgendaTab.DayIndex | src/components/bot-detail/AgendaTab.tsx:7-15 | Every weekday has its position in the Monday-to-Sunday list. |
| AgendaTab.SlotsByDay | src/components/bot-detail/AgendaTab.tsx:21-23 | Exactly the active slots of that day, each as often as in the list, in list order. |
| AgendaTab.HasSchedules | src/components/bot-detail/AgendaTab.tsx:34 | True iff some slot is active. |
| AgendaTab.ShownDays | src/components/bot-detail/AgendaTab.tsx:53-55 | The day cards shown, in weekday order, are exactly the days with at least one active slot. |
| AgendaTab.ShownDaysIffHasSchedules | src/components/bot-detail/AgendaTab.tsx:34-55 | Some day card is shown iff the grid has any active slot. |
| AgendaTab.Deactivate | src/components/bot-detail/AgendaTab.tsx:29-30 | Slots with that id become inactive. The length, every other field and every other slot are kept. |
| AgendaTab.DeactivateIdempotent | src/components/bot-detail/AgendaTab.tsx:21-30 | Removing twice equals removing once, and a removed slot appears in no day's list. |
| AgendaTab.DeactivateNeverReactivates | src/components/bot-detail/AgendaTab.tsx:29-30 | The active count never grows. |
| Wrappers.Toggle | src/components/bot-detail/AgendaTab.tsx:25-27 | Clicking the selected slot (or level, in the log tab) clears the selection; clicking any other selects it. |
| AgendaTab.AgendaTabState.constructor | src/components/bot-detail/AgendaTab.tsx:18-19 | The initial schedule with no selection. |
| AgendaTab.AgendaTabState.ToggleSlot | src/components/bot-detail/AgendaTab.tsx:25-27 | The selection becomes `Toggle` of the old one. |
| AgendaTab.AgendaTabState.RemoveSlot | src/components/bot-detail/AgendaTab.tsx:29-32 | The schedule becomes `Deactivate` of the old one, the selection clears, and the active count does not grow. |
| Agenda.AssignBot | src/pages/Agenda.tsx:45-49 | For a draw in [0, 1), the assigned bot is an active one whenever some bot is active, and the first bot of all when none is. |
| Agenda.ScheduleItems | src/pages/Agenda.tsx:44-52 | One item per active slot, in order. Every item's bot is active whenever some bot is active, and is the first bot of all when none is. |
| Agenda.FilteredItems | src/pages/Agenda.tsx:54-57 | No selected day gives every item. Otherwise exactly that day's items, each as often as in the list, in order. |
| Agenda.Bucket | src/pages/Agenda.tsx:56-65 | Exactly a weekday's items, in list order. |
| Agenda.BucketMultiset | src/pages/Agenda.tsx:56-65 | A weekday's bucket holds each of that day's items exactly as often as the list does, and nothing else. |
| Agenda.Insert | src/pages/Agenda.tsx:69 | Inserting into a time-sorted list keeps it sorted and adds exactly that item. |
| Agenda.SortByTime | src/pages/Agenda.tsx:68-70 | The per-day sort returns a time-sorted permutation of its input. |
| Agenda.TimeLeqTotal | src/pages/Agenda.tsx:69 | Any two `HH:MM` strings are comparable. |
| Agenda.BucketsPartition | src/pages/Agenda.tsx:59-66 | The seven weekday buckets add up to all the items. |
| Agenda.PushKeepsGroups | src/pages/Agenda.tsx:62-65 | One push keeps the map grouping the items seen so far. |
| Agenda.Collect | src/pages/Agenda.tsx:60-66 | After the first `forEach`, the map has a key exactly for the days with items, each holding that day's items in list order. |
| Agenda.SortGroups | src/pages/Agenda.tsx:68-70 | The second `forEach` sorts every key's list and keeps the keys. |
| Agenda.GroupByDay | src/pages/Agenda.tsx:59-72 | A key exists exactly for the days with items. Each list is a time-sorted permutation of that day's items, and the lists add up to all the items. |
| Agenda.DaySections | src/pages/Agenda.tsx:144-147 | The rendered sections run in weekday order. They are exactly the days whose group is non-empty, restricted to the selected day when there is one. |
| Agenda.ComputeStats | src/pages/Agenda.tsx:74-78 | The total is the item count. "Hoje" is the size of Monday's bucket, whatever the date, and never exceeds the total. The active-bot count is the number of active bots and never exceeds the bot list. |
| Agenda.TotalIsActiveSlots | src/pages/Agenda.tsx:44-75 | The total counter equals the number of active slots. |
| Agenda.AgendaPage.constructor | src/pages/Agenda.tsx:41-52 | The items are computed once at mount, and no day is selected. |
| Agenda.AgendaPage.SelectDay | src/pages/Agenda.tsx:123-133 | "Todos" clears the day; a weekday button selects that day. |
| Agenda.AgendaPage.Grid | src/pages/Agenda.tsx:54-72 | The grouping of the filtered items, and the sections to render. |
| Csv.Quote | src/lib/exportUtils.ts:15 | A quoted cell is the raw text between two double quotes. |
| Csv.DocumentLines | src/lib/exportUtils.ts:6-16 | Lines without newlines split back into the header and the rows: one line more than there are rows. |
| Csv.RowCells | src/lib/exportUtils.ts:15 | Cells without commas split back out of their line. |
| ExportUtils.RecordsCell | src/lib/exportUtils.ts:13 | A missing count and a count of 0 are both blank, because 0 is falsy. Any other count is its decimal digits, which read back as the number. |
| ExportUtils.ErrorCell | src/lib/exportUtils.ts:14 | A missing error is blank; otherwise the error text. |
| ExportUtils.DataLine | src/lib/exportUtils.ts:8-15 | A data line starts and ends with a double quote. |
| ExportUtils.DataLineCells | src/lib/exportUtils.ts:4-15 | A data line splits at commas into exactly six pieces iff no cell holds a comma. Then each piece is the quoted raw value, in header order; a comma in a cell gives more pieces. |
| ExportUtils.HistoryCsv | src/lib/exportUtils.ts:6-16 | The text is at least as long as the header line. |
| ExportUtils.HistoryCsvLines | src/lib/exportUtils.ts:6-16 | The text has exactly one line per row after the header iff no cell holds a newline. Then the lines are the header followed by the rows, in input order. |
| ExportUtils.DownloadName | src/lib/exportUtils.ts:3-23 | The name starts with the file name (`historico` by default) and an underscore, and ends in `.csv`. |
| ExportUtils.DownloadNameDate | src/lib/exportUtils.ts:23 | For a timestamp `date + "T" + time`, the name is exactly the file name, `_`, the date and `.csv`. |
| Logs.FilterLogs | src/pages/Logs.tsx:39-50 | The shown entries are exactly those that match the search (the empty query matches everything; otherwise the lowercased query occurs in the message or the details) and the level ("all" passes everything), each as often as in the list, in order. |
| Logs.NoFilterShowsAll | src/pages/Logs.tsx:35-50 | The empty query with level "all" shows every entry. |
| Logs.ComputeStats | src/pages/Logs.tsx:52-57 | The total counts every entry. The three named counters plus the debug entries add up to the total, so the named counters never exceed it. |
| Logs.LogLine | src/pages/Logs.tsx:62-67 | A CSV line: timestamp and level bare, message and details quoted, missing details as `""`. |
| Logs.LogsCsv | src/pages/Logs.tsx:59-68 | The export text starts with the header line. |
| Logs.LogsCsvLines | src/pages/Logs.tsx:59-68 | With single-line entries, the text splits into the header followed by one line per filtered entry, in order. |
| LogsTab.SameSearchAsLogsPage | src/components/bot-detail/LogsTab.tsx:21-22 | The tab's search accepts exactly what the log page's search accepts: the page's empty-query shortcut changes nothing. |
| LogsTab.FilterTab | src/components/bot-detail/LogsTab.tsx:20-25 | The shown entries are exactly those matching both search and level (no level passes everything), each as often as in the list, in order. |
| LogsTab.ClearedShowsAll | src/components/bot-detail/LogsTab.tsx:20-25 | With the filters cleared, every entry is shown. |
| LogsTab.ToggleTwiceFromNone | src/components/bot-detail/LogsTab.tsx:27-29 | Two clicks on a level from no filter come back to no filter. |
| LogsTab.LogsTabState.constructor | src/components/bot-detail/LogsTab.tsx:16-18 | An empty search and no level filter. |
| LogsTab.LogsTabState.Showing | src/components/bot-detail/LogsTab.tsx:116 | In "Mostrando X de Y", X never exceeds Y, which is the number of entries. |
| LogsTab.LogsTabState.SetSearch | src/components/bot-detail/LogsTab.tsx:40 | The search box holds the typed text. |
| LogsTab.LogsTabState.ToggleLevelFilter | src/components/bot-detail/LogsTab.tsx:27-29 | The level filter becomes `Toggle` of the old one: clicking the active level clears it, any other level becomes the filter. |
| LogsTab.LogsTabState.ClearFilters | src/components/bot-detail/LogsTab.tsx:104 | Both filters reset, and afterwards every entry is shown. |
| History.ComputeStats | src/components/bot-detail/HistoricoTab.tsx:16-21 | Each execution has exactly one of the three statuses, so the three counters add up to the total. Each counter is the total when every execution has its status and 0 when none does. |
| History.SuccessRate | src/components/bot-detail/HistoricoTab.tsx:23 | 0 for an empty history. Otherwise the whole percentage nearest to 100·sucesso/total, with halves rounded up, and never above 100. |
| History.SuccessRateExtremes | src/components/bot-detail/HistoricoTab.tsx:23 | On the counters: the rate is 100 when `sucesso == total` and 0 when `sucesso == 0`. |
| History.HistoryRateExtremes | src/components/bot-detail/HistoricoTab.tsx:16-23 | A non-empty history in which every execution succeeded shows 100%, and one in which none did shows 0%. |
| History.HistoryRate | src/components/bot-detail/HistoricoTab.tsx:16-23 | The rate of a history, from its own counters, is at most 100, and 0 for an empty history. |
| Executions.Round | src/pages/Execucoes.tsx:82 | `Math.round`: the integer nearest to x, with halves going up. |
| Executions.NewProgress | src/pages/Execucoes.tsx:79 | The unrounded progress moves up by less than 3 and is capped at 100. |
| Executions.TickOne | src/pages/Execucoes.tsx:77-88 | Only a running execution below 100 changes. Its progress never falls and never passes 100. Its record count rises by 0 or 1. Its status becomes completed iff the unrounded progress reached 100. |
| Executions.Tick | src/pages/Execucoes.tsx:76-89 | Every execution is updated in place, keeping length, ids and order. |
| Executions.RoundedToHundredStaysRunning | src/pages/Execucoes.tsx:79-84 | A running execution at 99 whose draw lies in [1/6, 1/3) is stored at 100 but stays running. From then on no tick changes it, so progress 100 does not imply completion. |
| Executions.ComputeStats | src/pages/Execucoes.tsx:101-106 | Running, completed, failed and paused executions add up to the total. Paused ones appear in the total only. |
| Executions.ExecutionsPage.constructor | src/pages/Execucoes.tsx:70 | The initial executions, each with progress between 0 and 100. |
| Executions.ExecutionsPage.ProgressTick | src/pages/Execucoes.tsx:74-93 | One firing of the interval. Every progress stays in 0..100 and never decreases, and the processed-record counters never decrease. |
| Text.Contains | src/pages/Usuarios.tsx:65-67 | `includes`: true iff the query occurs at some position. |
| Text.TrimEmptyIffBlank | src/components/bot-detail/ConsoleTab.tsx:142 | `trim()` gives the empty string iff the text is whitespace only. |
| Text.ParseNatToString | src/components/ChatHeads.tsx:135 | The decimal rendering of a counter reads back as the number. |
| Text.JoinSplitOn | src/pages/Usuarios.tsx:91 | `split` followed by `join` on the same separator gives the text back. |
| Text.SplitOnJoin | src/lib/exportUtils.ts:7-16 | Joining pieces that do not contain the separator, then splitting, gives the pieces back. |
| Text.SplitOnJoinSize | src/lib/exportUtils.ts:7-16 | Joined pieces split back into at least as many pieces, and into exactly as many iff no piece holds the separator. |

## Left out

- Rendering: JSX, styling, icons, tooltips, toasts, animations (the login shake), focus handling and the mobile sidebar are not modelled.
- Timers are not modelled as time. Each `setTimeout` or `setInterval` callback is a step method (`LoginForm.CompleteSubmit`, `LoginForm.TimerTick`, `ConsoleTab.TimerFires`, `ExecutionsPage.ProgressTick`), and which interleavings occur is left to the caller. Interval cleanup on unmount is not modelled.
- Clock and randomness are parameters: `Date.now()`, `toISOString()`, `toLocaleTimeString()`, the alert age in milliseconds, and each `Math.random()` draw.
- `new Date(dateString)` parsing and `toLocaleDateString` are not modelled: `Alerts.FormatDate` takes the elapsed milliseconds and the day/month label as given.
- Browser effects are not modelled: the clipboard write, `Blob`/object URLs, the download link click, navigation other than the login redirect, and auto-scroll (the console's `autoScroll` flag and scroll handler).
- Text.Lower: case mapping covers ASCII letters only, and `Text.TrimEmptyIffBlank` recognises the ASCII whitespace characters only. JavaScript maps and trims all of Unicode.
- Agenda.SortByTime: the sort is stated as a time-sorted permutation, without stability. `localeCompare` is modelled as ordinal comparison, which agrees on the zero-padded `HH:MM` strings the schedule uses.
- History.SuccessRate: computed in exact rational arithmetic. The floating-point rounding of `(sucesso / total) * 100` in JavaScript can differ from it by one at an exact half.
- ExportUtils.RecordsCell: `registrosProcessados` is a JavaScript `number`, taken here to be a non-negative whole number. How `||` and string interpolation treat negative values, fractions and NaN (NaN is falsy and gives a blank cell; -3 gives `-3`) is not modelled.
- Executions.Round: the unrounded progress (`NewProgress`) and the random draws are exact reals in the model, not JavaScript doubles, so their rounding error is not modelled; the stored progress is an integer.
- Csv.Quote: embedded double quotes are copied, not doubled as section 2 of RFC 4180 requires, and cells are not escaped; the model keeps that behaviour. `Csv.RowCells` needs comma-free cells, and `Csv.DocumentLines` and `Logs.LogsCsvLines` need newline-free lines. `ExportUtils.DataLineCells` and `ExportUtils.HistoryCsvLines` state their six-piece and one-line-per-row facts as iff statements with no restriction on the cells; quotes never matter to either.
- The mock fixture values (users, alerts, logs, history, schedule, bots, executions, console sessions) are constructor arguments, except the eight console lines that connecting and replaying load. `src/data/mockUsers.ts` and the other data modules are not part of this model.
- The two permission vocabularies are not reconciled: the users page stores the `admin`/`editor`/`viewer` tags, while the permission context and the edit dialog use the fine-grained `Permission` type, here a type parameter.
- UserEditor.EditUserModal: the name, email and job-title setters of the info tab and the dialog's open state are not modelled.
- Users.UsersPage: opening and closing the invitation dialog by its trigger is not modelled, only the close after a successful invitation.
- LoginPage.LoginForm.Submit requires the form not to be loading, because every control that submits is disabled while loading. `showPassword`, `rememberMe` and `shakeError` are not modelled.
- Console.ConsoleTab: the `unavailable` status is never entered by the source and has no transition. The runtime-unavailable screen is the disconnected state with `runtimeAvailable` false. The run id and the download file name are not modelled.
- Executions: the refresh button's `isRefreshing` flag is not modelled.
- Logs: the download file name of `exportLogs` is not modelled; it follows the same pattern as `ExportUtils.DownloadName`.
- Configuracoes, ConfiguracoesTab, LogsConfigTab, NewBotModal, ExecuteModal, BotCard, AppSidebar, AppBar, BotDetail, App, Dashboard and `useTheme` are not part of this model: they hold plain form state, routing or layout with no logic beyond what is modelled here.
