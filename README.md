# Cognis core rules in Dafny

Cognis is a forensic-investigation front end (React) with a FastAPI back end. Its screens
upload a device extraction, chat with a canned assistant about the case, browse an entity
graph, build a report, manage cases and read the audit trail. This project models the parts of
those screens that are rules rather than layout, and the back end's keyword search route.
It proves what each rule guarantees.

- **Audit trail** (`Audit`, `AppShell`): the shell's `addAuditLog` prepends an entry numbered
  one past the list length. Every screen logs through it. The ids stay exactly 1..n. The
  shell's login, logout, signup and admin-access handlers and the view switch are modelled too.
- **Audit-log screen** (`AuditLogScreen`): the text search and the action filter, the list of
  distinct actions, and the action badge colours.
- **Chat turns** (`Chat`, `SearchScreen`, `ChatPanel`): sending appends the user's message and
  logs the query. The reply timer appends the canned answer for the query's topic and logs
  the response. The two assistants differ in their keyword tables and priorities.
- **Entity graph** (`Network`): the fixed node and edge tables, the first-in-list hit test
  with an inclusive rim, the edge-endpoint lookup, and the logged node selection and search.
- **Case management** (`Admin`): assignment, and creation with ids `CASE-2024-NNN`, the
  Active/Pending status rule and a form reset.
- **Uploads** (`Upload`): the recent-ingestions list, capped at three entries, and completion
  by id. Also the drag highlight and the drop of the first file.
- **Signup** (`SignupForm`): the ordered validation messages, field edits, and a submit that
  does not validate.
- **Report** (`Report`): the evidence table, and the significance badge whose colour is
  decided by the text before the first `" - "`. Also the two logged exports.
- **Search route** (`ConversationRoute`): `GET /chat/conv/{ufdr_file_id}` checks its parameters
  (422), the file (404) and the query terms (400). It then selects up to `limit` artifacts of
  the file matching any term, ignoring case, or any artifacts of the file when none matches.
  It answers with the query, the count and one snippet of at most 800 characters per artifact.

Objects whose fields the source updates in place are classes. These are the shell (`App`),
each screen's state, and the chat conversation. Each handler is a method that says exactly
what it changes. A handler that calls `addAuditLog` takes the `App` and changes only its
`auditLogs`. The pure rules are functions and lemmas. A `setTimeout` callback is modelled as a
second method (`DeliverReply`, `CompleteProcessing`, `CompleteSubmit`) that runs the callback
on data queued by the first. Clock readings are passed in as strings.

`Wrappers`, `Text` and `Seqs` hold the primitives the rules use. These are JavaScript's
`trim`, `toLowerCase`, `includes`, `split(sep)` and `padStart`, and Python's `str.split()` and
slicing. They also hold array filtering and set-style deduplication.

## Model

| member | source | states |
|---|---|---|
| Audit.LoggedPrepends | src/App.jsx:31-40 | the new entry heads the list and carries the action, the current user's name, the timestamp and the details; the old list follows unchanged |
| Audit.SeedIdsExact | src/App.jsx:23-27 | the seed trail's ids are exactly 1..3, each used once |
| Audit.LoggedKeepsIdsExact | src/App.jsx:31-40 | logging keeps the ids exactly 1..length and distinct |
| Audit.LoggedHeadIsNewest | src/App.jsx:31-40 | after a log call the head's id is the list length, the largest id in the list |
| AppShell.RenderCurrentView | src/App.jsx:81-101 | an unrecognised view name shows the upload screen; the admin names show the admin panel, on the audit tab only for "admin-audit" |
| AppShell.RenderCurrentViewRoundTrip | src/App.jsx:81-101 | every recognised name except the alias "admin" selects its own screen, so distinct names give distinct screens |
| AppShell.RenderCurrentViewOnto | src/App.jsx:81-101 | every screen the switch can show is reached from its own view name |
| AppShell.ShownScreen | src/App.jsx:104-132 | while signed out the signup screen shows when the auth view is "signup" and the login screen otherwise, and no view does; once signed in, the current view's screen shows |
| AppShell.App.constructor | src/App.jsx:15-28 | the app starts signed out, on signup and the upload view, with the seed user and the seed trail |
| AppShell.App.AddAuditLog | src/App.jsx:31-40 | the trail becomes the old trail with one entry prepended, and its ids stay exactly 1..length |
| AppShell.App.SetCaseData | src/App.jsx:84 | the upload screen's case replaces the shell's case data |
| AppShell.App.SetCurrentView | src/App.jsx:120-124 | the sidebar's choice becomes the current view |
| AppShell.App.HandleLogin | src/App.jsx:42-45 | the user is signed in and exactly one "Login" entry is logged |
| AppShell.App.HandleLogout | src/App.jsx:47-52 | the app is signed out on the signup screen, the view is reset to upload, and exactly one "Logout" entry is logged |
| AppShell.App.HandleSignupToLogin | src/App.jsx:54-56 | the auth screen switches to login |
| AppShell.App.HandleSignup | src/App.jsx:58-70 | an Admin gets id AD_001 and the admin cases view, anyone else IO_001 and the upload view; exactly one "Account Created" entry, under the previous user's name |
| AppShell.App.HandleAdminPanelAccess | src/App.jsx:72-77 | only an Admin gets the admin cases view and one "Admin Panel Access" entry; for anyone else nothing changes |
| AuditLogScreen.Selected | Cognis-frontend/src/components/AuditLog.jsx:13-29 | the view is an order-preserving subsequence of the trail holding exactly the entries that pass both the text search and the action filter |
| AuditLogScreen.SearchInSteps | Cognis-frontend/src/components/AuditLog.jsx:13-29 | applying the text step only for a non-blank query and the action step only for a filter other than "all" gives exactly the selected entries |
| AuditLogScreen.BothSteps | Cognis-frontend/src/components/AuditLog.jsx:16-26 | with both steps active, the kept entries are exactly those satisfying both conditions |
| AuditLogScreen.TextStepOnly | Cognis-frontend/src/components/AuditLog.jsx:16-22 | with the filter at "all", the text step alone gives the selection |
| AuditLogScreen.ActionStepOnly | Cognis-frontend/src/components/AuditLog.jsx:24-26 | with a blank query, the exact, case-sensitive action step alone gives the selection |
| AuditLogScreen.SelectedShowsAll | Cognis-frontend/src/components/AuditLog.jsx:14-28 | a whitespace-only query with the "all" filter shows the trail exactly as it is |
| AuditLogScreen.SelectedAfterLogged | Cognis-frontend/src/components/AuditLog.jsx:31-33 | after a new entry, the view is the new entry (if it passes) in front of the previous view |
| AuditLogScreen.UntrimmedQueryIsMatched | Cognis-frontend/src/components/AuditLog.jsx:16-21 | trimming only decides whether to search; the untrimmed query is matched, so "login " misses a "Login" entry that "login" would find |
| AuditLogScreen.Actions | Cognis-frontend/src/components/AuditLog.jsx:96 | one action per entry, in trail order |
| AuditLogScreen.UniqueActionsSpec | Cognis-frontend/src/components/AuditLog.jsx:96 | the filter offers every action of the trail exactly once and nothing else, in order of first occurrence |
| AuditLogScreen.ActionColor | Cognis-frontend/src/components/AuditLog.jsx:82-94 | the eight known actions get their colours; an action gets grey exactly when it is not one of them |
| AuditLogScreen.AuditLogView.constructor | Cognis-frontend/src/components/AuditLog.jsx:9-33 | after mounting, the query is empty, the filter is "all" and the whole trail shows |
| AuditLogScreen.AuditLogView.HandleSearch | Cognis-frontend/src/components/AuditLog.jsx:13-29 | the shown entries become exactly the selection for the current query and filter |
| AuditLogScreen.AuditLogView.ReceiveLogs | Cognis-frontend/src/components/AuditLog.jsx:31-33 | a new trail re-runs the search over it; a trail that only gained an entry in front changes an up-to-date view only by that entry, at its head |
| AuditLogScreen.AuditLogView.SetSearchQuery | Cognis-frontend/src/components/AuditLog.jsx:31-33 | a new query re-runs the search with it |
| AuditLogScreen.AuditLogView.SetFilterAction | Cognis-frontend/src/components/AuditLog.jsx:31-33 | a new filter re-runs the search with it |
| Chat.Send | src/components/SearchResults.jsx:33-48 | a blank input changes nothing; otherwise the typed text becomes message length+1, the input clears, typing shows, and a reply with id length+2 is due |
| Chat.AnswerTo | src/components/SearchResults.jsx:90-96 | the answer carries the id reserved at send time, the topic of the query as sent, and that topic's citations |
| Chat.Reply | src/components/SearchResults.jsx:50-53 | the timer appends the answer to the oldest pending query and hides the typing indicator; the input is left alone |
| Chat.SendKeepsValid | src/components/SearchResults.jsx:36-47 | a send keeps message ids 1, 2, ... in order, with at most one reply due exactly while typing shows |
| Chat.ReplyKeepsValid | src/components/SearchResults.jsx:50-53 | a reply keeps the same invariant |
| Chat.TurnAppendsQueryThenAnswer | src/components/SearchResults.jsx:33-56 | a whole turn appends the user message and then its answer with the next two ids, and leaves the screen ready for the next query |
| Chat.QueryLoggedBeforeResponse | src/components/SearchResults.jsx:44-55 | "AI Query Sent" is logged before "AI Response Generated", with consecutive ids, both quoting the query |
| Chat.QueryLogged | src/components/SearchResults.jsx:34-45 | a blank input logs nothing; otherwise exactly one "AI Query Sent" is prepended |
| Chat.Conversation.constructor | src/components/SearchResults.jsx:7-17 | a screen mounts with the opening message (id 1), an empty input and no typing indicator |
| Chat.Conversation.SetInputMessage | src/components/SearchResults.jsx:186 | typing changes only the input |
| Chat.Conversation.HandleSendMessage | src/components/SearchResults.jsx:33-48 | the new state is the send rule's, and the trail gains the query entry unless the input was blank; from a well-formed state that is not typing, the state stays well formed (ids 1..n, at most one reply due, due exactly while typing) |
| Chat.Conversation.DeliverReply | src/components/SearchResults.jsx:50-55 | the new state is the reply rule's, and one "AI Response Generated" entry quotes the query that started the timer; a well-formed state stays well formed |
| Chat.Conversation.ClickSend | src/components/SearchResults.jsx:206-208 | the disabled button (blank input or typing) does nothing; otherwise a click is a send; a well-formed state stays well formed |
| SearchScreen.Classify | src/components/SearchResults.jsx:58-97 | the lowercased query is Evidence iff it holds an evidence word; Timeline iff not that and a time word; Connections iff neither and a connection word; General otherwise |
| SearchScreen.Citations | src/components/SearchResults.jsx:61-78 | every topic cites something, always MSG_001 and CALL_001, never one source twice |
| SearchScreen.ClassifyIgnoresCase | src/components/SearchResults.jsx:59 | queries equal up to letter case get the same topic, hence the same answer and citations |
| SearchScreen.TimelineNeedsOnlyTime | src/components/SearchResults.jsx:84 | "timeline" never decides alone: the time group matches iff "time" or "when" occurs |
| SearchScreen.NewConversation | src/components/SearchResults.jsx:7-19 | the screen mounts with this screen's classifier and citations |
| SearchScreen.HandleKeyDown | src/components/SearchResults.jsx:99-104 | Enter without Shift sends and any other key, Shift+Enter included, does nothing; the disabled input takes no keys while typing |
| ChatPanel.Classify | Cognis-frontend/src/components/ChatAssistant.jsx:45-77 | Crypto iff the lowercased query holds "crypto" or "bitcoin"; otherwise Timeline iff it holds "timeline" or "time"; General otherwise |
| ChatPanel.Citations | Cognis-frontend/src/components/ChatAssistant.jsx:46-59 | crypto cites MSG_001, MSG_047, MSG_089, TXN_002, TXN_015; timeline six sources; general MSG_001, CALL_001, CONTACT_001; none twice |
| ChatPanel.ClassifyIgnoresCase | Cognis-frontend/src/components/ChatAssistant.jsx:61 | queries equal up to letter case get the same topic |
| ChatPanel.WhenIsOnlyASearchKeyword | Cognis-frontend/src/components/ChatAssistant.jsx:64-68 | "when" is not a keyword here: a query whose only keyword is "when" gets the general answer here and the timeline answer on the search screen |
| ChatPanel.NewConversation | Cognis-frontend/src/components/ChatAssistant.jsx:8-18 | the panel mounts with its own classifier and citations |
| ChatPanel.HandleKeyPress | Cognis-frontend/src/components/ChatAssistant.jsx:164-165 | Enter sends, with or without Shift; the disabled input takes no keys while typing |
| Network.NodeAt | Cognis-frontend/src/components/NetworkDashboard.jsx:88-91 | the result is the first node in list order whose disc, rim included, holds the click; none exactly when no disc holds it |
| Network.OverlapGoesToEarlier | Cognis-frontend/src/components/NetworkDashboard.jsx:88-91 | where discs overlap, the earlier node wins whatever the distances |
| Network.HitTestBoundary | Cognis-frontend/src/components/NetworkDashboard.jsx:89-90 | a click exactly on John Doe's rim selects him; one pixel further selects nothing |
| Network.NodeById | Cognis-frontend/src/components/NetworkDashboard.jsx:46-47 | the found node is listed and has the id; nothing is found exactly when no node has it |
| Network.DrawnEdges | Cognis-frontend/src/components/NetworkDashboard.jsx:45-57 | the drawing strokes, in order, exactly the edges whose two endpoints are found |
| Network.NodeIdsDistinct | Cognis-frontend/src/components/NetworkDashboard.jsx:19-24 | node ids are distinct |
| Network.EdgesJoinListedNodes | Cognis-frontend/src/components/NetworkDashboard.jsx:18-31 | every edge's from and to are node ids |
| Network.AllEdgesDrawn | Cognis-frontend/src/components/NetworkDashboard.jsx:44-57 | hence the drawing skips no edge of the table |
| Network.NetworkDashboard.constructor | Cognis-frontend/src/components/NetworkDashboard.jsx:9-10 | no node is selected and the query is empty |
| Network.NetworkDashboard.HandleCanvasClick | Cognis-frontend/src/components/NetworkDashboard.jsx:81-97 | a click on a node selects it and logs one "Node Selected"; a click outside every node changes nothing and logs nothing |
| Network.NetworkDashboard.SetSearchQuery | Cognis-frontend/src/components/NetworkDashboard.jsx:181 | typing changes only the query |
| Network.NetworkDashboard.HandleSearch | Cognis-frontend/src/components/NetworkDashboard.jsx:99-103 | one "Network Search" quoting the query as typed, only when the trimmed query is not empty |
| Admin.FindInvestigator | src/components/AdminPanel.jsx:51 | the found investigator is listed and has the id; nothing is found exactly when no investigator has it |
| Admin.Assigned | src/components/AdminPanel.jsx:54-58 | only the cases with the id change, to the investigator's name and Active; the others and the length stay |
| Admin.AssignedKeepsIds | src/components/AdminPanel.jsx:54-58 | assignment keeps every case id in place |
| Admin.AssignUnknownCase | src/components/AdminPanel.jsx:54-58 | an id that names no case leaves the list unchanged |
| Admin.AssignIdempotent | src/components/AdminPanel.jsx:54-58 | assigning twice is assigning once |
| Admin.AssignedKeepsNumbered | src/components/AdminPanel.jsx:54-58 | assignment keeps the case ids distinct and numbered |
| Admin.AssignChangesAtMostOne | src/components/AdminPanel.jsx:54-58 | with distinct ids, an assignment changes at most one case |
| Admin.CaseIdShape | src/components/AdminPanel.jsx:66 | a case id is "CASE-2024-" and at least three digits; numbers from 1000 on are not padded |
| Admin.PaddedNumberReadsBack | src/components/AdminPanel.jsx:66 | the zero-padded number reads back as the number |
| Admin.CaseIdInjective | src/components/AdminPanel.jsx:66 | distinct numbers give distinct case ids |
| Admin.CaseIdOneDigit | src/components/AdminPanel.jsx:66 | a one-digit number is padded with two zeros |
| Admin.SeedNumbered | src/components/AdminPanel.jsx:10-35 | the seed cases are CASE-2024-001..003, distinct |
| Admin.NextCaseIdIsFresh | src/components/AdminPanel.jsx:66 | the id a new case gets is not yet taken |
| Admin.NewCaseRecord | src/components/AdminPanel.jsx:67-74 | Active with the chosen assignee iff one was chosen (not empty, not "unassigned"); otherwise Pending and Unassigned |
| Admin.Created | src/components/AdminPanel.jsx:76 | the list grows by one, with the new case numbered length+1 in front and the old list behind it |
| Admin.CreatedKeepsNumbered | src/components/AdminPanel.jsx:63-80 | creating keeps the case ids distinct and numbered |
| Admin.StatusColor | src/components/AdminPanel.jsx:82-90 | Active green, Pending yellow, Completed blue, On Hold red; a status gets grey exactly when it is none of them |
| Admin.AdminPanel.constructor | src/components/AdminPanel.jsx:10-48 | the panel starts with the seed cases and the empty form |
| Admin.AdminPanel.HandleAssignCase | src/components/AdminPanel.jsx:50-61 | an unknown investigator changes and logs nothing; otherwise the assignment happens and one "Case Assignment" is logged, even when no case has the id |
| Admin.AdminPanel.HandleCreateCase | src/components/AdminPanel.jsx:63-80 | a blank name changes and logs nothing; otherwise the case is created, one "Case Created" is logged and the form is reset |
| Admin.AdminPanel.SetName | src/components/AdminPanel.jsx:120 | only the form's name changes |
| Admin.AdminPanel.SetAssignedTo | src/components/AdminPanel.jsx:126 | choosing "unassigned" stores the empty string; any other choice is stored as is |
| Admin.AdminPanel.SetDescription | src/components/AdminPanel.jsx:142 | only the form's description changes |
| Upload.Uploaded | Cognis-frontend/src/components/LandingUpload.jsx:50-56 | the new Processing entry, numbered length+1, is followed by at most the first two old entries in order, so the list never exceeds three |
| Upload.Completed | Cognis-frontend/src/components/LandingUpload.jsx:60-66 | only the entries with the id become Complete; all other fields, the order and the length stay |
| Upload.CompletedIdempotent | Cognis-frontend/src/components/LandingUpload.jsx:60-66 | completing the same id twice is completing it once |
| Upload.RepeatedUploadsShareAnId | Cognis-frontend/src/components/LandingUpload.jsx:51-56 | ids are not unique: two uploads from the seed list are both numbered 4, and completing either marks both |
| Upload.DragActiveAfter | Cognis-frontend/src/components/LandingUpload.jsx:14-22 | dragenter and dragover set the highlight, dragleave clears it, any other event leaves it |
| Upload.LandingUpload.constructor | Cognis-frontend/src/components/LandingUpload.jsx:7-12 | no highlight, the seed ingestions, no timers |
| Upload.LandingUpload.HandleDrag | Cognis-frontend/src/components/LandingUpload.jsx:14-22 | the highlight follows the drag rule |
| Upload.LandingUpload.HandleFileUpload | Cognis-frontend/src/components/LandingUpload.jsx:35-68 | the mock case goes to the shell, then one "File Uploaded" quoting the name is logged, the list takes the upload and its completion timer starts |
| Upload.LandingUpload.HandleDrop | Cognis-frontend/src/components/LandingUpload.jsx:24-33 | the highlight clears; only the first file, if any, is uploaded and its completion timer queued; with no file nothing else changes |
| Upload.LandingUpload.CompleteProcessing | Cognis-frontend/src/components/LandingUpload.jsx:59-67 | the oldest timer's id is completed in place, entry by entry, and the cap of three is kept |
| SignupForm.WithField | src/components/Signup.jsx:18-20 | the named field takes the value; every other field keeps its own |
| SignupForm.ValidateForm | src/components/Signup.jsx:22-40 | each message appears exactly when its check is the first to fail (fill, match, length, '@'); null exactly when all pass; the confirmation is not part of the fill check |
| SignupForm.PasswordLengthBoundary | src/components/Signup.jsx:31-33 | a five-character password is refused and a six-character one accepted |
| SignupForm.EmptyConfirmationIsAMismatch | src/components/Signup.jsx:23-29 | an empty confirmation is reported as a mismatch, not as a missing field |
| SignupForm.Signup.constructor | src/components/Signup.jsx:8-16 | empty form, no spinner, no error |
| SignupForm.Signup.HandleInputChange | src/components/Signup.jsx:18-20 | only the named field changes |
| SignupForm.Signup.HandleSubmit | src/components/Signup.jsx:42-47 | the spinner shows and the error clears; the username, email and role are queued for the shell; the form's own checks do not run |
| SignupForm.Signup.CompleteSubmit | src/components/Signup.jsx:48-55 | the shell's signup runs on the data captured at submit time: the new user, the admin cases view for an Admin and the upload view otherwise, one "Account Created"; the spinner stops |
| Report.LevelColor | src/components/ReportGeneration.jsx:70-74 | Critical red, High orange, Medium yellow, Low blue; grey exactly for any other level |
| Report.Description | src/components/ReportGeneration.jsx:210 | the description is absent exactly when the significance holds no " - "; otherwise it is a part of the significance that holds no " - " |
| Report.SignificanceColor | src/components/ReportGeneration.jsx:68-76 | the colour is the level colour of the text before the first " - ", grey exactly when that text is not a level |
| Report.SignificanceOfLevel | src/components/ReportGeneration.jsx:68-76 | for "level - text" the label is the level, the colour is the level's whatever the text, and the description is the text up to any further " - " |
| Report.SignificanceWithoutSeparator | src/components/ReportGeneration.jsx:208-210 | without " - " the whole significance is the label and there is no description |
| Report.EvidenceIdsDistinct | src/components/ReportGeneration.jsx:18-46 | evidence ids are distinct |
| Report.LevelDecidesColor | src/components/ReportGeneration.jsx:68-76 | a significance starting with a known level and " - " never gets grey |
| Report.EvidenceLevelsKnown | src/components/ReportGeneration.jsx:18-46 | every significance in the table starts with one of the four levels |
| Report.HandleExportPDF | src/components/ReportGeneration.jsx:56-60 | exactly one "Report Exported" entry with the PDF detail |
| Report.HandleExportDOCX | src/components/ReportGeneration.jsx:62-66 | exactly one "Report Exported" entry with the DOCX detail |
| ConversationRoute.Selected | backend/app/api/routes/conversation.py:34-44 | at most limit artifacts, all of the file; if any artifact of the file matches, only matching ones, as many as the limit allows; otherwise that many of the file's artifacts whatever their text; no row is reported more often than it is stored |
| ConversationRoute.SelectedSeesOnlyTheFile | backend/app/api/routes/conversation.py:36-44 | artifacts of other files never change the selection |
| ConversationRoute.Snippet | backend/app/api/routes/conversation.py:47-50 | "[type] " and then a prefix of the text (NULL as empty) of at most 800 characters, the whole text exactly when it fits |
| ConversationRoute.BuildSnippets | backend/app/api/routes/conversation.py:46-50 | the loop yields one snippet per selected artifact, in order |
| ConversationRoute.ConvQuery | backend/app/api/routes/conversation.py:15-60 | the handler's result is the route's rule: the checks in order, then the reply built from the selection (file ids compared as strings) |
| ConversationRoute.ConvFailures | backend/app/api/routes/conversation.py:18-32 | with file ids compared as strings, the request fails exactly for a bad parameter (422), an unknown file (404, before any search) or an all-whitespace query (400), and the first that applies decides; malformed UUIDs are not modelled |
| ConversationRoute.ConvReply | backend/app/api/routes/conversation.py:46-60 | the reply echoes the query and file, num_matches is the snippet count, at most limit, at most 25, the answer starts with the header and holds every snippet |
| ConversationRoute.AnswerHoldsSnippets | backend/app/api/routes/conversation.py:53 | every snippet can be found in the answer |
| ConversationRoute.AnswerCountReadsBack | backend/app/api/routes/conversation.py:53 | the answer starts by echoing the query, and the number that follows reads back as the snippet count |
| Text.Tokens | backend/app/api/routes/conversation.py:30 | the terms are non-empty and hold no whitespace, so stripping them changes nothing and drops none |
| Text.TokensKeepText | backend/app/api/routes/conversation.py:30 | the terms, run together, are the query without its whitespace |
| Text.TokensEmptyIff | backend/app/api/routes/conversation.py:30-32 | there is no term exactly when the query is all whitespace |
| Text.TrimEmptyIff | Cognis-frontend/src/components/AuditLog.jsx:16 | trimming leaves nothing exactly when the text is all whitespace |
| Text.Contains | Cognis-frontend/src/components/AuditLog.jsx:18-20 | the result is true exactly when the text occurs at some position |
| Text.ParseDecimalString | src/components/AdminPanel.jsx:66 | the rendered number reads back as the number |
| Text.PadStart | src/components/AdminPanel.jsx:66 | the text is kept at the end and the fill character makes up the width, if any is missing |
| Seqs.FindBy | src/components/AdminPanel.jsx:51 | the found element is in the list and has the key; nothing is found exactly when no element has it |
| Seqs.Dedup | Cognis-frontend/src/components/AuditLog.jsx:96 | the result holds each value of the input once and nothing else |
| Seqs.DedupOrder | Cognis-frontend/src/components/AuditLog.jsx:96 | the values come out in order of first occurrence |

## Left out

- Rendering: the JSX markup, icons, Tailwind classes, canvas drawing calls and the signup
  background particles are not modelled. The same goes for the rendering-only helpers: the
  action and entity icons and the ingestion status colours of the upload screen.
- React scheduling is not modelled. Each handler updates the newest state, and `App` passes
  the newest audit trail to every log call.
- Chat.Conversation.DeliverReply: logs onto the current trail. In the running screens the
  timer calls the `addAuditLog` of the render that sent the query. That call rebuilds from the
  trail as it was then, so the response entry can replace the query entry and reuse its id.
- Chat.Content: the canned answer texts and the opening messages are represented by their
  topic, not their wording.
- Clock readings (`new Date()`, `toLocaleString`, `toISOString`) are string parameters.
- Text.LowerChar: lowercases the ASCII letters only; `toLowerCase` and PostgreSQL's `ILIKE`
  also fold other letters.
- SignupForm.ValidateForm: counts the password's length in Unicode scalar values. JavaScript
  counts UTF-16 code units, so a password with characters outside the Basic Multilingual Plane
  can pass the length check there and fail it here.
- Network.NodeAt: click coordinates are whole numbers, and the rim test compares squared
  distances. The browser gives fractional coordinates and takes a square root.
- SignupForm.Signup.HandleSubmit: the browser's constraint check on the `type="email"` input is
  not modelled. It stops a submit whose email is non-empty and malformed before the handler
  runs.
- The `alert` calls of the report exports are not modelled.
- The floating chat button and the open/close state of the chat panel are not modelled. The
  login screen's link back to signup is not modelled either: `Login.jsx` and `Sidebar.jsx`
  are not part of this model.
- The "connections" figures of the dashboard's entity list are display literals. They are not
  modelled and not related to the edge table.
- ConversationRoute.Selected: matches each term as a plain substring. `ILIKE` treats `%` and
  `_` in a term as wildcards and `\` as an escape, so such terms can match more (or fail) in
  the database.
- ConversationRoute.Selected: takes the rows in the order of the given sequence. The queries
  have no ORDER BY, so the database may return any of the matching rows. Only membership,
  the matching rule, the count and the absence of repeated rows carry over.
- ConversationRoute.ConvQuery: the authentication dependency (401), the database session,
  and the framework's 422 error body are not modelled. The default `limit` of 5 is passed
  explicitly.
- ConversationRoute.ConvQuery: file ids are compared as strings, one stored spelling per
  file. The id columns are UUIDs and the path parameter is parsed as one, so a malformed id
  raises a database error (500) where the model answers 404. Another spelling of a stored id
  (upper case, no hyphens) finds the file in the database and is a 404 in the model.
- ConversationRoute.ConvFailures: for the same reason its "exactly" holds only for ids written
  in their stored spelling; the 500 for a malformed id is not one of its cases.
