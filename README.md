# intervals-time-tracker in Dafny

A Dafny model of the logic inside a small PyQt front-end for the Intervals
time-tracking service. The user types a comma-separated list of public task
ids (`localid`). The program:
- looks up each task;
- checks its internal `id` and `projectid`;
- opens one time-entry window per task that resolves.

A time-entry window offers eight rows, each a description text and a
work-type combo box. On submit, every complete row becomes one
`POST /time/`. The window then reports how many entries were created and
which rows failed.

The model has seven modules, one per file:

- `Wrappers` (`wrappers.dfy`): `Option` and `Result`.
- `Seqs` (`seqs.dfy`): the last element of a sequence, the rest, and the
  rearrangements of concatenations the loop proofs use.
- `Text` (`text.dfy`): the Python string operations the program relies on.
  - `str.strip()`, with Python's whitespace set.
  - `s.split(',')` and `','.join(...)`.
  - The task-id comprehension `[t.strip() for t in text.split(',') if t.strip()]`.
  - `int(str)` in base 10: surrounding whitespace, a sign, ASCII digits and
    single underscores between digits. `int()` skips less whitespace than
    `str.strip()` removes: the information separators U+001C to U+001F are
    whitespace to `str.strip()` but make `int()` fail.
  - `str(int)`.
- `Json` (`json.dfy`): a decoded JSON value, and three Python operations on it:
  - truth testing;
  - `int()`, which accepts ints, bools, floats (truncated toward zero) and
    decimal strings;
  - `dict.get`.
- `ApiClient` (`api_client.dfy`): the REST client.
  - The request each call sends.
  - The decoders of `GET /me/`, `GET /task/?localid=` and
    `GET /projectworktype/?projectid=`.
  - The payloads of `POST /time/` and `POST /tasknote/`.
  - The class `IntervalsApi`, which fixes the caller's person id once, when
    it is made. The network is an oracle: a client holds the replies still
    to come (`replies`) and the log of requests sent (`sent`). Each request
    consumes one reply, and one with no reply left fails as an unanswered
    connection does.
- `TimeEntryUi` (`time_entry_window.dfy`): the class `TimeEntryWindow`.
  - Its rows and combo boxes, built by nested loops as `__init__` builds them.
  - The classification of a row on submit.
  - The submit loop, proved against the function `Submission`: the loop's
    state after the rows seen so far.
  - The closing summary.
- `TaskListUi` (`task_list_window.dfy`): the class `TaskListWindow`.
  - Its `timeWindows` list.
  - `on_load_task`, proved against the function `LoadText` and the
    per-piece functions `LoadPart` → `LookUp` → `Resolve` → `OpenFor`.

Messages are values, not text:
- `Notice` for the task-id window;
- `RowError` and `Summary` for the time-entry window;
- `WindowNotice` for the two messages shown while a window is made.

Some exceptions in the program are not caught by `on_load_task`:
- a task lookup that returns something other than an object, on which
  `.get` raises AttributeError;
- a work type that is not an object, on which the combo-box loop raises
  AttributeError.

Such an exception ends the loop. Under PyQt5 5.5 and later, an exception
that escapes a slot also calls `qFatal`, which by default aborts the whole
application. The model reports it as `crashed`. After it, no later piece is
handled.

Behaviour a reader may not expect, kept as the code has it:
- A task lookup returns the first element of any non-empty `task` list
  (not only a one-element one).
- When there is no usable `task` list, the lookup returns the whole body if
  it has a `projectid` key.
- The status check of lookups and posts is `raise_for_status`. It rejects
  only 4xx and 5xx codes, while `GET /me/` demands exactly 200.
- Hours are never validated: every entry is sent with 1.0 hours.

## Model

| member | source | states |
|---|---|---|
| Text.Strip | ui/task_list_window.py:46 | `str.strip()` leaves no whitespace at either end; the result is empty exactly when the text is all whitespace |
| Text.StripSurrounded | ui/task_list_window.py:46 | stripping removes exactly the whitespace around a trimmed core, and nothing of the core |
| Text.StripIdempotent | ui/task_list_window.py:51 | stripping a stripped piece again changes nothing |
| Text.SplitPiecesLackSeparator | ui/task_list_window.py:51 | no piece of `text.split(',')` holds a comma |
| Text.JoinSplit | ui/task_list_window.py:51 | joining the pieces of a split with the separator gives back the text |
| Text.SplitJoin | ui/task_list_window.py:51 | splitting a join of separator-free pieces gives back the pieces |
| Text.SplitConcat | ui/task_list_window.py:51 | the split of `a,b` is the split of `a` followed by the split of `b` |
| Text.KeepStripped | ui/task_list_window.py:51 | the comprehension keeps only non-empty stripped pieces and never adds one |
| Text.KeepStrippedPiece | ui/task_list_window.py:51 | one piece becomes its strip, or nothing when the strip is empty |
| Text.KeepStrippedMembers | ui/task_list_window.py:51 | a text is kept exactly when it is non-empty and the strip of some piece |
| Text.KeepStrippedConcat | ui/task_list_window.py:51 | the comprehension keeps input order: on a concatenation it is the concatenation of the results |
| Text.IdParts | ui/task_list_window.py:51 | every id piece is non-empty and already stripped |
| Text.IdPartsConcat | ui/task_list_window.py:51 | the pieces of `a,b` are those of `a` followed by those of `b` |
| Text.IdPartsPiece | ui/task_list_window.py:51 | a piece without a comma gives its strip as its one id, or no id when it is blank |
| Text.IdPartsPadded | ui/task_list_window.py:51 | an id with whitespace around it and no comma gives that id alone |
| Text.IdPartsBlank | ui/task_list_window.py:51 | a blank piece gives no id |
| Text.IdPartsJoin | ui/task_list_window.py:51 | clean ids joined with commas split back into exactly those ids, in order |
| Text.Split | ui/task_list_window.py:51 | definition of `text.split(',')`; properties in `SplitPiecesLackSeparator`, `JoinSplit`, `SplitJoin`, `SplitConcat` |
| Text.ParseInt | ui/task_list_window.py:58 | `int(part)` succeeds only on text that is not all whitespace and holds no information separator; exactly which texts it accepts, and their values, in `ParsedTextIsSignedDigits` (necessary) and `ParseIntAccepts` (sufficient) |
| Text.DigitStringChars | ui/task_list_window.py:58 | a digit string holds only digits and underscores, begins and ends with a digit, and every underscore is followed by a digit |
| Text.SignedDigitsChars | ui/task_list_window.py:58 | a text without surrounding whitespace that `int()` accepts is an optional sign, then a digit, then digits with single underscores between them, ending in a digit |
| Text.ParsedTextIsSignedDigits | ui/task_list_window.py:58 | every text `int()` accepts holds no information separator and is, once stripped, an optional sign followed by a digit string, and its value is that of the digit string, negated after a minus; so a letter, a dot, an inner space, an underscore after the sign or a doubled underscore makes it fail |
| Text.ParseIntOfSigned | ui/task_list_window.py:58 | a signed digit string converts as it stands, with nothing stripped |
| Text.ParseIntPaddedSigned | ui/task_list_window.py:58 | a signed digit string with whitespace that `int()` skips around it converts to its value |
| Text.SignThenDigits | ui/task_list_window.py:58 | an optional sign then a digit string reads as the digits' value, negated after a minus |
| Text.ParseIntAccepts | ui/task_list_window.py:58 | every text of the accepted shape converts: skipped whitespace, an optional sign, a digit string (leading zeros allowed), skipped whitespace, with the digits' value, negated after a minus |
| Text.ParseIntLeadingZeros | ui/task_list_window.py:58 | `int("007")` is 7 |
| Text.ParseIntPadded | ui/task_list_window.py:58 | the decimal text of n with whitespace that `int()` skips around it converts to n |
| Text.ParseIntRejectsInfoSeparator | ui/task_list_window.py:58-61 | `str.strip()` removes a leading U+001C, but `int("\x1c5")` fails |
| Text.ParseIntRejectsTrailingSeparator | ui/task_list_window.py:58-61 | `int("7\x1f")` fails |
| Text.StripTrimmed | ui/task_list_window.py:46 | text with no surrounding whitespace is its own strip |
| Text.ParseIntIgnoresUnderscore | ui/task_list_window.py:58 | `int("1_000")` is 1000 |
| Text.ParseIntSigned | ui/task_list_window.py:58 | `int("-7")` is -7 and `int("+7")` is 7 |
| Text.ParseIntRejectsLetter | ui/task_list_window.py:58-61 | `int("12a")` fails |
| Text.ParseIntRejectsDot | ui/task_list_window.py:58-61 | `int("1.5")` fails: text never converts through a float |
| Text.ParseIntRejectsInnerSpace | ui/task_list_window.py:58-61 | `int("1 2")` fails |
| Text.ParseIntRejectsStrayUnderscore | ui/task_list_window.py:58-61 | `int("1__0")`, `int("_1")` and `int("1_")` fail |
| Text.ParseIntRejectsNoDigits | ui/task_list_window.py:58-61 | empty text and a bare sign fail |
| Text.ParseIntToString | ui/task_list_window.py:58 | `int(str(n)) == n` for every integer |
| Text.IntToString | api_client.py:58 | `str(n)` is non-empty with no surrounding whitespace |
| Text.NatToStringValue | api_client.py:58 | the digits of `str(n)` denote n |
| Json.Truncate | ui/task_list_window.py:70 | `int()` of a float rounds toward zero |
| Json.Truthy | ui/task_list_window.py:98 | definition of Python's truth test on a decoded value; properties in `FalsyValues` |
| Json.FalsyValues | ui/task_list_window.py:98 | exactly `None`, `False`, `0`, `0.0`, `""`, `[]` and `{}` are false |
| Json.DictGet | ui/task_list_window.py:70-98 | definition of `dict.get` with a default; properties in `DictGetStore` |
| Json.DictGetStore | ui/task_list_window.py:70-98 | `get` returns a stored value under its own key, is unaffected by stores under other keys, and gives the default on an empty dict |
| Json.ToInt | ui/task_list_window.py:70 | `int(v)` succeeds exactly on an int, a bool, a float, or a string that `int()` accepts as text, and on a string it is the text conversion |
| Json.ToIntOfNumberOrText | ui/task_list_window.py:70 | an integer sent as a JSON number, a float or its decimal text converts back to itself |
| ApiClient.TaskRequestNamesTask | api_client.py:58 | the task URL is the fixed prefix followed by text that parses back to the requested localid |
| ApiClient.WorktypesRequestNamesProject | api_client.py:81 | the work-type URL carries the project id (which parses back) between the fixed prefix and `&limit=100` |
| ApiClient.TimeEntryPayload | api_client.py:108-116 | definition of the `POST /time/` body; properties in `TimeEntryPayloadFields` |
| ApiClient.TaskNotePayload | api_client.py:124-128 | definition of the `POST /tasknote/` body; properties in `TaskNotePayloadFields` |
| ApiClient.TimeEntryPayloadFields | api_client.py:108-116 | a time entry has exactly the seven keys, the hours under `time`, each field the argument given |
| ApiClient.TaskNotePayloadFields | api_client.py:124-128 | a task note has exactly three keys, `public` is always `"f"`, and taskid and note are unchanged |
| ApiClient.DecodeMe | api_client.py:27-50 | definition of `_get_my_personid` on one reply; properties in `DecodeMeChecksStatusFirst` |
| ApiClient.PersonIdFrom | api_client.py:35-50 | definition of the person-id lookup in a decoded body; properties in `PersonIdFieldDecides`, `PersonIdNoFallback`, `PersonIdFromMe`, `PersonIdShapesAgree` |
| ApiClient.DecodeMeChecksStatusFirst | api_client.py:27-33 | a status other than 200, then a non-JSON body, fails before the shape is looked at; success needs an object body |
| ApiClient.PersonIdFieldDecides | api_client.py:35-39 | when `personid` is present it alone decides the result: success exactly when it converts, with that value; `me` is never consulted |
| ApiClient.PersonIdNoFallback | api_client.py:36-39 | a `personid` that does not convert is an error, even when `me` would give an id |
| ApiClient.PersonIdFromMe | api_client.py:41-50 | without `personid`, success exactly when `me[0].id` exists and converts, with its value; any other shape fails |
| ApiClient.PersonIdShapesAgree | api_client.py:35-48 | both accepted shapes, with the id as number or decimal text, give the same person id whatever else the body holds |
| ApiClient.DecodeTaskDetails | api_client.py:60-74 | definition of `get_task_details` on one reply; properties in `TaskDetailsAreFirstElement` |
| ApiClient.TaskFrom | api_client.py:65-74 | definition of the task lookup in a decoded body, including Python's `in` on a list or string body; properties in `TaskFromObject` |
| ApiClient.TaskFromObject | api_client.py:65-74 | on an object: exactly `task[0]` when `task` is a non-empty list, else the object itself when it has `projectid`, else failure |
| ApiClient.TaskDetailsAreFirstElement | api_client.py:60-67 | a non-4xx/5xx reply with a non-empty task list yields its first element untouched, whatever else the reply holds |
| ApiClient.DecodeWorktypes | api_client.py:83-92 | definition of `get_worktypes_for_project` on one reply; properties in `WorktypesShapesAgree` |
| ApiClient.WorktypesFrom | api_client.py:86-92 | definition of the work-type list in a decoded body; properties in `WorktypesShapesAgree` |
| ApiClient.WorktypesShapesAgree | api_client.py:86-92 | a bare list and a list under `projectworktype` are returned unchanged; an object without such a list fails |
| ApiClient.DecodeReceipt | api_client.py:118-119 | definition of the reply to a POST; properties in `ReceiptCallAccepted` |
| ApiClient.ReceiptCallAccepted | api_client.py:117-119 | a POST succeeds exactly when a reply comes that is not 4xx/5xx and is JSON, and yields its body |
| ApiClient.IntervalsApi.Connect | api_client.py:10-50 | a client exists exactly when the `/me/` call succeeds; it keeps that person id and the token, one request sent |
| ApiClient.IntervalsApi.GetTaskDetails | api_client.py:52-74 | one `GET /task/?localid=` logged, one reply consumed, the result decoded from that reply |
| ApiClient.IntervalsApi.GetWorktypesForProject | api_client.py:76-92 | one `GET /projectworktype/` logged, one reply consumed, the result decoded from that reply |
| ApiClient.IntervalsApi.CreateTimeEntry | api_client.py:94-119 | one `POST /time/` logged whose payload uses the cached person id; success exactly on a non-4xx/5xx JSON reply |
| ApiClient.IntervalsApi.CreateTaskNote | api_client.py:121-132 | one `POST /tasknote/` logged with the note payload; success exactly on a non-4xx/5xx JSON reply |
| TimeEntryUi.WorktypeItem | ui/time_entry_window.py:84-89 | a work type's item always stores an id, unlike the placeholder; its caption is the `worktype` value, or the fixed label when the key is absent |
| TimeEntryUi.LoadedWorktypes | ui/time_entry_window.py:57-61 | definition of the work types a window keeps; properties in `OpeningNoticesCases` |
| TimeEntryUi.OpeningNotices | ui/time_entry_window.py:57-65 | definition of the messages shown while a window is made; properties in `OpeningNoticesCases` |
| TimeEntryUi.OpeningNoticesCases | ui/time_entry_window.py:57-65 | a failed load shows its error and then the empty-list warning; an empty list shows the warning alone; a non-empty one shows nothing; the warning appears exactly when the kept list is empty |
| TimeEntryUi.WorktypeId | ui/time_entry_window.py:85-88 | the id is 0 when `worktypeid` is absent or does not convert, and the converted value otherwise |
| TimeEntryUi.ComboItems | ui/time_entry_window.py:82-89 | a combo box holds the placeholder with no id first, then one item per work type, in the order received |
| TimeEntryUi.ComboItemsSnoc | ui/time_entry_window.py:83-89 | each work type handled appends exactly its own item |
| TimeEntryUi.BlankRows | ui/time_entry_window.py:68-94 | a new window has exactly MAX_ROWS = 8 rows, each empty and showing the placeholder of the full combo box |
| TimeEntryUi.Classify | ui/time_entry_window.py:111-123 | blank iff no stripped description and id None or 0; description missing iff no description but an id; work type missing iff a description but no id; complete otherwise, with the stripped description and a non-zero id |
| TimeEntryUi.ClassifyTrimmed | ui/time_entry_window.py:111 | a description without surrounding whitespace is sent as typed |
| TimeEntryUi.Step | ui/time_entry_window.py:111-138 | definition of one pass of the submit loop; properties in `StepAddsAtMostOneError`, `SubmissionPrefix` |
| TimeEntryUi.Submission | ui/time_entry_window.py:110-138 | definition of the submit loop over the rows; properties in `SubmissionRequests`, `SubmissionPartition`, `SubmissionErrorOrder`, `SubmissionRowByRow`, `SubmissionAllAccepted` |
| TimeEntryUi.SubmissionPrefix | ui/time_entry_window.py:110-138 | the loop state after row i + 1 is one step from the state after row i |
| TimeEntryUi.SubmissionRequests | ui/time_entry_window.py:127-135 | exactly the complete rows are sent, in row order, each with the internal task id, its own description and id, the shared date, 1.0 hours and billable; one reply consumed per entry |
| TimeEntryUi.SubmissionPartition | ui/time_entry_window.py:110-138 | every row is exactly one of skipped, reported, or counted as created |
| TimeEntryUi.SubmissionErrorOrder | ui/time_entry_window.py:110-138 | errors carry 1-based row numbers within range, strictly increasing |
| TimeEntryUi.StepAddsAtMostOneError | ui/time_entry_window.py:114-138 | a row adds no error or one error, numbered with that row, after the earlier ones |
| TimeEntryUi.StepMatchesOutcome | ui/time_entry_window.py:114-138 | one row adds exactly its own outcome, judged from the next reply: its error, or one created entry, or nothing |
| TimeEntryUi.RowByRowStep | ui/time_entry_window.py:114-138 | a row handled after a state that agrees with the one-by-one reference keeps it agreeing |
| TimeEntryUi.SubmissionRowByRow | ui/time_entry_window.py:127-138 | failure isolation: errors and count equal those of rows judged one by one from their own contents and their own reply |
| TimeEntryUi.SubmissionAllAccepted | ui/time_entry_window.py:127-138 | when every entry is accepted, the count is the number of complete rows and the errors are those of incomplete rows |
| TimeEntryUi.AllBlankSubmitsNothing | ui/time_entry_window.py:114-116 | rows that are all blank send nothing, report nothing and create nothing |
| TimeEntryUi.FreshWindowSubmitsNothing | ui/time_entry_window.py:68-145 | submitting a window just opened sends no request, uses no reply and reports "0 entries" with no error, as information |
| TimeEntryUi.SubmissionExample | ui/time_entry_window.py:110-145 | rows ("Fix bug", 5), ("", None), ("Review PR", 0) with one accepted reply: one entry sent and created, one work-type error for row 3, summary "entry" as a warning |
| TimeEntryUi.Summarize | ui/time_entry_window.py:140-145 | the noun is "entry" exactly when one entry was created and "entries" otherwise; a warning exactly when there are errors, which are listed |
| TimeEntryUi.TimeEntryWindow.Init | ui/time_entry_window.py:68-94 | the nested loops build exactly `BlankRows`, and the window keeps the arguments it was given |
| TimeEntryUi.TimeEntryWindow.Open | ui/time_entry_window.py:23-94 | one work-type request; a failed load leaves the list empty and warns, an empty list warns; a window exists exactly when every work type is an object |
| TimeEntryUi.TimeEntryWindow.EditRow | ui/time_entry_window.py:74-90 | the user's typing and choice change that row's text and chosen item only; the combo boxes stay as built |
| TimeEntryUi.TimeEntryWindow.Submit | ui/time_entry_window.py:104-145 | the summary, the requests sent and the replies used are those of `Submission` on the rows as shown |
| TimeEntryUi.TimeEntryWindow.SubmitRow | ui/time_entry_window.py:111-138 | one row of the loop does what `Step` says: skip, report, or send and count or report its failure |
| TaskListUi.Title | ui/task_list_window.py:98 | `name` when truthy, else `title` when present, else the empty string |
| TaskListUi.LoadPart | ui/task_list_window.py:56-108 | a piece costs no request exactly when it is not an integer, at most two otherwise, one reply per request; a window needs a parsed id and two requests; an exception escapes exactly when the piece parses and its lookup escapes (`LookUpEscapes`) |
| TaskListUi.LookUpEscapes | ui/task_list_window.py:63-108 | definition of when an exception escapes a lookup: details that are not an object, or ids that check out with work types that are not all objects |
| TaskListUi.LookUp | ui/task_list_window.py:63-108 | the lookup is always the first request of a parsed piece; an exception escapes exactly as `LookUpEscapes` says, so a failed lookup never does |
| TaskListUi.Resolve | ui/task_list_window.py:69-108 | after the lookup, at most the work-type request follows; a window needs it; an exception escapes exactly when the ids check out and the work types are not all objects |
| TaskListUi.OpenFor | ui/task_list_window.py:100-108 | a resolved task sends its work-type request; its window carries the internal id, project id, title and localid; a window exists exactly when nothing escapes, which is exactly when every work type is an object |
| TaskListUi.CheckIds | ui/task_list_window.py:69-96 | definition of the `id` and `projectid` checks; properties in `PartOpensWindow` |
| TaskListUi.LoadParts | ui/task_list_window.py:56-108 | definition of the loop over the id pieces; properties in `LoadPartsAppend`, `BadPartOnlyWarns`, `LaterPartsStillLoad`, `LoadPartsBound` |
| TaskListUi.LoadText | ui/task_list_window.py:45-108 | definition of `on_load_task` on the text typed; properties in `NoIdsNoLookups` and those of `LoadParts` |
| TaskListUi.NoIdsNoLookups | ui/task_list_window.py:46-54 | empty input or an empty id list gives its single warning, no request and no window |
| TaskListUi.PartOpensWindow | ui/task_list_window.py:56-106 | a window opens exactly when the piece parses, the lookup gives an object whose id and non-null projectid convert, and the work types fill the combo boxes; it gets those ids, the parsed localid and the title |
| TaskListUi.BadPartIsSkipped | ui/task_list_window.py:56-61 | a piece that is not an integer gives only its warning and no request |
| TaskListUi.BadPartOnlyWarns | ui/task_list_window.py:56-61 | inserting a bad piece anywhere changes neither the windows, nor the requests, nor the replies used, nor whether the loop crashes |
| TaskListUi.FailedLookupSkips | ui/task_list_window.py:63-67 | a lookup that raises gives its one error message, one request, one reply, no window and no escape |
| TaskListUi.FailedCheckSkips | ui/task_list_window.py:69-96 | an `id` or `projectid` that fails its check gives that check's message, only the lookup request, no window and no escape |
| TaskListUi.FailedTaskSkipsOnlyIt | ui/task_list_window.py:63-96 | a failed lookup or check skips that task only: it adds one message and its lookup, and the later pieces are handled as on their own, on the replies after its one reply |
| TaskListUi.LaterPartsStillLoad | ui/task_list_window.py:56-108 | whatever a piece leads to, short of an escaping exception, the later pieces are handled as on their own, on the replies it left |
| TaskListUi.LoadPartsAppend | ui/task_list_window.py:56-108 | the pieces `a + b` are handled as `a`, then `b` on what `a` left, unless an exception escaped in `a` |
| TaskListUi.LoadPartsBound | ui/task_list_window.py:56-108 | at most one window per piece that parses, and at most two requests each |
| TaskListUi.TaskListWindow.constructor | ui/task_list_window.py:14-21 | a new window keeps the client and has no time windows |
| TaskListUi.TaskListWindow.OpenTaskWindow | ui/task_list_window.py:100-108 | the window of a resolved task is made and appended to `timeWindows`, fresh, with blank rows, as `OpenFor` says |
| TaskListUi.TaskListWindow.ResolveTask | ui/task_list_window.py:69-108 | the checks on id and projectid and the window, as `Resolve` says |
| TaskListUi.TaskListWindow.HandlePart | ui/task_list_window.py:56-108 | one piece parsed, looked up and resolved, as `LoadPart` says |
| TaskListUi.TaskListWindow.LoadStep | ui/task_list_window.py:56-108 | one pass of the loop extends the trace of the earlier pieces |
| TaskListUi.TaskListWindow.LoadIds | ui/task_list_window.py:56-108 | the loop over the id pieces does what `LoadParts` says, and appends one fresh window per task that resolves, in input order |
| TaskListUi.TaskListWindow.LoadTask | ui/task_list_window.py:45-108 | `on_load_task` does what `LoadText` says: messages, requests and replies; `timeWindows` only grows, keeping its old windows, by one fresh window per resolved task in input order |

## Left out

- HTTP transport is left out: the `requests` library, Basic authentication, headers and redirects. A call is a scripted reply (status and decoded body) or no reply. The model keeps the URLs and payloads.
- Turning the response text into JSON is left out. A body is either decoded already, or not JSON.
- JSON floats are real numbers. There is no infinity or NaN, so the OverflowError and ValueError that `int()` raises on them are not modelled.
- `int()` on text accepts ASCII digits only. Python also accepts other Unicode decimal digits.
- Text.ParseInt: does not model the limit of 4300 digits that CPython 3.11 and later (and the security releases of 3.7 to 3.10) put on `int()` of a decimal string. The repository pins no interpreter version. The model converts texts of any length. So a longer id piece is looked up where such an interpreter warns about the format, a longer text `id` or `projectid` converts where it reports an error, and a longer text `worktypeid` is kept where it becomes 0.
- The Qt widgets, layouts, window titles, header labels and the browser link are left out. So are `show()` and garbage collection. A message box is a value; a window is its fields and its rows.
- The TypeError that `QComboBox.addItem` raises when a work-type `worktype` name is not a string is not modelled. The caption is kept as any JSON value.
- The Russian wording of the messages is left out. The model keeps each message's kind, row number, task id and cause.
- `datetime.date.today()` is not modelled. `Submit` takes the date as a parameter.
- The ids a combo box stores are unbounded integers. QVariant's integer width is not modelled.
- `main.py` (the token constant, making the client, the Qt event loop) is not part of this model.
- Nothing calls `create_task_note` in the UI code. The model defines the note request and its payload, and `CreateTaskNote`, but no note step.
- For a top-level `/me/` body that is not an object, the model always fails, as every Python path raises. The Python exception type varies (RuntimeError or TypeError); the model does not tell them apart.
- TaskListUi.TaskListWindow.LoadTask: describes each new window by its constant fields only (client, ids, title, local id and work types). That its rows are blank on opening is stated by `OpenTaskWindow` and `HandlePart`, not carried to this postcondition.
