/** The time-entry window of one task (ui/time_entry_window.py): the
    MAX_ROWS input rows with their work-type combo boxes, how a row is
    classified on submit, the submit loop that sends one POST /time/ per
    complete row, and the summary it reports. The widgets are reduced to
    their state: a row is its description text, its combo items and the
    index of the chosen item. */
module TimeEntryUi {
  import opened Wrappers
  import opened Text
  import opened Json
  import opened Seqs
  import opened ApiClient

  const MaxRows: nat := 8
  const PlaceholderLabel: string := "--- Тип работы ---"
  const UnnamedLabel: string := "<без названия>"

  /** The hours every entry is sent with. */
  const EntryHours: real := 1.0

  // ---------------------------------------------------------------------
  // Combo boxes

  /** One item of a work-type combo box: the text shown and its userData. */
  datatype ComboItem = ComboItem(caption: Json, data: Option<int>)

  const Placeholder: ComboItem := ComboItem(JStr(PlaceholderLabel), None)

  /** int(wt.get("worktypeid", "0")), with 0 when int() raises. */
  function WorktypeId(wt: map<string, Json>): (id: int)
    ensures "worktypeid" !in wt ==> id == 0
    ensures "worktypeid" in wt && ToInt(wt["worktypeid"]).Some? ==> id == ToInt(wt["worktypeid"]).value
    ensures "worktypeid" in wt && ToInt(wt["worktypeid"]).None? ==> id == 0
  {
    ParseIntToString(0);
    match ToInt(DictGet(wt, "worktypeid", JStr("0")))
    case Some(n) => n
    case None => 0
  }

  /** The combo item of one work type: its "worktype" name (a fixed label
      when absent) and its id. */
  function WorktypeItem(wt: Json): (item: ComboItem)
    requires wt.JObj?
    ensures item.data == Some(WorktypeId(wt.fields)) && item.data != Placeholder.data
    ensures "worktype" in wt.fields ==> item.caption == wt.fields["worktype"]
    ensures "worktype" !in wt.fields ==> item.caption == JStr(UnnamedLabel)
  {
    ComboItem(DictGet(wt.fields, "worktype", JStr(UnnamedLabel)), Some(WorktypeId(wt.fields)))
  }

  /** Python reads each work type with .get(), which only a dict has. */
  predicate AllObjects(worktypes: seq<Json>) {
    forall i :: 0 <= i < |worktypes| ==> worktypes[i].JObj?
  }

  /** The items of every row's combo box: the placeholder with no id, then
      one item per work type, in the order received. */
  function ComboItems(worktypes: seq<Json>): (items: seq<ComboItem>)
    requires AllObjects(worktypes)
    ensures |items| == |worktypes| + 1
    ensures items[0] == Placeholder && items[0].data == None
    ensures forall i :: 0 <= i < |worktypes| ==> items[i + 1] == WorktypeItem(worktypes[i])
  {
    [Placeholder] + seq(|worktypes|, i requires 0 <= i < |worktypes| => WorktypeItem(worktypes[i]))
  }

  /** The combo of a prefix of the work types grows by one item per work type. */
  lemma ComboItemsSnoc(worktypes: seq<Json>, j: nat)
    requires AllObjects(worktypes) && j < |worktypes|
    ensures AllObjects(worktypes[..j]) && AllObjects(worktypes[..j + 1])
    ensures ComboItems(worktypes[..j + 1]) == ComboItems(worktypes[..j]) + [WorktypeItem(worktypes[j])]
  {
    var c := ComboItems(worktypes[..j]);
    var a, b := ComboItems(worktypes[..j + 1]), c + [WorktypeItem(worktypes[j])];
    assert |a| == |b|;
    forall k | 0 <= k < |a| ensures a[k] == b[k] {
      if 0 < k <= j {
        assert a[k] == WorktypeItem(worktypes[..j + 1][k - 1]) == WorktypeItem(worktypes[k - 1]);
        assert b[k] == c[k] == WorktypeItem(worktypes[..j][k - 1]);
      } else if k == j + 1 {
        assert a[k] == WorktypeItem(worktypes[..j + 1][j]);
      }
    }
  }

  // ---------------------------------------------------------------------
  // Rows

  /** One input row: the description field's text, the combo box's items
      and the index of the chosen item. */
  datatype RowWidget = RowWidget(text: string, combo: seq<ComboItem>, current: nat)

  /** What on_submit reads of a row: the text and combo.currentData(). */
  datatype RowInput = RowInput(text: string, data: Option<int>)

  predicate ChoiceInRange(rows: seq<RowWidget>) {
    forall i :: 0 <= i < |rows| ==> rows[i].current < |rows[i].combo|
  }

  function RowInputs(rows: seq<RowWidget>): seq<RowInput>
    requires ChoiceInRange(rows)
  {
    seq(|rows|, i requires 0 <= i < |rows| => RowInput(rows[i].text, rows[i].combo[rows[i].current].data))
  }

  /** The rows of a new window: MAX_ROWS empty descriptions, each combo on
      its placeholder. */
  function BlankRows(worktypes: seq<Json>): (rows: seq<RowWidget>)
    requires AllObjects(worktypes)
    ensures |rows| == MaxRows
    ensures forall i :: 0 <= i < |rows| ==> rows[i] == RowWidget([], ComboItems(worktypes), 0)
  {
    seq(MaxRows, _ => RowWidget([], ComboItems(worktypes), 0))
  }

  // ---------------------------------------------------------------------
  // Classifying a row

  /** How on_submit treats one row. */
  datatype RowKind =
    | Blank                                           // skipped silently
    | NoDescription                                   // "description missing"
    | NoWorkType                                      // "work type missing"
    | Complete(description: string, worktypeid: int)  // sent to the service

  /** `not worktypeid`: nothing chosen (the placeholder) or id 0. */
  predicate NoWorkTypeChosen(data: Option<int>) {
    data == None || data == Some(0)
  }

  /** The stripped description and the chosen id decide the kind of a row. */
  function Classify(row: RowInput): (k: RowKind)
    ensures k == Blank <==> Strip(row.text) == [] && NoWorkTypeChosen(row.data)
    ensures k == NoDescription <==> Strip(row.text) == [] && !NoWorkTypeChosen(row.data)
    ensures k == NoWorkType <==> Strip(row.text) != [] && NoWorkTypeChosen(row.data)
    ensures k.Complete? <==> Strip(row.text) != [] && !NoWorkTypeChosen(row.data)
    ensures k.Complete? ==> k.description == Strip(row.text) && k.description != []
    ensures k.Complete? ==> row.data == Some(k.worktypeid) && k.worktypeid != 0
  {
    var description := Strip(row.text);
    if description == [] && NoWorkTypeChosen(row.data) then Blank
    else if description == [] then NoDescription
    else if NoWorkTypeChosen(row.data) then NoWorkType
    else Complete(description, row.data.value)
  }

  // ---------------------------------------------------------------------
  // The submit loop as a function of its inputs

  /** An error reported for a row, with the row's 1-based number. */
  datatype RowError =
    | MissingDescription(row: nat)
    | MissingWorkType(row: nat)
    | CreateFailed(row: nat, cause: Error)

  /** The state of the submit loop: entries created, errors so far, the
      requests sent and the replies still to come. */
  datatype Tally = Tally(successes: nat, errors: seq<RowError>, requests: seq<Request>, replies: seq<Response>)

  /** The POST /time/ of a complete row: the task's internal id, the shared
      date, 1.0 hours, billable. */
  function EntryRequest(taskid: int, personid: int, date: string, description: string, worktypeid: int): Request {
    TimeEntryRequest(TimeEntryPayload(taskid, worktypeid, personid, date, EntryHours, description, true))
  }

  /** One pass of the loop of on_submit: row number `index` handled after
      the state t. */
  function Step(t: Tally, row: RowInput, index: nat, taskid: int, personid: int, date: string): Tally {
    match Classify(row)
    case Blank => t
    case NoDescription => t.(errors := t.errors + [MissingDescription(index)])
    case NoWorkType => t.(errors := t.errors + [MissingWorkType(index)])
    case Complete(description, worktypeid) =>
      var t' := t.(requests := t.requests + [EntryRequest(taskid, personid, date, description, worktypeid)],
                   replies := Remaining(t.replies));
      match ReceiptCall(t.replies)
      case Success(_) => t'.(successes := t.successes + 1)
      case Failure(e) => t'.(errors := t.errors + [CreateFailed(index, e)])
  }

  /** The loop of on_submit after the rows given, row |rows| last. */
  function Submission(rows: seq<RowInput>, taskid: int, personid: int, date: string, replies: seq<Response>): Tally
    decreases |rows|
  {
    if rows == [] then Tally(0, [], [], replies)
    else Step(Submission(AllButLast(rows), taskid, personid, date, replies), Last(rows), |rows|, taskid, personid, date)
  }

  /** The loop state after row i + 1 is one step on from that after row i. */
  lemma SubmissionPrefix(rows: seq<RowInput>, i: nat, taskid: int, personid: int, date: string, replies: seq<Response>)
    requires i < |rows|
    ensures Submission(rows[..i + 1], taskid, personid, date, replies)
      == Step(Submission(rows[..i], taskid, personid, date, replies), rows[i], i + 1, taskid, personid, date)
  {
    assert AllButLast(rows[..i + 1]) == rows[..i];
  }

  // ---------------------------------------------------------------------
  // Reference definitions

  function CountComplete(rows: seq<RowInput>): nat
    decreases |rows|
  {
    if rows == [] then 0
    else CountComplete(AllButLast(rows)) + if Classify(Last(rows)).Complete? then 1 else 0
  }

  function CountBlank(rows: seq<RowInput>): nat
    decreases |rows|
  {
    if rows == [] then 0
    else CountBlank(AllButLast(rows)) + if Classify(Last(rows)) == Blank then 1 else 0
  }

  /** The requests of the complete rows, in row order. */
  function EntryRequests(rows: seq<RowInput>, taskid: int, personid: int, date: string): seq<Request>
    decreases |rows|
  {
    if rows == [] then []
    else
      EntryRequests(AllButLast(rows), taskid, personid, date) +
      match Classify(Last(rows))
      case Complete(description, worktypeid) => [EntryRequest(taskid, personid, date, description, worktypeid)]
      case _ => []
  }

  /** What happens to one row, judged from the row and the reply to its own
      request alone. */
  datatype RowOutcome = Skipped | Created | Rejected(error: RowError)

  function OutcomeOf(row: RowInput, index: nat, reply: Result<Json, Error>): RowOutcome {
    match Classify(row)
    case Blank => Skipped
    case NoDescription => Rejected(MissingDescription(index))
    case NoWorkType => Rejected(MissingWorkType(index))
    case Complete(_, _) => if reply.Success? then Created else Rejected(CreateFailed(index, reply.error))
  }

  /** The outcome of row i (0-based): its reply is the one after those of
      the complete rows before it. */
  function OutcomeAt(rows: seq<RowInput>, replies: seq<Response>, i: nat): RowOutcome
    requires i < |rows|
  {
    OutcomeOf(rows[i], i + 1, ReceiptCall(Drop(replies, CountComplete(rows[..i]))))
  }

  /** The errors of the first n rows, each row judged on its own. */
  function RejectedUpTo(rows: seq<RowInput>, replies: seq<Response>, n: nat): seq<RowError>
    requires n <= |rows|
  {
    if n == 0 then []
    else
      RejectedUpTo(rows, replies, n - 1) +
      match OutcomeAt(rows, replies, n - 1)
      case Rejected(e) => [e]
      case _ => []
  }

  /** The entries created among the first n rows, each row judged on its own. */
  function CreatedUpTo(rows: seq<RowInput>, replies: seq<Response>, n: nat): nat
    requires n <= |rows|
  {
    if n == 0 then 0
    else CreatedUpTo(rows, replies, n - 1) + if OutcomeAt(rows, replies, n - 1) == Created then 1 else 0
  }

  /** The errors of rows that never reach the service. */
  function ValidationErrors(rows: seq<RowInput>): seq<RowError>
    decreases |rows|
  {
    if rows == [] then []
    else
      ValidationErrors(AllButLast(rows)) +
      match Classify(Last(rows))
      case NoDescription => [MissingDescription(|rows|)]
      case NoWorkType => [MissingWorkType(|rows|)]
      case _ => []
  }


  // ---------------------------------------------------------------------
  // What the submit loop promises

  /** Exactly the complete rows reach the service, one POST /time/ each, in
      row order and with the arguments of their own row, whatever the
      service answers; one reply is consumed per request. */
  lemma {:induction false} SubmissionRequests(rows: seq<RowInput>, taskid: int, personid: int, date: string, replies: seq<Response>)
    ensures Submission(rows, taskid, personid, date, replies).requests == EntryRequests(rows, taskid, personid, date)
    ensures Submission(rows, taskid, personid, date, replies).replies == Drop(replies, CountComplete(rows))
    ensures |EntryRequests(rows, taskid, personid, date)| == CountComplete(rows)
    decreases |rows|
  {
    if rows != [] {
      SubmissionRequests(AllButLast(rows), taskid, personid, date, replies);
      RemainingDrop(replies, CountComplete(AllButLast(rows)));
    }
  }

  /** Every row is skipped, reported once, or counted once as created. */
  lemma {:induction false} SubmissionPartition(rows: seq<RowInput>, taskid: int, personid: int, date: string, replies: seq<Response>)
    ensures var t := Submission(rows, taskid, personid, date, replies);
      t.successes + |t.errors| + CountBlank(rows) == |rows|
    decreases |rows|
  {
    if rows != [] {
      SubmissionPartition(AllButLast(rows), taskid, personid, date, replies);
    }
  }

  /** Row numbers between 1 and n, strictly increasing. */
  predicate RowsInOrder(errors: seq<RowError>, n: nat) {
    && (forall i :: 0 <= i < |errors| ==> 1 <= errors[i].row <= n)
    && (forall i, j :: 0 <= i < j < |errors| ==> errors[i].row < errors[j].row)
  }

  /** Errors carry 1-based row numbers and come in increasing row order. */
  lemma {:induction false} SubmissionErrorOrder(rows: seq<RowInput>, taskid: int, personid: int, date: string, replies: seq<Response>)
    ensures RowsInOrder(Submission(rows, taskid, personid, date, replies).errors, |rows|)
    decreases |rows|
  {
    if rows != [] {
      var init := AllButLast(rows);
      SubmissionErrorOrder(init, taskid, personid, date, replies);
      var t := Submission(init, taskid, personid, date, replies);
      StepAddsAtMostOneError(t, Last(rows), |rows|, taskid, personid, date);
      var before, after := t.errors, Submission(rows, taskid, personid, date, replies).errors;
      if after != before {
        forall i | 0 <= i < |after|
          ensures 1 <= after[i].row <= |rows|
        {
          if i < |before| {
            assert after[i] == after[..|before|][i] == before[i];
          }
        }
        forall i, j | 0 <= i < j < |after|
          ensures after[i].row < after[j].row
        {
          assert after[i] == after[..|before|][i] == before[i];
          if j < |before| {
            assert after[j] == after[..|before|][j] == before[j];
          }
        }
      }
    }
  }

  /** Rows that are all blank send nothing, report nothing and create
      nothing. */
  lemma {:induction false} AllBlankSubmitsNothing(rows: seq<RowInput>, taskid: int, personid: int, date: string, replies: seq<Response>)
    requires forall i :: 0 <= i < |rows| ==> Classify(rows[i]) == Blank
    ensures Submission(rows, taskid, personid, date, replies) == Tally(0, [], [], replies)
    decreases |rows|
  {
    if rows != [] {
      var init := AllButLast(rows);
      assert forall i :: 0 <= i < |init| ==> init[i] == rows[i];
      AllBlankSubmitsNothing(init, taskid, personid, date, replies);
      assert Classify(Last(rows)) == Blank;
    }
  }

  /** Submitting a window just opened, whatever its work types, sends no
      request and reports "0 entries" with no error. */
  lemma FreshWindowSubmitsNothing(worktypes: seq<Json>, taskid: int, personid: int, date: string, replies: seq<Response>)
    requires AllObjects(worktypes)
    ensures ChoiceInRange(BlankRows(worktypes))
    ensures var t := Submission(RowInputs(BlankRows(worktypes)), taskid, personid, date, replies);
      && t == Tally(0, [], [], replies)
      && Summarize(t.successes, t.errors) == Summary(0, "entries", [], Information)
  {
    var rows := BlankRows(worktypes);
    assert ChoiceInRange(rows);
    var inputs := RowInputs(rows);
    forall i | 0 <= i < |inputs|
      ensures Classify(inputs[i]) == Blank
    {
      assert inputs[i] == RowInput([], None);
      assert AllSpace([]);
    }
    AllBlankSubmitsNothing(inputs, taskid, personid, date, replies);
  }

  /** A row adds no error or one error, numbered with the row. */
  lemma StepAddsAtMostOneError(t: Tally, row: RowInput, index: nat, taskid: int, personid: int, date: string)
    ensures var e := Step(t, row, index, taskid, personid, date).errors;
      e == t.errors || (|e| == |t.errors| + 1 && e[..|t.errors|] == t.errors && e[|t.errors|].row == index)
  {
  }

  /** One step adds the row's own outcome, judged from the next reply. */
  lemma StepMatchesOutcome(t: Tally, row: RowInput, index: nat, taskid: int, personid: int, date: string)
    ensures var t' := Step(t, row, index, taskid, personid, date);
      var o := OutcomeOf(row, index, ReceiptCall(t.replies));
      && t'.errors == t.errors + (if o.Rejected? then [o.error] else [])
      && t'.successes == t.successes + (if o == Created then 1 else 0)
  {
  }

  /** The step of SubmissionRowByRow: row n, handled after a state that
      agrees with the reference on the rows before it, keeps it agreeing. */
  lemma RowByRowStep(rows: seq<RowInput>, replies: seq<Response>, n: nat, t0: Tally, taskid: int, personid: int, date: string)
    requires 0 < n <= |rows|
    requires t0.errors == RejectedUpTo(rows, replies, n - 1) && t0.successes == CreatedUpTo(rows, replies, n - 1)
    requires t0.replies == Drop(replies, CountComplete(rows[..n - 1]))
    ensures var t := Step(t0, rows[n - 1], n, taskid, personid, date);
      t.errors == RejectedUpTo(rows, replies, n) && t.successes == CreatedUpTo(rows, replies, n)
  {
    var o := OutcomeAt(rows, replies, n - 1);
    assert o == OutcomeOf(rows[n - 1], n, ReceiptCall(t0.replies));
    StepMatchesOutcome(t0, rows[n - 1], n, taskid, personid, date);
  }

  /** Failure isolation: the loop's errors and count are those of the rows
      judged one by one, each from its own contents and its own reply, so a
      failed call changes the outcome of its row only. */
  lemma {:induction false} SubmissionRowByRow(rows: seq<RowInput>, taskid: int, personid: int, date: string, replies: seq<Response>, n: nat)
    requires n <= |rows|
    ensures var t := Submission(rows[..n], taskid, personid, date, replies);
      t.errors == RejectedUpTo(rows, replies, n) && t.successes == CreatedUpTo(rows, replies, n)
    decreases n
  {
    if n > 0 {
      SubmissionPrefix(rows, n - 1, taskid, personid, date, replies);
      SubmissionRowByRow(rows, taskid, personid, date, replies, n - 1);
      SubmissionRequests(rows[..n - 1], taskid, personid, date, replies);
      RowByRowStep(rows, replies, n, Submission(rows[..n - 1], taskid, personid, date, replies), taskid, personid, date);
    }
  }

  /** When the service accepts every entry, each complete row is counted
      and the errors are exactly those of the incomplete rows, in order. */
  lemma {:induction false} SubmissionAllAccepted(rows: seq<RowInput>, taskid: int, personid: int, date: string, replies: seq<Response>)
    requires CountComplete(rows) <= |replies|
    requires forall k :: 0 <= k < CountComplete(rows) ==> Accepted(replies[k])
    ensures var t := Submission(rows, taskid, personid, date, replies);
      t.successes == CountComplete(rows) && t.errors == ValidationErrors(rows)
    decreases |rows|
  {
    if rows != [] {
      var init := AllButLast(rows);
      SubmissionAllAccepted(init, taskid, personid, date, replies);
      SubmissionRequests(init, taskid, personid, date, replies);
      if Classify(Last(rows)).Complete? {
        assert Drop(replies, CountComplete(init))[0] == replies[CountComplete(init)];
      }
    }
  }

  /** A description with no surrounding whitespace is taken as typed. */
  lemma ClassifyTrimmed(text: string, data: Option<int>)
    requires text != [] && Trimmed(text)
    ensures Classify(RowInput(text, data)) == if NoWorkTypeChosen(data) then NoWorkType else Complete(text, data.value)
  {
    StripSurrounded([], text, []);
    assert [] + text + [] == text;
  }

  /** A described row with id 5, an empty row and a described row with id 0,
      the one entry accepted: one entry created, the third row reported
      for its work type, the second row silently skipped. */
  lemma SubmissionExample(taskid: int, personid: int, date: string, receipt: Json)
    ensures var rows := [RowInput("Fix bug", Some(5)), RowInput("", None), RowInput("Review PR", Some(0))];
      var t := Submission(rows, taskid, personid, date, [Response(201, Some(receipt))]);
      && t.successes == 1 && t.errors == [MissingWorkType(3)]
      && t.requests == [EntryRequest(taskid, personid, date, "Fix bug", 5)] && t.replies == []
      && Summarize(t.successes, t.errors) == Summary(1, "entry", [MissingWorkType(3)], Warning)
  {
    var r1, r2, r3 := RowInput("Fix bug", Some(5)), RowInput("", None), RowInput("Review PR", Some(0));
    var replies := [Response(201, Some(receipt))];
    var req := EntryRequest(taskid, personid, date, "Fix bug", 5);
    ClassifyTrimmed("Fix bug", Some(5));
    assert Classify(r2) == Blank;
    ClassifyTrimmed("Review PR", Some(0));
    var t1 := Submission([r1], taskid, personid, date, replies);
    assert t1 == Tally(1, [], [req], []) by {
      assert AllButLast([r1]) == [] && Last([r1]) == r1;
      assert Submission([], taskid, personid, date, replies) == Tally(0, [], [], replies);
      assert ReceiptCall(replies) == Success(receipt);
      assert Remaining(replies) == [];
      assert [] + [req] == [req];
    }
    var t2 := Submission([r1, r2], taskid, personid, date, replies);
    assert t2 == t1 by {
      assert AllButLast([r1, r2]) == [r1] && Last([r1, r2]) == r2;
    }
    assert Submission([r1, r2, r3], taskid, personid, date, replies) == Tally(1, [MissingWorkType(3)], [req], []) by {
      assert AllButLast([r1, r2, r3]) == [r1, r2] && Last([r1, r2, r3]) == r3;
    }
  }

  // ---------------------------------------------------------------------
  // The summary

  datatype Level = Information | Warning

  /** The closing message: the count, the noun after it, the error lines
      and whether it is shown as a warning. */
  datatype Summary = Summary(created: nat, noun: string, errors: seq<RowError>, level: Level)

  function Summarize(successCount: nat, errors: seq<RowError>): (s: Summary)
    ensures s.created == successCount && s.errors == errors
    ensures s.noun == "entry" <==> successCount == 1
    ensures s.noun != "entry" ==> s.noun == "entries"
    ensures s.level == Warning <==> errors != []
  {
    var suffix := if successCount == 1 then "y" else "ies";
    Summary(successCount, "entr" + suffix, errors, if errors != [] then Warning else Information)
  }

  /** Why a window could not be made ready: the work types failed to load,
      or the list is empty. */
  datatype WindowNotice = WorktypesLoadFailed(cause: Error) | WorktypesEmpty

  /** The work types a new window shows: the loaded list, or none when the
      lookup failed. */
  function LoadedWorktypes(call: Result<seq<Json>, Error>): seq<Json> {
    if call.Success? then call.value else []
  }

  function OpeningNotices(call: Result<seq<Json>, Error>): seq<WindowNotice> {
    (if call.Failure? then [WorktypesLoadFailed(call.error)] else []) +
    (if LoadedWorktypes(call) == [] then [WorktypesEmpty] else [])
  }

  /** A failed load shows its error and then the empty-list warning, as the
      list is then empty; a loaded empty list shows the warning alone; a
      loaded non-empty list shows nothing. */
  lemma OpeningNoticesCases(call: Result<seq<Json>, Error>)
    ensures call.Failure? ==> LoadedWorktypes(call) == [] && OpeningNotices(call) == [WorktypesLoadFailed(call.error), WorktypesEmpty]
    ensures call.Success? ==> LoadedWorktypes(call) == call.value
    ensures call.Success? && call.value == [] ==> OpeningNotices(call) == [WorktypesEmpty]
    ensures call.Success? && call.value != [] ==> OpeningNotices(call) == []
    ensures WorktypesEmpty in OpeningNotices(call) <==> LoadedWorktypes(call) == []
  {
  }

  // ---------------------------------------------------------------------
  // The window

  class TimeEntryWindow {
    const api: IntervalsApi
    const internalTaskId: int
    const projectId: int
    const title: Json
    const localId: int
    const worktypes: seq<Json>
    var rowWidgets: seq<RowWidget>

    ghost predicate Valid()
      reads this
    {
      && AllObjects(worktypes)
      && |rowWidgets| == MaxRows
      && (forall i :: 0 <= i < |rowWidgets| ==> rowWidgets[i].combo == ComboItems(worktypes))
      && ChoiceInRange(rowWidgets)
    }

    /** The rows and their combo boxes, built the way __init__ builds them. */
    constructor Init(api: IntervalsApi, internalTaskId: int, projectId: int, title: Json, localId: int,
                     worktypes: seq<Json>)
      requires AllObjects(worktypes)
      ensures Valid()
      ensures this.api == api && this.internalTaskId == internalTaskId && this.projectId == projectId
      ensures this.title == title && this.localId == localId && this.worktypes == worktypes
      ensures rowWidgets == BlankRows(worktypes)
    {
      this.api := api;
      this.internalTaskId := internalTaskId;
      this.projectId := projectId;
      this.title := title;
      this.localId := localId;
      this.worktypes := worktypes;
      new;
      var rows: seq<RowWidget> := [];
      var i := 0;
      while i < MaxRows
        invariant 0 <= i <= MaxRows
        invariant |rows| == i
        invariant forall k :: 0 <= k < i ==> rows[k] == RowWidget([], ComboItems(worktypes), 0)
      {
        var combo := [Placeholder];
        var j := 0;
        while j < |worktypes|
          invariant 0 <= j <= |worktypes|
          invariant AllObjects(worktypes[..j]) && combo == ComboItems(worktypes[..j])
        {
          ComboItemsSnoc(worktypes, j);
          combo := combo + [WorktypeItem(worktypes[j])];
          j := j + 1;
        }
        assert worktypes[..j] == worktypes;
        rows := rows + [RowWidget([], combo, 0)];
        i := i + 1;
      }
      rowWidgets := rows;
    }

    /** TimeEntryWindow(...): loads the project's work types (a failure
        leaves the list empty), then builds the rows. Python raises while
        building the combo boxes when a work type is not an object; then no
        window is made (win == null). */
    static method Open(api: IntervalsApi, internalTaskId: int, projectId: int, title: Json, localId: int)
      returns (win: TimeEntryWindow?, notices: seq<WindowNotice>)
      modifies api
      ensures api.sent == old(api.sent) + [WorktypesRequest(projectId)]
      ensures api.replies == Remaining(old(api.replies))
      ensures var call := WorktypesCall(old(api.replies));
        && notices == OpeningNotices(call)
        && (win != null <==> AllObjects(LoadedWorktypes(call)))
        && (win != null ==>
              && fresh(win) && win.Valid() && win.api == api
              && win.internalTaskId == internalTaskId && win.projectId == projectId
              && win.title == title && win.localId == localId
              && win.worktypes == LoadedWorktypes(call)
              && win.rowWidgets == BlankRows(win.worktypes))
    {
      var call := api.GetWorktypesForProject(projectId);
      var worktypes := LoadedWorktypes(call);
      notices := OpeningNotices(call);
      if !AllObjects(worktypes) {
        return null, notices;
      }
      win := new TimeEntryWindow.Init(api, internalTaskId, projectId, title, localId, worktypes);
    }

    /** The user types into the description field of a row and picks an
        item of its combo box. */
    method EditRow(i: nat, text: string, choice: nat)
      requires Valid() && i < |rowWidgets| && choice < |rowWidgets[i].combo|
      modifies this
      ensures Valid()
      ensures rowWidgets == old(rowWidgets)[i := old(rowWidgets)[i].(text := text, current := choice)]
    {
      rowWidgets := rowWidgets[i := rowWidgets[i].(text := text, current := choice)];
    }

    /** on_submit: every row is classified in order; a complete row is sent
        and a failed call only adds an error for its row. */
    method Submit(date: string) returns (summary: Summary)
      requires Valid()
      modifies api
      ensures var t := Submission(RowInputs(rowWidgets), internalTaskId, api.personid, date, old(api.replies));
        && summary == Summarize(t.successes, t.errors)
        && api.sent == old(api.sent) + t.requests
        && api.replies == t.replies
    {
      var inputs := RowInputs(rowWidgets);
      ghost var personid, replies0, sent0 := api.personid, api.replies, api.sent;
      var errors: seq<RowError> := [];
      var successCount := 0;
      var idx := 0;
      ghost var t := Tally(0, [], [], replies0);
      while idx < |inputs|
        invariant 0 <= idx <= |inputs|
        invariant t == Submission(inputs[..idx], internalTaskId, personid, date, replies0)
        invariant successCount == t.successes && errors == t.errors
        invariant api.sent == sent0 + t.requests && api.replies == t.replies
      {
        SubmissionPrefix(inputs, idx, internalTaskId, personid, date, replies0);
        successCount, errors, t := SubmitRow(inputs[idx], idx + 1, date, sent0, t, successCount, errors);
        idx := idx + 1;
      }
      assert inputs[..idx] == inputs;
      summary := Summarize(successCount, errors);
    }

    /** One pass of the loop of on_submit: row number index is validated
        and, when complete, sent as a time entry. */
    method SubmitRow(row: RowInput, index: nat, date: string, ghost sent0: seq<Request>, ghost t: Tally,
                     successCount: nat, errors: seq<RowError>)
      returns (successCount': nat, errors': seq<RowError>, ghost next: Tally)
      requires api.sent == sent0 + t.requests && api.replies == t.replies
      requires successCount == t.successes && errors == t.errors
      modifies api
      ensures next == Step(t, row, index, internalTaskId, api.personid, date)
      ensures successCount' == next.successes && errors' == next.errors
      ensures api.sent == sent0 + next.requests && api.replies == next.replies
    {
      next := Step(t, row, index, internalTaskId, api.personid, date);
      successCount', errors' := successCount, errors;
      match Classify(row) {
        case Blank =>
        case NoDescription =>
          errors' := errors + [MissingDescription(index)];
        case NoWorkType =>
          errors' := errors + [MissingWorkType(index)];
        case Complete(descText, worktypeid) =>
          var r := api.CreateTimeEntry(internalTaskId, worktypeid, date, EntryHours, descText, true);
          if r.Success? {
            successCount' := successCount + 1;
          } else {
            errors' := errors + [CreateFailed(index, r.error)];
          }
      }
    }
  }
}
