/** The task-id window (ui/task_list_window.py): the user types local task
    ids separated by commas; each id that parses is looked up, its internal
    id and project id are validated, and one time-entry window is opened
    per task that resolves. Message boxes become Notice values. */
module TaskListUi {
  import opened Wrappers
  import opened Text
  import opened Json
  import opened Seqs
  import opened ApiClient
  import opened TimeEntryUi

  /** The messages on_load_task shows, by kind and with what they carry. */
  datatype Notice =
    | EmptyInput                                   // nothing typed
    | EmptyIdList                                  // only commas and spaces
    | BadIdFormat(part: string)                    // a piece that is not an integer
    | LookupFailed(localId: int, cause: Error)     // get_task_details raised
    | NoInternalId(localId: int, details: Json)    // int(details.get("id")) raised
    | NoProjectId(localId: int, details: Json)     // "projectid" absent or null
    | BadProjectId(value: Json)                    // int(projectid) raised
    | FromWindow(notice: WindowNotice)             // shown while a window is made

  /** The arguments a time-entry window is opened with, and the work types
      it loaded. */
  datatype Opened = Opened(internalTaskId: int, projectId: int, title: Json, localId: int, worktypes: seq<Json>)

  /** What one id piece leads to: the window opened for it (if any), the
      messages, the requests sent, the replies left, and whether an
      exception escaped on_load_task. */
  datatype PartResult = PartResult(window: Option<Opened>, notices: seq<Notice>, requests: seq<Request>,
                                   replies: seq<Response>, crashed: bool)

  /** What a run of on_load_task leads to, with the windows in the order
      they were opened. */
  datatype LoadTrace = LoadTrace(windows: seq<Opened>, notices: seq<Notice>, requests: seq<Request>,
                                 replies: seq<Response>, crashed: bool)

  /** `details.get("name") or details.get("title", "")`. */
  function Title(details: map<string, Json>): (title: Json)
    ensures "name" in details && Truthy(details["name"]) ==> title == details["name"]
    ensures !("name" in details && Truthy(details["name"])) && "title" in details ==> title == details["title"]
    ensures !("name" in details && Truthy(details["name"])) && "title" !in details ==> title == JStr("")
  {
    var name := DictGet(details, "name");
    if Truthy(name) then name else DictGet(details, "title", JStr(""))
  }

  /** The messages of a window being made, shown as they come. */
  function Relay(notices: seq<WindowNotice>): seq<Notice>
  {
    seq(|notices|, i requires 0 <= i < |notices| => FromWindow(notices[i]))
  }

  /** When an exception escapes the lookup of a task: the details are not
      an object, so details.get raises AttributeError; or both ids convert
      and the work types are not all objects, so building the combo boxes
      raises AttributeError. The except clauses catch neither. */
  predicate LookUpEscapes(localId: int, replies: seq<Response>) {
    var call := TaskDetailsCall(replies);
    && call.Success?
    && (!call.value.JObj?
        || (CheckIds(localId, call.value).Success? && !AllObjects(LoadedWorktypes(WorktypesCall(Remaining(replies))))))
  }

  /** The body of the loop of on_load_task for one id piece: int(part),
      then the lookup. */
  function LoadPart(part: string, replies: seq<Response>): (r: PartResult)
    ensures r.requests == [] <==> ParseInt(part).None?
    ensures |r.requests| <= 2 && r.replies == Drop(replies, |r.requests|)
    ensures r.window.Some? ==> ParseInt(part).Some? && |r.requests| == 2 && !r.crashed
    ensures r.crashed <==> ParseInt(part).Some? && LookUpEscapes(ParseInt(part).value, replies)
  {
    match ParseInt(part)
    case None => PartResult(None, [BadIdFormat(part)], [], replies, false)
    case Some(localId) => LookUp(localId, replies)
  }

  /** get_task_details(localid), then the checks on what it returns. */
  function LookUp(localId: int, replies: seq<Response>): (r: PartResult)
    ensures 1 <= |r.requests| <= 2 && r.requests[0] == TaskRequest(localId)
    ensures r.replies == Drop(replies, |r.requests|)
    ensures r.window.Some? ==> |r.requests| == 2 && !r.crashed
    ensures r.crashed <==> LookUpEscapes(localId, replies)
  {
    match TaskDetailsCall(replies)
    case Failure(e) => PartResult(None, [LookupFailed(localId, e)], [TaskRequest(localId)], Remaining(replies), false)
    case Success(details) =>
      if details.JObj? then Resolve(localId, details, Remaining(replies))
      else
        // details.get raises AttributeError, which nothing catches
        PartResult(None, [], [TaskRequest(localId)], Remaining(replies), true)
  }

  /** The checks on the "id" and "projectid" of a task's details: both
      integers, or the notice of the first check that fails. */
  function CheckIds(localId: int, details: Json): Result<(int, int), Notice>
    requires details.JObj?
  {
    match ToInt(DictGet(details.fields, "id"))
    case None => Failure(NoInternalId(localId, details))
    case Some(internalId) =>
      var projectid := DictGet(details.fields, "projectid");
      if projectid == JNull then Failure(NoProjectId(localId, details))
      else
        match ToInt(projectid)
        case None => Failure(BadProjectId(projectid))
        case Some(pid) => Success((internalId, pid))
  }

  /** What a task's details lead to, with `rest` the replies after the
      lookup. */
  function Resolve(localId: int, details: Json, rest: seq<Response>): (r: PartResult)
    requires details.JObj?
    ensures 1 <= |r.requests| <= 2 && r.requests[0] == TaskRequest(localId)
    ensures r.replies == Drop(rest, |r.requests| - 1)
    ensures r.window.Some? ==> |r.requests| == 2 && !r.crashed
    ensures r.crashed <==> CheckIds(localId, details).Success? && !AllObjects(LoadedWorktypes(WorktypesCall(rest)))
  {
    match CheckIds(localId, details)
    case Failure(notice) => PartResult(None, [notice], [TaskRequest(localId)], rest, false)
    case Success(ids) => OpenFor(localId, ids.0, ids.1, Title(details.fields), rest)
  }

  /** TimeEntryWindow(...) for a task that resolved. */
  function OpenFor(localId: int, internalId: int, pid: int, title: Json, rest: seq<Response>): (r: PartResult)
    ensures r.requests == [TaskRequest(localId), WorktypesRequest(pid)] && r.replies == Remaining(rest)
    ensures r.window.Some? ==> r.window.value == Opened(internalId, pid, title, localId, r.window.value.worktypes)
    ensures r.window.Some? <==> !r.crashed
    ensures r.crashed <==> !AllObjects(LoadedWorktypes(WorktypesCall(rest)))
  {
    var call := WorktypesCall(rest);
    var worktypes := LoadedWorktypes(call);
    var notices := Relay(OpeningNotices(call));
    var requests := [TaskRequest(localId), WorktypesRequest(pid)];
    if AllObjects(worktypes) then
      PartResult(Some(Opened(internalId, pid, title, localId, worktypes)), notices, requests, Remaining(rest), false)
    else
      // building the combo boxes raises AttributeError
      PartResult(None, notices, requests, Remaining(rest), true)
  }

  function Extend(t: LoadTrace, r: PartResult): LoadTrace {
    LoadTrace(t.windows + (if r.window.Some? then [r.window.value] else []), t.notices + r.notices,
              t.requests + r.requests, r.replies, r.crashed)
  }

  /** The loop of on_load_task over the pieces given, stopped by the first
      exception that escapes. */
  function LoadParts(parts: seq<string>, replies: seq<Response>): LoadTrace
    decreases |parts|
  {
    if parts == [] then LoadTrace([], [], [], replies, false)
    else
      var t := LoadParts(AllButLast(parts), replies);
      if t.crashed then t else Extend(t, LoadPart(Last(parts), t.replies))
  }

  /** on_load_task on the text typed. */
  function LoadText(text: string, replies: seq<Response>): LoadTrace {
    var stripped := Strip(text);
    if stripped == [] then LoadTrace([], [EmptyInput], [], replies, false)
    else
      var idParts := IdParts(stripped);
      if idParts == [] then LoadTrace([], [EmptyIdList], [], replies, false)
      else LoadParts(idParts, replies)
  }

  // ---------------------------------------------------------------------
  // What the loop promises

  /** Without an id there are no lookups and no windows, only one warning. */
  lemma NoIdsNoLookups(text: string, replies: seq<Response>)
    requires Strip(text) == [] || IdParts(Strip(text)) == []
    ensures var t := LoadText(text, replies);
      && t.requests == [] && t.replies == replies && t.windows == [] && !t.crashed
      && t.notices == [if Strip(text) == [] then EmptyInput else EmptyIdList]
  {
  }

  /** A window opens for a piece exactly when the piece is an integer, its
      lookup returns an object whose "id" and non-null "projectid" convert
      to integers, and the project's work types can fill the combo boxes;
      the window gets those integers, the parsed local id and Title. */
  lemma PartOpensWindow(part: string, replies: seq<Response>)
    ensures var r := LoadPart(part, replies);
      r.window.Some? <==>
        && ParseInt(part).Some?
        && TaskDetailsCall(replies).Success? && TaskDetailsCall(replies).value.JObj?
        && var d := TaskDetailsCall(replies).value.fields;
        && ToInt(DictGet(d, "id")).Some?
        && "projectid" in d && d["projectid"] != JNull && ToInt(d["projectid"]).Some?
        && AllObjects(LoadedWorktypes(WorktypesCall(Remaining(replies))))
    ensures var r := LoadPart(part, replies);
      r.window.Some? ==>
        var d := TaskDetailsCall(replies).value.fields;
        && r.window.value.localId == ParseInt(part).value
        && r.window.value.internalTaskId == ToInt(d["id"]).value
        && r.window.value.projectId == ToInt(d["projectid"]).value
        && r.window.value.title == Title(d)
        && r.requests == [TaskRequest(ParseInt(part).value), WorktypesRequest(r.window.value.projectId)]
  {
  }

  /** A piece that is not an integer costs no request and no reply. */
  lemma BadPartIsSkipped(part: string, replies: seq<Response>)
    requires ParseInt(part).None?
    ensures LoadPart(part, replies) == PartResult(None, [BadIdFormat(part)], [], replies, false)
  {
  }

  /** A lookup that raises is reported and the piece is done: one request,
      one reply, no window, and the loop goes on. */
  lemma FailedLookupSkips(part: string, replies: seq<Response>)
    requires ParseInt(part).Some? && TaskDetailsCall(replies).Failure?
    ensures var localId := ParseInt(part).value;
      LoadPart(part, replies)
        == PartResult(None, [LookupFailed(localId, TaskDetailsCall(replies).error)], [TaskRequest(localId)], Remaining(replies), false)
  {
  }

  /** A task whose "id" or "projectid" fails its check is reported with
      that check's notice, and the piece is done without the work-type
      request; the loop goes on. */
  lemma FailedCheckSkips(part: string, replies: seq<Response>)
    requires ParseInt(part).Some? && TaskDetailsCall(replies).Success? && TaskDetailsCall(replies).value.JObj?
    requires CheckIds(ParseInt(part).value, TaskDetailsCall(replies).value).Failure?
    ensures var localId := ParseInt(part).value;
      LoadPart(part, replies)
        == PartResult(None, [CheckIds(localId, TaskDetailsCall(replies).value).error], [TaskRequest(localId)], Remaining(replies), false)
  {
  }

  /** Two traces one after the other. */
  function Then(first: LoadTrace, second: LoadTrace): LoadTrace {
    LoadTrace(first.windows + second.windows, first.notices + second.notices,
              first.requests + second.requests, second.replies, second.crashed)
  }

  /** The pieces a + b are handled as a, then b on the replies a left;
      nothing is handled after an exception escapes. */
  lemma {:induction false} LoadPartsAppend(a: seq<string>, b: seq<string>, replies: seq<Response>)
    ensures var ta := LoadParts(a, replies);
      LoadParts(a + b, replies) == if ta.crashed then ta else Then(ta, LoadParts(b, ta.replies))
    decreases |b|
  {
    if b == [] {
      assert a + b == a;
    } else {
      LoadPartsAppend(a, AllButLast(b), replies);
      AppendOneMore(a, b, replies);
    }
  }

  /** The step of LoadPartsAppend: from a + b without its last piece to
      a + b. */
  lemma AppendOneMore(a: seq<string>, b: seq<string>, replies: seq<Response>)
    requires b != []
    requires var ta := LoadParts(a, replies);
      LoadParts(a + AllButLast(b), replies) == if ta.crashed then ta else Then(ta, LoadParts(AllButLast(b), ta.replies))
    ensures var ta := LoadParts(a, replies);
      LoadParts(a + b, replies) == if ta.crashed then ta else Then(ta, LoadParts(b, ta.replies))
  {
    var ta := LoadParts(a, replies);
    var b' := AllButLast(b);
    LastOfConcat(a, b);
    if !ta.crashed {
      var tb' := LoadParts(b', ta.replies);
      if !tb'.crashed {
        ExtendThen(ta, tb', LoadPart(Last(b), tb'.replies));
      }
    }
  }

  lemma ExtendThen(first: LoadTrace, second: LoadTrace, r: PartResult)
    ensures Extend(Then(first, second), r) == Then(first, Extend(second, r))
  {
    var w := if r.window.Some? then [r.window.value] else [];
    assert first.windows + second.windows + w == first.windows + (second.windows + w);
    assert first.notices + second.notices + r.notices == first.notices + (second.notices + r.notices);
    assert first.requests + second.requests + r.requests == first.requests + (second.requests + r.requests);
  }

  /** A piece that is not an integer only adds its warning: the windows,
      requests and replies, and whether the loop crashes, are those of the
      input without it. */
  lemma BadPartOnlyWarns(a: seq<string>, bad: string, b: seq<string>, replies: seq<Response>)
    requires ParseInt(bad).None?
    ensures var with_, without := LoadParts(a + [bad] + b, replies), LoadParts(a + b, replies);
      && with_.windows == without.windows && with_.requests == without.requests
      && with_.replies == without.replies && with_.crashed == without.crashed
  {
    var ta := LoadParts(a, replies);
    assert a + [bad] + b == a + ([bad] + b);
    LoadPartsAppend(a, [bad] + b, replies);
    LoadPartsAppend(a, b, replies);
    if !ta.crashed {
      var q := ta.replies;
      assert LoadParts([bad], q) == LoadTrace([], [BadIdFormat(bad)], [], q, false) by {
        assert AllButLast([bad]) == [];
        assert Last([bad]) == bad;
        BadPartIsSkipped(bad, q);
      }
      LoadPartsAppend([bad], b, q);
      var tb := LoadParts(b, q);
      assert LoadParts([bad] + b, q) == Then(LoadTrace([], [BadIdFormat(bad)], [], q, false), tb);
      assert [] + tb.windows == tb.windows;
      assert [] + tb.requests == tb.requests;
    }
  }

  /** Whatever one piece leads to, short of an escaping exception, the
      pieces after it are still handled, on the replies it left. */
  lemma LaterPartsStillLoad(a: seq<string>, part: string, b: seq<string>, replies: seq<Response>)
    ensures var ta := LoadParts(a, replies);
      var r := LoadPart(part, ta.replies);
      !ta.crashed && !r.crashed ==>
        LoadParts(a + [part] + b, replies) == Then(Extend(ta, r), LoadParts(b, r.replies))
  {
    var ta := LoadParts(a, replies);
    LoadPartsAppend(a + [part], b, replies);
    if !ta.crashed {
      LastOfConcat(a, [part]);
    }
  }

  /** A piece whose lookup or id checks fail adds its one notice and its
      lookup request and opens no window; the pieces after it are handled
      as on their own, on the replies after its one reply. */
  lemma FailedTaskSkipsOnlyIt(a: seq<string>, part: string, b: seq<string>, replies: seq<Response>)
    requires ParseInt(part).Some?
    requires var q := LoadParts(a, replies).replies; var call := TaskDetailsCall(q);
      call.Failure? || (call.value.JObj? && CheckIds(ParseInt(part).value, call.value).Failure?)
    ensures var ta := LoadParts(a, replies);
      var r := LoadPart(part, ta.replies);
      && r.window.None? && !r.crashed && |r.notices| == 1 && r.requests == [TaskRequest(ParseInt(part).value)]
      && (!ta.crashed ==> LoadParts(a + [part] + b, replies) == Then(Extend(ta, r), LoadParts(b, Remaining(ta.replies))))
  {
    var q := LoadParts(a, replies).replies;
    if TaskDetailsCall(q).Failure? {
      FailedLookupSkips(part, q);
    } else {
      FailedCheckSkips(part, q);
    }
    LaterPartsStillLoad(a, part, b, replies);
  }

  /** Pieces that parse as integers. */
  function CountParsed(parts: seq<string>): nat
    decreases |parts|
  {
    if parts == [] then 0
    else CountParsed(AllButLast(parts)) + if ParseInt(Last(parts)).Some? then 1 else 0
  }

  /** At most one window per piece that parses, and at most two requests
      for each such piece. */
  lemma {:induction false} LoadPartsBound(parts: seq<string>, replies: seq<Response>)
    ensures |LoadParts(parts, replies).windows| <= CountParsed(parts)
    ensures |LoadParts(parts, replies).requests| <= 2 * CountParsed(parts)
    decreases |parts|
  {
    if parts != [] {
      LoadPartsBound(AllButLast(parts), replies);
    }
  }

  lemma ExtendParts(t: LoadTrace, r: PartResult)
    ensures r.window.None? ==> Extend(t, r).windows == t.windows
    ensures r.window.Some? ==> Extend(t, r).windows == t.windows + [r.window.value]
    ensures Extend(t, r).notices == t.notices + r.notices && Extend(t, r).requests == t.requests + r.requests
    ensures Extend(t, r).replies == r.replies && Extend(t, r).crashed == r.crashed
  {
  }

  // ---------------------------------------------------------------------
  // The window

  /** A window object opened with the arguments of record o. Only the
      window's constant fields are compared, so the fact survives later
      edits of its rows. */
  predicate Describes(win: TimeEntryWindow, o: Opened, api: IntervalsApi) {
    && win.api == api
    && win.internalTaskId == o.internalTaskId && win.projectId == o.projectId
    && win.title == o.title && win.localId == o.localId && win.worktypes == o.worktypes
  }

  class TaskListWindow {
    const api: IntervalsApi
    /** The windows opened so far, kept so they stay alive. */
    var timeWindows: seq<TimeEntryWindow>

    constructor (api: IntervalsApi)
      ensures this.api == api && timeWindows == []
    {
      this.api := api;
      timeWindows := [];
    }

    /** One pass of the loop of on_load_task, for piece i of parts, with
        t the trace of the pieces before it. */
    method LoadStep(part: string, ghost parts: seq<string>, ghost i: nat, ghost replies0: seq<Response>, ghost t: LoadTrace)
      returns (notices: seq<Notice>, crashed: bool, ghost step: PartResult)
      requires i < |parts| && parts[i] == part
      requires t == LoadParts(parts[..i], replies0) && !t.crashed && api.replies == t.replies
      modifies this, api
      ensures LoadParts(parts[..i + 1], replies0) == Extend(t, step)
      ensures notices == step.notices && crashed == step.crashed
      ensures api.sent == old(api.sent) + step.requests && api.replies == step.replies
      ensures step.window.None? ==> timeWindows == old(timeWindows)
      ensures step.window.Some? ==>
        && timeWindows != [] && timeWindows == old(timeWindows) + [Last(timeWindows)]
        && fresh(Last(timeWindows)) && Describes(Last(timeWindows), step.window.value, api)
    {
      step := LoadPart(part, api.replies);
      assert AllButLast(parts[..i + 1]) == parts[..i];
      notices, crashed := HandlePart(part);
    }

    /** One pass of the loop of on_load_task: the piece is parsed and
        looked up, and the task resolved. */
    method HandlePart(part: string) returns (notices: seq<Notice>, crashed: bool)
      modifies this, api
      ensures var r := LoadPart(part, old(api.replies));
        && notices == r.notices && crashed == r.crashed
        && api.sent == old(api.sent) + r.requests && api.replies == r.replies
        && (r.window.None? ==> timeWindows == old(timeWindows))
        && (r.window.Some? ==>
              && timeWindows != [] && timeWindows == old(timeWindows) + [Last(timeWindows)]
              && fresh(Last(timeWindows)) && Describes(Last(timeWindows), r.window.value, api)
              && Last(timeWindows).Valid() && Last(timeWindows).rowWidgets == BlankRows(r.window.value.worktypes))
    {
      var parsed := ParseInt(part);
      if parsed.None? {
        return [BadIdFormat(part)], false;
      }
      var localId := parsed.value;
      ghost var replies0 := api.replies;
      var details := api.GetTaskDetails(localId);
      if details.Failure? {
        return [LookupFailed(localId, details.error)], false;
      }
      if !details.value.JObj? {
        return [], true;
      }
      ghost var sent1 := api.sent;
      notices, crashed := ResolveTask(localId, details.value);
      ghost var r := Resolve(localId, details.value, Remaining(replies0));
      assert LoadPart(part, replies0) == LookUp(localId, replies0) == r;
      SplitFirst(old(api.sent), r.requests);
    }

    /** The checks on the task's "id" and "projectid"; a task that passes
        gets its window, which is kept. The lookup that fetched `details`
        is the first request of the part and is already in api.sent. */
    method ResolveTask(localId: int, details: Json) returns (notices: seq<Notice>, crashed: bool)
      requires details.JObj?
      modifies this, api
      ensures var r := Resolve(localId, details, old(api.replies));
        && notices == r.notices && crashed == r.crashed
        && api.sent == old(api.sent) + r.requests[1..] && api.replies == r.replies
        && (r.window.None? ==> timeWindows == old(timeWindows))
        && (r.window.Some? ==>
              && timeWindows != [] && timeWindows == old(timeWindows) + [Last(timeWindows)]
              && fresh(Last(timeWindows)) && Describes(Last(timeWindows), r.window.value, api)
              && Last(timeWindows).Valid() && Last(timeWindows).rowWidgets == BlankRows(r.window.value.worktypes))
    {
      var ids := CheckIds(localId, details);
      if ids.Failure? {
        return [ids.error], false;
      }
      notices, crashed := OpenTaskWindow(localId, ids.value.0, ids.value.1, Title(details.fields));
    }

    /** TimeEntryWindow(...) for a task that resolved, kept in timeWindows
        when it could be made. */
    method OpenTaskWindow(localId: int, internalId: int, pid: int, title: Json) returns (notices: seq<Notice>, crashed: bool)
      modifies this, api
      ensures var r := OpenFor(localId, internalId, pid, title, old(api.replies));
        && notices == r.notices && crashed == r.crashed
        && api.sent == old(api.sent) + r.requests[1..] && api.replies == r.replies
        && (r.window.None? ==> timeWindows == old(timeWindows))
        && (r.window.Some? ==>
              && timeWindows != [] && timeWindows == old(timeWindows) + [Last(timeWindows)]
              && fresh(Last(timeWindows)) && Describes(Last(timeWindows), r.window.value, api)
              && Last(timeWindows).Valid() && Last(timeWindows).rowWidgets == BlankRows(r.window.value.worktypes))
    {
      var win, winNotices := TimeEntryWindow.Open(api, internalId, pid, title, localId);
      notices := Relay(winNotices);
      if win == null {
        return notices, true;
      }
      timeWindows := timeWindows + [win];
      crashed := false;
    }

    /** on_load_task: the windows of the tasks that resolve are appended to
        timeWindows, in input order; crashed reports an escaping exception. */
    method LoadTask(text: string) returns (notices: seq<Notice>, crashed: bool)
      modifies this, api
      ensures var t := LoadText(text, old(api.replies));
        && notices == t.notices && crashed == t.crashed
        && api.sent == old(api.sent) + t.requests && api.replies == t.replies
        && |timeWindows| == |old(timeWindows)| + |t.windows|
        && timeWindows[..|old(timeWindows)|] == old(timeWindows)
        && (forall k :: |old(timeWindows)| <= k < |timeWindows| ==>
              fresh(timeWindows[k]) && Describes(timeWindows[k], t.windows[k - |old(timeWindows)|], api))
    {
      var stripped := Strip(text);
      if stripped == [] {
        return [EmptyInput], false;
      }
      var idParts := IdParts(stripped);
      if idParts == [] {
        return [EmptyIdList], false;
      }
      notices, crashed := LoadIds(idParts);
    }

    /** The loop of on_load_task over the id pieces. */
    method LoadIds(idParts: seq<string>) returns (notices: seq<Notice>, crashed: bool)
      modifies this, api
      ensures var t := LoadParts(idParts, old(api.replies));
        && notices == t.notices && crashed == t.crashed
        && api.sent == old(api.sent) + t.requests && api.replies == t.replies
        && |timeWindows| == |old(timeWindows)| + |t.windows|
        && timeWindows[..|old(timeWindows)|] == old(timeWindows)
        && (forall k :: |old(timeWindows)| <= k < |timeWindows| ==>
              fresh(timeWindows[k]) && Describes(timeWindows[k], t.windows[k - |old(timeWindows)|], api))
    {
      ghost var replies0, sent0, windows0 := api.replies, api.sent, timeWindows;
      ghost var t := LoadTrace([], [], [], replies0, false);
      ghost var newWindows: seq<TimeEntryWindow> := [];
      notices, crashed := [], false;
      var i := 0;
      while i < |idParts|
        invariant 0 <= i <= |idParts|
        invariant t == LoadParts(idParts[..i], replies0) && !t.crashed
        invariant notices == t.notices && !crashed
        invariant api.sent == sent0 + t.requests && api.replies == t.replies
        invariant timeWindows == windows0 + newWindows && |newWindows| == |t.windows|
        invariant forall k :: 0 <= k < |newWindows| ==> fresh(newWindows[k]) && Describes(newWindows[k], t.windows[k], api)
      {
        ghost var tBefore := t;
        var partNotices, partCrashed, step := LoadStep(idParts[i], idParts, i, replies0, t);
        t := Extend(t, step);
        ExtendParts(tBefore, step);
        Assoc(sent0, tBefore.requests, step.requests);
        notices := notices + partNotices;
        if step.window.Some? {
          Assoc(windows0, newWindows, [Last(timeWindows)]);
          newWindows := newWindows + [Last(timeWindows)];
        }
        i := i + 1;
        if partCrashed {
          crashed := true;
          LoadPartsAppend(idParts[..i], idParts[i..], replies0);
          SplitAt(idParts, i);
          break;
        }
      }
      if !crashed {
        assert idParts[..i] == idParts;
      }
      ConcatParts(windows0, newWindows);
    }
  }
}
