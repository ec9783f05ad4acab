/** The REST client of the Intervals time-tracking service (api_client.py):
    the requests it sends, how it reads the replies of GET /me/, GET /task/
    and GET /projectworktype/, the payloads of POST /time/ and
    POST /tasknote/, and the client object that caches the caller's person
    id for its whole lifetime.

    The network is an oracle: a client holds the replies the service will
    give, in order, and the log of the requests it has sent. Each request
    consumes one reply; when none is left the request fails as an
    unanswered connection does. */
module ApiClient {
  import opened Wrappers
  import opened Text
  import opened Json

  const BaseUrl: string := "https://unifun.intervalsonline.com/api"

  datatype Verb = Get | Post

  /** What the client sends: method, full URL and JSON payload, if any. */
  datatype Request = Request(verb: Verb, url: string, payload: Option<Json>)

  /** What the service answers: the status code and the body, None when the
      body is not JSON (resp.json() raises). */
  datatype Response = Response(status: int, body: Option<Json>)

  /** Why a call failed. The wording of the Python messages is not kept. */
  datatype Error =
    | NoReply                   // the request got no answer at all
    | HttpStatus(code: int)     // the status check rejected the reply
    | NotJson                   // the body is not JSON
    | NotAnObject               // Python cannot look the expected key up in the body
    | BadPersonId(value: Json)  // personid is present but int() rejects it
    | BadMeId(value: Json)      // me[0].id is present but int() rejects it
    | NoPersonId                // neither personid nor a usable me list
    | NoTask                    // neither a non-empty task list nor a projectid
    | UnsupportedWorktypes      // neither a list nor a list under projectworktype

  /** requests' raise_for_status(): client and server errors (4xx, 5xx). */
  predicate IsHttpError(status: int) {
    400 <= status < 600
  }

  // ---------------------------------------------------------------------
  // Requests

  const MeRequest: Request := Request(Get, BaseUrl + "/me/", None)

  const TaskUrlPrefix: string := BaseUrl + "/task/?localid="

  function TaskRequest(localid: int): Request {
    Request(Get, TaskUrlPrefix + IntToString(localid), None)
  }

  function WorktypesRequest(projectid: int): Request {
    Request(Get, BaseUrl + "/projectworktype/?projectid=" + IntToString(projectid) + "&limit=100", None)
  }

  lemma WorktypesRequestNamesProject(projectid: int)
    ensures var url := WorktypesRequest(projectid).url;
      var prefix := BaseUrl + "/projectworktype/?projectid=";
      && |url| == |prefix| + |IntToString(projectid)| + |"&limit=100"|
      && url[..|prefix|] == prefix && url[|url| - |"&limit=100"|..] == "&limit=100"
      && ParseInt(url[|prefix|..|url| - |"&limit=100"|]) == Some(projectid)
  {
    var prefix := BaseUrl + "/projectworktype/?projectid=";
    var url := WorktypesRequest(projectid).url;
    assert url[|prefix|..|url| - |"&limit=100"|] == IntToString(projectid);
    ParseIntToString(projectid);
  }

  function TimeEntryRequest(payload: Json): Request {
    Request(Post, BaseUrl + "/time/", Some(payload))
  }

  function TaskNoteRequest(payload: Json): Request {
    Request(Post, BaseUrl + "/tasknote/", Some(payload))
  }

  /** The task lookup names the task it asks for: the localid reads back
      from the query string, so different ids give different requests. */
  lemma TaskRequestNamesTask(localid: int)
    ensures |TaskRequest(localid).url| > |TaskUrlPrefix|
    ensures TaskRequest(localid).url[..|TaskUrlPrefix|] == TaskUrlPrefix
    ensures ParseInt(TaskRequest(localid).url[|TaskUrlPrefix|..]) == Some(localid)
  {
    var url := TaskRequest(localid).url;
    assert url[|TaskUrlPrefix|..] == IntToString(localid);
    ParseIntToString(localid);
  }

  // ---------------------------------------------------------------------
  // Payloads

  /** The JSON body of POST /time/. */
  function TimeEntryPayload(taskid: int, worktypeid: int, personid: int, date: string,
                            hours: real, description: string, billable: bool): Json
  {
    JObj(map[
      "taskid" := JInt(taskid),
      "worktypeid" := JInt(worktypeid),
      "personid" := JInt(personid),
      "date" := JStr(date),
      "time" := JReal(hours),
      "description" := JStr(description),
      "billable" := JBool(billable)])
  }

  /** The JSON body of POST /tasknote/. */
  function TaskNotePayload(taskid: int, note: string): Json
  {
    JObj(map["taskid" := JInt(taskid), "note" := JStr(note), "public" := JStr("f")])
  }

  /** A time entry carries exactly seven fields, the hours under "time". */
  lemma TimeEntryPayloadFields(taskid: int, worktypeid: int, personid: int, date: string,
                               hours: real, description: string, billable: bool)
    ensures var p := TimeEntryPayload(taskid, worktypeid, personid, date, hours, description, billable);
      && p.fields.Keys == {"taskid", "worktypeid", "personid", "date", "time", "description", "billable"}
      && p.fields["taskid"] == JInt(taskid) && p.fields["worktypeid"] == JInt(worktypeid)
      && p.fields["personid"] == JInt(personid) && p.fields["time"] == JReal(hours)
      && p.fields["date"] == JStr(date) && p.fields["description"] == JStr(description)
      && p.fields["billable"] == JBool(billable)
  {
  }

  /** A task note is never public and carries its task and text unchanged. */
  lemma TaskNotePayloadFields(taskid: int, note: string)
    ensures var p := TaskNotePayload(taskid, note);
      && p.fields.Keys == {"taskid", "note", "public"}
      && p.fields["public"] == JStr("f")
      && p.fields["taskid"] == JInt(taskid) && p.fields["note"] == JStr(note)
  {
  }

  // ---------------------------------------------------------------------
  // Reading GET /me/

  /** The id of the first entry of the "me" list, when the list is non-empty
      and that entry is an object with an "id" key. */
  function MeEntryId(fields: map<string, Json>): Option<Json>
  {
    if "me" in fields && fields["me"].JList? && |fields["me"].items| > 0
       && fields["me"].items[0].JObj? && "id" in fields["me"].items[0].fields
    then Some(fields["me"].items[0].fields["id"])
    else None
  }

  /** The person id in a decoded /me/ body: int(personid) when that key is
      present, otherwise int(me[0].id). A body that is not an object fails,
      as every Python path raises for it. */
  function PersonIdFrom(data: Json): Result<int, Error>
  {
    if !data.JObj? then Failure(NotAnObject)
    else if "personid" in data.fields then
      match ToInt(data.fields["personid"])
      case Some(n) => Success(n)
      case None => Failure(BadPersonId(data.fields["personid"]))
    else
      match MeEntryId(data.fields)
      case None => Failure(NoPersonId)
      case Some(id) =>
        match ToInt(id)
        case Some(n) => Success(n)
        case None => Failure(BadMeId(id))
  }

  /** _get_my_personid on one reply: a status other than 200, then a body
      that is not JSON, fail before the body is looked at. */
  function DecodeMe(resp: Response): Result<int, Error>
  {
    if resp.status != 200 then Failure(HttpStatus(resp.status))
    else match resp.body
      case None => Failure(NotJson)
      case Some(data) => PersonIdFrom(data)
  }

  /** The status check and the JSON check come before any look at the shape. */
  lemma DecodeMeChecksStatusFirst(resp: Response)
    ensures resp.status != 200 ==> DecodeMe(resp) == Failure(HttpStatus(resp.status))
    ensures resp.status == 200 && resp.body.None? ==> DecodeMe(resp) == Failure(NotJson)
    ensures DecodeMe(resp).Success? ==> resp.status == 200 && resp.body.Some? && resp.body.value.JObj?
  {
  }

  /** When personid is present it alone decides the outcome: the rest of
      the object, me included, is never consulted. */
  lemma PersonIdFieldDecides(fields: map<string, Json>)
    requires "personid" in fields
    ensures PersonIdFrom(JObj(fields)) == PersonIdFrom(JObj(map["personid" := fields["personid"]]))
    ensures PersonIdFrom(JObj(fields)).Success? <==> ToInt(fields["personid"]).Some?
    ensures PersonIdFrom(JObj(fields)).Success? ==> PersonIdFrom(JObj(fields)).value == ToInt(fields["personid"]).value
  {
  }

  /** A personid that int() rejects is an error even when me would have
      given an id: there is no fall back. */
  lemma PersonIdNoFallback(fields: map<string, Json>)
    requires "personid" in fields && ToInt(fields["personid"]).None?
    ensures PersonIdFrom(JObj(fields)) == Failure(BadPersonId(fields["personid"]))
  {
  }

  /** Without personid the id comes from me[0].id, and only from there. */
  lemma PersonIdFromMe(fields: map<string, Json>)
    requires "personid" !in fields
    ensures PersonIdFrom(JObj(fields)).Success? <==> MeEntryId(fields).Some? && ToInt(MeEntryId(fields).value).Some?
    ensures PersonIdFrom(JObj(fields)).Success? ==> PersonIdFrom(JObj(fields)).value == ToInt(MeEntryId(fields).value).value
    ensures MeEntryId(fields).None? ==> PersonIdFrom(JObj(fields)) == Failure(NoPersonId)
  {
  }

  /** Both accepted shapes give the same id, whether the service sends it
      as a number or as its decimal text, whatever else the object holds. */
  lemma PersonIdShapesAgree(n: int, extra: map<string, Json>, entry: map<string, Json>, others: seq<Json>)
    requires "personid" !in extra
    ensures PersonIdFrom(JObj(extra["personid" := JInt(n)])) == Success(n)
    ensures PersonIdFrom(JObj(extra["personid" := JStr(IntToString(n))])) == Success(n)
    ensures PersonIdFrom(JObj(extra["me" := JList([JObj(entry["id" := JInt(n)])] + others)])) == Success(n)
    ensures PersonIdFrom(JObj(extra["me" := JList([JObj(entry["id" := JStr(IntToString(n))])] + others)])) == Success(n)
  {
    ParseIntToString(n);
  }

  // ---------------------------------------------------------------------
  // Reading GET /task/?localid=

  /** get_task_details on a decoded body: the first element of a non-empty
      task list, else the body itself when it has a projectid key. Python's
      `in` on a list body tests for an equal element and on a string body
      for a substring, and indexing either by "task" raises. */
  function TaskFrom(data: Json): Result<Json, Error>
  {
    match data
    case JObj(f) =>
      if "task" in f && f["task"].JList? && |f["task"].items| > 0 then Success(f["task"].items[0])
      else if "projectid" in f then Success(data)
      else Failure(NoTask)
    case JList(items) =>
      if JStr("task") in items then Failure(NotAnObject)
      else if JStr("projectid") in items then Success(data)
      else Failure(NoTask)
    case JStr(s) =>
      if Contains(s, "task") then Failure(NotAnObject)
      else if Contains(s, "projectid") then Success(data)
      else Failure(NoTask)
    case _ => Failure(NotAnObject)
  }

  /** raise_for_status(), then resp.json(), then the shape. */
  function DecodeTaskDetails(resp: Response): Result<Json, Error>
  {
    if IsHttpError(resp.status) then Failure(HttpStatus(resp.status))
    else match resp.body
      case None => Failure(NotJson)
      case Some(data) => TaskFrom(data)
  }

  /** On an object body: exactly task[0] when task is a non-empty list,
      otherwise the whole object when it has projectid, otherwise failure. */
  lemma TaskFromObject(fields: map<string, Json>)
    ensures "task" in fields && fields["task"].JList? && |fields["task"].items| > 0 ==>
      TaskFrom(JObj(fields)) == Success(fields["task"].items[0])
    ensures !("task" in fields && fields["task"].JList? && |fields["task"].items| > 0) && "projectid" in fields ==>
      TaskFrom(JObj(fields)) == Success(JObj(fields))
    ensures !("task" in fields && fields["task"].JList? && |fields["task"].items| > 0) && "projectid" !in fields ==>
      TaskFrom(JObj(fields)) == Failure(NoTask)
  {
  }

  /** Whatever else the reply holds, the task details are the first element
      of the task list, untouched. */
  lemma TaskDetailsAreFirstElement(status: int, extra: map<string, Json>, first: Json, others: seq<Json>)
    requires !IsHttpError(status)
    ensures DecodeTaskDetails(Response(status, Some(JObj(extra["task" := JList([first] + others)])))) == Success(first)
  {
  }

  // ---------------------------------------------------------------------
  // Reading GET /projectworktype/?projectid=

  /** get_worktypes_for_project on a decoded body: a bare list, or the list
      under projectworktype, returned as it is. */
  function WorktypesFrom(data: Json): Result<seq<Json>, Error>
  {
    if data.JList? then Success(data.items)
    else if data.JObj? && "projectworktype" in data.fields && data.fields["projectworktype"].JList? then
      Success(data.fields["projectworktype"].items)
    else Failure(UnsupportedWorktypes)
  }

  function DecodeWorktypes(resp: Response): Result<seq<Json>, Error>
  {
    if IsHttpError(resp.status) then Failure(HttpStatus(resp.status))
    else match resp.body
      case None => Failure(NotJson)
      case Some(data) => WorktypesFrom(data)
  }

  /** Both accepted shapes give the same list, same length and order; every
      other shape fails. */
  lemma WorktypesShapesAgree(items: seq<Json>, extra: map<string, Json>)
    ensures WorktypesFrom(JList(items)) == Success(items)
    ensures WorktypesFrom(JObj(extra["projectworktype" := JList(items)])) == Success(items)
    ensures WorktypesFrom(JObj(extra)).Success? <==> "projectworktype" in extra && extra["projectworktype"].JList?
  {
  }

  /** The reply of a POST: raise_for_status(), then resp.json(). */
  function DecodeReceipt(resp: Response): Result<Json, Error>
  {
    if IsHttpError(resp.status) then Failure(HttpStatus(resp.status))
    else match resp.body
      case None => Failure(NotJson)
      case Some(data) => Success(data)
  }

  // ---------------------------------------------------------------------
  // The oracle

  /** The next reply, or NoReply when the service has nothing more to say. */
  function Deliver(replies: seq<Response>): Result<Response, Error> {
    if replies == [] then Failure(NoReply) else Success(replies[0])
  }

  /** The replies left after k requests. */
  function Drop(replies: seq<Response>, k: nat): seq<Response> {
    if k >= |replies| then [] else replies[k..]
  }

  /** The replies still to come after one request. */
  function Remaining(replies: seq<Response>): (rest: seq<Response>)
    ensures replies == [] ==> rest == []
    ensures replies != [] ==> [replies[0]] + rest == replies
  {
    Drop(replies, 1)
  }

  lemma RemainingDrop(replies: seq<Response>, k: nat)
    ensures Remaining(Drop(replies, k)) == Drop(replies, k + 1)
  {
  }

  function MeCall(replies: seq<Response>): Result<int, Error> {
    var resp :- Deliver(replies);
    DecodeMe(resp)
  }

  function TaskDetailsCall(replies: seq<Response>): Result<Json, Error> {
    var resp :- Deliver(replies);
    DecodeTaskDetails(resp)
  }

  function WorktypesCall(replies: seq<Response>): Result<seq<Json>, Error> {
    var resp :- Deliver(replies);
    DecodeWorktypes(resp)
  }

  function ReceiptCall(replies: seq<Response>): Result<Json, Error> {
    var resp :- Deliver(replies);
    DecodeReceipt(resp)
  }

  /** A reply that create_time_entry takes as a success. */
  predicate Accepted(reply: Response) {
    !IsHttpError(reply.status) && reply.body.Some?
  }

  /** A POST succeeds exactly when a reply comes and is accepted, and then
      yields the reply's body. */
  lemma ReceiptCallAccepted(replies: seq<Response>)
    ensures ReceiptCall(replies).Success? <==> replies != [] && Accepted(replies[0])
    ensures ReceiptCall(replies).Success? ==> Some(ReceiptCall(replies).value) == replies[0].body
  {
  }

  /** IntervalsApi: the client object. Its token and person id are fixed
      when it is made; `replies` and `sent` are the oracle. */
  class IntervalsApi {
    const apiToken: string
    const personid: int
    var replies: seq<Response>
    var sent: seq<Request>

    constructor Init(apiToken: string, personid: int, replies: seq<Response>, sent: seq<Request>)
      ensures this.apiToken == apiToken && this.personid == personid
      ensures this.replies == replies && this.sent == sent
    {
      this.apiToken := apiToken;
      this.personid := personid;
      this.replies := replies;
      this.sent := sent;
    }

    /** IntervalsAPI(api_token): asks /me/ for the person id once and keeps
      it; when that fails no client comes into being. */
    static method Connect(apiToken: string, service: seq<Response>) returns (r: Result<IntervalsApi, Error>)
      ensures r.Success? <==> MeCall(service).Success?
      ensures r.Failure? ==> r.error == MeCall(service).error
      ensures r.Success? ==> fresh(r.value) && r.value.apiToken == apiToken
      ensures r.Success? ==> r.value.personid == MeCall(service).value
      ensures r.Success? ==> r.value.sent == [MeRequest] && r.value.replies == Remaining(service)
    {
      var me := MeCall(service);
      if me.Failure? {
        return Failure(me.error);
      }
      var api := new IntervalsApi.Init(apiToken, me.value, Remaining(service), [MeRequest]);
      return Success(api);
    }

    /** One round trip: the request is logged and takes the next reply. */
    method Exchange(req: Request) returns (reply: Result<Response, Error>)
      modifies this
      ensures sent == old(sent) + [req] && replies == Remaining(old(replies))
      ensures reply == Deliver(old(replies))
    {
      sent := sent + [req];
      reply := Deliver(replies);
      replies := Remaining(replies);
    }

    method GetTaskDetails(taskid: int) returns (r: Result<Json, Error>)
      modifies this
      ensures sent == old(sent) + [TaskRequest(taskid)] && replies == Remaining(old(replies))
      ensures r == TaskDetailsCall(old(replies))
    {
      var reply := Exchange(TaskRequest(taskid));
      if reply.Failure? {
        return Failure(reply.error);
      }
      r := DecodeTaskDetails(reply.value);
    }

    method GetWorktypesForProject(projectid: int) returns (r: Result<seq<Json>, Error>)
      modifies this
      ensures sent == old(sent) + [WorktypesRequest(projectid)] && replies == Remaining(old(replies))
      ensures r == WorktypesCall(old(replies))
    {
      var reply := Exchange(WorktypesRequest(projectid));
      if reply.Failure? {
        return Failure(reply.error);
      }
      r := DecodeWorktypes(reply.value);
    }

    /** POST /time/ with the cached person id; description defaults to ""
        and billable to true. */
    method CreateTimeEntry(taskid: int, worktypeid: int, date: string, hours: real,
                           description: string := "", billable: bool := true)
      returns (r: Result<Json, Error>)
      modifies this
      ensures sent == old(sent) + [TimeEntryRequest(TimeEntryPayload(taskid, worktypeid, personid, date, hours, description, billable))]
      ensures replies == Remaining(old(replies))
      ensures r == ReceiptCall(old(replies))
    {
      var payload := TimeEntryPayload(taskid, worktypeid, personid, date, hours, description, billable);
      var reply := Exchange(TimeEntryRequest(payload));
      if reply.Failure? {
        return Failure(reply.error);
      }
      r := DecodeReceipt(reply.value);
    }

    /** POST /tasknote/: always a non-public note. */
    method CreateTaskNote(taskid: int, note: string) returns (r: Result<Json, Error>)
      modifies this
      ensures sent == old(sent) + [TaskNoteRequest(TaskNotePayload(taskid, note))]
      ensures replies == Remaining(old(replies))
      ensures r == ReceiptCall(old(replies))
    {
      var reply := Exchange(TaskNoteRequest(TaskNotePayload(taskid, note)));
      if reply.Failure? {
        return Failure(reply.error);
      }
      r := DecodeReceipt(reply.value);
    }
  }
}
