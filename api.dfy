/**
 * The API layer: how each of the eight calls turns the server's reply into
 * a value or a thrown `Error`, the query string of the instance list and the
 * body of the create-instance request.
 *
 * The HTTP exchange is abstract. A `Response` carries the two readings of
 * its body the code may take: `errorBody`, what `response.json()` gives with
 * an unparseable body replaced by `{}` (read only when `ok` is false), and
 * `data`, what `response.json()` gives (read only when `ok` is true); `text`
 * is the raw body that two calls put into their messages.
 */
module Api {
  import opened Wrappers
  import opened JsString
  import opened Types

  /** A value a `catch` clause can receive. */
  datatype Thrown =
    | JsError(message: string)   // an `Error` (or subclass) with its `message`
    | JsText(text: string)       // a thrown string
    | OtherValue                 // anything else

  /** A settled `await`: the value, or what was thrown. */
  datatype Outcome<T> = Ok(value: T) | Err(thrown: Thrown)

  /** The `detail` field of a parsed error body. */
  datatype Detail =
    | NoDetail                                    // missing, or the body is not an object
    | TextDetail(text: string)                    // a string
    | OtherDetail(truthy: bool, rendered: string) // another JSON value: its truthiness and `String(value)`

  /** `await response.json().catch(() => ({}))`. */
  datatype ErrorBody = Unparseable | Parsed(detail: Detail)

  /** `await response.json()` on the success path: the decoded value or the `SyntaxError` message. */
  datatype Decoded<T> = Decoded(value: T) | Malformed(syntaxError: string)

  datatype Response<T> = Response(ok: bool, statusText: string, errorBody: ErrorBody, text: string, data: Decoded<T>)

  /** What `await fetch(...)` settles to: a response, or the rejection of the request. */
  datatype Reply<T> = Rejected(thrown: Thrown) | Received(response: Response<T>)

  /** Whether `errorData.detail` is truthy: a non-empty string, or another truthy value. */
  predicate HasDetail(body: ErrorBody) {
    match body
    case Unparseable => false
    case Parsed(NoDetail) => false
    case Parsed(TextDetail(t)) => t != []
    case Parsed(OtherDetail(truthy, _)) => truthy
  }

  /** The message `new Error(errorData.detail)` carries when the detail is truthy. */
  function DetailText(body: ErrorBody): string
    requires HasDetail(body)
  {
    match body
    case Parsed(TextDetail(t)) => t
    case Parsed(OtherDetail(_, rendered)) => rendered
  }

  /** `errorData.detail || fallback`. */
  function DetailOr(body: ErrorBody, fallback: string): string {
    if HasDetail(body) then DetailText(body) else fallback
  }

  /** The value of `await response.json()`, or the `SyntaxError` it throws. */
  function DataOutcome<T>(data: Decoded<T>): (r: Outcome<T>)
    ensures r.Ok? <==> data.Decoded?
    ensures r.Ok? ==> r.value == data.value
  {
    match data
    case Decoded(v) => Ok(v)
    case Malformed(m) => Err(JsError(m))
  }

  /**
   * The shared shape of `createCourseApi`, `getInstancesApi` and
   * `createInstanceApi`: a rejected request is rethrown, a non-ok response
   * throws the body's detail or `fallbackPrefix + statusText`, and an ok
   * response yields its decoded body unchanged.
   */
  function JsonResult<T>(reply: Reply<T>, fallbackPrefix: string): (r: Outcome<T>)
    ensures reply.Rejected? ==> r == Err(reply.thrown)
    ensures reply.Received? && !reply.response.ok ==>
      r == Err(JsError(DetailOr(reply.response.errorBody, fallbackPrefix + reply.response.statusText)))
    ensures reply.Received? && reply.response.ok ==> r == DataOutcome(reply.response.data)
  {
    match reply
    case Rejected(e) => Err(e)
    case Received(resp) =>
      if !resp.ok then Err(JsError(DetailOr(resp.errorBody, fallbackPrefix + resp.statusText)))
      else DataOutcome(resp.data)
  }

  /** The shared shape of the two deletes: like `JsonResult`, but an ok response yields nothing and its body is not read. */
  function VoidResult<T>(reply: Reply<T>, fallbackPrefix: string): (r: Outcome<()>)
    ensures r.Ok? <==> reply.Received? && reply.response.ok
    ensures reply.Rejected? ==> r == Err(reply.thrown)
    ensures reply.Received? && !reply.response.ok ==>
      r == Err(JsError(DetailOr(reply.response.errorBody, fallbackPrefix + reply.response.statusText)))
  {
    match reply
    case Rejected(e) => Err(e)
    case Received(resp) =>
      if !resp.ok then Err(JsError(DetailOr(resp.errorBody, fallbackPrefix + resp.statusText)))
      else Ok(())
  }

  const FetchCoursesPrefix := "Failed to fetch courses: "
  const CreateCoursePrefix := "Failed to create course: "
  const DeleteCoursePrefix := "Failed to delete course: "
  const FetchInstancesPrefix := "Failed to fetch instances: "
  const CreateInstancePrefix := "Failed to create instance: "
  const DeleteInstancePrefix := "Failed to delete instance: "

  /** `getCoursesApi()`: the error body is never read; the message is always the prefix and `statusText`. */
  function GetCourses(reply: Reply<seq<Course>>): (r: Outcome<seq<Course>>)
    ensures reply.Rejected? ==> r == Err(reply.thrown)
    ensures reply.Received? && !reply.response.ok ==> r == Err(JsError(FetchCoursesPrefix + reply.response.statusText))
    ensures reply.Received? && reply.response.ok ==> r == DataOutcome(reply.response.data)
  {
    match reply
    case Rejected(e) => Err(e)
    case Received(resp) =>
      if !resp.ok then Err(JsError(FetchCoursesPrefix + resp.statusText))
      else DataOutcome(resp.data)
  }

  /**
   * `createCourseApi(payload)`: the created course on an ok response; the
   * server's detail or `"Failed to create course: " + statusText` otherwise.
   */
  function CreateCourse(reply: Reply<Course>): (r: Outcome<Course>)
    ensures reply.Rejected? ==> r == Err(reply.thrown)
    ensures reply.Received? && !reply.response.ok ==>
      r == Err(JsError(DetailOr(reply.response.errorBody, CreateCoursePrefix + reply.response.statusText)))
    ensures r.Ok? <==> reply.Received? && reply.response.ok && reply.response.data.Decoded?
    ensures r.Ok? ==> r.value == reply.response.data.value
  {
    JsonResult(reply, CreateCoursePrefix)
  }

  /** `deleteCourseApi(id)`: success exactly on an ok response, whatever its body. */
  function DeleteCourse(reply: Reply<()>): (r: Outcome<()>)
    ensures r.Ok? <==> reply.Received? && reply.response.ok
    ensures reply.Rejected? ==> r == Err(reply.thrown)
    ensures reply.Received? && !reply.response.ok ==>
      r == Err(JsError(DetailOr(reply.response.errorBody, DeleteCoursePrefix + reply.response.statusText)))
  {
    VoidResult(reply, DeleteCoursePrefix)
  }

  /** `getCourseById(id)`: a non-ok response throws a message built from the id, `statusText` and the raw body. */
  function GetCourseById(id: int, reply: Reply<Course>): (r: Outcome<Course>)
    ensures reply.Rejected? ==> r == Err(reply.thrown)
    ensures reply.Received? && !reply.response.ok ==>
      r == Err(JsError("Failed to fetch course " + IntToString(id) + ": "
                       + reply.response.statusText + " - " + reply.response.text))
    ensures reply.Received? && reply.response.ok ==> r == DataOutcome(reply.response.data)
  {
    match reply
    case Rejected(e) => Err(e)
    case Received(resp) =>
      if !resp.ok then Err(JsError("Failed to fetch course " + IntToString(id) + ": " + resp.statusText + " - " + resp.text))
      else DataOutcome(resp.data)
  }

  /** `getInstancesApi(year, semester)`; the missing-course warning does not alter the list. */
  function GetInstances(reply: Reply<seq<Instance>>): (r: Outcome<seq<Instance>>)
    ensures reply.Rejected? ==> r == Err(reply.thrown)
    ensures reply.Received? && !reply.response.ok ==>
      r == Err(JsError(DetailOr(reply.response.errorBody, FetchInstancesPrefix + reply.response.statusText)))
    ensures r.Ok? <==> reply.Received? && reply.response.ok && reply.response.data.Decoded?
    ensures r.Ok? ==> r.value == reply.response.data.value
  {
    JsonResult(reply, FetchInstancesPrefix)
  }

  /** `createInstanceApi(payload)`; the missing-course warning does not alter the instance. */
  function CreateInstance(reply: Reply<Instance>): (r: Outcome<Instance>)
    ensures reply.Rejected? ==> r == Err(reply.thrown)
    ensures reply.Received? && !reply.response.ok ==>
      r == Err(JsError(DetailOr(reply.response.errorBody, CreateInstancePrefix + reply.response.statusText)))
    ensures r.Ok? <==> reply.Received? && reply.response.ok && reply.response.data.Decoded?
    ensures r.Ok? ==> r.value == reply.response.data.value
  {
    JsonResult(reply, CreateInstancePrefix)
  }

  /** `getInstanceDetails(year, semester, id)`: the `getCourseById` shape with `year-semester-id`. */
  function GetInstanceDetails(year: string, semester: string, id: int, reply: Reply<Instance>): (r: Outcome<Instance>)
    ensures reply.Rejected? ==> r == Err(reply.thrown)
    ensures reply.Received? && !reply.response.ok ==>
      r == Err(JsError("Failed to fetch instance " + year + "-" + semester + "-" + IntToString(id) + ": "
                       + reply.response.statusText + " - " + reply.response.text))
    ensures reply.Received? && reply.response.ok ==> r == DataOutcome(reply.response.data)
  {
    match reply
    case Rejected(e) => Err(e)
    case Received(resp) =>
      if !resp.ok then
        Err(JsError("Failed to fetch instance " + year + "-" + semester + "-" + IntToString(id) + ": "
                    + resp.statusText + " - " + resp.text))
      else DataOutcome(resp.data)
  }

  /** `deleteInstanceApi(id)`: success exactly on an ok response, whatever its body. */
  function DeleteInstance(reply: Reply<()>): (r: Outcome<()>)
    ensures r.Ok? <==> reply.Received? && reply.response.ok
    ensures reply.Rejected? ==> r == Err(reply.thrown)
    ensures reply.Received? && !reply.response.ok ==>
      r == Err(JsError(DetailOr(reply.response.errorBody, DeleteInstancePrefix + reply.response.statusText)))
  {
    VoidResult(reply, DeleteInstancePrefix)
  }

  /** A non-empty string `detail` becomes the message of every call that reads the error body. */
  lemma DetailBecomesMessage<T>(reply: Reply<T>, prefix: string, detail: string)
    requires reply.Received? && !reply.response.ok
    requires reply.response.errorBody == Parsed(TextDetail(detail)) && detail != []
    ensures JsonResult(reply, prefix) == Err(JsError(detail))
    ensures VoidResult(reply, prefix) == Err(JsError(detail))
  {
  }

  /** An unparseable error body is read as `{}`: the outcome is the one a body without `detail` gives. */
  lemma UnparseableBodyIsEmpty<T>(resp: Response<T>, prefix: string)
    requires !resp.ok
    ensures JsonResult(Received(resp.(errorBody := Unparseable)), prefix)
         == JsonResult(Received(resp.(errorBody := Parsed(NoDetail))), prefix)
         == Err(JsError(prefix + resp.statusText))
    ensures VoidResult(Received(resp.(errorBody := Unparseable)), prefix)
         == VoidResult(Received(resp.(errorBody := Parsed(NoDetail))), prefix)
         == Err(JsError(prefix + resp.statusText))
  {
  }

  /** `getCoursesApi` does not depend on the error body or the raw text of a response. */
  lemma GetCoursesIgnoresBody(r1: Response<seq<Course>>, r2: Response<seq<Course>>)
    requires r1.ok == r2.ok && r1.statusText == r2.statusText && r1.data == r2.data
    ensures GetCourses(Received(r1)) == GetCourses(Received(r2))
  {
  }

  /** A rejected request reaches the caller of every call as the very value that was thrown. */
  lemma FailuresPropagate(e: Thrown, id: int, year: string, semester: string)
    ensures GetCourses(Rejected(e)) == Err(e)
    ensures CreateCourse(Rejected(e)) == Err(e)
    ensures DeleteCourse(Rejected(e)) == Err(e)
    ensures GetCourseById(id, Rejected(e)) == Err(e)
    ensures GetInstances(Rejected(e)) == Err(e)
    ensures CreateInstance(Rejected(e)) == Err(e)
    ensures GetInstanceDetails(year, semester, id, Rejected(e)) == Err(e)
    ensures DeleteInstance(Rejected(e)) == Err(e)
  {
  }

  /**
   * The fallback message of a failed instance list mentions "404" exactly
   * when the status text does: the prefix has no digit 4. The status code
   * itself is not part of the message.
   */
  lemma InstancesFallbackMentions404(resp: Response<seq<Instance>>)
    requires !resp.ok && !HasDetail(resp.errorBody)
    ensures GetInstances(Received(resp)) == Err(JsError(FetchInstancesPrefix + resp.statusText))
    ensures Includes(FetchInstancesPrefix + resp.statusText, "404") <==> Includes(resp.statusText, "404")
  {
    var p := "404";
    assert forall k :: 0 <= k < |FetchInstancesPrefix| ==> FetchInstancesPrefix[k] != p[0];
    IncludesPastPrefix(FetchInstancesPrefix, resp.statusText, p);
  }

  /**
   * A listed instance without `course_details` is returned like any other:
   * the list an ok response decodes to is returned element for element.
   */
  lemma ListedInstancesKept(resp: Response<seq<Instance>>)
    requires resp.ok && resp.data.Decoded?
    ensures GetInstances(Received(resp)).Ok?
    ensures forall i :: 0 <= i < |resp.data.value| ==>
      GetInstances(Received(resp)).value[i] == resp.data.value[i]
    ensures |GetInstances(Received(resp)).value| == |resp.data.value|
  {
  }

  /** A created instance without `course_details` is returned as decoded, not turned into an error. */
  lemma CreatedInstanceKept(resp: Response<Instance>)
    requires resp.ok && resp.data.Decoded? && resp.data.value.course_details.None?
    ensures CreateInstance(Received(resp)) == Ok(resp.data.value)
  {
  }

  /** The query parameter `name` in an ordered list of pairs: its first value, like `URLSearchParams.get`. */
  function Lookup(entries: seq<(string, string)>, name: string): (r: Option<string>)
    ensures r.Some? <==> exists i :: 0 <= i < |entries| && entries[i].0 == name
    ensures r.Some? ==> (name, r.value) in entries
  {
    if entries == [] then None
    else if entries[0].0 == name then Some(entries[0].1)
    else Lookup(entries[1..], name)
  }

  /** `URLSearchParams`: the ordered list of name/value pairs the object holds. */
  class SearchParams {
    var entries: seq<(string, string)>

    /** `new URLSearchParams()`. */
    constructor()
      ensures entries == []
    {
      entries := [];
    }

    /** `params.append(name, value)`: one more pair, at the end. */
    method Append(name: string, value: string)
      modifies this
      ensures entries == old(entries) + [(name, value)]
    {
      entries := entries + [(name, value)];
    }
  }

  /** The pairs `getInstancesApi(year, semester)` sends: `year` and `semester` when non-empty, then `include_course`. */
  function InstanceQuery(year: string, semester: string): seq<(string, string)> {
    (if year != [] then [("year", year)] else [])
    + (if semester != [] then [("semester", semester)] else [])
    + [("include_course", "true")]
  }

  /** Lines 71-74 of `getInstancesApi`: the query is built by appending to a fresh `URLSearchParams`. */
  method BuildInstanceQuery(year: string, semester: string) returns (params: SearchParams)
    ensures fresh(params)
    ensures params.entries == InstanceQuery(year, semester)
  {
    params := new SearchParams();
    if year != [] {
      params.Append("year", year);
    }
    if semester != [] {
      params.Append("semester", semester);
    }
    params.Append("include_course", "true");
  }

  /**
   * The instance query holds `year` exactly when the year is non-empty,
   * `semester` exactly when the semester is non-empty, always ends with
   * `include_course=true`, and keeps the order year, semester, include_course.
   */
  lemma InstanceQueryShape(year: string, semester: string)
    ensures var q := InstanceQuery(year, semester);
      && Lookup(q, "year") == (if year != [] then Some(year) else None)
      && Lookup(q, "semester") == (if semester != [] then Some(semester) else None)
      && Lookup(q, "include_course") == Some("true")
      && q[|q| - 1] == ("include_course", "true")
      && |q| == 1 + (if year != [] then 1 else 0) + (if semester != [] then 1 else 0)
      && (year != [] ==> q[0] == ("year", year))
      && (semester != [] ==> q[|q| - 2] == ("semester", semester))
  {
    var q := InstanceQuery(year, semester);
    var tail := [("include_course", "true")];
    var s := if semester != [] then [("semester", semester)] + tail else tail;
    assert Lookup(tail, "include_course") == Some("true");
    assert Lookup(tail, "year") == None && Lookup(tail, "semester") == None;
    assert Lookup(s, "year") == None;
    assert q == (if year != [] then [("year", year)] + s else s);
  }

  /** A JSON value of the request bodies. */
  datatype Json = JNum(n: int) | JStr(s: string) | JBool(b: bool)

  /** `JSON.stringify(payload)` seen as an object: its fields by name. */
  function InstancePayloadJson(p: CreateInstancePayload): map<string, Json> {
    map["course" := JNum(p.course), "year" := JNum(p.year), "semester" := JStr(p.semester)]
  }

  /**
   * `{...instanceData, include_course: true}`: every field of the payload
   * with its value, plus `include_course`, and nothing removed.
   */
  function CreateInstanceBody(p: CreateInstancePayload): (body: map<string, Json>)
    ensures body.Keys == InstancePayloadJson(p).Keys + {"include_course"}
    ensures forall k :: k in InstancePayloadJson(p) ==> body[k] == InstancePayloadJson(p)[k]
    ensures body["include_course"] == JBool(true)
  {
    InstancePayloadJson(p)["include_course" := JBool(true)]
  }

  /** The payload can be read back from the body it is sent in. */
  lemma CreateInstanceBodyKeepsPayload(p: CreateInstancePayload)
    ensures var body := CreateInstanceBody(p);
      && body["course"] == JNum(p.course) && body["year"] == JNum(p.year) && body["semester"] == JStr(p.semester)
  {
  }

  /** A request the console sends, as the pages record it. */
  datatype Call =
    | GetCoursesCall
    | PostCourseCall(payload: CreateCoursePayload)
    | DeleteCourseCall(courseId: Option<int>)       // `None` is the path `/courses/undefined`
    | GetCourseCall(id: int)
    | GetInstancesCall(query: seq<(string, string)>)
    | PostInstanceCall(instance: CreateInstancePayload)  // sent as `CreateInstanceBody(payload)`
    | DeleteInstanceCall(instanceId: Option<int>)   // `None` is the path `/instances/undefined`
}
