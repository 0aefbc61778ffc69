/**
 * The course detail page: the `id` route parameter is checked with
 * `parseInt`, and a valid one is fetched.
 */
module CourseDetail {
  import opened Wrappers
  import JsParseIntExamples
  import opened Types
  import opened Api
  import opened Failures
  import opened Forms

  const CourseDetailsFallback := "Failed to fetch course details."
  const NoCourseIdMessage := "No course ID provided."
  const InvalidCourseIdMessage := "Invalid course ID provided."

  class CourseDetailPage {
    var course: Option<Course>
    var loading: bool
    var error: Option<string>

    ghost var calls: seq<Call>

    constructor()
      ensures course == None && loading && error == None && calls == []
    {
      course, loading, error := None, true, None;
      calls := [];
    }

    /**
     * `fetchCourseDetails(courseId)`: the fetched course, or the caught
     * message with the course shown before kept.
     */
    method FetchCourseDetails(courseId: int, reply: Reply<Course>)
      modifies this`course, this`loading, this`error, this`calls
      ensures calls == old(calls) + [GetCourseCall(courseId)]
      ensures !loading
      ensures GetCourseById(courseId, reply).Ok? ==> course == Some(GetCourseById(courseId, reply).value) && error == None
      ensures GetCourseById(courseId, reply).Err? ==>
        course == old(course) && error == Some(CaughtMessage(GetCourseById(courseId, reply).thrown, CourseDetailsFallback))
    {
      loading := true;
      error := None;
      calls := calls + [GetCourseCall(courseId)];
      match GetCourseById(courseId, reply) {
        case Ok(fetched) =>
          course := Some(fetched);
        case Err(e) =>
          error := Some(CaughtMessage(e, CourseDetailsFallback));
      }
      loading := false;
    }

    /**
     * The effect of lines 35-50, run whenever the route's `id` changes: a
     * missing or empty id, or one `parseInt` reads as NaN, is reported
     * without a request; any other is fetched as the number it parses to.
     */
    method OnRoute(id: Option<string>, reply: Reply<Course>)
      modifies this`course, this`loading, this`error, this`calls
      ensures !loading
      ensures CheckCourseRoute(id).NoCourseId? ==>
        error == Some(NoCourseIdMessage) && course == old(course) && calls == old(calls)
      ensures CheckCourseRoute(id).InvalidCourseId? ==>
        error == Some(InvalidCourseIdMessage) && course == old(course) && calls == old(calls)
      ensures CheckCourseRoute(id).CourseIdOf? ==>
        var n := CheckCourseRoute(id).id;
        && calls == old(calls) + [GetCourseCall(n)]
        && (GetCourseById(n, reply).Ok? ==> course == Some(GetCourseById(n, reply).value) && error == None)
        && (GetCourseById(n, reply).Err? ==>
              course == old(course) && error == Some(CaughtMessage(GetCourseById(n, reply).thrown, CourseDetailsFallback)))
    {
      match CheckCourseRoute(id) {
        case NoCourseId =>
          error := Some(NoCourseIdMessage);
          loading := false;
        case InvalidCourseId =>
          error := Some(InvalidCourseIdMessage);
          loading := false;
        case CourseIdOf(n) =>
          FetchCourseDetails(n, reply);
      }
    }
  }

  /** A route id such as "abc" is reported as invalid and nothing is requested. */
  lemma WordRouteInvalid()
    ensures CheckCourseRoute(Some("abc")) == InvalidCourseId
  {
    JsParseIntExamples.ParseIntWithoutDigits();
  }
}
