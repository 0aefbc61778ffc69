/**
 * The course list page: the courses are fetched on mount and after every
 * delete the server accepted. Unlike the home page, the delete is not
 * optimistic and a thrown string is not shown.
 */
module CourseList {
  import opened Wrappers
  import opened Types
  import opened Api
  import opened Failures

  const FetchCoursesFallback := "Failed to fetch courses."
  const UndefinedCourseId := "Cannot delete course with undefined ID."
  const DeleteCourseFallback := "Failed to delete course."

  class CourseListPage {
    var courses: seq<Course>
    var loading: bool
    var error: Option<string>

    ghost var calls: seq<Call>

    constructor()
      ensures courses == [] && loading && error == None && calls == []
    {
      courses, loading, error := [], true, None;
      calls := [];
    }

    /**
     * `fetchCourses`: the fetched courses, or the message of an `Error` (any
     * other thrown value shows the fallback) with the courses as they were.
     */
    method FetchCourses(reply: Reply<seq<Course>>)
      modifies this`loading, this`error, this`courses, this`calls
      ensures calls == old(calls) + [GetCoursesCall]
      ensures !loading
      ensures GetCourses(reply).Ok? ==> courses == GetCourses(reply).value && error == None
      ensures GetCourses(reply).Err? ==>
        courses == old(courses) && error == Some(ErrorMessageOr(GetCourses(reply).thrown, FetchCoursesFallback))
    {
      loading := true;
      error := None;
      calls := calls + [GetCoursesCall];
      match GetCourses(reply) {
        case Ok(fetched) =>
          courses := fetched;
        case Err(e) =>
          error := Some(ErrorMessageOr(e, FetchCoursesFallback));
      }
      loading := false;
    }

    /**
     * `handleDeleteCourse(id)`. A course without an id is refused with a
     * message. Otherwise the message is cleared, and when the user confirms
     * the delete is sent: the list is fetched again after a success, and a
     * failure shows its message. The list never changes before the server
     * has answered.
     */
    method DeleteCourse(id: Option<int>, confirmed: bool, del: Reply<()>, refetch: Reply<seq<Course>>)
      modifies this`loading, this`error, this`courses, this`calls
      ensures id.None? ==>
        error == Some(UndefinedCourseId) && courses == old(courses) && loading == old(loading) && calls == old(calls)
      ensures id.Some? && !confirmed ==>
        error == None && courses == old(courses) && loading == old(loading) && calls == old(calls)
      ensures id.Some? && confirmed && Api.DeleteCourse(del).Err? ==>
        && error == Some(ErrorMessageOr(Api.DeleteCourse(del).thrown, DeleteCourseFallback))
        && courses == old(courses) && loading == old(loading)
        && calls == old(calls) + [DeleteCourseCall(id)]
      ensures id.Some? && confirmed && Api.DeleteCourse(del).Ok? ==>
        && calls == old(calls) + [DeleteCourseCall(id), GetCoursesCall]
        && !loading
        && courses == (if GetCourses(refetch).Ok? then GetCourses(refetch).value else old(courses))
        && error == (if GetCourses(refetch).Ok? then None
                     else Some(ErrorMessageOr(GetCourses(refetch).thrown, FetchCoursesFallback)))
    {
      if id.None? {
        error := Some(UndefinedCourseId);
        return;
      }
      error := None;
      if !confirmed {
        return;
      }
      calls := calls + [DeleteCourseCall(id)];
      match Api.DeleteCourse(del) {
        case Ok(_) =>
          FetchCourses(refetch);
        case Err(e) =>
          error := Some(ErrorMessageOr(e, DeleteCourseFallback));
      }
    }
  }
}
