/**
 * The create-instance page: the courses are loaded for the dropdown when the
 * page mounts, and the form is posted once it passes its check. The current
 * year, which the page reads from the clock, is a parameter.
 */
module InstanceCreation {
  import opened Wrappers
  import opened JsString
  import opened JsParseInt
  import opened Types
  import opened Api
  import opened Failures
  import opened Forms

  const NoCourseMessage := "Please select a course."
  const YearSemesterRequired := "Year and Semester are required."
  const YearRangeMessage := "Please enter a valid year between 2000 and 2100."
  const CourseNotFoundMessage := "Selected course not found. Please try again."
  const InstanceCreated := "Instance created successfully! Redirecting..."
  const LoadCoursesFallback := "Failed to load courses for selection."

  class CreateInstancePage {
    var year: string
    var semester: string
    /** The dropdown's value: `''`, or the text of a course id. */
    var selectedCourseId: string
    var courses: seq<Course>
    var loadingCourses: bool
    var isSubmitting: bool
    var error: Option<string>
    var success: Option<string>
    /** Whether `navigate('/instances')` has been scheduled. */
    var redirectScheduled: bool

    ghost var calls: seq<Call>

    function Form(): (string, string, string)
      reads this`selectedCourseId, this`year, this`semester
    {
      (selectedCourseId, year, semester)
    }

    /** The initial state: the current year, semester `'1'`, no course selected, courses loading. */
    constructor(currentYear: int)
      ensures Form() == ("", IntToString(currentYear), "1")
      ensures courses == [] && loadingCourses && !isSubmitting
      ensures error == None && success == None && !redirectScheduled
      ensures calls == []
    {
      year, semester, selectedCourseId := IntToString(currentYear), "1", "";
      courses, loadingCourses, isSubmitting := [], true, false;
      error, success, redirectScheduled := None, None, false;
      calls := [];
    }

    /**
     * `fetchCourses`, run on mount: the fetched courses, or the caught message
     * with the courses as they were.
     */
    method FetchCourses(reply: Reply<seq<Course>>)
      modifies this`loadingCourses, this`error, this`courses, this`calls
      ensures calls == old(calls) + [GetCoursesCall]
      ensures !loadingCourses
      ensures GetCourses(reply).Ok? ==> courses == GetCourses(reply).value && error == None
      ensures GetCourses(reply).Err? ==>
        && courses == old(courses)
        && error == Some(CaughtMessage(GetCourses(reply).thrown, LoadCoursesFallback))
    {
      loadingCourses := true;
      error := None;
      calls := calls + [GetCoursesCall];
      match GetCourses(reply) {
        case Ok(fetched) =>
          courses := fetched;
        case Err(e) =>
          error := Some(CaughtMessage(e, LoadCoursesFallback));
      }
      loadingCourses := false;
    }

    /**
     * `handleSubmit`. Both messages are cleared first; a form that fails its
     * check gets its message and sends nothing. A valid form is posted with
     * the parsed course id and year: a success shows the success message,
     * resets the form to the year read from the clock and schedules the
     * redirect; a failure shows the cleaned-up message and keeps the form.
     */
    method HandleSubmit(currentYear: int, create: Reply<Instance>)
      modifies this`selectedCourseId, this`year, this`semester, this`error, this`success,
        this`isSubmitting, this`redirectScheduled, this`calls
      ensures var check := CheckInstanceForm(old(selectedCourseId), old(year), old(semester), courses);
        && (!check.InstanceValid? ==>
              && success == None && Form() == old(Form()) && calls == old(calls)
              && isSubmitting == old(isSubmitting) && redirectScheduled == old(redirectScheduled))
        && (check.NoCourseSelected? ==> error == Some(NoCourseMessage))
        && (check.YearOrSemesterMissing? ==> error == Some(YearSemesterRequired))
        && (check.YearOutOfRange? ==> error == Some(YearRangeMessage))
        && (check.CourseNotFound? ==> error == Some(CourseNotFoundMessage))
        && (check.InstanceValid? ==>
              !isSubmitting && calls == old(calls) + [PostInstanceCall(check.payload)])
        && (check.InstanceValid? && CreateInstance(create).Ok? ==>
              && error == None && success == Some(InstanceCreated)
              && Form() == ("", IntToString(currentYear), "1") && redirectScheduled)
        && (check.InstanceValid? && CreateInstance(create).Err? ==>
              && error == Some(CreateInstanceFailureMessage(CreateInstance(create).thrown))
              && success == None && Form() == old(Form()) && redirectScheduled == old(redirectScheduled))
    {
      error, success := None, None;
      var check := CheckInstanceForm(selectedCourseId, year, semester, courses);
      if check.NoCourseSelected? {
        error := Some(NoCourseMessage);
      } else if check.YearOrSemesterMissing? {
        error := Some(YearSemesterRequired);
      } else if check.YearOutOfRange? {
        error := Some(YearRangeMessage);
      } else if check.CourseNotFound? {
        error := Some(CourseNotFoundMessage);
      } else {
        Submit(check.payload, currentYear, create);
      }
    }

    /**
     * Lines 76-108 of `handleSubmit`: the post of a checked payload, with
     * the reset on success and the cleaned-up message on failure.
     */
    method Submit(payload: CreateInstancePayload, currentYear: int, create: Reply<Instance>)
      modifies this`selectedCourseId, this`year, this`semester, this`error, this`success,
        this`isSubmitting, this`redirectScheduled, this`calls
      requires error == None && success == None
      ensures !isSubmitting && calls == old(calls) + [PostInstanceCall(payload)]
      ensures CreateInstance(create).Ok? ==>
        && error == None && success == Some(InstanceCreated)
        && Form() == ("", IntToString(currentYear), "1") && redirectScheduled
      ensures CreateInstance(create).Err? ==>
        && error == Some(CreateInstanceFailureMessage(CreateInstance(create).thrown))
        && success == None && Form() == old(Form()) && redirectScheduled == old(redirectScheduled)
    {
      isSubmitting := true;
      calls := calls + [PostInstanceCall(payload)];
      var outcome := CreateInstance(create);
      match outcome {
        case Ok(_) =>
          success := Some(InstanceCreated);
          selectedCourseId, year, semester := "", IntToString(currentYear), "1";
          redirectScheduled := true;
        case Err(e) =>
          error := Some(CreateInstanceFailureMessage(e));
      }
      isSubmitting := false;
    }
  }

  /**
   * With a course selected, the year the page starts with passes the range
   * check whenever the clock reads a year in [2000, 2100], and is then sent
   * as that very year.
   */
  lemma DefaultYearPasses(currentYear: int, selected: string, courses: seq<Course>)
    requires 2000 <= currentYear <= 2100 && selected != []
    ensures var r := CheckInstanceForm(selected, IntToString(currentYear), "1", courses);
      && (r.CourseNotFound? || r.InstanceValid?)
      && (r.InstanceValid? ==> r.payload == CreateInstancePayload(r.payload.course, currentYear, "1"))
  {
    YearBounds(currentYear);
    ParseIntOfIntToString(currentYear);
  }

  /**
   * Selecting a listed course (by the text of its id) with a year in range
   * posts that course's id.
   */
  lemma SelectedCourseSent(c: Course, courses: seq<Course>, year: string, semester: string)
    requires c in courses && c.id.Some?
    requires year != [] && semester != [] && YearInRange(year)
    ensures var r := CheckInstanceForm(IdText(c.id), year, semester, courses);
      r.InstanceValid? && r.payload.course == c.id.value && r.payload.semester == semester
  {
    ParseIntOfIntToString(c.id.value);
  }
}
