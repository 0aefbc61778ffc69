/**
 * The create-course page: one form, posted once it passes its check; a
 * success resets the form and schedules the move to the course list.
 */
module CourseCreation {
  import opened Wrappers
  import opened JsString
  import opened Types
  import opened Api
  import opened Failures
  import opened Forms

  /** The values the form starts with and returns to after a success. */
  const DefaultCredits := "3"
  const DefaultDepartment := "Computer Science"

  const FieldsRequired := "All fields are required."
  const CreditsNotPositiveMessage := "Credits must be a positive number."
  const CourseCreated := "Course created successfully! Redirecting..."
  const CreateCourseFallback := "Failed to create course."

  class CreateCoursePage {
    var title: string
    var courseCode: string
    var description: string
    var credits: string
    var department: string
    var error: Option<string>
    var success: Option<string>
    var isSubmitting: bool
    /** Whether `navigate('/courses')` has been scheduled. */
    var redirectScheduled: bool

    ghost var calls: seq<Call>

    function Form(): (string, string, string, string, string)
      reads this`title, this`courseCode, this`description, this`credits, this`department
    {
      (title, courseCode, description, credits, department)
    }

    constructor()
      ensures Form() == ("", "", "", DefaultCredits, DefaultDepartment)
      ensures error == None && success == None && !isSubmitting && !redirectScheduled
      ensures calls == []
    {
      title, courseCode, description := "", "", "";
      credits, department := DefaultCredits, DefaultDepartment;
      error, success, isSubmitting, redirectScheduled := None, None, false, false;
      calls := [];
    }

    /**
     * `handleSubmit`. Both messages are cleared first. A form that fails its
     * check gets the message and sends nothing. A valid form is posted: a
     * success shows the success message, resets the form and schedules the
     * redirect; a failure shows the caught message and keeps the form.
     */
    method HandleSubmit(create: Reply<Course>)
      modifies this`title, this`courseCode, this`description, this`credits, this`department,
        this`error, this`success, this`isSubmitting, this`redirectScheduled, this`calls
      ensures var check := CheckCourseForm(old(title), old(courseCode), old(description), old(credits), old(department));
        && (!check.CourseValid? ==>
              && success == None && Form() == old(Form()) && calls == old(calls)
              && isSubmitting == old(isSubmitting) && redirectScheduled == old(redirectScheduled))
        && (check.CourseFieldsMissing? ==> error == Some(FieldsRequired))
        && (check.CreditsNotPositive? ==> error == Some(CreditsNotPositiveMessage))
        && (check.CourseValid? ==> !isSubmitting && calls == old(calls) + [PostCourseCall(check.payload)])
        && (check.CourseValid? && CreateCourse(create).Ok? ==>
              && error == None && success == Some(CourseCreated)
              && Form() == ("", "", "", DefaultCredits, DefaultDepartment) && redirectScheduled)
        && (check.CourseValid? && CreateCourse(create).Err? ==>
              && error == Some(CaughtMessage(CreateCourse(create).thrown, CreateCourseFallback))
              && success == None && Form() == old(Form()) && redirectScheduled == old(redirectScheduled))
    {
      error, success := None, None;
      var check := CheckCourseForm(title, courseCode, description, credits, department);
      match check {
        case CourseFieldsMissing =>
          error := Some(FieldsRequired);
        case CreditsNotPositive =>
          error := Some(CreditsNotPositiveMessage);
        case CourseValid(payload) =>
          Submit(payload, create);
      }
    }

    /**
     * Lines 35-65 of `handleSubmit`: the post of a checked payload, with the
     * reset and the redirect on success and the caught message on failure.
     */
    method Submit(payload: CreateCoursePayload, create: Reply<Course>)
      modifies this`title, this`courseCode, this`description, this`credits, this`department,
        this`error, this`success, this`isSubmitting, this`redirectScheduled, this`calls
      requires error == None && success == None
      ensures !isSubmitting && calls == old(calls) + [PostCourseCall(payload)]
      ensures CreateCourse(create).Ok? ==>
        && error == None && success == Some(CourseCreated)
        && Form() == ("", "", "", DefaultCredits, DefaultDepartment) && redirectScheduled
      ensures CreateCourse(create).Err? ==>
        && error == Some(CaughtMessage(CreateCourse(create).thrown, CreateCourseFallback))
        && success == None && Form() == old(Form()) && redirectScheduled == old(redirectScheduled)
    {
      isSubmitting := true;
      calls := calls + [PostCourseCall(payload)];
      var outcome := CreateCourse(create);
      match outcome {
        case Ok(_) =>
          success := Some(CourseCreated);
          title, courseCode, description := "", "", "";
          credits, department := DefaultCredits, DefaultDepartment;
          redirectScheduled := true;
        case Err(e) =>
          error := Some(CaughtMessage(e, CreateCourseFallback));
      }
      isSubmitting := false;
    }
  }

  /**
   * After a success the form is refused until the user types again: the
   * reset form has an empty title, so submitting it twice sends one course.
   */
  lemma ResetFormRefused()
    ensures CheckCourseForm("", "", "", DefaultCredits, DefaultDepartment) == CourseFieldsMissing
  {
  }

  /**
   * A form filled in with a positive credit count written as a whole number
   * is posted with that count and the text fields exactly as typed.
   */
  lemma FilledFormPosted(title: string, code: string, description: string, n: int, department: string)
    requires title != [] && code != [] && description != [] && n > 0
    ensures CheckCourseForm(title, code, description, IntToString(n), department)
         == CourseValid(CreateCoursePayload(title, code, description, n, department))
  {
    WholeCreditsAccepted(n);
  }
}
