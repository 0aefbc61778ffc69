/**
 * The home page: a course form, the course list, an instance form and the
 * instance list on one screen, with optimistic deletes. Each handler is one
 * atomic step: every `await` is an input reply, and `window.confirm` a flag.
 * The ghost `calls` log records the requests sent, in order.
 */
module Home {
  import opened Wrappers
  import opened JsArray
  import opened Types
  import opened Api
  import opened Failures
  import opened Forms

  /** `c => c.id !== id`, where `id` may be `undefined` (`None`). */
  function CourseIdIsNot(id: Option<int>): Course -> bool {
    (c: Course) => c.id != id
  }

  /** `i => i.id !== id`, where `id` may be `undefined` (`None`). */
  function InstanceIdIsNot(id: Option<int>): Instance -> bool {
    (i: Instance) => i.id != id
  }

  /** The course list after a refresh with the given reply: the fetched list, or `[]` on failure. */
  function RefreshedCourses(reply: Reply<seq<Course>>): seq<Course> {
    if GetCourses(reply).Ok? then GetCourses(reply).value else []
  }

  /** The list error after a refresh that ended with `got`. */
  function RefreshError<T>(got: Outcome<T>, fallback: string): Option<string> {
    if got.Ok? then None else Some(CaughtMessage(got.thrown, fallback))
  }

  /** The state hooks of the courses list, and the dropdown's loading flag, which share the list. */
  datatype CourseListView = CourseListView(
    listed: seq<Course>, message: Option<string>, loading: bool, loadingDropdown: bool, shown: bool)

  /** The state hooks of the instances list. */
  datatype InstanceListView = InstanceListView(
    listed: seq<Instance>, message: Option<string>, loading: bool, shown: bool)

  /**
   * The course list after `await fetchCoursesForDropdown(); if (showCourses)
   * await handleListCourses(false);` starting from `before`: the list and its
   * message come from the list's reply when the list is shown, else from the
   * dropdown's; every loading flag that was raised is down again, and the
   * list stays shown or hidden.
   */
  function AfterCourseReload(before: CourseListView, dropdown: Reply<seq<Course>>, list: Reply<seq<Course>>)
    : (after: CourseListView)
    ensures after.shown == before.shown && !after.loadingDropdown
    ensures after.loading == (before.loading && !before.shown)
    ensures after.listed == RefreshedCourses(if before.shown then list else dropdown)
    ensures after.message == (if before.shown then RefreshError(GetCourses(list), "Failed to fetch courses.")
                              else RefreshError(GetCourses(dropdown), "Failed to fetch courses for dropdown."))
  {
    if before.shown then
      CourseListView(RefreshedCourses(list), RefreshError(GetCourses(list), "Failed to fetch courses."), false, false, true)
    else
      CourseListView(RefreshedCourses(dropdown), RefreshError(GetCourses(dropdown), "Failed to fetch courses for dropdown."),
                     before.loading, false, false)
  }

  /**
   * The instance list after `if (showInstances) await
   * handleListInstances(false);`: a shown list is replaced by the fetched one,
   * or emptied with the message; a hidden list is left as it was.
   */
  function AfterInstanceReload(before: InstanceListView, list: Reply<seq<Instance>>): (after: InstanceListView)
    ensures !before.shown ==> after == before
    ensures before.shown ==>
      && after.shown && !after.loading
      && after.listed == (if GetInstances(list).Ok? then GetInstances(list).value else [])
      && after.message == RefreshError(GetInstances(list), "Failed to fetch instances.")
  {
    if before.shown then
      InstanceListView(if GetInstances(list).Ok? then GetInstances(list).value else [],
                       RefreshError(GetInstances(list), "Failed to fetch instances."), false, true)
    else before
  }

  class HomePage {
    // Create Course
    var courseTitle: string
    var courseCodeInput: string
    var courseDescription: string
    var courseCredits: string
    var courseDepartment: string
    var isCreatingCourse: bool
    var createCourseError: Option<string>
    // Courses List
    var courses: seq<Course>
    var isLoadingCourses: bool
    var listCoursesError: Option<string>
    var showCourses: bool
    // Create Instance; `None` is the empty selection `''`
    var selectedCourseForInstance: Option<int>
    var instanceYear: string
    var instanceSemester: string
    var isCreatingInstance: bool
    var createInstanceError: Option<string>
    var isLoadingCoursesForDropdown: bool
    // Instances List
    var instances: seq<Instance>
    var isLoadingInstances: bool
    var listInstancesError: Option<string>
    var showInstances: bool
    var filterInstanceYear: string
    var filterInstanceSemester: string

    ghost var calls: seq<Call>

    /** The five fields of the course form. */
    function CourseForm(): (string, string, string, string, string)
      reads this`courseTitle, this`courseCodeInput, this`courseDescription, this`courseCredits, this`courseDepartment
    {
      (courseTitle, courseCodeInput, courseDescription, courseCredits, courseDepartment)
    }

    /** The three fields of the instance form. */
    function InstanceForm(): (Option<int>, string, string)
      reads this`selectedCourseForInstance, this`instanceYear, this`instanceSemester
    {
      (selectedCourseForInstance, instanceYear, instanceSemester)
    }

    /** The course list as the page holds it. */
    function CourseList(): CourseListView
      reads this`courses, this`listCoursesError, this`isLoadingCourses, this`isLoadingCoursesForDropdown,
        this`showCourses
    {
      CourseListView(courses, listCoursesError, isLoadingCourses, isLoadingCoursesForDropdown, showCourses)
    }

    /** The instance list as the page holds it. */
    function InstanceList(): InstanceListView
      reads this`instances, this`listInstancesError, this`isLoadingInstances, this`showInstances
    {
      InstanceListView(instances, listInstancesError, isLoadingInstances, showInstances)
    }

    /** The initial state of every `useState` of the page. */
    constructor()
      ensures CourseForm() == ("", "", "", "3", "Computer Science")
      ensures !isCreatingCourse && createCourseError == None
      ensures courses == [] && !isLoadingCourses && listCoursesError == None && !showCourses
      ensures InstanceForm() == (None, "", "")
      ensures !isCreatingInstance && createInstanceError == None && !isLoadingCoursesForDropdown
      ensures instances == [] && !isLoadingInstances && listInstancesError == None && !showInstances
      ensures filterInstanceYear == "" && filterInstanceSemester == ""
      ensures calls == []
    {
      courseTitle, courseCodeInput, courseDescription := "", "", "";
      courseCredits, courseDepartment := "3", "Computer Science";
      isCreatingCourse, createCourseError := false, None;
      courses, isLoadingCourses, listCoursesError, showCourses := [], false, None, false;
      selectedCourseForInstance, instanceYear, instanceSemester := None, "", "";
      isCreatingInstance, createInstanceError, isLoadingCoursesForDropdown := false, None, false;
      instances, isLoadingInstances, listInstancesError, showInstances := [], false, None, false;
      filterInstanceYear, filterInstanceSemester := "", "";
      calls := [];
    }

    /**
     * `fetchCoursesForDropdown`: the fetched courses, or `[]` and the message
     * on failure; the failure is not passed on.
     */
    method FetchCoursesForDropdown(reply: Reply<seq<Course>>)
      modifies this`isLoadingCoursesForDropdown, this`listCoursesError, this`courses, this`calls
      ensures calls == old(calls) + [GetCoursesCall]
      ensures courses == RefreshedCourses(reply)
      ensures listCoursesError == RefreshError(GetCourses(reply), "Failed to fetch courses for dropdown.")
      ensures !isLoadingCoursesForDropdown
    {
      isLoadingCoursesForDropdown := true;
      listCoursesError := None;
      calls := calls + [GetCoursesCall];
      match GetCourses(reply) {
        case Ok(fetched) =>
          courses := fetched;
        case Err(e) =>
          listCoursesError := Some(CaughtMessage(e, "Failed to fetch courses for dropdown."));
          courses := [];
      }
      isLoadingCoursesForDropdown := false;
    }

    /**
     * `handleListCourses(triggeredByUser)`. The list is marked shown when the
     * user asked; `shown` is the flag as it was on entry (the closure's
     * value), and a refresh of a list that was not shown does nothing. A
     * failure empties the list only if it was already shown.
     */
    method ListCourses(triggeredByUser: bool, reply: Reply<seq<Course>>)
      modifies this`showCourses, this`isLoadingCourses, this`listCoursesError, this`courses, this`calls
      ensures showCourses == (old(showCourses) || triggeredByUser)
      ensures !old(showCourses) && !triggeredByUser ==>
        courses == old(courses) && listCoursesError == old(listCoursesError)
        && isLoadingCourses == old(isLoadingCourses) && calls == old(calls)
      ensures old(showCourses) || triggeredByUser ==>
        && calls == old(calls) + [GetCoursesCall]
        && !isLoadingCourses
        && listCoursesError == RefreshError(GetCourses(reply), "Failed to fetch courses.")
        && courses == (if GetCourses(reply).Ok? then GetCourses(reply).value
                       else if old(showCourses) then [] else old(courses))
    {
      var shown := showCourses;
      if triggeredByUser {
        showCourses := true;
      }
      if !shown && !triggeredByUser {
        return;
      }
      isLoadingCourses := true;
      listCoursesError := None;
      calls := calls + [GetCoursesCall];
      match GetCourses(reply) {
        case Ok(fetched) =>
          courses := fetched;
        case Err(e) =>
          listCoursesError := Some(CaughtMessage(e, "Failed to fetch courses."));
          if shown {
            courses := [];
          }
      }
      isLoadingCourses := false;
    }

    /**
     * `await fetchCoursesForDropdown(); if (showCourses) await
     * handleListCourses(false);`, the reload after a course was created or
     * deleted: the courses come from the list's reply when the list is shown,
     * else from the dropdown's.
     */
    method ReloadCourses(dropdown: Reply<seq<Course>>, list: Reply<seq<Course>>)
      modifies this`isLoadingCoursesForDropdown, this`listCoursesError, this`courses, this`isLoadingCourses,
        this`showCourses, this`calls
      ensures calls == old(calls) + [GetCoursesCall] + (if old(showCourses) then [GetCoursesCall] else [])
      ensures CourseList() == AfterCourseReload(old(CourseList()), dropdown, list)
    {
      FetchCoursesForDropdown(dropdown);
      if showCourses {
        ListCourses(false, list);
      }
    }

    /** Lines 114-118 of `handleAddCourse`: the form back to its initial values. */
    method ResetCourseForm()
      modifies this`courseTitle, this`courseCodeInput, this`courseDescription, this`courseCredits,
        this`courseDepartment
      ensures CourseForm() == ("", "", "", "3", "Computer Science")
    {
      courseTitle, courseCodeInput, courseDescription := "", "", "";
      courseCredits, courseDepartment := "3", "Computer Science";
    }

    /**
     * `handleAddCourse`. A form that fails its check sets the message and
     * sends nothing; a valid one is submitted.
     */
    method AddCourse(create: Reply<Course>, dropdown: Reply<seq<Course>>, list: Reply<seq<Course>>)
      modifies this`courseTitle, this`courseCodeInput, this`courseDescription, this`courseCredits,
        this`courseDepartment, this`isCreatingCourse, this`createCourseError, this`isLoadingCoursesForDropdown,
        this`listCoursesError, this`courses, this`isLoadingCourses, this`showCourses, this`calls
      ensures var check := CheckCourseForm(old(courseTitle), old(courseCodeInput), old(courseDescription),
                                           old(courseCredits), old(courseDepartment));
        && (!check.CourseValid? ==>
              && calls == old(calls) && CourseForm() == old(CourseForm())
              && CourseList() == old(CourseList()) && isCreatingCourse == old(isCreatingCourse))
        && (check.CourseFieldsMissing? ==> createCourseError == Some("All course fields are required."))
        && (check.CreditsNotPositive? ==> createCourseError == Some("Credits must be a positive number."))
        && (check.CourseValid? ==> !isCreatingCourse)
        && (check.CourseValid? && CreateCourse(create).Err? ==>
              && createCourseError == Some(CaughtMessage(CreateCourse(create).thrown, "Failed to create course."))
              && calls == old(calls) + [PostCourseCall(check.payload)]
              && CourseForm() == old(CourseForm()) && CourseList() == old(CourseList()))
        && (check.CourseValid? && CreateCourse(create).Ok? ==>
              && createCourseError == None
              && CourseForm() == ("", "", "", "3", "Computer Science")
              && calls == old(calls) + [PostCourseCall(check.payload)] + [GetCoursesCall]
                          + (if old(showCourses) then [GetCoursesCall] else [])
              && CourseList() == AfterCourseReload(old(CourseList()), dropdown, list))
    {
      var check := CheckCourseForm(courseTitle, courseCodeInput, courseDescription, courseCredits, courseDepartment);
      match check
      case CourseFieldsMissing =>
        createCourseError := Some("All course fields are required.");
      case CreditsNotPositive =>
        createCourseError := Some("Credits must be a positive number.");
      case CourseValid(payload) =>
        SubmitCourse(payload, create, dropdown, list);
    }

    /**
     * Lines 103-130 of `handleAddCourse`: the course is posted; on success the
     * form is reset and the courses reloaded (the list too if it is shown),
     * and on failure the form is kept and the message set.
     */
    method SubmitCourse(payload: CreateCoursePayload, create: Reply<Course>,
                        dropdown: Reply<seq<Course>>, list: Reply<seq<Course>>)
      modifies this`courseTitle, this`courseCodeInput, this`courseDescription, this`courseCredits,
        this`courseDepartment, this`isCreatingCourse, this`createCourseError, this`isLoadingCoursesForDropdown,
        this`listCoursesError, this`courses, this`isLoadingCourses, this`showCourses, this`calls
      ensures !isCreatingCourse
      ensures CreateCourse(create).Err? ==>
        && createCourseError == Some(CaughtMessage(CreateCourse(create).thrown, "Failed to create course."))
        && calls == old(calls) + [PostCourseCall(payload)]
        && CourseForm() == old(CourseForm()) && CourseList() == old(CourseList())
      ensures CreateCourse(create).Ok? ==>
        && createCourseError == None
        && CourseForm() == ("", "", "", "3", "Computer Science")
        && calls == old(calls) + [PostCourseCall(payload)] + [GetCoursesCall]
                    + (if old(showCourses) then [GetCoursesCall] else [])
        && CourseList() == AfterCourseReload(old(CourseList()), dropdown, list)
    {
      isCreatingCourse := true;
      createCourseError := None;
      calls := calls + [PostCourseCall(payload)];
      var outcome := CreateCourse(create);
      match outcome {
        case Ok(_) =>
          ResetCourseForm();
          ReloadCourses(dropdown, list);
        case Err(e) =>
          createCourseError := Some(CaughtMessage(e, "Failed to create course."));
      }
      isCreatingCourse := false;
    }

    /** Lines 136-138 of `handleDeleteCourse`: the optimistic removal, before the server answers. */
    method RemoveCourseLocally(id: Option<int>) returns (snapshot: seq<Course>)
      modifies this`courses, this`listCoursesError
      ensures snapshot == old(courses)
      ensures courses == Filter(old(courses), CourseIdIsNot(id))
      ensures listCoursesError == None
    {
      snapshot := courses;
      courses := Filter(courses, CourseIdIsNot(id));
      listCoursesError := None;
    }

    /**
     * `handleDeleteCourse(id)`, called with `course.id!`: `id` is `None` for a
     * course that has no id, which then removes every such course and sends
     * `DELETE /courses/undefined`. Declining changes nothing. Accepting removes
     * the course locally, then either keeps the server's state (reloading the
     * courses, and clearing the instance form's selection if it named the
     * deleted course) or puts back exactly the list as it was.
     */
    method DeleteCourse(id: Option<int>, confirmed: bool, del: Reply<()>, dropdown: Reply<seq<Course>>, list: Reply<seq<Course>>)
      modifies this`courses, this`listCoursesError, this`isLoadingCoursesForDropdown, this`isLoadingCourses,
        this`selectedCourseForInstance, this`showCourses, this`calls
      ensures !confirmed ==>
        CourseList() == old(CourseList())
        && selectedCourseForInstance == old(selectedCourseForInstance) && calls == old(calls)
      ensures confirmed && Api.DeleteCourse(del).Err? ==>
        && CourseList() == old(CourseList()).(message :=
             Some(CaughtMessage(Api.DeleteCourse(del).thrown, "Failed to delete course.")))
        && selectedCourseForInstance == old(selectedCourseForInstance)
        && calls == old(calls) + [DeleteCourseCall(id)]
      ensures confirmed && Api.DeleteCourse(del).Ok? ==>
        && CourseList() == AfterCourseReload(old(CourseList()), dropdown, list)
        && selectedCourseForInstance == (if id.Some? && old(selectedCourseForInstance) == id then None
                                         else old(selectedCourseForInstance))
        && calls == old(calls) + [DeleteCourseCall(id)] + [GetCoursesCall]
                    + (if old(showCourses) then [GetCoursesCall] else [])
    {
      if !confirmed {
        return;
      }
      var original := RemoveCourseLocally(id);
      calls := calls + [DeleteCourseCall(id)];
      match Api.DeleteCourse(del)
      case Ok(_) =>
        ReloadCourses(dropdown, list);
        if id.Some? && selectedCourseForInstance == id {
          selectedCourseForInstance := None;
        }
      case Err(e) =>
        listCoursesError := Some(CaughtMessage(e, "Failed to delete course."));
        courses := original;
    }

    /**
     * `handleListInstances(triggeredByUser)`, with the filter fields as the
     * query and the same stale-flag rule as the course list.
     */
    method ListInstances(triggeredByUser: bool, reply: Reply<seq<Instance>>)
      modifies this`showInstances, this`isLoadingInstances, this`listInstancesError, this`instances, this`calls
      ensures showInstances == (old(showInstances) || triggeredByUser)
      ensures !old(showInstances) && !triggeredByUser ==>
        instances == old(instances) && listInstancesError == old(listInstancesError)
        && isLoadingInstances == old(isLoadingInstances) && calls == old(calls)
      ensures old(showInstances) || triggeredByUser ==>
        && calls == old(calls) + [GetInstancesCall(InstanceQuery(filterInstanceYear, filterInstanceSemester))]
        && !isLoadingInstances
        && listInstancesError == (if GetInstances(reply).Ok? then None
                                  else Some(CaughtMessage(GetInstances(reply).thrown, "Failed to fetch instances.")))
        && instances == (if GetInstances(reply).Ok? then GetInstances(reply).value
                         else if old(showInstances) then [] else old(instances))
    {
      var shown := showInstances;
      if triggeredByUser {
        showInstances := true;
      }
      if !shown && !triggeredByUser {
        return;
      }
      isLoadingInstances := true;
      listInstancesError := None;
      calls := calls + [GetInstancesCall(InstanceQuery(filterInstanceYear, filterInstanceSemester))];
      match GetInstances(reply) {
        case Ok(fetched) =>
          instances := fetched;
        case Err(e) =>
          listInstancesError := Some(CaughtMessage(e, "Failed to fetch instances."));
          if shown {
            instances := [];
          }
      }
      isLoadingInstances := false;
    }

    /**
     * `handleAddInstance`. The form is checked (required fields, year range,
     * known course, in that order); a failed check sets its message and sends
     * nothing, a passed one is submitted.
     */
    method AddInstance(create: Reply<Instance>, list: Reply<seq<Instance>>)
      modifies this`selectedCourseForInstance, this`instanceYear, this`instanceSemester, this`isCreatingInstance,
        this`createInstanceError, this`isLoadingInstances, this`listInstancesError, this`instances,
        this`showInstances, this`calls
      ensures var check := CheckHomeInstanceForm(old(selectedCourseForInstance), old(instanceYear),
                                                 old(instanceSemester), courses);
        && (!check.InstanceValid? ==>
              && InstanceForm() == old(InstanceForm()) && calls == old(calls)
              && InstanceList() == old(InstanceList()) && isCreatingInstance == old(isCreatingInstance))
        && (check.InstanceFieldsMissing? ==>
              createInstanceError == Some("Course, Year, and Semester are required for an instance."))
        && (check.YearOutOfRange? ==>
              createInstanceError == Some("Please enter a valid year between 2000 and 2100."))
        && (check.CourseNotFound? ==>
              createInstanceError == Some("Selected course not found. Please try again."))
        && (check.InstanceValid? ==> !isCreatingInstance)
        && (check.InstanceValid? && CreateInstance(create).Err? ==>
              && createInstanceError == Some(CreateInstanceFailureMessage(CreateInstance(create).thrown))
              && InstanceForm() == old(InstanceForm()) && InstanceList() == old(InstanceList())
              && calls == old(calls) + [PostInstanceCall(check.payload)])
        && (check.InstanceValid? && CreateInstance(create).Ok? ==>
              && createInstanceError == None
              && InstanceForm() == (None, "", "")
              && InstanceList() == AfterInstanceReload(old(InstanceList()), list)
              && calls == old(calls) + [PostInstanceCall(check.payload)]
                          + (if old(showInstances)
                             then [GetInstancesCall(InstanceQuery(filterInstanceYear, filterInstanceSemester))]
                             else []))
    {
      var check := CheckHomeInstanceForm(selectedCourseForInstance, instanceYear, instanceSemester, courses);
      if check.InstanceFieldsMissing? {
        createInstanceError := Some("Course, Year, and Semester are required for an instance.");
      } else if check.YearOutOfRange? {
        createInstanceError := Some("Please enter a valid year between 2000 and 2100.");
      } else if check.CourseNotFound? {
        createInstanceError := Some("Selected course not found. Please try again.");
      } else {
        SubmitInstance(check.payload, create, list);
      }
    }

    /**
     * Lines 198-238 of `handleAddInstance`: the instance is posted; on
     * success the form is cleared and the list reloaded if shown, on failure
     * the form is kept and the cleaned message set.
     */
    method SubmitInstance(payload: CreateInstancePayload, create: Reply<Instance>, list: Reply<seq<Instance>>)
      modifies this`selectedCourseForInstance, this`instanceYear, this`instanceSemester, this`isCreatingInstance,
        this`createInstanceError, this`isLoadingInstances, this`listInstancesError, this`instances,
        this`showInstances, this`calls
      ensures !isCreatingInstance
      ensures CreateInstance(create).Err? ==>
        && createInstanceError == Some(CreateInstanceFailureMessage(CreateInstance(create).thrown))
        && InstanceForm() == old(InstanceForm()) && InstanceList() == old(InstanceList())
        && calls == old(calls) + [PostInstanceCall(payload)]
      ensures CreateInstance(create).Ok? ==>
        && createInstanceError == None
        && InstanceForm() == (None, "", "")
        && InstanceList() == AfterInstanceReload(old(InstanceList()), list)
        && calls == old(calls) + [PostInstanceCall(payload)]
                    + (if old(showInstances)
                       then [GetInstancesCall(InstanceQuery(filterInstanceYear, filterInstanceSemester))]
                       else [])
    {
      isCreatingInstance := true;
      createInstanceError := None;
      calls := calls + [PostInstanceCall(payload)];
      var outcome := CreateInstance(create);
      match outcome {
        case Ok(_) =>
          selectedCourseForInstance, instanceYear, instanceSemester := None, "", "";
          if showInstances {
            ListInstances(false, list);
          }
        case Err(e) =>
          createInstanceError := Some(CreateInstanceFailureMessage(e));
      }
      isCreatingInstance := false;
    }

    /** Lines 244-246 of `handleDeleteInstance`: the optimistic removal. */
    method RemoveInstanceLocally(id: Option<int>) returns (snapshot: seq<Instance>)
      modifies this`instances, this`listInstancesError
      ensures snapshot == old(instances)
      ensures instances == Filter(old(instances), InstanceIdIsNot(id))
      ensures listInstancesError == None
    {
      snapshot := instances;
      instances := Filter(instances, InstanceIdIsNot(id));
      listInstancesError := None;
    }

    /**
     * `handleDeleteInstance(id)`, called with `instance.id!`: like the course delete, without a dropdown
     * or a selection to update; the list is reloaded only if it is shown.
     */
    method DeleteInstance(id: Option<int>, confirmed: bool, del: Reply<()>, list: Reply<seq<Instance>>)
      modifies this`instances, this`listInstancesError, this`isLoadingInstances, this`showInstances, this`calls
      ensures !confirmed ==> InstanceList() == old(InstanceList()) && calls == old(calls)
      ensures confirmed && Api.DeleteInstance(del).Err? ==>
        && InstanceList() == old(InstanceList()).(message :=
             Some(CaughtMessage(Api.DeleteInstance(del).thrown, "Failed to delete instance.")))
        && calls == old(calls) + [DeleteInstanceCall(id)]
      ensures confirmed && Api.DeleteInstance(del).Ok? && !old(showInstances) ==>
        && InstanceList() == old(InstanceList()).(listed := Filter(old(instances), InstanceIdIsNot(id)), message := None)
        && calls == old(calls) + [DeleteInstanceCall(id)]
      ensures confirmed && Api.DeleteInstance(del).Ok? && old(showInstances) ==>
        && InstanceList() == AfterInstanceReload(old(InstanceList()), list)
        && calls == old(calls) + [DeleteInstanceCall(id)]
                    + [GetInstancesCall(InstanceQuery(filterInstanceYear, filterInstanceSemester))]
    {
      if !confirmed {
        return;
      }
      var original := RemoveInstanceLocally(id);
      calls := calls + [DeleteInstanceCall(id)];
      match Api.DeleteInstance(del)
      case Ok(_) =>
        if showInstances {
          ListInstances(false, list);
        }
      case Err(e) =>
        listInstancesError := Some(CaughtMessage(e, "Failed to delete instance."));
        instances := original;
    }
  }
}
