/**
 * The checks the handlers run before they call the server: the course form,
 * the two instance forms and the route parameters of the detail pages. Every
 * number typed into a form or a URL is read with `parseInt(s, 10)`.
 */
module Forms {
  import opened Wrappers
  import opened JsString
  import opened JsParseInt
  import JsParseIntExamples
  import opened JsArray
  import opened Types

  /** `!(isNaN(n) || n <= 0)` for `n = parseInt(credits, 10)`. */
  predicate PositiveCredits(credits: string) {
    ParseInt(credits).Int? && ParseInt(credits).value > 0
  }

  /** `!(isNaN(n) || n < 2000 || n > 2100)` for `n = parseInt(year, 10)`. */
  predicate YearInRange(year: string) {
    ParseInt(year).Int? && 2000 <= ParseInt(year).value <= 2100
  }

  /** The verdict on the course form. */
  datatype CourseCheck = CourseFieldsMissing | CreditsNotPositive | CourseValid(payload: CreateCoursePayload)

  /**
   * Both course forms: title, code and description must be non-empty (the
   * department is not checked), then the credits must parse to a positive
   * number; the payload carries the parsed credits and the text fields as typed.
   */
  function CheckCourseForm(title: string, code: string, description: string, credits: string, department: string)
    : (r: CourseCheck)
    ensures r.CourseFieldsMissing? <==> title == [] || code == [] || description == []
    ensures r.CreditsNotPositive? <==> title != [] && code != [] && description != [] && !PositiveCredits(credits)
    ensures r.CourseValid? ==> r.payload == CreateCoursePayload(title, code, description, ParseInt(credits).value, department)
    ensures r.CourseValid? ==> r.payload.credits > 0
  {
    if title == [] || code == [] || description == [] then CourseFieldsMissing
    else if !PositiveCredits(credits) then CreditsNotPositive
    else CourseValid(CreateCoursePayload(title, code, description, ParseInt(credits).value, department))
  }

  /** The department takes no part in the verdict: any other department gives the same one, with the payload renamed. */
  lemma DepartmentNotChecked(title: string, code: string, description: string, credits: string, d1: string, d2: string)
    ensures var r1 := CheckCourseForm(title, code, description, credits, d1);
            var r2 := CheckCourseForm(title, code, description, credits, d2);
      && r1.CourseFieldsMissing? == r2.CourseFieldsMissing?
      && r1.CreditsNotPositive? == r2.CreditsNotPositive?
      && (r1.CourseValid? ==> r2.CourseValid? && r2.payload == r1.payload.(department := d2))
  {
  }

  /** The written form of any positive whole number is accepted as credits, with that value. */
  lemma WholeCreditsAccepted(n: int)
    requires n > 0
    ensures PositiveCredits(IntToString(n)) && ParseInt(IntToString(n)) == Int(n)
  {
    ParseIntOfIntToString(n);
  }

  /** The written form of zero or of a negative whole number is refused as credits. */
  lemma NonPositiveCreditsRefused(n: int)
    requires n <= 0
    ensures !PositiveCredits(IntToString(n))
  {
    ParseIntOfIntToString(n);
  }

  /** `"2.5"` passes as 2 credits: the fraction is dropped by `parseInt`. */
  lemma FractionalCreditsTruncated(title: string, code: string, description: string, department: string)
    requires title != [] && code != [] && description != []
    ensures CheckCourseForm(title, code, description, "2.5", department).CourseValid?
    ensures CheckCourseForm(title, code, description, "2.5", department).payload.credits == 2
  {
    JsParseIntExamples.ParseIntIgnoresFraction();
  }

  /** A field of white space only is not empty, so it passes the required-field check. */
  lemma BlankFieldsPass(title: string, code: string, description: string, credits: string, department: string)
    requires title != [] && code != [] && description != []
    requires AllWhitespace(title) && AllWhitespace(code) && AllWhitespace(description)
    ensures !CheckCourseForm(title, code, description, credits, department).CourseFieldsMissing?
  {
  }

  /** The year text `String(n)` is accepted exactly when `n` lies in [2000, 2100]. */
  lemma YearBounds(n: int)
    ensures YearInRange(IntToString(n)) <==> 2000 <= n <= 2100
  {
    ParseIntOfIntToString(n);
  }

  /** `"2024abc"` is accepted as the year 2024. */
  lemma YearWithTrailingText()
    ensures YearInRange("2024abc") && ParseInt("2024abc") == Int(2024)
  {
    JsParseIntExamples.ParseIntIgnoresTrailingText();
  }

  /** The verdict on an instance form. */
  datatype InstanceCheck =
    | InstanceFieldsMissing   // the combined check of the home page
    | NoCourseSelected        // the create-instance page, first check
    | YearOrSemesterMissing   // the create-instance page, second check
    | YearOutOfRange
    | CourseNotFound
    | InstanceValid(payload: CreateInstancePayload)

  /** `c => c.id === id`. */
  function HasId(id: int): Course -> bool {
    (c: Course) => c.id == Some(id)
  }

  /**
   * The home page's instance form: the selection (`''` is `None`; 0 is falsy
   * too), the year and the semester must be set, then the year must be in
   * range, then a loaded course must carry the selected id. The checks run in
   * that order and the first failure is the verdict.
   */
  function CheckHomeInstanceForm(selection: Option<int>, year: string, semester: string, courses: seq<Course>)
    : (r: InstanceCheck)
    ensures r.InstanceFieldsMissing? <==> selection.None? || selection == Some(0) || year == [] || semester == []
    ensures r.YearOutOfRange? <==> !r.InstanceFieldsMissing? && !YearInRange(year)
    ensures r.CourseNotFound? <==>
      !r.InstanceFieldsMissing? && YearInRange(year) && forall c :: c in courses ==> c.id != selection
    ensures !r.NoCourseSelected? && !r.YearOrSemesterMissing?
    ensures r.InstanceValid? ==>
      && selection == Some(r.payload.course)
      && Some(r.payload.year) == (if ParseInt(year).Int? then Some(ParseInt(year).value) else None)
      && r.payload.semester == semester
      && exists c :: c in courses && c.id == selection
  {
    if selection.None? || selection.value == 0 || year == [] || semester == [] then InstanceFieldsMissing
    else if !YearInRange(year) then YearOutOfRange
    else if Find(courses, HasId(selection.value)).None? then CourseNotFound
    else InstanceValid(CreateInstancePayload(selection.value, ParseInt(year).value, semester))
  }

  /** `String(c.id)`: the decimal id, or `"undefined"` for a course without one. */
  function IdText(id: Option<int>): string {
    match id
    case None => "undefined"
    case Some(n) => IntToString(n)
  }

  /** `c => String(c.id) === selectedCourseId`. */
  function HasIdText(selected: string): Course -> bool {
    (c: Course) => IdText(c.id) == selected
  }

  /** `parseInt("undefined", 10)` is NaN. */
  lemma UndefinedIsNaN()
    ensures ParseInt(IdText(None)) == NaN
  {
    var u := IdText(None);
    ParseIntRejects([], NoSign, u);
    assert [] + SignText(NoSign) + u == u;
  }

  /**
   * The create-instance page's form: a course must be selected, then year and
   * semester must be set, then the year must be in range, then a loaded course
   * must render its id as the selected text. The payload's course is
   * `parseInt(selectedCourseId, 10)`, which is that course's id.
   */
  function CheckInstanceForm(selected: string, year: string, semester: string, courses: seq<Course>)
    : (r: InstanceCheck)
    ensures r.NoCourseSelected? <==> selected == []
    ensures r.YearOrSemesterMissing? <==> selected != [] && (year == [] || semester == [])
    ensures r.YearOutOfRange? <==> selected != [] && year != [] && semester != [] && !YearInRange(year)
    ensures !r.InstanceFieldsMissing?
    ensures r.CourseNotFound? ==> YearInRange(year) && forall c :: c in courses && c.id.Some? ==> IdText(c.id) != selected
    ensures r.InstanceValid? ==>
      && ParseInt(selected) == Int(r.payload.course)
      && Some(r.payload.year) == (if ParseInt(year).Int? then Some(ParseInt(year).value) else None)
      && r.payload.semester == semester
      && exists c :: c in courses && c.id == Some(r.payload.course) && IdText(c.id) == selected
  {
    if selected == [] then NoCourseSelected
    else if year == [] || semester == [] then YearOrSemesterMissing
    else if !YearInRange(year) then YearOutOfRange
    else match Find(courses, HasIdText(selected))
      case None => CourseNotFound
      case Some(c) =>
        if c.id.None? then
          // only a course without an id renders as "undefined"; see README
          CourseNotFound
        else
          ParseIntOfIntToString(c.id.value);
          InstanceValid(CreateInstancePayload(ParseInt(selected).value, ParseInt(year).value, semester))
  }

  /** The verdict on the course detail route's `id` parameter. */
  datatype CourseRoute = NoCourseId | InvalidCourseId | CourseIdOf(id: int)

  /**
   * A missing or empty `id` is reported first; otherwise the id is
   * `parseInt(id, 10)`, and NaN is reported as invalid.
   */
  function CheckCourseRoute(id: Option<string>): (r: CourseRoute)
    ensures r.NoCourseId? <==> id.None? || id.value == []
    ensures r.InvalidCourseId? <==> id.Some? && id.value != [] && ParseInt(id.value).NaN?
    ensures r.CourseIdOf? ==> id.Some? && ParseInt(id.value) == Int(r.id)
  {
    if id.None? || id.value == [] then NoCourseId
    else match ParseInt(id.value)
      case NaN => InvalidCourseId
      case Int(n) => CourseIdOf(n)
  }

  /** A route written from a course id leads back to that id. */
  lemma CourseRouteRoundTrip(n: int)
    ensures CheckCourseRoute(Some(IntToString(n))) == CourseIdOf(n)
  {
    ParseIntOfIntToString(n);
  }

  /** `"/courses/7x"` shows course 7. */
  lemma CourseRouteWithTrailingText()
    ensures CheckCourseRoute(Some("7x")) == CourseIdOf(7)
  {
    var s := "7x";
    ParseIntAccepts([], NoSign, [s[0]], s[1..]);
    assert [] + SignText(NoSign) + [s[0]] + s[1..] == s;
  }

  /** `inst => inst.id === parseInt(id, 10)`: NaN equals nothing. */
  function HasParsedId(target: Number): Instance -> bool {
    (inst: Instance) => target.Int? && inst.id == Some(target.value)
  }

  /** A non-numeric id finds no instance, whatever the list. */
  lemma NaNIdMatchesNothing(instances: seq<Instance>)
    ensures Find(instances, HasParsedId(NaN)) == None
  {
  }

  /** The parameters of the instance detail route, when all three are present and non-empty. */
  function CheckInstanceRoute(year: Option<string>, semester: Option<string>, id: Option<string>)
    : (r: Option<(string, string, Number)>)
    ensures r.None? <==> year.None? || semester.None? || id.None? || year.value == [] || semester.value == [] || id.value == []
    ensures r.Some? ==> r.value == (year.value, semester.value, ParseInt(id.value))
  {
    if year.None? || semester.None? || id.None? || year.value == [] || semester.value == [] || id.value == [] then None
    else Some((year.value, semester.value, ParseInt(id.value)))
  }
}
