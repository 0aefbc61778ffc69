/**
 * The entity shapes the console exchanges with the back end. An optional
 * field of the TypeScript record (`id?: number`) is an `Option`; a number is
 * an `int`, because every number the console stores is an integer.
 */
module Types {
  import opened Wrappers

  /** A course as the server lists it; `id` is absent on a record that was never saved. */
  datatype Course = Course(
    id: Option<int>,
    title: string,
    course_code: string,
    description: string,
    credits: Option<int>,
    department: Option<string>)

  /** The body of a create-course request: no `id`, and `credits` and `department` are required. */
  datatype CreateCoursePayload = CreateCoursePayload(
    title: string,
    course_code: string,
    description: string,
    credits: int,
    department: string)

  /** A course instance: a numeric `course` reference, and the course itself only when the server embeds it. */
  datatype Instance = Instance(
    id: Option<int>,
    course: int,
    course_details: Option<Course>,
    year: int,
    semester: string)

  /** The body of a create-instance request: exactly `course`, `year` and `semester`. */
  datatype CreateInstancePayload = CreateInstancePayload(
    course: int,
    year: int,
    semester: string)

  /** A course record carries an id exactly when it has been saved. */
  predicate IsSaved(c: Course) {
    c.id.Some?
  }

  /**
   * A creation payload read as a `Course` (TypeScript's structural typing
   * allows it): an unsaved course with every optional field present.
   */
  function PayloadAsCourse(p: CreateCoursePayload): (c: Course)
    ensures !IsSaved(c)
    ensures c.credits.Some? && c.department.Some?
  {
    Course(None, p.title, p.course_code, p.description, Some(p.credits), Some(p.department))
  }

  /** The creation payload a course would need, defined when its optional fields are all present. */
  function CourseAsPayload(c: Course): (p: CreateCoursePayload)
    requires c.credits.Some? && c.department.Some?
    ensures p.title == c.title && p.course_code == c.course_code && p.description == c.description
  {
    CreateCoursePayload(c.title, c.course_code, c.description, c.credits.value, c.department.value)
  }

  /** Reading a payload as a course loses nothing: the payload comes back from it. */
  lemma PayloadCourseRoundTrip(p: CreateCoursePayload)
    ensures CourseAsPayload(PayloadAsCourse(p)) == p
  {
  }

  /** An unsaved course with both optional fields present is exactly a payload read as a course. */
  lemma CoursePayloadRoundTrip(c: Course)
    requires !IsSaved(c) && c.credits.Some? && c.department.Some?
    ensures PayloadAsCourse(CourseAsPayload(c)) == c
  {
  }

  /** A creation payload read as an `Instance`: unsaved, and with no embedded course. */
  function PayloadAsInstance(p: CreateInstancePayload): (i: Instance)
    ensures i.id.None? && i.course_details.None?
    ensures i.course == p.course && i.year == p.year && i.semester == p.semester
  {
    Instance(None, p.course, None, p.year, p.semester)
  }

  /** The three fields of an instance that make up its creation payload. */
  function InstanceAsPayload(i: Instance): (p: CreateInstancePayload)
    ensures p.course == i.course && p.year == i.year && p.semester == i.semester
  {
    CreateInstancePayload(i.course, i.year, i.semester)
  }

  /** An instance payload survives being read as an instance. */
  lemma InstancePayloadRoundTrip(p: CreateInstancePayload)
    ensures InstanceAsPayload(PayloadAsInstance(p)) == p
  {
  }
}
