# Course console model

A model of the front end of a course-management console, written in Dafny.
The console is a React application: one home page, six further pages and a
service layer. It has two entities:

- a **course**: title, code, description, credits and department;
- a **course instance**: the offering of a course in one year and semester.

Every page keeps its state in `useState` hooks. Its handlers call the service
layer, which talks to a REST back end with `fetch`.

How the model maps the program:

- **Entities.** Each entity of `src/types/index.ts` is a datatype (module
  `Types`). An optional field is an `Option`.
- **Service layer.** Each call of `src/services/api.ts` is a function (module
  `Api`). It maps what the request settles to onto a value or a thrown
  error. That input is a `Reply`: either a rejection, or a `Response` with its
  `ok` flag, `statusText`, parsed error body, raw text and decoded data.
  `URLSearchParams` is a small class. The query string and the
  create-instance body are functions of their inputs.
- **JavaScript built-ins.** The built-ins the handlers rely on are written out
  and proved:
  - `trim`, `includes`, `split(...)[1]` and `String(n)` (module `JsString`);
  - `parseInt(s, 10)` as section 19.2.5 of ECMA-262 defines it (modules
    `JsParseInt` and `JsParseIntExamples`);
  - `filter` and `find` (module `JsArray`).
- **Form checks.** The checks the handlers run before a request are
  functions (module `Forms`). The `catch` clauses are functions too (module
  `Failures`).
- **Pages.** Each page is a class with one field per `useState` hook (modules
  `Home`, `CourseCreation`, `InstanceCreation`, `CourseList`,
  `InstanceList`, `CourseDetail`, `InstanceDetail`).
  - Each handler is a method that runs to completion. What each `await`
    settles to is a parameter, and so are the answer to `window.confirm` and
    the current year.
  - Each method modifies exactly the fields its handler sets. Its `ensures`
    clauses give the whole new state.
  - A ghost field `calls` records the requests the page sends, in order.
    This is how the model says that a refused form sends nothing, or that a
    success reloads the list.

## Model

| member | source | states |
|---|---|---|
| Types.PayloadAsCourse | src/types/index.ts:2-17 | a creation payload read as a `Course` is unsaved and has both optional fields present |
| Types.CourseAsPayload | src/types/index.ts:2-17 | the payload of a course keeps its title, code and description |
| Types.PayloadCourseRoundTrip | src/types/index.ts:2-17 | payload → course → payload gives the payload back |
| Types.CoursePayloadRoundTrip | src/types/index.ts:2-17 | an unsaved course with credits and department is exactly a payload read as a course |
| Types.PayloadAsInstance | src/types/index.ts:20-32 | an instance payload read as an `Instance` has no id and no embedded course, and keeps course, year and semester |
| Types.InstanceAsPayload | src/types/index.ts:20-32 | an instance's payload has its course, year and semester |
| Types.InstancePayloadRoundTrip | src/types/index.ts:20-32 | payload → instance → payload gives the payload back |
| JsString.Trim | src/pages/HomePage.tsx:230 | `trim()` is empty exactly when the text is all white space; otherwise it starts and ends with a non-white-space character, and it is never longer than the text |
| JsString.TrimIsInfix | src/pages/HomePage.tsx:230 | `trim()` is the infix that starts after the leading white space and is followed only by white space |
| JsString.TrimStartSkipsWhitespace | src/pages/CreateCoursePage.tsx:29 | white space put in front of a text does not change its `trimStart()`, the first step of `parseInt` |
| JsString.TrimSkipsWhitespace | src/pages/CreateInstancePage.tsx:100 | white space put in front of a text does not change its `trim()` |
| JsString.IndexFrom | src/pages/HomePage.tsx:229 | `indexOf` returns an occurrence, and no earlier position is one; `None` means there is no occurrence at all |
| JsString.IncludesPastPrefix | src/pages/InstanceListPage.tsx:40 | a prefix that lacks the pattern's first character changes nothing about `includes` |
| JsString.TrimKeepsAbsence | src/pages/HomePage.tsx:229-230 | trimming never creates an occurrence of a pattern |
| JsString.SplitSecond | src/pages/HomePage.tsx:230 | `split(sep)[1]` is the text after the first separator, up to the first separator after it or to the end; it holds no separator |
| JsString.NatToString | src/pages/CreateInstancePage.tsx:12 | `String(n)` of a natural number is its decimal digits, with a leading `0` only for zero |
| JsString.IntToString | src/services/api.ts:61 | `String(n)` starts with `-` exactly for a negative number |
| JsParseInt.ParseIntSkipsWhitespace | src/pages/CreateCoursePage.tsx:29 | leading white space does not change what `parseInt` reads |
| JsParseInt.ParseInt | src/pages/CreateCoursePage.tsx:29-30 | `parseInt(s, 10)` is NaN exactly when, past the leading white space, the text starts neither with a digit nor with a sign and a digit; a negative result only follows a minus sign |
| JsParseInt.ParseIntAccepts | src/pages/CreateCoursePage.tsx:29-30 | white space, an optional sign, digits and then any text that does not start with a digit parse to the signed value of the digits |
| JsParseInt.ParseIntRejects | src/pages/CreateCoursePage.tsx:29-30 | a sign followed by no digit, or a text that does not start with a digit, parses to NaN |
| JsParseInt.DigitsValueOfNatToString | src/pages/CreateInstancePage.tsx:12 | the digits `String(n)` writes for a natural number have the value `n` |
| JsParseInt.ParseIntOfIntToString | src/pages/CreateInstancePage.tsx:70-80 | `parseInt(String(n), 10)` is `n` for every integer |
| JsParseIntExamples.ParseIntIgnoresFraction | src/pages/CreateCoursePage.tsx:29 | `parseInt("2.5")` is 2 |
| JsParseIntExamples.ParseIntIgnoresTrailingText | src/pages/CreateInstancePage.tsx:63 | `parseInt("2024abc")` is 2024 |
| JsParseIntExamples.ParseIntReadsSign | src/pages/HomePage.tsx:97 | `parseInt(" -7")` is -7 |
| JsParseIntExamples.ParseIntWithoutDigits | src/pages/CourseDetailPage.tsx:37-38 | `parseInt("abc")` is NaN |
| JsArray.Filter | src/pages/HomePage.tsx:137 | `filter` is never longer than its input, and every element it keeps passes the predicate |
| JsArray.FilterCounts | src/pages/HomePage.tsx:137 | `filter` keeps every passing element as often as the input holds it, and drops every failing one |
| JsArray.FilterMembers | src/pages/HomePage.tsx:245 | an element survives `filter` exactly when it was in the input and passes |
| JsArray.FilterConcat | src/pages/HomePage.tsx:245 | filtering a concatenation filters each part, in order |
| JsArray.FilterKeepsAll | src/pages/HomePage.tsx:137 | when every element passes, `filter` returns the input itself |
| JsArray.FindIndexFrom | src/pages/HomePage.tsx:192 | the index found is the first one at or after the start whose element passes |
| JsArray.Find | src/pages/CreateInstancePage.tsx:70 | `find` returns an element of the input that passes; `undefined` exactly when no element passes |
| JsArray.FindIsFirst | src/pages/InstanceListPage.tsx:64 | `find` returns the element at the first passing index |
| Api.DataOutcome | src/services/api.ts:12 | the decoded body is returned unchanged, and a body that does not parse becomes a thrown error |
| Api.JsonResult | src/services/api.ts:19-39 | a rejection is rethrown as is; a non-ok response throws `detail`, or the prefix followed by `statusText`; an ok response gives its decoded body |
| Api.VoidResult | src/services/api.ts:41-55 | the same for a delete: success exactly on an ok response, and its body is not read |
| Api.GetCourses | src/services/api.ts:6-17 | the course list call never reads the error body: a failure is always the prefix followed by `statusText` |
| Api.CreateCourse | src/services/api.ts:19-39 | a rejection is rethrown; a non-ok response throws `detail` or "Failed to create course: " and `statusText`; the call succeeds exactly on an ok response with a decodable body, and returns that body |
| Api.DeleteCourse | src/services/api.ts:41-55 | success exactly on an ok response; otherwise the rejection, or `detail` or "Failed to delete course: " and `statusText` |
| Api.GetCourseById | src/services/api.ts:57-64 | a failure message holds the id, `statusText` and the raw body |
| Api.GetInstanceDetails | src/services/api.ts:144-151 | a failure message holds `year-semester-id`, `statusText` and the raw body |
| Api.GetInstances | src/services/api.ts:68-107 | a rejection is rethrown; a non-ok response throws `detail` or "Failed to fetch instances: " and `statusText`; success exactly on an ok response with a decodable body, which is returned |
| Api.CreateInstance | src/services/api.ts:109-142 | a rejection is rethrown; a non-ok response throws `detail` or "Failed to create instance: " and `statusText`; success exactly on an ok response with a decodable body, which is returned |
| Api.DeleteInstance | src/services/api.ts:153-167 | success exactly on an ok response; otherwise the rejection, or `detail` or "Failed to delete instance: " and `statusText` |
| Api.DetailBecomesMessage | src/services/api.ts:30-31 | a non-empty `detail` is the message, whatever the status |
| Api.UnparseableBodyIsEmpty | src/services/api.ts:30 | an error body that does not parse behaves like `{}` |
| Api.GetCoursesIgnoresBody | src/services/api.ts:9-11 | two responses that differ only in their bodies give the same outcome |
| Api.FailuresPropagate | src/services/api.ts:13-16 | all eight calls pass a rejected request on as the very value thrown |
| Api.InstancesFallbackMentions404 | src/services/api.ts:86-89 | without a `detail`, the instance-list message mentions "404" exactly when `statusText` does |
| Api.ListedInstancesKept | src/services/api.ts:92-102 | the warning loop changes nothing: the list is returned element for element |
| Api.CreatedInstanceKept | src/services/api.ts:129-137 | a created instance without embedded course data is returned, not turned into an error |
| Api.Lookup | src/services/api.ts:71-74 | a query parameter is found exactly when a pair with that name exists, and its value belongs to such a pair |
| Api.SearchParams.constructor | src/services/api.ts:71 | a new parameter list is empty |
| Api.SearchParams.Append | src/services/api.ts:72-74 | `append` adds one pair at the end |
| Api.BuildInstanceQuery | src/services/api.ts:71-74 | the parameters built step by step are exactly `InstanceQuery(year, semester)` |
| Api.InstanceQueryShape | src/services/api.ts:71-76 | `year` and `semester` are sent exactly when non-empty, `include_course=true` always comes last, and the order is year, semester, include_course |
| Api.CreateInstanceBody | src/services/api.ts:117-120 | the body has the payload's keys plus `include_course`, and every payload value unchanged |
| Api.CreateInstanceBodyKeepsPayload | src/services/api.ts:117-120 | course, year and semester can be read back from the body |
| Failures.CaughtMessage | src/pages/HomePage.tsx:75-79 | an `Error` shows its message, a thrown string shows itself, and any other value shows the handler's fallback |
| Failures.ErrorMessageOr | src/pages/CourseListPage.tsx:22-27 | an `Error` shows its message; everything else, a thrown string included, shows the fallback |
| Failures.CatchClausesCompared | src/pages/CourseListPage.tsx:23-27 | the two `catch` clauses agree on an `Error` and on other values; only the wider one shows a thrown string |
| Failures.CleanCreateInstanceError | src/pages/HomePage.tsx:229-231 | the cleaned message never holds the marker; a message without the marker is unchanged; otherwise it is the trimmed text after the first marker |
| Failures.CreateInstanceFailureMessage | src/pages/HomePage.tsx:223-235 | an `Error` shows its cleaned message, which never holds the marker and is the message itself when it lacked the marker; a thrown string shows itself; anything else shows "Failed to create instance." |
| Failures.FallbackShownAsStatusText | src/services/api.ts:126 | when the server sends no `detail`, the create-instance pages show the trimmed `statusText` |
| Failures.DetailShownWhole | src/pages/CreateInstancePage.tsx:96-101 | a `detail` without the marker is shown word for word |
| Forms.CheckCourseForm | src/pages/HomePage.tsx:91-111 | refused exactly when title, code or description is empty; else refused exactly when the credits do not parse to a positive number; else the payload carries the parsed credits and the text fields as typed |
| Forms.DepartmentNotChecked | src/pages/HomePage.tsx:91-101 | the department never changes the verdict |
| Forms.WholeCreditsAccepted | src/pages/HomePage.tsx:97-98 | any positive whole number written out is accepted as credits, with that value |
| Forms.NonPositiveCreditsRefused | src/pages/HomePage.tsx:97-98 | zero or a negative whole number written out is refused |
| Forms.FractionalCreditsTruncated | src/pages/CreateCoursePage.tsx:29-41 | "2.5" credits are accepted and sent as 2 |
| Forms.BlankFieldsPass | src/pages/CreateCoursePage.tsx:23 | fields of white space only pass the required-field check |
| Forms.YearBounds | src/pages/HomePage.tsx:185-186 | the year `String(n)` is accepted exactly when 2000 ≤ n ≤ 2100 |
| Forms.YearWithTrailingText | src/pages/CreateInstancePage.tsx:63-64 | "2024abc" is accepted as the year 2024 |
| Forms.CheckHomeInstanceForm | src/pages/HomePage.tsx:179-204 | gives the first failing check in source order: missing field (0 counts as no selection), then year out of range, then no loaded course with that id; a valid payload names a loaded course and the parsed year |
| Forms.UndefinedIsNaN | src/pages/CreateInstancePage.tsx:70-80 | `parseInt("undefined")` is NaN |
| Forms.CheckInstanceForm | src/pages/CreateInstancePage.tsx:53-81 | gives the first failing check in source order: no course, then year or semester missing, then year out of range, then course not found; a valid payload's course parses from the selected text and is the id of a loaded course |
| Forms.CheckCourseRoute | src/pages/CourseDetailPage.tsx:36-46 | a missing or empty id is reported first, NaN is reported as invalid, and any other id is the parsed number |
| Forms.CourseRouteRoundTrip | src/pages/CourseListPage.tsx:97 | the route built from a course id leads back to that id |
| Forms.CourseRouteWithTrailingText | src/pages/CourseDetailPage.tsx:37 | the route id "7x" shows course 7 |
| Forms.NaNIdMatchesNothing | src/pages/InstanceDetailPage.tsx:24 | a NaN id matches no instance |
| Forms.CheckInstanceRoute | src/pages/InstanceDetailPage.tsx:16-24 | the route is refused exactly when a parameter is missing or empty; otherwise the id is parsed |
| Home.HomePage.constructor | src/pages/HomePage.tsx:37-65 | the initial value of every state hook |
| Home.HomePage.FetchCoursesForDropdown | src/pages/HomePage.tsx:69-84 | one course request; the fetched list, or `[]` and the caught message |
| Home.HomePage.ListCourses | src/pages/HomePage.tsx:158-176 | the list is marked shown when the user asked; a refresh of a hidden list does nothing; a failure empties the list only if it was already shown |
| Home.HomePage.ReloadCourses | src/pages/HomePage.tsx:119-122 | one request for the dropdown and a second one if the list is shown; the list and its message come from the last reply, both loading flags end down (the list's only if it was reloaded) and the list stays shown or hidden |
| Home.HomePage.ResetCourseForm | src/pages/HomePage.tsx:114-118 | the course form is back to its initial values |
| Home.HomePage.AddCourse | src/pages/HomePage.tsx:90-131 | a refused form gets its message, sends nothing and leaves the form, the list state and the submitting flag as they were; a valid one is posted and the submitting flag ends down; on success the form is reset and the list state is the reload's, on failure the form and the whole list state are kept |
| Home.HomePage.SubmitCourse | src/pages/HomePage.tsx:103-130 | the post and its two outcomes, as in `AddCourse`, with the whole list state given on each |
| Home.HomePage.RemoveCourseLocally | src/pages/HomePage.tsx:136-138 | the optimistic removal drops exactly the courses whose id is the given one (or, for `undefined`, every course without an id) and returns the old list |
| Home.HomePage.DeleteCourse | src/pages/HomePage.tsx:133-156 | declining changes nothing, loading flags included; a failed delete puts back exactly the old list with the message; a successful one leaves the list state of the reload and clears a selection that named the course; a course without an id is deleted as `undefined` |
| Home.HomePage.ListInstances | src/pages/HomePage.tsx:261-279 | as `ListCourses`, with the filter fields as the query |
| Home.HomePage.AddInstance | src/pages/HomePage.tsx:178-239 | a refused form gets its message, sends nothing and leaves the form, the list state and the submitting flag as they were; a valid one is posted; on success the form is cleared and a shown list is replaced by the reloaded one (or emptied with the message), on failure the cleaned message is shown and the form and list kept |
| Home.HomePage.SubmitInstance | src/pages/HomePage.tsx:198-238 | the post and its two outcomes, as in `AddInstance`, with the whole list state given on each |
| Home.HomePage.RemoveInstanceLocally | src/pages/HomePage.tsx:244-246 | the optimistic removal drops exactly the instances with that id |
| Home.HomePage.DeleteInstance | src/pages/HomePage.tsx:241-259 | declining changes nothing, the loading flag included; a failure restores the list with the message; a success keeps the filtered list with no message, or replaces a shown list by the reloaded one |
| CourseCreation.CreateCoursePage.constructor | src/pages/CreateCoursePage.tsx:9-16 | the initial form: empty texts, 3 credits, "Computer Science" |
| CourseCreation.CreateCoursePage.HandleSubmit | src/pages/CreateCoursePage.tsx:18-66 | both messages are cleared; a refused form gets its message and sends nothing; a success shows the success message, resets the form and schedules the redirect; a failure shows the caught message and keeps the form |
| CourseCreation.CreateCoursePage.Submit | src/pages/CreateCoursePage.tsx:35-65 | the post and its two outcomes, as in `HandleSubmit` |
| CourseCreation.ResetFormRefused | src/pages/CreateCoursePage.tsx:48-52 | the reset form is refused, so a second submit sends nothing |
| CourseCreation.FilledFormPosted | src/pages/CreateCoursePage.tsx:23-43 | a filled-in form with whole positive credits is posted with exactly those values |
| InstanceCreation.CreateInstancePage.constructor | src/pages/CreateInstancePage.tsx:12-19 | the initial form: no course, the current year, semester "1"; the courses are loading |
| InstanceCreation.CreateInstancePage.FetchCourses | src/pages/CreateInstancePage.tsx:23-41 | the fetched courses, or the caught message with the courses kept |
| InstanceCreation.CreateInstancePage.HandleSubmit | src/pages/CreateInstancePage.tsx:47-109 | both messages are cleared; each refused check gets its message and nothing is sent; a success resets the form to the current year and schedules the redirect; a failure shows the cleaned message |
| InstanceCreation.CreateInstancePage.Submit | src/pages/CreateInstancePage.tsx:76-108 | the post and its two outcomes, as in `HandleSubmit` |
| InstanceCreation.DefaultYearPasses | src/pages/CreateInstancePage.tsx:63-64 | when the clock reads a year in [2000, 2100], the default year passes the range check and is sent as that year |
| InstanceCreation.SelectedCourseSent | src/pages/CreateInstancePage.tsx:70-80 | selecting a listed course with an id posts that course's id |
| CourseList.CourseListPage.constructor | src/pages/CourseListPage.tsx:11-13 | empty, loading, no message |
| CourseList.CourseListPage.FetchCourses | src/pages/CourseListPage.tsx:16-31 | the fetched courses, or the message of an `Error` (the fallback otherwise) with the courses kept |
| CourseList.CourseListPage.DeleteCourse | src/pages/CourseListPage.tsx:37-56 | a course without an id is refused with a message; declining only clears the message; a success sends the delete and then fetches the list; a failure keeps the list and shows the message |
| InstanceList.ShownFetchError | src/pages/InstanceListPage.tsx:32-45 | no message exactly for an `Error` whose message mentions "404"; otherwise the caught message |
| InstanceList.InstanceListPage.constructor | src/pages/InstanceListPage.tsx:14-18 | the current year, semester "1", nothing listed |
| InstanceList.InstanceListPage.FetchInstances | src/pages/InstanceListPage.tsx:23-49 | the list is cleared and then filled from the filtered request; a failure leaves it empty |
| InstanceList.InstanceListPage.FilterEffect | src/pages/InstanceListPage.tsx:52-56 | the list is fetched only when year and semester are both non-empty |
| InstanceList.InstanceListPage.ChangeFilter | src/pages/InstanceListPage.tsx:52-56 | a new filter triggers a fetch exactly when it changed and both parts are non-empty |
| InstanceList.InstanceListPage.Delete | src/pages/InstanceListPage.tsx:58-84 | an instance without an id is refused with a message; an id that is not listed, or a declined prompt, sends nothing; a success fetches the list again; a failure keeps the list |
| InstanceList.StatusTextDecidesHiding | src/pages/InstanceListPage.tsx:40-45 | without a `detail`, a failure is hidden exactly when `statusText` mentions "404" |
| InstanceList.NotFoundStatusShown | src/pages/InstanceListPage.tsx:40-45 | a plain 404 with status text "Not Found" is shown as an error |
| InstanceList.DetailMentioning404Hidden | src/pages/InstanceListPage.tsx:40-42 | a `detail` that mentions "404" is hidden, and the list stays empty |
| CourseDetail.CourseDetailPage.constructor | src/pages/CourseDetailPage.tsx:10-13 | no course, loading, no message |
| CourseDetail.CourseDetailPage.FetchCourseDetails | src/pages/CourseDetailPage.tsx:15-33 | one request for that id; the course, or the caught message with the old course kept |
| CourseDetail.CourseDetailPage.OnRoute | src/pages/CourseDetailPage.tsx:35-50 | a missing or invalid id gets its message and sends nothing; a valid one is fetched as its parsed number |
| CourseDetail.WordRouteInvalid | src/pages/CourseDetailPage.tsx:37-41 | the route id "abc" is reported as invalid |
| InstanceDetail.InstanceDetailPage.constructor | src/pages/InstanceDetailPage.tsx:9-11 | no instance, no message, loading |
| InstanceDetail.InstanceDetailPage.FetchInstance | src/pages/InstanceDetailPage.tsx:14-40 | missing parameters are reported without a request; otherwise the route's list is fetched and its first instance with the parsed id shown; a miss and a failure each set their message |
| InstanceDetail.InstanceDetailPage.DeleteButton | src/pages/InstanceDetailPage.tsx:134-139 | a confirmed click only navigates; no delete is sent |
| InstanceDetail.LinkedInstanceFound | src/pages/InstanceListPage.tsx:157 | the link built from a listed instance's id finds an instance with that id |
| InstanceDetail.WordIdNotFound | src/pages/InstanceDetailPage.tsx:24-29 | the id "abc" finds no instance |

## Left out

- Console output (`console.log`, `console.error`, `console.warn`) is left out. The warning checks over course data (src/services/api.ts:96-100 and :133-135) are left out too. On a well-formed body they change nothing, which `Api.ListedInstancesKept` and `Api.CreatedInstanceKept` state.
- Api.GetInstances: a 200 body that is not an array, or that holds a `null` element, makes `data.forEach` or `instance.course_details` throw a `TypeError` (src/services/api.ts:96-97). The model returns such a list as decoded, because a decoded body here is always a list of instances.
- Api.CreateInstance: a 200 body of `null` makes `data.course_details` throw a `TypeError` (src/services/api.ts:133). The model returns it as decoded, because a decoded body here is always an instance.
- `fetch`, the network, `API_BASE_URL` and JSON parsing are inputs. A request is a `Reply`, and its parsed body is part of the `Response`.
- An error body that parses to `null` makes `errorData.detail` throw a `TypeError`. This case is not modelled.
- The URL is not modelled: neither percent-encoding of the query string nor the base URL. The query is the ordered list of pairs.
- The order of the keys in the create-instance body is not modelled. The body is a map from key to value.
- Concurrency is not modelled: React's batching, re-renders between `await`s, and a second click while a request is pending. Each handler runs to completion with the state it started from. This includes the stale `showCourses`/`showInstances` flag that the handler's closure captured.
- Rendering, routing and the scheduled `navigate` are not modelled. A redirect is a flag (`redirectScheduled`, `navigated`); the 2-second timer is not.
- The text of the instance list's confirmation prompt is not modelled. The answer to `window.confirm` is an input.
- Numbers are integers. Negative zero is read as 0. `parseInt` results above 2^53 are not rounded to the nearest double. `String(n)` is only correct below 10^21, where JavaScript switches to exponent notation.
- Strings are sequences of Unicode scalar values, not UTF-16 code units.
- `getInstancesApi` has optional arguments, but every caller passes both. An absent argument is modelled as the empty string, which behaves the same.
- The mount effects (`useEffect`) are separate methods, which the caller runs after the constructor. A re-run because a dependency changed is `InstanceList.InstanceListPage.ChangeFilter` and `CourseDetail.CourseDetailPage.OnRoute`.
- Forms.CheckInstanceForm: a loaded course without an id renders as `"undefined"`, and the selected text `"undefined"` would match it. The page would then post `course: parseInt("undefined")`, which is NaN and is sent as `null`. The model reports such a course as not found, because a payload's course is an integer here.
- The "Back" buttons of the detail pages only navigate and are not modelled.
