/**
 * The instance list page: the instances of one year and semester, fetched
 * whenever the filter changes, with a delete that asks for confirmation and
 * fetches the list again. A failure whose message mentions "404" is shown
 * as an empty list rather than as an error.
 */
module InstanceList {
  import opened Wrappers
  import opened JsString
  import opened JsArray
  import opened Types
  import opened Api
  import opened Failures

  const FetchInstancesFallback := "Failed to fetch instances."
  const UndefinedInstanceId := "Cannot delete instance with undefined ID."
  const DeleteInstanceFallback := "Failed to delete instance."

  /**
   * The message a failed fetch leaves on the page: none when the thrown
   * value is an `Error` whose message mentions "404", the caught message
   * otherwise.
   */
  function ShownFetchError(e: Thrown): (r: Option<string>)
    ensures r.None? <==> e.JsError? && Includes(e.message, "404")
    ensures r.Some? ==> r.value == CaughtMessage(e, FetchInstancesFallback)
  {
    if e.JsError? && Includes(e.message, "404") then None else Some(CaughtMessage(e, FetchInstancesFallback))
  }

  /** `inst => inst.id === instanceId`. */
  function InstanceIdIs(id: int): Instance -> bool {
    (inst: Instance) => inst.id == Some(id)
  }

  class InstanceListPage {
    var year: string
    var semester: string
    var instances: seq<Instance>
    var loading: bool
    var error: Option<string>

    ghost var calls: seq<Call>

    /** The initial state: the current year, semester `'1'`, nothing listed. */
    constructor(currentYear: int)
      ensures year == IntToString(currentYear) && semester == "1"
      ensures instances == [] && !loading && error == None && calls == []
    {
      year, semester := IntToString(currentYear), "1";
      instances, loading, error := [], false, None;
      calls := [];
    }

    /**
     * `handleFetchInstances`: the list is cleared, then filled with the
     * instances of the current filter; a failure leaves it empty and shows
     * its message unless the message mentions "404".
     */
    method FetchInstances(reply: Reply<seq<Instance>>)
      modifies this`loading, this`error, this`instances, this`calls
      ensures calls == old(calls) + [GetInstancesCall(InstanceQuery(year, semester))]
      ensures !loading
      ensures GetInstances(reply).Ok? ==> instances == GetInstances(reply).value && error == None
      ensures GetInstances(reply).Err? ==> instances == [] && error == ShownFetchError(GetInstances(reply).thrown)
    {
      loading := true;
      error := None;
      instances := [];
      calls := calls + [GetInstancesCall(InstanceQuery(year, semester))];
      match GetInstances(reply) {
        case Ok(fetched) =>
          instances := fetched;
        case Err(e) =>
          error := ShownFetchError(e);
      }
      loading := false;
    }

    /**
     * The effect of lines 52-56, run on mount and whenever the year or the
     * semester changes: the list is fetched only when both are non-empty.
     */
    method FilterEffect(reply: Reply<seq<Instance>>)
      modifies this`loading, this`error, this`instances, this`calls
      ensures year == [] || semester == [] ==>
        instances == old(instances) && error == old(error) && loading == old(loading) && calls == old(calls)
      ensures year != [] && semester != [] ==>
        && calls == old(calls) + [GetInstancesCall(InstanceQuery(year, semester))]
        && !loading
        && instances == (if GetInstances(reply).Ok? then GetInstances(reply).value else [])
        && error == (if GetInstances(reply).Ok? then None else ShownFetchError(GetInstances(reply).thrown))
    {
      if year != [] && semester != [] {
        FetchInstances(reply);
      }
    }

    /**
     * A new year and semester typed into the filter; the effect runs again
     * only if one of them actually changed.
     */
    method ChangeFilter(newYear: string, newSemester: string, reply: Reply<seq<Instance>>)
      modifies this`year, this`semester, this`loading, this`error, this`instances, this`calls
      ensures year == newYear && semester == newSemester
      ensures (newYear == old(year) && newSemester == old(semester)) || newYear == [] || newSemester == [] ==>
        instances == old(instances) && error == old(error) && loading == old(loading) && calls == old(calls)
      ensures (newYear != old(year) || newSemester != old(semester)) && newYear != [] && newSemester != [] ==>
        && calls == old(calls) + [GetInstancesCall(InstanceQuery(newYear, newSemester))]
        && !loading
        && instances == (if GetInstances(reply).Ok? then GetInstances(reply).value else [])
        && error == (if GetInstances(reply).Ok? then None else ShownFetchError(GetInstances(reply).thrown))
    {
      var changed := newYear != year || newSemester != semester;
      year, semester := newYear, newSemester;
      if changed {
        FilterEffect(reply);
      }
    }

    /**
     * `handleDelete(instanceId)`. An instance without an id is refused with a
     * message; otherwise the message is cleared, an id that is not listed is
     * ignored, and a confirmed delete is sent: a success fetches the list
     * again, a failure shows its message and keeps the list.
     */
    method Delete(id: Option<int>, confirmed: bool, del: Reply<()>, refetch: Reply<seq<Instance>>)
      modifies this`loading, this`error, this`instances, this`calls
      ensures id.None? ==>
        error == Some(UndefinedInstanceId) && instances == old(instances) && loading == old(loading)
        && calls == old(calls)
      ensures id.Some? && (Find(old(instances), InstanceIdIs(id.value)).None? || !confirmed) ==>
        error == None && instances == old(instances) && loading == old(loading) && calls == old(calls)
      ensures id.Some? && Find(old(instances), InstanceIdIs(id.value)).Some? && confirmed
              && Api.DeleteInstance(del).Err? ==>
        && error == Some(CaughtMessage(Api.DeleteInstance(del).thrown, DeleteInstanceFallback))
        && instances == old(instances) && loading == old(loading)
        && calls == old(calls) + [DeleteInstanceCall(id)]
      ensures id.Some? && Find(old(instances), InstanceIdIs(id.value)).Some? && confirmed
              && Api.DeleteInstance(del).Ok? ==>
        && calls == old(calls) + [DeleteInstanceCall(id)] + [GetInstancesCall(InstanceQuery(year, semester))]
        && !loading
        && instances == (if GetInstances(refetch).Ok? then GetInstances(refetch).value else [])
        && error == (if GetInstances(refetch).Ok? then None else ShownFetchError(GetInstances(refetch).thrown))
    {
      if id.None? {
        error := Some(UndefinedInstanceId);
        return;
      }
      error := None;
      var target := Find(instances, InstanceIdIs(id.value));
      if target.None? || !confirmed {
        return;
      }
      calls := calls + [DeleteInstanceCall(id)];
      match Api.DeleteInstance(del) {
        case Ok(_) =>
          FetchInstances(refetch);
        case Err(e) =>
          error := Some(CaughtMessage(e, DeleteInstanceFallback));
      }
    }
  }

  /**
   * When the server sends no usable `detail`, whether the failure is hidden
   * depends on the status text alone: the status code is not part of the
   * message.
   */
  lemma StatusTextDecidesHiding(resp: Response<seq<Instance>>)
    requires !resp.ok && !HasDetail(resp.errorBody)
    ensures GetInstances(Received(resp)).Err?
    ensures ShownFetchError(GetInstances(Received(resp)).thrown).None? <==> Includes(resp.statusText, "404")
  {
    InstancesFallbackMentions404(resp);
  }

  /**
   * A plain HTTP 404 whose status text is "Not Found" and whose body carries
   * no `detail` is shown as an error, not as an empty list.
   */
  lemma NotFoundStatusShown(resp: Response<seq<Instance>>)
    requires !resp.ok && !HasDetail(resp.errorBody) && resp.statusText == "Not Found"
    ensures ShownFetchError(GetInstances(Received(resp)).thrown) == Some(FetchInstancesPrefix + "Not Found")
  {
    StatusTextDecidesHiding(resp);
    var p := "404";
    assert forall k :: 0 <= k < |resp.statusText| ==> resp.statusText[k] != p[0];
    IncludesPastPrefix(resp.statusText, [], p);
    assert resp.statusText + [] == resp.statusText;
  }

  /** A `detail` that mentions "404" hides the failure: the list is simply empty. */
  lemma DetailMentioning404Hidden(resp: Response<seq<Instance>>, detail: string)
    requires !resp.ok && resp.errorBody == Parsed(TextDetail(detail)) && Includes(detail, "404")
    ensures GetInstances(Received(resp)) == Err(JsError(detail))
    ensures ShownFetchError(GetInstances(Received(resp)).thrown).None?
  {
    assert detail != [] by {
      var j := IndexOf(detail, "404").value;
      assert OccursAt(detail, "404", j);
    }
  }
}
