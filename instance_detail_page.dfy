/**
 * The instance detail page: the instance named by the route is looked up in
 * the list of its year and semester. Its delete button only navigates back;
 * no request is sent.
 */
module InstanceDetail {
  import opened Wrappers
  import opened JsString
  import opened JsParseInt
  import opened JsArray
  import JsParseIntExamples
  import opened Types
  import opened Api
  import opened Failures
  import opened Forms

  const MissingParameters := "Missing required parameters"
  const InstanceNotFound := "Instance not found"
  const InstanceDetailsFallback := "Failed to fetch instance details"

  class InstanceDetailPage {
    var instance: Option<Instance>
    var error: Option<string>
    var isLoading: bool
    /** Whether `navigate('/instances')` has run. */
    var navigated: bool

    ghost var calls: seq<Call>

    constructor()
      ensures instance == None && error == None && isLoading && !navigated && calls == []
    {
      instance, error, isLoading, navigated := None, None, true, false;
      calls := [];
    }

    /**
     * `fetchInstance`, run whenever a route parameter changes. Missing
     * parameters are reported without a request. Otherwise the list of the
     * route's year and semester is fetched and searched for the first
     * instance whose id equals `parseInt(id, 10)`; a miss and a failure each
     * set their message, and neither clears what was shown before.
     */
    method FetchInstance(year: Option<string>, semester: Option<string>, id: Option<string>,
                         reply: Reply<seq<Instance>>)
      modifies this`instance, this`error, this`isLoading, this`calls
      ensures !isLoading
      ensures CheckInstanceRoute(year, semester, id).None? ==>
        error == Some(MissingParameters) && instance == old(instance) && calls == old(calls)
      ensures CheckInstanceRoute(year, semester, id).Some? ==>
        var (y, s, target) := CheckInstanceRoute(year, semester, id).value;
        && calls == old(calls) + [GetInstancesCall(InstanceQuery(y, s))]
        && (GetInstances(reply).Err? ==>
              instance == old(instance)
              && error == Some(ErrorMessageOr(GetInstances(reply).thrown, InstanceDetailsFallback)))
        && (GetInstances(reply).Ok? && Find(GetInstances(reply).value, HasParsedId(target)).None? ==>
              instance == old(instance) && error == Some(InstanceNotFound))
        && (GetInstances(reply).Ok? && Find(GetInstances(reply).value, HasParsedId(target)).Some? ==>
              instance == Find(GetInstances(reply).value, HasParsedId(target)) && error == old(error))
    {
      match CheckInstanceRoute(year, semester, id) {
        case None =>
          error := Some(MissingParameters);
        case Some((y, s, target)) =>
          calls := calls + [GetInstancesCall(InstanceQuery(y, s))];
          match GetInstances(reply) {
            case Ok(listed) =>
              var found := Find(listed, HasParsedId(target));
              if found.Some? {
                instance := found;
              } else {
                error := Some(InstanceNotFound);
              }
            case Err(e) =>
              error := Some(ErrorMessageOr(e, InstanceDetailsFallback));
          }
      }
      isLoading := false;
    }

    /**
     * The delete button of lines 134-139: a confirmed click navigates back to
     * the list, and no delete request is sent.
     */
    method DeleteButton(confirmed: bool)
      modifies this`navigated
      ensures navigated == (old(navigated) || confirmed)
    {
      if confirmed {
        navigated := true;
      }
    }
  }

  /**
   * The route the list pages link to, with an instance's decimal id, finds
   * an instance with that id in any list that holds one.
   */
  lemma LinkedInstanceFound(listed: seq<Instance>, inst: Instance)
    requires inst in listed && inst.id.Some?
    ensures var found := Find(listed, HasParsedId(ParseInt(IntToString(inst.id.value))));
      found.Some? && found.value in listed && found.value.id == inst.id
  {
    ParseIntOfIntToString(inst.id.value);
    assert HasParsedId(ParseInt(IntToString(inst.id.value)))(inst);
  }

  /** A route id that `parseInt` reads as NaN, such as "abc", finds no instance and is reported as not found. */
  lemma WordIdNotFound(listed: seq<Instance>)
    ensures Find(listed, HasParsedId(ParseInt("abc"))) == None
  {
    JsParseIntExamples.ParseIntWithoutDigits();
    NaNIdMatchesNothing(listed);
  }
}
