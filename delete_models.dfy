/**
 * The generated REST models RestDeleteJobResult and RestDeleteNodesResponse and
 * their constructFromObject conversions from plain JavaScript values.
 *
 * constructFromObject(data, obj) does nothing when `data` is falsy; otherwise it
 * fills `obj` (or a new instance when no `obj` is given) by copying each declared
 * key that `data` has as an own property, through ApiClient.convertToType, and
 * ignores every other key. A model field starts as `undefined`.
 *
 * The own-property test is the call `data.hasOwnProperty(key)`. A decoded payload
 * object that has its own key "hasOwnProperty" hides the inherited method with a
 * value that is not a function, so that call throws a TypeError before any field
 * is assigned; the model returns `Thrown` for it.
 *
 * ApiClient.convertToType is not part of this model. Its conversion to 'String'
 * is a parameter (`asString`); its conversion to an array of RestDeleteJobResult
 * is taken to be the element-wise map with RestDeleteJobResult.constructFromObject.
 * For a value that is not an array the model chooses to keep the value as it is:
 * a stand-in, not a statement of what convertToType does.
 */
module DeleteModels {
  import opened Wrappers

  /** A JavaScript value as a decoded payload can hold it (numbers as integers). */
  datatype JsValue =
    | JsUndefined
    | JsNull
    | JsBool(b: bool)
    | JsNumber(n: int)
    | JsString(s: string)
    | JsArray(items: seq<JsValue>)
    | JsObject(props: map<string, JsValue>)

  /** JavaScript truthiness: undefined, null, false, 0 and "" are falsy. */
  predicate Truthy(v: JsValue)
  {
    match v
    case JsUndefined => false
    case JsNull => false
    case JsBool(b) => b
    case JsNumber(n) => n != 0
    case JsString(s) => s != ""
    case JsArray(_) => true
    case JsObject(_) => true
  }

  /** An object whose own "hasOwnProperty" key hides the method: calling `v.hasOwnProperty(...)` throws. */
  predicate ShadowsHasOwnProperty(v: JsValue)
  {
    v.JsObject? && "hasOwnProperty" in v.props
  }

  /**
   * The answer `v.hasOwnProperty(key)` gives when it does not throw: only a plain
   * object has named own properties here.
   */
  predicate HasOwnProperty(v: JsValue, key: string)
  {
    v.JsObject? && key in v.props
  }

  /** The outcome of a conversion: a value, or a TypeError thrown by a hidden hasOwnProperty. */
  datatype Outcome<T> = Done(value: T) | Thrown

  /** ApiClient.convertToType(value, 'String'), supplied by the caller. */
  type StringConversion = JsValue -> JsValue

  /** The declared keys of RestDeleteJobResult. */
  const JobKeys: set<string> := {"Uuid", "Label"}

  /** The field values of a RestDeleteJobResult instance. */
  datatype JobFields = JobFields(Uuid: JsValue, Label: JsValue)

  /** A new RestDeleteJobResult: both fields undefined. */
  const NewJob := JobFields(JsUndefined, JsUndefined)

  /**
   * What constructFromObject leaves in an instance whose fields were `prior`:
   * each declared own property of `data` converted, every other field as it was;
   * or Thrown when `data` hides hasOwnProperty.
   */
  function PopulateJob(data: JsValue, prior: JobFields, asString: StringConversion): (r: Outcome<JobFields>)
    ensures r.Thrown? <==> ShadowsHasOwnProperty(data)
    ensures r.Done? && HasOwnProperty(data, "Uuid") ==> r.value.Uuid == asString(data.props["Uuid"])
    ensures r.Done? && !HasOwnProperty(data, "Uuid") ==> r.value.Uuid == prior.Uuid
    ensures r.Done? && HasOwnProperty(data, "Label") ==> r.value.Label == asString(data.props["Label"])
    ensures r.Done? && !HasOwnProperty(data, "Label") ==> r.value.Label == prior.Label
  {
    if ShadowsHasOwnProperty(data) then Thrown
    else
      var withUuid := if HasOwnProperty(data, "Uuid") then prior.(Uuid := asString(data.props["Uuid"])) else prior;
      Done(if HasOwnProperty(data, "Label") then withUuid.(Label := asString(data.props["Label"])) else withUuid)
  }

  /**
   * Only the declared keys of an object, and the key that hides hasOwnProperty,
   * matter: every other key is ignored.
   */
  lemma PopulateJobIgnoresUnknownKeys(props: map<string, JsValue>, prior: JobFields, asString: StringConversion)
    ensures PopulateJob(JsObject(props), prior, asString)
         == PopulateJob(JsObject(map k | k in props && k in JobKeys + {"hasOwnProperty"} :: props[k]), prior, asString)
  {
  }

  /** Populating an instance a second time from the same data changes nothing. */
  lemma PopulateJobIdempotent(data: JsValue, prior: JobFields, asString: StringConversion)
    ensures PopulateJob(data, prior, asString).Done? ==>
            PopulateJob(data, PopulateJob(data, prior, asString).value, asString) == PopulateJob(data, prior, asString)
  {
  }

  /** A non-object value has no own properties, so it leaves every field as it was. */
  lemma PopulateJobFromNonObject(data: JsValue, prior: JobFields, asString: StringConversion)
    requires !data.JsObject?
    ensures PopulateJob(data, prior, asString) == Done(prior)
  {
  }

  /** With a conversion that keeps strings, {"Uuid": "abc-123", "Label": "Finance"} fills both fields with those strings. */
  lemma PopulateJobExample(asString: StringConversion)
    requires forall s :: asString(JsString(s)) == JsString(s)
    ensures PopulateJob(JsObject(map["Uuid" := JsString("abc-123"), "Label" := JsString("Finance")]), NewJob, asString)
         == Done(JobFields(JsString("abc-123"), JsString("Finance")))
  {
  }

  /** An empty object leaves a new instance with both fields undefined. */
  lemma PopulateJobFromEmptyObject(asString: StringConversion)
    ensures PopulateJob(JsObject(map[]), NewJob, asString) == Done(NewJob)
  {
  }

  /** {"hasOwnProperty": 1, "Uuid": "a"} throws instead of filling Uuid. */
  lemma PopulateJobShadowedExample(prior: JobFields, asString: StringConversion)
    ensures PopulateJob(JsObject(map["hasOwnProperty" := JsNumber(1), "Uuid" := JsString("a")]), prior, asString) == Thrown
  {
  }

  /**
   * RestDeleteJobResult.constructFromObject(item) with no instance supplied, as
   * convertToType applies it to one array element: None for a falsy item
   * (constructFromObject then returns undefined), else a new populated instance.
   */
  function ConvertJob(item: JsValue, asString: StringConversion): (r: Outcome<Option<JobFields>>)
    ensures !Truthy(item) ==> r == Done(None)
    ensures Truthy(item) ==> (r.Thrown? <==> ShadowsHasOwnProperty(item))
    ensures Truthy(item) && r.Done? ==> r == Done(Some(PopulateJob(item, NewJob, asString).value))
  {
    if !Truthy(item) then Done(None)
    else
      match PopulateJob(item, NewJob, asString)
      case Done(f) => Done(Some(f))
      case Thrown => Thrown
  }

  /**
   * convertToType(items, [RestDeleteJobResult]) on an array: element by element,
   * in order; it throws exactly when the conversion of some element throws.
   */
  function ConvertJobs(items: seq<JsValue>, asString: StringConversion): (r: Outcome<seq<Option<JobFields>>>)
    ensures r.Thrown? <==> exists k :: 0 <= k < |items| && ConvertJob(items[k], asString).Thrown?
    ensures r.Done? ==> |r.value| == |items|
    ensures r.Done? ==> forall k :: 0 <= k < |items| ==> Done(r.value[k]) == ConvertJob(items[k], asString)
  {
    if items == [] then Done([])
    else
      match ConvertJob(items[0], asString)
      case Thrown => Thrown
      case Done(first) =>
        match ConvertJobs(items[1..], asString)
        case Thrown =>
          assert forall k :: 0 <= k < |items| - 1 ==> items[1..][k] == items[k + 1];
          Thrown
        case Done(rest) =>
          assert forall k :: 0 < k < |items| ==> items[k] == items[1..][k - 1];
          Done([first] + rest)
  }

  /** The value of a DeleteJobs field: a JavaScript value, or the array of instances a conversion built. */
  datatype JobList<J> = Value(v: JsValue) | Instances(jobs: seq<J>)

  /** What the DeleteJobs conversion stores for `v` (for a non-array value, the model's stand-in: `v` itself). */
  function ConvertJobList(v: JsValue, asString: StringConversion): (r: Outcome<JobList<Option<JobFields>>>)
    ensures !v.JsArray? ==> r == Done(Value(v))
    ensures v.JsArray? ==> (r.Thrown? <==> ConvertJobs(v.items, asString).Thrown?)
    ensures v.JsArray? && r.Done? ==> r.value == Instances(ConvertJobs(v.items, asString).value)
  {
    if v.JsArray? then
      match ConvertJobs(v.items, asString)
      case Done(jobs) => Done(Instances(jobs))
      case Thrown => Thrown
    else Done(Value(v))
  }

  /**
   * What constructFromObject leaves in the DeleteJobs field of an instance whose
   * field was `prior`: assigned exactly when `data` has DeleteJobs as an own
   * property, and Thrown when `data` hides hasOwnProperty or an element throws.
   */
  function PopulateResponse(data: JsValue, prior: JobList<Option<JobFields>>, asString: StringConversion)
    : (r: Outcome<JobList<Option<JobFields>>>)
    ensures ShadowsHasOwnProperty(data) ==> r.Thrown?
    ensures !ShadowsHasOwnProperty(data) && !HasOwnProperty(data, "DeleteJobs") ==> r == Done(prior)
    ensures !ShadowsHasOwnProperty(data) && HasOwnProperty(data, "DeleteJobs") ==>
              r == ConvertJobList(data.props["DeleteJobs"], asString)
    ensures r.Done? && HasOwnProperty(data, "DeleteJobs") && data.props["DeleteJobs"].JsArray? ==>
              r.value.Instances? && |r.value.jobs| == |data.props["DeleteJobs"].items|
  {
    if ShadowsHasOwnProperty(data) then Thrown
    else if HasOwnProperty(data, "DeleteJobs") then ConvertJobList(data.props["DeleteJobs"], asString)
    else Done(prior)
  }

  /** Each converted element is what constructFromObject makes of the element at the same index. */
  lemma PopulateResponseElementwise(data: JsValue, prior: JobList<Option<JobFields>>, asString: StringConversion, k: nat)
    requires HasOwnProperty(data, "DeleteJobs") && data.props["DeleteJobs"].JsArray?
    requires PopulateResponse(data, prior, asString).Done?
    requires k < |data.props["DeleteJobs"].items|
    ensures Done(PopulateResponse(data, prior, asString).value.jobs[k])
         == ConvertJob(data.props["DeleteJobs"].items[k], asString)
  {
  }

  /** A RestDeleteJobResult instance. */
  class RestDeleteJobResult {
    var Uuid: JsValue
    var Label: JsValue

    /** `new RestDeleteJobResult()`: both fields undefined. */
    constructor ()
      ensures Fields() == NewJob
    {
      Uuid := JsUndefined;
      Label := JsUndefined;
    }

    function Fields(): JobFields
      reads this
    {
      JobFields(Uuid, Label)
    }

    /**
     * constructFromObject(data, obj), with `null` for an absent `obj` and for an
     * undefined result, and `threw` for a TypeError. A falsy `data` returns `obj`
     * untouched; a `data` hiding hasOwnProperty throws and leaves `obj` untouched;
     * otherwise the result is `obj`, or a new instance when there is none,
     * populated from `data`.
     */
    static method ConstructFromObject(data: JsValue, obj: RestDeleteJobResult?, asString: StringConversion)
      returns (r: RestDeleteJobResult?, threw: bool)
      modifies obj
      ensures threw <==> ShadowsHasOwnProperty(data)
      ensures (!Truthy(data) || threw) && obj != null ==> obj.Fields() == old(obj.Fields())
      ensures !Truthy(data) ==> r == obj
      ensures Truthy(data) && !threw && obj != null ==>
                r == obj && Done(r.Fields()) == PopulateJob(data, old(obj.Fields()), asString)
      ensures Truthy(data) && !threw && obj == null ==>
                r != null && fresh(r) && Done(r.Fields()) == PopulateJob(data, NewJob, asString)
    {
      r, threw := obj, false;
      if Truthy(data) {
        if r == null {
          r := new RestDeleteJobResult();
        }
        if ShadowsHasOwnProperty(data) {
          threw := true;
          return;
        }
        if HasOwnProperty(data, "Uuid") {
          r.Uuid := asString(data.props["Uuid"]);
        }
        if HasOwnProperty(data, "Label") {
          r.Label := asString(data.props["Label"]);
        }
      }
    }
  }

  /** The fields of the instances in a converted DeleteJobs array, None for an undefined element. */
  function JobsFields(jobs: seq<RestDeleteJobResult?>): (r: seq<Option<JobFields>>)
    reads set j | j in jobs && j != null
    ensures |r| == |jobs|
    ensures forall k :: 0 <= k < |jobs| ==> r[k] == (if jobs[k] == null then None else Some(jobs[k].Fields()))
  {
    if jobs == [] then []
    else [if jobs[0] == null then None else Some(jobs[0].Fields())] + JobsFields(jobs[1..])
  }

  /**
   * convertToType(items, [RestDeleteJobResult]): a new array holding, at each
   * index, a distinct new instance that RestDeleteJobResult.constructFromObject
   * made of the item there; or a TypeError from one of the items.
   */
  method ConvertJobArray(items: seq<JsValue>, asString: StringConversion)
    returns (jobs: seq<RestDeleteJobResult?>, threw: bool)
    ensures threw <==> ConvertJobs(items, asString).Thrown?
    ensures !threw ==> |jobs| == |items|
    ensures !threw ==> forall k :: 0 <= k < |jobs| && jobs[k] != null ==> fresh(jobs[k])
    ensures !threw ==> forall i, j :: 0 <= i < j < |jobs| && jobs[i] != null ==> jobs[i] != jobs[j]
    ensures !threw ==> Done(JobsFields(jobs)) == ConvertJobs(items, asString)
  {
    jobs, threw := [], false;
    var i := 0;
    while i < |items|
      invariant 0 <= i <= |items| && |jobs| == i
      invariant forall k :: 0 <= k < i ==> !ConvertJob(items[k], asString).Thrown?
      invariant forall k :: 0 <= k < i ==> (jobs[k] == null <==> !Truthy(items[k]))
      invariant forall k :: 0 <= k < i && jobs[k] != null ==>
                  fresh(jobs[k]) && Done(jobs[k].Fields()) == PopulateJob(items[k], NewJob, asString)
      invariant forall a, b :: 0 <= a < b < i && jobs[a] != null ==> jobs[a] != jobs[b]
    {
      var job, jobThrew := RestDeleteJobResult.ConstructFromObject(items[i], null, asString);
      if jobThrew {
        assert ConvertJob(items[i], asString).Thrown?;
        threw := true;
        return;
      }
      jobs := jobs + [job];
      i := i + 1;
    }
    var converted := ConvertJobs(items, asString);
    assert converted.Done?;
    forall k | 0 <= k < |jobs| ensures JobsFields(jobs)[k] == converted.value[k] {
      assert Done(converted.value[k]) == ConvertJob(items[k], asString);
    }
    assert JobsFields(jobs) == converted.value;
  }

  /** A RestDeleteNodesResponse instance. */
  class RestDeleteNodesResponse {
    var DeleteJobs: JobList<RestDeleteJobResult?>

    /** `new RestDeleteNodesResponse()`: DeleteJobs undefined. */
    constructor ()
      ensures DeleteJobs == Value(JsUndefined)
    {
      DeleteJobs := Value(JsUndefined);
    }

    /** The instances the DeleteJobs field refers to. */
    function Jobs(): set<RestDeleteJobResult>
      reads this
    {
      if DeleteJobs.Instances? then set j: RestDeleteJobResult | j in DeleteJobs.jobs else {}
    }

    /** The DeleteJobs field with every instance replaced by its field values. */
    function View(): JobList<Option<JobFields>>
      reads this, Jobs()
    {
      match DeleteJobs
      case Value(v) => Value(v)
      case Instances(jobs) => Instances(JobsFields(jobs))
    }

    /**
     * constructFromObject(data, obj), with `null` for an absent `obj` and for an
     * undefined result, and `threw` for a TypeError. A falsy `data` returns `obj`
     * untouched; otherwise the result is `obj`, or a new instance, with DeleteJobs
     * converted from `data` when `data` has it as an own property and left as it
     * was when not. A throw leaves `obj` untouched.
     */
    static method ConstructFromObject(data: JsValue, obj: RestDeleteNodesResponse?, asString: StringConversion)
      returns (r: RestDeleteNodesResponse?, threw: bool)
      modifies obj
      ensures threw <==> Truthy(data) && PopulateResponse(data, Value(JsUndefined), asString).Thrown?
      ensures (!Truthy(data) || threw) && obj != null ==> obj.DeleteJobs == old(obj.DeleteJobs)
      ensures !Truthy(data) ==> r == obj
      ensures Truthy(data) && !threw && obj != null ==>
                r == obj && Done(r.View()) == PopulateResponse(data, old(obj.View()), asString)
      ensures Truthy(data) && !threw && obj == null ==>
                r != null && fresh(r) && Done(r.View()) == PopulateResponse(data, Value(JsUndefined), asString)
      ensures Truthy(data) && !threw && obj != null && !HasOwnProperty(data, "DeleteJobs") ==>
                obj.DeleteJobs == old(obj.DeleteJobs)
      ensures Truthy(data) && !threw && HasOwnProperty(data, "DeleteJobs") && r.DeleteJobs.Instances? ==>
                && (forall k :: 0 <= k < |r.DeleteJobs.jobs| && r.DeleteJobs.jobs[k] != null ==> fresh(r.DeleteJobs.jobs[k]))
                && (forall i, j :: 0 <= i < j < |r.DeleteJobs.jobs| && r.DeleteJobs.jobs[i] != null ==>
                      r.DeleteJobs.jobs[i] != r.DeleteJobs.jobs[j])
    {
      r, threw := obj, false;
      if Truthy(data) {
        if r == null {
          r := new RestDeleteNodesResponse();
        }
        if ShadowsHasOwnProperty(data) {
          threw := true;
          return;
        }
        if HasOwnProperty(data, "DeleteJobs") {
          var v := data.props["DeleteJobs"];
          if v.JsArray? {
            var jobs, jobsThrew := ConvertJobArray(v.items, asString);
            if jobsThrew {
              threw := true;
              return;
            }
            r.DeleteJobs := Instances(jobs);
          } else {
            r.DeleteJobs := Value(v);
          }
        }
      }
    }
  }
}
