/**
 * The tracking mixin of the REST API views (registrar/apps/api/mixins.py):
 * views collect extra event fields while they run, and after the response is
 * built an event is sent for authenticated users.  Sending an event to the
 * analytics service is recorded by appending it to `sent`; the properties
 * the analytics module computes for a user are a parameter.
 */
module Tracking {
  import opened Text

  datatype TrackValue = Str(s: string) | StrList(items: seq<string>) | Number(n: int)

  datatype Event = Event(username: string, name: string, properties: map<string, TrackValue>)

  /** The parts of the request the tracking reads. */
  datatype Request = Request(
    httpMethod: string,
    fullPath: string,
    query: seq<(string, string)>,
    username: string,
    authenticated: bool)

  datatype TrackOutcome =
    | Sent
    | NoEventName        // one error logged, nothing sent
    | PathIndexError     // `get_full_path().split('/')[2]` raised IndexError
    | NotTracked         // the user is not authenticated

  const ApiVersionField: string := "{api_version}"
  const StatusCodeKey: string := "status_code"

  /**
   * `name.format(api_version=version)` for event names whose only braces are
   * `{api_version}` fields: each is replaced by the version.  The escapes
   * `{{`/`}}` and the KeyError/IndexError of other fields are not modelled.
   */
  function FillApiVersion(name: string, version: string): string
    decreases |name|
  {
    if name == [] then []
    else if StartsWith(name, ApiVersionField) then version + FillApiVersion(name[|ApiVersionField|..], version)
    else [name[0]] + FillApiVersion(name[1..], version)
  }

  /** A name without any `{` has no field to fill and is sent as it is. */
  lemma {:induction false} FillWithoutField(name: string, version: string)
    requires '{' !in name
    ensures FillApiVersion(name, version) == name
  {
    if name != [] {
      assert name[0] != '{';
      assert ApiVersionField[0] == '{';
      assert !StartsWith(name, ApiVersionField);
      FillWithoutField(name[1..], version);
      assert [name[0]] + name[1..] == name;
    }
  }

  /**
   * The dict comprehension over path parameters then query parameters:
   * parameters named in `parameterMap` become properties under their mapped
   * names; a later parameter overwrites an earlier one.
   */
  function ParamProperties(params: seq<(string, string)>, parameterMap: map<string, string>): map<string, TrackValue>
    decreases |params|
  {
    if params == [] then map[]
    else
      var init := ParamProperties(params[..|params| - 1], parameterMap);
      var (key, value) := params[|params| - 1];
      if key in parameterMap then init[parameterMap[key] := Str(value)] else init
  }

  /** Only mapped parameters appear, renamed, each with the value of a parameter mapped to that name. */
  lemma {:induction false} ParamPropertiesFromMappedParams(params: seq<(string, string)>, parameterMap: map<string, string>)
    ensures forall k :: k in ParamProperties(params, parameterMap) <==>
      exists i :: 0 <= i < |params| && params[i].0 in parameterMap && parameterMap[params[i].0] == k
    ensures forall k :: k in ParamProperties(params, parameterMap) ==>
      exists i :: 0 <= i < |params| && params[i].0 in parameterMap && parameterMap[params[i].0] == k
        && ParamProperties(params, parameterMap)[k] == Str(params[i].1)
  {
    if params != [] {
      var init := params[..|params| - 1];
      ParamPropertiesFromMappedParams(init, parameterMap);
      assert forall i :: 0 <= i < |init| ==> init[i] == params[i];
      var last := params[|params| - 1];
      forall k | exists i :: 0 <= i < |params| && params[i].0 in parameterMap && parameterMap[params[i].0] == k
        ensures k in ParamProperties(params, parameterMap)
      {
        var i :| 0 <= i < |params| && params[i].0 in parameterMap && parameterMap[params[i].0] == k;
        if i < |init| { assert init[i].0 in parameterMap && parameterMap[init[i].0] == k; }
      }
    }
  }

  /**
   * The precedence of event properties, lowest to highest: the user's
   * default properties, the mapped parameters, the extra tracking data, and
   * `status_code`, which is always the response's code.
   */
  ghost predicate ComposedProperties(
    props: map<string, TrackValue>,
    user: map<string, TrackValue>,
    params: map<string, TrackValue>,
    extra: map<string, TrackValue>,
    statusCode: int)
  {
    && StatusCodeKey in props && props[StatusCodeKey] == Number(statusCode)
    && (forall k :: k in props <==> k in user || k in params || k in extra || k == StatusCodeKey)
    && (forall k :: k in extra && k != StatusCodeKey ==> props[k] == extra[k])
    && (forall k :: k in params && k !in extra && k != StatusCodeKey ==> props[k] == params[k])
    && (forall k :: k in user && k !in params && k !in extra && k != StatusCodeKey ==> props[k] == user[k])
  }

  /** One view instance's tracking state. */
  class TrackView {
    var extraData: map<string, TrackValue>
    var sent: seq<Event>
    var errorsLogged: nat

    constructor ()
      ensures extraData == map[] && sent == [] && errorsLogged == 0
    {
      extraData := map[];
      sent := [];
      errorsLogged := 0;
    }

    /** `add_tracking_data(**kw)`: merge the fields in, later values overwriting earlier ones. */
    method AddTrackingData(kw: map<string, TrackValue>)
      modifies this
      ensures extraData == old(extraData) + kw
      ensures forall k :: k in kw ==> extraData[k] == kw[k]
      ensures forall k :: k in old(extraData) && k !in kw ==> extraData[k] == old(extraData)[k]
      ensures sent == old(sent) && errorsLogged == old(errorsLogged)
    {
      extraData := extraData + kw;
    }

    /** `_track`: build and send the event for a response with `statusCode`. */
    method Track(
      statusCode: int,
      request: Request,
      eventMethodMap: map<string, string>,
      parameterMap: map<string, string>,
      pathParams: seq<(string, string)>,
      userProperties: map<string, TrackValue>)
      returns (outcome: TrackOutcome)
      modifies this
      ensures extraData == old(extraData)
      ensures outcome == PathIndexError <==> |Split(request.fullPath, '/')| < 3
      ensures outcome == NoEventName <==>
        |Split(request.fullPath, '/')| >= 3
        && (request.httpMethod !in eventMethodMap || eventMethodMap[request.httpMethod] == "")
      ensures outcome != Sent ==> sent == old(sent)
      ensures errorsLogged == old(errorsLogged) + (if outcome == NoEventName then 1 else 0)
      ensures outcome == Sent ==>
        && |sent| == |old(sent)| + 1 && sent[..|old(sent)|] == old(sent)
        && sent[|old(sent)|].username == request.username
        && sent[|old(sent)|].name
           == FillApiVersion(eventMethodMap[request.httpMethod], Split(request.fullPath, '/')[2])
        && ComposedProperties(sent[|old(sent)|].properties, userProperties,
                              ParamProperties(pathParams + request.query, parameterMap),
                              extraData, statusCode)
    {
      var eventName := if request.httpMethod in eventMethodMap then eventMethodMap[request.httpMethod] else "";
      var parts := Split(request.fullPath, '/');
      if |parts| < 3 {
        return PathIndexError;
      }
      var apiVersion := parts[2];
      if eventName == "" {
        errorsLogged := errorsLogged + 1;
        return NoEventName;
      }
      var name := FillApiVersion(eventName, apiVersion);
      var paramProperties := ParamProperties(pathParams + request.query, parameterMap);
      var properties := userProperties;
      properties := properties + paramProperties;
      properties := properties + extraData;
      properties := properties[StatusCodeKey := Number(statusCode)];
      sent := sent + [Event(request.username, name, properties)];
      outcome := Sent;
    }

    /** `dispatch`: the view's response is tracked only for an authenticated user. */
    method Dispatch(
      statusCode: int,
      request: Request,
      eventMethodMap: map<string, string>,
      parameterMap: map<string, string>,
      pathParams: seq<(string, string)>,
      userProperties: map<string, TrackValue>)
      returns (outcome: TrackOutcome)
      modifies this
      ensures !request.authenticated ==> outcome == NotTracked && sent == old(sent) && errorsLogged == old(errorsLogged)
      ensures request.authenticated && outcome == Sent ==>
        |sent| == |old(sent)| + 1 && StatusCodeKey in sent[|old(sent)|].properties
        && sent[|old(sent)|].properties[StatusCodeKey] == Number(statusCode)
    {
      if request.authenticated {
        outcome := Track(statusCode, request, eventMethodMap, parameterMap, pathParams, userProperties);
      } else {
        outcome := NotTracked;
      }
    }
  }
}
