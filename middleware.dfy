/**
 * The middleware of middleware.go. When recording is on and a group and a
 * name are set, it snapshots the request, wraps the response writer in a
 * `Writer`, runs the downstream handler and, if the handler succeeds, appends
 * one resource to the group's list and clears the group and the name.
 * `pathEscape` stands for url.PathEscape, whose definition is not part of
 * this model.
 */
module Middleware {
  import opened Wrappers
  import opened Dict
  import opened Records
  import opened Writers
  import opened Snapshot
  import opened Apib

  /**
   * The name a path parameter is recorded under: "*" is not a valid API
   * Blueprint parameter name and becomes "catch_all"; every name is escaped.
   */
  function ParamName(pathEscape: string -> string): (r: string -> string)
    ensures r("*") == pathEscape("catch_all")
    ensures forall k :: k != "*" ==> r(k) == pathEscape(k)
  {
    k => if k == "*" then pathEscape("catch_all") else pathEscape(k)
  }

  /** The response recorded once the handler has run. */
  function RecordedResponse(next: Downstream): (r: Response)
    requires ValuesPresent(next.headers)
    ensures r.body == Written(next.ops) && r.statusCode == next.status
  {
    Response(FirstValues(next.headers), Written(next.ops), next.status)
  }

  /** The resource appended for a recorded exchange. */
  function RecordedResource(pathEscape: string -> string, inc: Incoming, next: Downstream,
                            group: string, name: string, extra: seq<Param>): (r: Resource)
    requires ValuesPresent(inc.headers) && ValuesPresent(next.headers)
    ensures r.call.group == group && r.call.name == name && r.extraParams == extra
    ensures r.params == r.call.request.params
  {
    var req := RecordedRequest(ParamName(pathEscape), inc);
    Resource(Call(group, name, req, RecordedResponse(next)), req.params, extra)
  }

  /**
   * The recorded response body is exactly what the client receives through
   * the capture wrapper.
   */
  lemma RecordedBodyDelivered(next: Downstream)
    requires ValuesPresent(next.headers)
    ensures RecordedResponse(next).body == ForwardedBytes(Relay(false, next.ops))
  {
    RelayDeliversWritten(false, next.ops);
  }

  /**
   * A path parameter named "*" is recorded under "catch_all" with its value,
   * since "catch_all" holds only unreserved characters (section 2.3 of
   * RFC 3986) and escapes to itself.
   */
  lemma CatchAllRecorded(pathEscape: string -> string, pp: Dict<string>, params: Dict<seq<string>>, i: nat)
    requires pathEscape("catch_all") == "catch_all"
    requires i < |pp| && pp[i].0 == "*"
    requires forall j :: i < j < |pp| ==> ParamName(pathEscape)(pp[j].0) != "catch_all"
    ensures Lookup(PathParams(ParamName(pathEscape), pp, params), "catch_all") == Some([pp[i].1])
  {
    PathParamRecorded(ParamName(pathEscape), pp, params, i);
  }

  /**
   * The wrapper around the downstream handler. `err` is what the wrapper
   * returns and `handed` is the body the handler reads.
   */
  method ApibGenerator(st: Recorder, pathEscape: string -> string, inc: Incoming, next: Downstream)
    returns (err: Option<string>, handed: string)
    requires st.Capturing() ==> ValuesPresent(inc.headers)
    requires st.Capturing() && next.err.None? ==> ValuesPresent(next.headers)
    modifies st
    ensures err == next.err
    ensures handed == inc.body
    ensures !old(st.Capturing()) || next.err.Some? ==>
      st.recording == old(st.recording) && st.currentGroup == old(st.currentGroup) &&
      st.currentName == old(st.currentName) && st.currentParams == old(st.currentParams) &&
      st.calls == old(st.calls)
    ensures old(st.Capturing()) && next.err.None? ==>
      st.calls == old(st.calls)[old(st.currentGroup) := old(st.GroupCalls(st.currentGroup)) +
        [RecordedResource(pathEscape, inc, next, old(st.currentGroup), old(st.currentName), old(st.currentParams))]] &&
      st.currentGroup == "" && st.currentName == "" &&
      st.recording == old(st.recording) && st.currentParams == old(st.currentParams)
  {
    if !st.Capturing() {
      return next.err, inc.body;
    }
    var request := SnapshotRequest(ParamName(pathEscape), inc);
    handed := request.body;
    var w := new Writer();
    Drive(w, next.ops);
    err := next.err;
    if err.Some? {
      return;
    }
    var headers := CopyFirstValues(next.headers);
    var response := Response(headers, w.Body(), next.status);
    assert response == RecordedResponse(next);
    var call := Call(st.currentGroup, st.currentName, request, response);
    var resource := Resource(call, request.params, st.currentParams);
    assert resource == RecordedResource(pathEscape, inc, next, st.currentGroup, st.currentName, st.currentParams);
    st.calls := st.calls[st.currentGroup := st.GroupCalls(st.currentGroup) + [resource]];
    st.currentName := "";
    st.currentGroup := "";
  }
}
