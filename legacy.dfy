/**
 * The older generator of apib_generator.go. Its registry files each exchange
 * under its group and its rewritten URI; exchanges that share a URI gather in
 * one resource. Path parameters keep their names as they are, and a failing
 * handler is recorded with a zero response while its error is dropped. Its
 * Writer and stringToLines are the same code as writer.go and apib.go and
 * are modelled once, in Writers and Text.
 */
module Legacy {
  import opened Wrappers
  import opened Text
  import opened Dict
  import opened Records
  import opened Writers
  import opened Snapshot
  import opened Render

  /** The exchanges recorded under one URI and the params of the latest one. */
  datatype LegacyResource = LegacyResource(calls: seq<Call>, params: Dict<seq<string>>)

  /** Path parameters are recorded under their own names. */
  function Unescaped(): string -> string {
    k => k
  }

  /**
   * The response recorded for the handler's outcome: a failing handler leaves
   * the zero response (no headers, no body, status 0).
   */
  function LegacyResponse(next: Downstream): (r: Response)
    requires next.err.None? ==> ValuesPresent(next.headers)
    ensures next.err.Some? ==> r == ZeroResponse
    ensures next.err.None? ==> r.body == Written(next.ops) && r.statusCode == next.status
  {
    if next.err.None? then Response(FirstValues(next.headers), Written(next.ops), next.status) else ZeroResponse
  }

  /** The resources of a group; none when the group has no entry. */
  function GroupOf(calls: map<string, Dict<LegacyResource>>, group: string): Dict<LegacyResource> {
    if group in calls then calls[group] else []
  }

  /**
   * Files `call` under its group and its URI: it goes after the calls already
   * there, and the resource's params become those of `call`.
   */
  function Register(calls: map<string, Dict<LegacyResource>>, group: string, call: Call)
    : (r: map<string, Dict<LegacyResource>>)
    ensures r.Keys == calls.Keys + {group}
    ensures forall g :: g in calls && g != group ==> r[g] == calls[g]
  {
    var rss := GroupOf(calls, group);
    var prior := GetOr(rss, call.request.uri, LegacyResource([], []));
    calls[group := Put(rss, call.request.uri, LegacyResource(prior.calls + [call], call.request.params))]
  }

  /**
   * Registering a call appends it to the calls of its URI and replaces that
   * resource's params; every other URI of the group and every other group
   * is left as it was.
   */
  lemma RegisterAccumulates(calls: map<string, Dict<LegacyResource>>, group: string, call: Call, uri: string)
    ensures group in Register(calls, group, call)
    ensures forall g :: g != group ==> GroupOf(Register(calls, group, call), g) == GroupOf(calls, g)
    ensures var before := Lookup(GroupOf(calls, group), uri);
      var prior := if before.Some? then before.value.calls else [];
      Lookup(Register(calls, group, call)[group], uri) ==
        if uri == call.request.uri then Some(LegacyResource(prior + [call], call.request.params)) else before
  {
    var rss := GroupOf(calls, group);
    var prior := GetOr(rss, call.request.uri, LegacyResource([], []));
    PutLookup(rss, call.request.uri, LegacyResource(prior.calls + [call], call.request.params), uri);
  }

  // ---------------------------------------------------------------------
  // The text of a group's file

  /** One exchange under its URI: name and method, then request and response. */
  function LegacyCallText(c: Call): string {
    "### " + c.name + " [" + c.request.verb + "]\n\n\n" + ExchangeText(c)
  }

  function LegacyCallsText(cs: seq<Call>): string {
    ConcatMap(LegacyCallText, cs)
  }

  /** The `+ Parameters` section with names as they are, present exactly when there are params. */
  function LegacyParamsBlock(ps: Dict<seq<string>>): (r: string)
    ensures r == "" <==> ps == []
    ensures r != "" ==> |r| >= 14 && r[..14] == "+ Parameters\n\n"
  {
    if |ps| > 0 then "+ Parameters\n\n" + ParamLines(ps, Unescaped()) + "\n" else ""
  }

  function UriHeading(uri: string): string {
    "## " + uri + "\n\n"
  }

  /** One URI: its heading, its params, then its calls in the order they arrived. */
  function LegacyResourceText(e: (string, LegacyResource)): (r: string)
    ensures |r| >= |UriHeading(e.0)| && r[..|UriHeading(e.0)|] == UriHeading(e.0)
  {
    UriHeading(e.0) + LegacyParamsBlock(e.1.params) + LegacyCallsText(e.1.calls)
  }

  function LegacyGroupText(group: string, rss: Dict<LegacyResource>): string {
    GroupTitle(group) + ConcatMap(LegacyResourceText, rss)
  }

  /** Each URI gets one section, after those visited before it. */
  lemma UriSectionsInOrder(group: string, before: Dict<LegacyResource>, e: (string, LegacyResource), after: Dict<LegacyResource>)
    ensures LegacyGroupText(group, before + [e] + after) == GroupTitle(group) +
      (ConcatMap(LegacyResourceText, before) + LegacyResourceText(e) + ConcatMap(LegacyResourceText, after))
  {
    ConcatMapSplit(LegacyResourceText, before, e, after);
  }

  /** The calls of a URI each get their own `###` section, in arrival order. */
  lemma CallsInOrder(before: seq<Call>, c: Call, after: seq<Call>)
    ensures LegacyCallsText(before + [c] + after) == LegacyCallsText(before) + LegacyCallText(c) + LegacyCallsText(after)
  {
    ConcatMapSplit(LegacyCallText, before, c, after);
  }

  /** One call's section: its heading, then the request and the response. */
  method RenderLegacyCall(c: Call) returns (out: string)
    ensures out == LegacyCallText(c)
  {
    var exchange := RenderExchange(c);
    out := "### " + c.name + " [" + c.request.verb + "]\n\n\n" + exchange;
  }

  method RenderLegacyCalls(cs: seq<Call>) returns (out: string)
    ensures out == LegacyCallsText(cs)
  {
    out := "";
    var i := 0;
    while i < |cs|
      invariant 0 <= i <= |cs|
      invariant out == LegacyCallsText(cs[..i])
    {
      ConcatMapSnoc(LegacyCallText, cs, i);
      var section := RenderLegacyCall(cs[i]);
      out := out + section;
      i := i + 1;
    }
    assert cs[..i] == cs;
  }

  /** One URI's section: its heading, its params, then its calls. */
  method RenderLegacyResource(e: (string, LegacyResource)) returns (out: string)
    ensures out == LegacyResourceText(e)
  {
    var params := "";
    if |e.1.params| > 0 {
      var lines := RenderParams(e.1.params, Unescaped());
      params := "+ Parameters\n\n" + lines + "\n";
    }
    var calls := RenderLegacyCalls(e.1.calls);
    out := UriHeading(e.0) + params + calls;
  }

  method RenderLegacyGroup(group: string, rss: Dict<LegacyResource>) returns (out: string)
    ensures out == LegacyGroupText(group, rss)
  {
    var body := "";
    var i := 0;
    while i < |rss|
      invariant 0 <= i <= |rss|
      invariant body == ConcatMap(LegacyResourceText, rss[..i])
    {
      ConcatMapSnoc(LegacyResourceText, rss, i);
      var section := RenderLegacyResource(rss[i]);
      body := body + section;
      i := i + 1;
    }
    assert rss[..i] == rss;
    out := GroupTitle(group) + body;
  }

  /** The loop of `Store` over the groups. */
  method RenderLegacyFiles(calls: map<string, Dict<LegacyResource>>, order: seq<string>, underscore: string -> string)
    returns (files: seq<(string, string)>)
    requires forall g :: g in order ==> g in calls
    ensures |files| == |order|
    ensures forall i :: 0 <= i < |order| ==>
      files[i] == (FileName(underscore, order[i]), LegacyGroupText(order[i], calls[order[i]]))
  {
    files := [];
    var i := 0;
    while i < |order|
      invariant 0 <= i <= |order|
      invariant |files| == i
      invariant forall j :: 0 <= j < i ==>
        files[j] == (FileName(underscore, order[j]), LegacyGroupText(order[j], calls[order[j]]))
    {
      var text := RenderLegacyGroup(order[i], calls[order[i]]);
      files := files + [(FileName(underscore, order[i]), text)];
      i := i + 1;
    }
  }

  // ---------------------------------------------------------------------
  // The package state and the middleware

  class LegacyRecorder {
    var recording: bool
    var currentGroup: string
    var currentName: string
    /** Group, then rewritten URI, to the calls recorded there. */
    var calls: map<string, Dict<LegacyResource>>

    constructor ()
      ensures !recording && currentGroup == "" && currentName == "" && calls == map[]
    {
      recording, currentGroup, currentName, calls := false, "", "", map[];
    }

    predicate Capturing()
      reads this
    {
      recording && currentGroup != "" && currentName != ""
    }

    method Record()
      modifies this
      ensures recording
      ensures currentGroup == old(currentGroup) && currentName == old(currentName) && calls == old(calls)
    {
      recording := true;
    }

    method Group(group: string)
      modifies this
      ensures currentGroup == group
      ensures recording == old(recording) && currentName == old(currentName) && calls == old(calls)
    {
      currentGroup := group;
    }

    method Name(name: string)
      modifies this
      ensures currentName == name
      ensures recording == old(recording) && currentGroup == old(currentGroup) && calls == old(calls)
    {
      currentName := name;
    }

    /** Stops recording and renders every group, in the order `range` visits them. */
    method Store(order: seq<string>, underscore: string -> string) returns (files: seq<(string, string)>)
      requires forall g :: g in calls <==> g in order
      requires forall i, j :: 0 <= i < j < |order| ==> order[i] != order[j]
      modifies this
      ensures !recording
      ensures currentGroup == old(currentGroup) && currentName == old(currentName) && calls == old(calls)
      ensures |files| == |order|
      ensures forall i :: 0 <= i < |order| ==>
        files[i] == (FileName(underscore, order[i]), LegacyGroupText(order[i], calls[order[i]]))
    {
      recording := false;
      files := RenderLegacyFiles(calls, order, underscore);
    }
  }

  /**
   * The wrapper of apib_generator.go. A recorded exchange is filed whatever
   * the handler returns, and the wrapper then returns no error; a failing
   * handler must not have set response headers, which the source would write
   * into a nil map.
   */
  method LegacyApibGenerator(st: LegacyRecorder, inc: Incoming, next: Downstream)
    returns (err: Option<string>, handed: string)
    requires st.Capturing() ==> ValuesPresent(inc.headers)
    requires st.Capturing() && next.err.None? ==> ValuesPresent(next.headers)
    requires st.Capturing() && next.err.Some? ==> next.headers == []
    modifies st
    ensures handed == inc.body
    ensures !old(st.Capturing()) ==>
      err == next.err && st.recording == old(st.recording) && st.currentGroup == old(st.currentGroup) &&
      st.currentName == old(st.currentName) && st.calls == old(st.calls)
    ensures old(st.Capturing()) ==>
      err == None &&
      st.calls == Register(old(st.calls), old(st.currentGroup),
        Call(old(st.currentGroup), old(st.currentName), RecordedRequest(Unescaped(), inc), LegacyResponse(next))) &&
      st.currentGroup == "" && st.currentName == "" && st.recording == old(st.recording)
  {
    if !st.Capturing() {
      return next.err, inc.body;
    }
    var request := SnapshotRequest(Unescaped(), inc);
    handed := request.body;
    var w := new Writer();
    Drive(w, next.ops);
    var response := ZeroResponse;
    if next.err.None? {
      var headers := CopyFirstValues(next.headers);
      response := Response(headers, w.Body(), next.status);
    }
    assert response == LegacyResponse(next);
    var call := Call(st.currentGroup, st.currentName, request, response);
    ghost var calls0 := st.calls;
    var rss := GroupOf(st.calls, st.currentGroup);
    var prior := GetOr(rss, request.uri, LegacyResource([], []));
    st.calls := st.calls[st.currentGroup := Put(rss, request.uri, LegacyResource(prior.calls + [call], request.params))];
    assert st.calls == Register(calls0, st.currentGroup, call);
    st.currentName := "";
    st.currentGroup := "";
    err := None;
  }
}
