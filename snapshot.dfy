/**
 * How both generators turn an incoming request into a recorded `Request`:
 * the first value of each header, the query parameters, then the path
 * parameters, each of which overrides a parameter of the same name and
 * replaces the first "/" + value in the URI by "/{" + name + "}". The two
 * generators differ only in the name a path parameter is recorded under,
 * which is the `rename` argument.
 */
module Snapshot {
  import opened Wrappers
  import opened Text
  import opened Dict
  import opened Records
  import opened Writers

  /**
   * The request as the Echo context presents it: method, request URI,
   * headers and query parameters with all their values, the path
   * parameters by name (`params(c)`), and the body bytes.
   */
  datatype Incoming = Incoming(
    verb: string,
    uri: string,
    headers: Dict<seq<string>>,
    query: Dict<seq<string>>,
    pathParams: Dict<string>,
    body: string)

  /**
   * What the downstream handler does: its calls on the response writer, the
   * status and headers the response holds afterwards, and the error it
   * returns.
   */
  datatype Downstream = Downstream(
    ops: seq<WriterOp>,
    status: int,
    headers: Dict<seq<string>>,
    err: Option<string>)

  /** Every header has a value, so `v[0]` does not panic. */
  predicate ValuesPresent(hs: Dict<seq<string>>) {
    forall i :: 0 <= i < |hs| ==> |hs[i].1| > 0
  }

  /** The headers map filled with `m[k] = v[0]` for each header in turn. */
  function FirstValues(hs: Dict<seq<string>>): (r: Dict<string>)
    requires ValuesPresent(hs)
    ensures forall k :: HasKey(r, k) <==> HasKey(hs, k)
  {
    if hs == [] then []
    else
      var n := |hs| - 1;
      var init := FirstValues(hs[..n]);
      forall k ensures HasKey(Put(init, hs[n].0, hs[n].1[0]), k) <==> HasKey(hs, k) {
        PutKeys(init, hs[n].0, hs[n].1[0], k);
        if HasKey(hs, k) && k != hs[n].0 {
          var i :| 0 <= i < |hs| && hs[i].0 == k;
          assert hs[..n][i].0 == k;
        }
      }
      Put(init, hs[n].0, hs[n].1[0])
  }

  /** The params map filled with `m[k] = v` for each query parameter in turn. */
  function CopyParams(q: Dict<seq<string>>): Dict<seq<string>> {
    if q == [] then [] else Put(CopyParams(q[..|q| - 1]), q[|q| - 1].0, q[|q| - 1].1)
  }

  /**
   * The keys before the last entry do not include the last key. Dafny proves
   * it unaided; it is stated separately so that the inductions over a list's
   * prefix can use it in one step.
   */
  lemma LastKeyFresh<V>(d: Dict<V>)
    requires d != [] && DistinctKeys(d)
    ensures DistinctKeys(d[..|d| - 1]) && !HasKey(d[..|d| - 1], d[|d| - 1].0)
  {
  }

  /** Each header is recorded with its first value, in the order they were visited. */
  lemma {:induction false} FirstValuesExact(hs: Dict<seq<string>>)
    requires ValuesPresent(hs) && DistinctKeys(hs)
    ensures |FirstValues(hs)| == |hs|
    ensures forall i :: 0 <= i < |hs| ==> FirstValues(hs)[i] == (hs[i].0, hs[i].1[0])
  {
    if hs != [] {
      var n := |hs| - 1;
      LastKeyFresh(hs);
      FirstValuesExact(hs[..n]);
      assert !HasKey(FirstValues(hs[..n]), hs[n].0);
      PutAbsent(FirstValues(hs[..n]), hs[n].0, hs[n].1[0]);
    }
  }

  /** The query parameters are recorded as they are, every value kept. */
  lemma {:induction false} CopyParamsExact(q: Dict<seq<string>>)
    requires DistinctKeys(q)
    ensures CopyParams(q) == q
  {
    if q != [] {
      var n := |q| - 1;
      LastKeyFresh(q);
      CopyParamsExact(q[..n]);
      PutAbsent(q[..n], q[n].0, q[n].1);
      assert q[..n] + [q[n]] == q;
    }
  }

  /**
   * The params after the path-parameter loop: each path parameter, under its
   * recorded name, gets its value as a one-element list.
   */
  function PathParams(rename: string -> string, pp: Dict<string>, params: Dict<seq<string>>): Dict<seq<string>> {
    if pp == [] then params
    else
      var n := |pp| - 1;
      Put(PathParams(rename, pp[..n], params), rename(pp[n].0), [pp[n].1])
  }

  /**
   * The URI after the path-parameter loop: for each path parameter in turn,
   * the first "/" + value becomes "/{" + name + "}".
   */
  function PathTemplate(rename: string -> string, pp: Dict<string>, uri: string): string {
    if pp == [] then uri
    else
      var n := |pp| - 1;
      ReplaceFirst(PathTemplate(rename, pp[..n], uri), "/" + pp[n].1, "/{" + rename(pp[n].0) + "}")
  }

  /**
   * A path parameter is recorded with its value as the only element, unless a
   * later path parameter is recorded under the same name; this overrides a
   * query parameter of that name.
   */
  lemma {:induction false} PathParamRecorded(rename: string -> string, pp: Dict<string>, params: Dict<seq<string>>, i: nat)
    requires i < |pp|
    requires forall j :: i < j < |pp| ==> rename(pp[j].0) != rename(pp[i].0)
    ensures Lookup(PathParams(rename, pp, params), rename(pp[i].0)) == Some([pp[i].1])
  {
    var n := |pp| - 1;
    var prior := PathParams(rename, pp[..n], params);
    PutLookup(prior, rename(pp[n].0), [pp[n].1], rename(pp[i].0));
    if i < n {
      assert pp[..n][i] == pp[i];
      assert forall j :: i < j < n ==> pp[..n][j] == pp[j];
      PathParamRecorded(rename, pp[..n], params, i);
    }
  }

  /** A parameter no path parameter is recorded under keeps what it had before the loop. */
  lemma {:induction false} OtherParamKept(rename: string -> string, pp: Dict<string>, params: Dict<seq<string>>, k: string)
    requires forall j :: 0 <= j < |pp| ==> rename(pp[j].0) != k
    ensures Lookup(PathParams(rename, pp, params), k) == Lookup(params, k)
  {
    if pp != [] {
      var n := |pp| - 1;
      OtherParamKept(rename, pp[..n], params, k);
      PutLookup(PathParams(rename, pp[..n], params), rename(pp[n].0), [pp[n].1], k);
    }
  }

  /**
   * For a single path parameter, only the first occurrence of "/" + value in
   * the URI is rewritten, and a URI without one is left as it was (the
   * parameter is recorded all the same, by PathParamRecorded).
   */
  lemma UriRewrite(rename: string -> string, k: string, v: string, uri: string)
    ensures var r := PathTemplate(rename, [(k, v)], uri);
      ((forall j: nat :: !OccursAt(uri, "/" + v, j)) ==> r == uri) &&
      (forall i: nat :: OccursAt(uri, "/" + v, i) && NoneBefore(uri, "/" + v, i) ==>
        r == uri[..i] + ("/{" + rename(k) + "}") + uri[i + 1 + |v|..])
  {
  }

  /** The request the generators record. */
  function RecordedRequest(rename: string -> string, inc: Incoming): (r: Request)
    requires ValuesPresent(inc.headers)
    ensures r.body == inc.body && r.verb == inc.verb
  {
    Request(PathTemplate(rename, inc.pathParams, inc.uri), inc.verb, FirstValues(inc.headers),
      PathParams(rename, inc.pathParams, CopyParams(inc.query)), inc.body)
  }

  // ---------------------------------------------------------------------
  // The loops that fill the request

  method CopyFirstValues(hs: Dict<seq<string>>) returns (m: Dict<string>)
    requires ValuesPresent(hs)
    ensures m == FirstValues(hs)
  {
    m := [];
    var i := 0;
    while i < |hs|
      invariant 0 <= i <= |hs|
      invariant m == FirstValues(hs[..i])
    {
      assert hs[..i + 1][..i] == hs[..i];
      m := Put(m, hs[i].0, hs[i].1[0]);
      i := i + 1;
    }
    assert hs[..i] == hs;
  }

  method CopyQuery(q: Dict<seq<string>>) returns (m: Dict<seq<string>>)
    ensures m == CopyParams(q)
  {
    m := [];
    var i := 0;
    while i < |q|
      invariant 0 <= i <= |q|
      invariant m == CopyParams(q[..i])
    {
      assert q[..i + 1][..i] == q[..i];
      m := Put(m, q[i].0, q[i].1);
      i := i + 1;
    }
    assert q[..i] == q;
  }

  method ApplyPathParams(rename: string -> string, pp: Dict<string>, query: Dict<seq<string>>, uri0: string)
    returns (params: Dict<seq<string>>, uri: string)
    ensures params == PathParams(rename, pp, query)
    ensures uri == PathTemplate(rename, pp, uri0)
  {
    params, uri := query, uri0;
    var i := 0;
    while i < |pp|
      invariant 0 <= i <= |pp|
      invariant params == PathParams(rename, pp[..i], query)
      invariant uri == PathTemplate(rename, pp[..i], uri0)
    {
      assert pp[..i + 1][..i] == pp[..i];
      var name := rename(pp[i].0);
      params := Put(params, name, [pp[i].1]);
      uri := ReplaceFirst(uri, "/" + pp[i].1, "/{" + name + "}");
      i := i + 1;
    }
    assert pp[..i] == pp;
  }

  /** The snapshot of the request, filled step by step as the generators do. */
  method SnapshotRequest(rename: string -> string, inc: Incoming) returns (req: Request)
    requires ValuesPresent(inc.headers)
    ensures req == RecordedRequest(rename, inc)
  {
    var headers := CopyFirstValues(inc.headers);
    var params := CopyQuery(inc.query);
    var recorded, uri := ApplyPathParams(rename, inc.pathParams, params, inc.uri);
    req := Request(uri, inc.verb, headers, recorded, inc.body);
  }
}
