/**
 * The API Blueprint text that `Store` in apib.go writes for one group. The
 * file is modelled by the text written to it; each function below is the
 * text of one part and each `Render` method is the loop that writes it.
 * `qe` stands for url.QueryEscape, whose definition is not part of this model.
 */
module Render {
  import opened Text
  import opened Dict
  import opened Records

  const Indent12 := "            "
  const Indent6 := "      "

  // ---------------------------------------------------------------------
  // Specification of the text

  /** Each of `lines` between `pre` and `post`. */
  function Wrap(lines: seq<string>, pre: string, post: string): (r: seq<string>)
    ensures |r| == |lines|
    ensures forall i :: 0 <= i < |lines| ==> r[i] == pre + lines[i] + post
  {
    if lines == [] then [] else [pre + lines[0] + post] + Wrap(lines[1..], pre, post)
  }

  /** One header of a request or response. */
  function HeaderLine(h: (string, string)): string {
    Indent12 + h.0 + ": " + h.1 + "\n"
  }

  function HeaderLines(hs: Dict<string>): string {
    ConcatMap(HeaderLine, hs)
  }

  /** The `+ Headers` subsection, present exactly when there are headers. */
  function HeadersBlock(hs: Dict<string>): (r: string)
    ensures r == "" <==> hs == []
    ensures hs != [] ==> |r| > 15 && r[..15] == "    + Headers\n\n"
  {
    if |hs| > 0 then "    + Headers\n\n" + HeaderLines(hs) + "\n" else ""
  }

  /** The body lines, each behind twelve spaces, joined by newlines. */
  function IndentedBody(body: string): string {
    Join(Wrap(Lines(body), Indent12, ""), "\n")
  }

  /** The `+ Body` subsection, present exactly when the body is not empty. */
  function BodyBlock(body: string): (r: string)
    ensures r == "" <==> body == ""
    ensures body != "" ==> |r| > 12 && r[..12] == "    + Body\n\n"
  {
    if |body| > 0 then "    + Body\n\n" + Indent12 + "\n" + IndentedBody(body) + "\n" + Indent12 + "\n\n"
    else ""
  }

  /** The `+ Request` section; a missing Content-Type shows as `()`. */
  function RequestBlock(req: Request): string {
    "+ Request (" + GetOr(req.headers, "Content-Type", "") + ")\n\n" + HeadersBlock(req.headers) + BodyBlock(req.body)
  }

  function ResponseBlock(res: Response): string {
    "+ Response " + Decimal(res.statusCode) + " (" + GetOr(res.headers, "Content-Type", "") + ")\n\n"
      + HeadersBlock(res.headers) + BodyBlock(res.body)
  }

  /** The request and response of one exchange, each followed by a blank line. */
  function ExchangeText(c: Call): string {
    RequestBlock(c.request) + "\n" + ResponseBlock(c.response) + "\n"
  }

  /** One value of a parameter. */
  function ValueLine(key: string, v: string): string {
    "    + " + key + ": `" + v + "` (string)\n"
  }

  function ValueLineOf(key: string): string -> string {
    v => ValueLine(key, v)
  }

  function ValueLines(key: string, vs: seq<string>): string {
    ConcatMap(ValueLineOf(key), vs)
  }

  function ParamOf(qe: string -> string): ((string, seq<string>)) -> string {
    (p: (string, seq<string>)) => ValueLines(qe(p.0), p.1)
  }

  /** A line per value of every parameter, the name passed through `qe`. */
  function ParamLines(ps: Dict<seq<string>>, qe: string -> string): string {
    ConcatMap(ParamOf(qe), ps)
  }

  /** A description, one line after another, each behind six spaces and followed by two. */
  function DescriptionText(desc: string): (r: string)
    ensures r == "" <==> desc == ""
  {
    if desc != "" then Join(Wrap(Lines(desc), Indent6, "  \n"), "") + "\n" else ""
  }

  /** An extra parameter; it is always shown as optional. */
  function ExtraLine(p: Param, qe: string -> string): string {
    "    + " + qe(p.name) + ": `" + p.example + "` (" + p.typ + ", optional)\n" + DescriptionText(p.description)
  }

  function ExtraOf(qe: string -> string): Param -> string {
    p => ExtraLine(p, qe)
  }

  function ExtraLines(ps: seq<Param>, qe: string -> string): string {
    ConcatMap(ExtraOf(qe), ps)
  }

  /** The `+ Parameters` section, present exactly when there are params or extra params. */
  function ParamsBlock(ps: Dict<seq<string>>, extra: seq<Param>, qe: string -> string): (r: string)
    ensures r == "" <==> ps == [] && extra == []
    ensures r != "" ==> |r| >= 14 && r[..14] == "+ Parameters\n\n"
  {
    if |ps| > 0 || |extra| > 0 then "+ Parameters\n\n" + ParamLines(ps, qe) + ExtraLines(extra, qe) else ""
  }

  function Heading(c: Call): string {
    "## " + c.name + " [" + c.request.verb + " " + c.request.uri + "]\n\n"
  }

  /** One resource: its heading, parameters, request and response. */
  function ResourceText(rs: Resource, qe: string -> string): (r: string)
    ensures |r| >= |Heading(rs.call)| && r[..|Heading(rs.call)|] == Heading(rs.call)
  {
    var heading := Heading(rs.call);
    var sections := ParamsBlock(rs.params, rs.extraParams, qe) + "\n" + ExchangeText(rs.call);
    assert (heading + sections)[..|heading|] == heading;
    heading + sections
  }

  function ResourceOf(qe: string -> string): Resource -> string {
    rs => ResourceText(rs, qe)
  }

  function ResourcesText(rss: seq<Resource>, qe: string -> string): string {
    ConcatMap(ResourceOf(qe), rss)
  }

  function GroupTitle(group: string): string {
    "# Group " + group + "\n\n"
  }

  /** The whole text of a group's file. */
  function GroupText(group: string, rss: seq<Resource>, qe: string -> string): string {
    GroupTitle(group) + ResourcesText(rss, qe)
  }

  /**
   * The name of a group's file: `underscore` (inflections.Underscore) applied
   * to the group, every space turned into '_', then ".apib".
   */
  function FileName(underscore: string -> string, group: string): (r: string)
    ensures |r| == |underscore(group)| + 5 && r[|r| - 5..] == ".apib"
    ensures forall i :: 0 <= i < |underscore(group)| ==>
      r[i] == if underscore(group)[i] == ' ' then '_' else underscore(group)[i]
    ensures ' ' !in r
  {
    var name := ReplaceSpaces(underscore(group));
    assert ' ' !in ".apib";
    name + ".apib"
  }

  /**
   * Two groups can share a file: a space and an underscore give the same
   * name, so the later `os.Create` of the two truncates the other's file.
   */
  lemma FileNameCollides(underscore: string -> string)
    requires underscore("a b") == "a b" && underscore("a_b") == "a_b"
    ensures FileName(underscore, "a b") == FileName(underscore, "a_b") == "a_b.apib"
  {
    assert ReplaceSpaces("a b") == "a_b";
  }

  // ---------------------------------------------------------------------
  // Properties of the text

  /**
   * A group's file is its title followed by the resources in slice order:
   * the text of any resource comes right after those of the resources before
   * it, and starts with its own heading.
   */
  lemma SectionsInOrder(group: string, before: seq<Resource>, rs: Resource, after: seq<Resource>, qe: string -> string)
    ensures GroupText(group, before + [rs] + after, qe) ==
      GroupTitle(group) + (ResourcesText(before, qe) + ResourceText(rs, qe) + ResourcesText(after, qe))
  {
    ConcatMapSplit(ResourceOf(qe), before, rs, after);
  }

  /** Every value of a parameter gets its own `(string)` line, in order. */
  lemma ValueLineAt(key: string, before: seq<string>, v: string, after: seq<string>)
    ensures ValueLines(key, before + [v] + after) == ValueLines(key, before) + ValueLine(key, v) + ValueLines(key, after)
  {
    ConcatMapSplit(ValueLineOf(key), before, v, after);
  }

  /** An extra parameter's `required` flag never shows in the text. */
  lemma RequiredIgnored(ps: seq<Param>, qs: seq<Param>, qe: string -> string)
    requires |ps| == |qs|
    requires forall i :: 0 <= i < |ps| ==> ps[i].(required := qs[i].required) == qs[i]
    ensures ExtraLines(ps, qe) == ExtraLines(qs, qe)
  {
    forall i | 0 <= i < |ps| ensures ExtraOf(qe)(ps[i]) == ExtraOf(qe)(qs[i]) {
      assert ps[i].(required := qs[i].required) == qs[i];
    }
    ConcatMapCongruent(ExtraOf(qe), ExtraOf(qe), ps, qs);
  }

  /** A request without a Content-Type header shows an empty media type. */
  lemma MissingContentType(req: Request)
    requires !HasKey(req.headers, "Content-Type")
    ensures RequestBlock(req)[..14] == "+ Request ()\n\n"
  {
  }

  /** A response without a Content-Type header shows its status and an empty media type. */
  lemma MissingResponseContentType(res: Response)
    requires !HasKey(res.headers, "Content-Type")
    ensures var status := "+ Response " + Decimal(res.statusCode) + " ()\n\n";
      |status| <= |ResponseBlock(res)| && ResponseBlock(res)[..|status|] == status
  {
  }

  /** Removes `k` characters from the front of each line. */
  function Unindent(lines: seq<string>, k: nat): (r: seq<string>)
    requires forall i :: 0 <= i < |lines| ==> |lines[i]| >= k
    ensures |r| == |lines|
    ensures forall i :: 0 <= i < |lines| ==> r[i] == lines[i][k..]
  {
    if lines == [] then [] else [lines[0][k..]] + Unindent(lines[1..], k)
  }

  /**
   * Every body line is behind exactly twelve spaces: taking twelve characters
   * off each indented line and joining them gives the body back, up to a
   * final newline (for a body without carriage returns, which the scanner
   * would drop).
   */
  lemma BodyRecoverable(body: string)
    requires '\r' !in body
    ensures var indented := Wrap(Lines(body), Indent12, "");
      (forall i :: 0 <= i < |indented| ==> indented[i][..12] == Indent12) &&
      Join(Unindent(indented, 12), "\n") + FinalNewline(body) == body
  {
    var lines := Lines(body);
    var indented := Wrap(lines, Indent12, "");
    forall i | 0 <= i < |lines| ensures indented[i][12..] == lines[i] && indented[i][..12] == Indent12 {
      assert indented[i] == Indent12 + lines[i];
    }
    assert Unindent(indented, 12) == lines;
    LinesJoinRoundTrip(body);
  }

  // ---------------------------------------------------------------------
  // The loops that write the text

  method RenderHeaders(hs: Dict<string>) returns (out: string)
    ensures out == HeadersBlock(hs)
  {
    out := "";
    if |hs| > 0 {
      var lines := "";
      var i := 0;
      while i < |hs|
        invariant 0 <= i <= |hs|
        invariant lines == HeaderLines(hs[..i])
      {
        ConcatMapSnoc(HeaderLine, hs, i);
        lines := lines + HeaderLine(hs[i]);
        i := i + 1;
      }
      assert hs[..i] == hs;
      out := "    + Headers\n\n" + lines + "\n";
    }
  }

  /** Puts `pre` before and `post` after each element of `a`, in place. */
  method WrapInPlace(a: array<string>, pre: string, post: string)
    modifies a
    ensures a[..] == Wrap(old(a[..]), pre, post)
  {
    var i := 0;
    while i < a.Length
      invariant 0 <= i <= a.Length
      invariant forall j :: 0 <= j < i ==> a[j] == pre + old(a[j]) + post
      invariant forall j :: i <= j < a.Length ==> a[j] == old(a[j])
    {
      a[i] := pre + a[i] + post;
      i := i + 1;
    }
  }

  /** Splits `text` into lines and wraps each line in place. */
  method WrapLines(text: string, pre: string, post: string) returns (a: array<string>)
    ensures fresh(a)
    ensures a[..] == Wrap(Lines(text), pre, post)
  {
    var lines := StringToLines(text);
    a := new string[|lines|](i requires 0 <= i < |lines| => lines[i]);
    assert a[..] == lines;
    WrapInPlace(a, pre, post);
  }

  method RenderBody(body: string) returns (out: string)
    ensures out == BodyBlock(body)
  {
    out := "";
    if |body| > 0 {
      var a := WrapLines(body, Indent12, "");
      out := "    + Body\n\n" + Indent12 + "\n" + Join(a[..], "\n") + "\n" + Indent12 + "\n\n";
    }
  }

  method RenderDescription(desc: string) returns (out: string)
    ensures out == DescriptionText(desc)
  {
    out := "";
    if desc != "" {
      var a := WrapLines(desc, Indent6, "  \n");
      out := Join(a[..], "") + "\n";
    }
  }

  method RenderValues(key: string, vs: seq<string>) returns (out: string)
    ensures out == ValueLines(key, vs)
  {
    out := "";
    var i := 0;
    while i < |vs|
      invariant 0 <= i <= |vs|
      invariant out == ValueLines(key, vs[..i])
    {
      ConcatMapSnoc(ValueLineOf(key), vs, i);
      out := out + ValueLine(key, vs[i]);
      i := i + 1;
    }
    assert vs[..i] == vs;
  }

  method RenderParams(ps: Dict<seq<string>>, qe: string -> string) returns (out: string)
    ensures out == ParamLines(ps, qe)
  {
    out := "";
    var i := 0;
    while i < |ps|
      invariant 0 <= i <= |ps|
      invariant out == ParamLines(ps[..i], qe)
    {
      ConcatMapSnoc(ParamOf(qe), ps, i);
      var values := RenderValues(qe(ps[i].0), ps[i].1);
      out := out + values;
      i := i + 1;
    }
    assert ps[..i] == ps;
  }

  method RenderExtras(extra: seq<Param>, qe: string -> string) returns (out: string)
    ensures out == ExtraLines(extra, qe)
  {
    out := "";
    var i := 0;
    while i < |extra|
      invariant 0 <= i <= |extra|
      invariant out == ExtraLines(extra[..i], qe)
    {
      ConcatMapSnoc(ExtraOf(qe), extra, i);
      var p := extra[i];
      var desc := RenderDescription(p.description);
      out := out + ("    + " + qe(p.name) + ": `" + p.example + "` (" + p.typ + ", optional)\n" + desc);
      i := i + 1;
    }
    assert extra[..i] == extra;
  }

  method RenderParamsBlock(ps: Dict<seq<string>>, extra: seq<Param>, qe: string -> string) returns (out: string)
    ensures out == ParamsBlock(ps, extra, qe)
  {
    out := "";
    if |ps| > 0 || |extra| > 0 {
      var lines := RenderParams(ps, qe);
      var extras := RenderExtras(extra, qe);
      out := "+ Parameters\n\n" + lines + extras;
    }
  }

  method RenderExchange(c: Call) returns (out: string)
    ensures out == ExchangeText(c)
  {
    var reqHeaders := RenderHeaders(c.request.headers);
    var reqBody := RenderBody(c.request.body);
    var resHeaders := RenderHeaders(c.response.headers);
    var resBody := RenderBody(c.response.body);
    out := "+ Request (" + GetOr(c.request.headers, "Content-Type", "") + ")\n\n" + reqHeaders + reqBody + "\n"
      + ("+ Response " + Decimal(c.response.statusCode) + " (" + GetOr(c.response.headers, "Content-Type", "") + ")\n\n"
         + resHeaders + resBody) + "\n";
  }

  method RenderResource(rs: Resource, qe: string -> string) returns (out: string)
    ensures out == ResourceText(rs, qe)
  {
    var params := RenderParamsBlock(rs.params, rs.extraParams, qe);
    var exchange := RenderExchange(rs.call);
    out := Heading(rs.call) + (params + "\n" + exchange);
  }

  /** The text `Store` writes into a group's file. */
  method RenderGroup(group: string, rss: seq<Resource>, qe: string -> string) returns (out: string)
    ensures out == GroupText(group, rss, qe)
  {
    var body := "";
    var i := 0;
    while i < |rss|
      invariant 0 <= i <= |rss|
      invariant body == ResourcesText(rss[..i], qe)
    {
      ConcatMapSnoc(ResourceOf(qe), rss, i);
      var text := RenderResource(rss[i], qe);
      body := body + text;
      i := i + 1;
    }
    assert rss[..i] == rss;
    out := GroupTitle(group) + body;
  }
}
