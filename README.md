# echo-apib in Dafny

A model of echo-apib, a middleware for the Echo web framework in Go. It
records HTTP exchanges and renders them as API Blueprint documents. The model
covers five parts:

- **Package state** (apib.go). The `recording` flag, the ambient group, name and extra parameters, and the registry that maps each group to its resources in recording order. This is the class `Apib.Recorder`, whose methods are `Record`, `Group`, `Name`, `AddParam`, `Flush` and `Store`.
- **Renderer** (`Store` and `stringToLines` in apib.go). Every part of a group's file is a specification function in `Render`, and each loop that writes it is a `Render...` method proved equal to that function. A file's text is returned as a string instead of being written to disk.
- **Middleware** (middleware.go). `Middleware.ApibGenerator` covers:
  - the gate;
  - the request snapshot (`Snapshot`): first header values, query parameters, and path parameters with their URI rewrite;
  - the capture writer;
  - the error path;
  - the append to the registry.
- **Capture writer** (writer.go). This is the class `Writers.Writer`. The wrapped ResponseWriter is modelled by the calls it receives (`SinkCall`). A handler's calls on the writer are `WriterOp`s, replayed by `Drive`.
- **Legacy generator** (apib_generator.go). The module `Legacy` holds:
  - its URI-keyed registry (`Register`);
  - its recorder class and middleware;
  - its renderer.

  Its `Writer` and `stringToLines` are the same code as writer.go and apib.go, so they are modelled once, in `Writers` and `Text`.

Several things are inputs rather than modelled:

- The Echo request arrives as an `Incoming` value: method, URI, headers, query, path parameters and body.
- The downstream handler is a `Downstream` value: its writer calls, its final status and headers, and its error.
- Go maps are association lists (`Dict`). Assignment keeps each key in its place and adds a new key at the end (`Dict.PutInPlace`), so every map the model builds is visited in insertion order. That is one of the orders Go's `range` may produce, not the only one.
- `inflections.Underscore`, `url.QueryEscape` and `url.PathEscape` are function parameters.

After a successful capture the code clears only the group and the name (middleware.go:91-92). `currentParams` keeps its value, and it is also the appended resource's `ExtraParams`. `ApibGenerator` states exactly that.

## Model

| member | source | states |
|---|---|---|
| Text.IndexOf | middleware.go:41 | the position found holds an occurrence of the pattern, and no occurrence starts before it; None exactly when there is no occurrence |
| Text.ReplaceFirst | middleware.go:41 | strings.Replace with count 1: only the first occurrence is replaced; with no occurrence the string comes back unchanged |
| Text.ReplaceSpaces | apib.go:65-70 | same length; each space becomes '_' and every other character is kept; no space remains |
| Text.DigitChar | apib.go:123 | gives the decimal digit character whose value is the given digit |
| Text.Digits | apib.go:123 | %d of a natural number is a non-empty string of digits with no leading zero |
| Text.Decimal | apib.go:123 | %d of an integer: a non-empty string that starts with '-' exactly when the integer is negative, with digits everywhere else; `DecimalRoundTrip` reads it back |
| Text.DigitsRoundTrip | apib.go:123 | reading the digits back gives the number |
| Text.DecimalRoundTrip | apib.go:123 | the status code printed by %d reads back as the same integer, negative ones included |
| Text.FirstIndexOf | apib.go:149-151 | the index found holds the character and none comes before it; None exactly when the character is absent |
| Text.DropCR | apib.go:149-151 | a token that ends in a carriage return always loses exactly that one, and any other token is kept whole |
| Text.ScanToken | apib.go:146-159 | one Scan step: the token holds no '\n' and what is left is strictly shorter, so scanning ends |
| Text.Lines | apib.go:146-159 | the scanner's tokens: no line contains '\n', and the empty input gives zero lines |
| Text.StringToLines | apib.go:146-159 | the scanning loop appends the tokens in input order, giving exactly `Lines(s)` |
| Text.JoinSnoc | apib.go:120 | strings.Join, which the renderer uses to rebuild each wrapped description and body: appending a part to a non-empty list appends one separator and that part to the joined text |
| Text.LinesJoinRoundTrip | apib.go:146-159 | for text without carriage returns, joining the lines with "\n" and restoring a final newline gives the text back |
| Dict.Lookup | apib.go:105 | a read of a Go map finds a value exactly when the key is present, and that value is stored under the key |
| Dict.GetOr | apib.go:105 | `m[k]` gives the value stored under `k` when the key is present, and the zero value otherwise |
| Dict.Put | middleware.go:24-40 | `m[k] = v` adds at most one entry; `PutLookup`, `PutKeys` and `PutInPlace` state what the map holds afterwards |
| Dict.PutLookup | middleware.go:24-30 | after `m[k] = v`, `k` reads `v` and every other key reads as before |
| Dict.PutInPlace | middleware.go:24-40 | assignment keeps every key where it was and leaves other keys' entries alone; a new key can only be the last entry |
| Dict.PutAbsent | middleware.go:24-30 | assigning a new key adds one entry after the existing ones |
| Dict.PutKeys | middleware.go:24-30 | the keys after `m[k] = v` are the old keys plus `k` |
| Dict.PutDistinct | middleware.go:24-30 | assignment keeps map keys unique |
| Writers.Writer.constructor | writer.go:11-15 | a new writer has empty text, `wroteHeader` false, and has sent nothing to the wrapped writer |
| Writers.Writer.WriteHeader | writer.go:25-31 | the code is always forwarded, even on repeat calls; `wroteHeader` becomes true; the text is unchanged (the same code is at apib_generator.go:233-239) |
| Writers.Writer.Write | writer.go:17-23 | the text grows by exactly the bytes, whatever the wrapped writer answers; status 200 is forwarded first when no header went out; the bytes are then forwarded; the wrapped writer's `(n, err)` is returned; `wroteHeader` becomes true (same code at apib_generator.go:225-231) |
| Writers.Apply | writer.go:17-31 | one handler call: the text grows by the bytes written and the forwarded calls follow `Step`; `wroteHeader` is then true |
| Writers.Drive | middleware.go:50-54 | a sequence of handler calls leaves the text extended by everything written and the forwarded calls extended by `Relay`; `wroteHeader` is true once any call was made and never reverts |
| Writers.RelayDeliversWritten | writer.go:17-23 | the body bytes the wrapped writer receives are exactly the handler's writes, in order |
| Writers.StatusLineFirst | writer.go:17-20 | through a fresh writer the first forwarded call is a status line; a handler that writes first gets status 200 and then its bytes |
| Render.HeadersBlock | apib.go:106-112 | the `+ Headers` subsection is empty exactly when there are no headers, and starts with its heading otherwise |
| Render.BodyBlock | apib.go:114-121 | the `+ Body` subsection is empty exactly when the body is empty, and starts with its heading otherwise |
| Render.DescriptionText | apib.go:92-98 | a description produces text exactly when it is non-empty |
| Render.ParamsBlock | apib.go:80-101 | `+ Parameters` appears exactly when there are params or extra params, and begins the section |
| Render.ResourceText | apib.go:79-139 | a resource's text starts with its heading `## <name> [<METHOD> <URI>]` |
| Render.FileName | apib.go:69-71 | the file name is Underscore(group) with every space replaced by '_', followed by ".apib"; it contains no space |
| Render.FileNameCollides | apib.go:69-71 | the name is not one-to-one: groups "a b" and "a_b" both get "a_b.apib" (with an `underscore` that leaves both alone) |
| Render.SectionsInOrder | apib.go:75-79 | a group's file is `# Group <g>` followed by one resource section per resource, each after the sections of the resources recorded before it |
| Render.ValueLineAt | apib.go:83-87 | every value of a parameter gets its own `(string)` line, in order |
| Render.RequiredIgnored | apib.go:89-91 | the `required` flag of an extra parameter never shows; every extra parameter reads "optional" |
| Render.MissingContentType | apib.go:105 | a request without Content-Type renders as `+ Request ()` |
| Render.MissingResponseContentType | apib.go:123 | a response without Content-Type starts with `+ Response <status> ()` followed by a blank line |
| Render.BodyRecoverable | apib.go:114-121 | every body line carries exactly twelve leading spaces, and stripping them and joining the lines gives back a body without carriage returns |
| Render.RenderHeaders | apib.go:106-112 | the header loop writes exactly `HeadersBlock` |
| Render.WrapLines | apib.go:116-119 | splitting into lines and then rewriting each slot in place gives each line between the prefix and the suffix |
| Render.WrapInPlace | apib.go:116-119 | each slot of the array is rewritten in place to the prefix, its old content and the suffix |
| Render.RenderBody | apib.go:114-121 | the body code writes exactly `BodyBlock` |
| Render.RenderDescription | apib.go:92-98 | the description code writes exactly `DescriptionText` |
| Render.RenderValues | apib.go:84-86 | the value loop writes exactly `ValueLines` |
| Render.RenderParams | apib.go:82-88 | the nested param loop writes exactly `ParamLines` |
| Render.RenderExtras | apib.go:89-100 | the extra-param loop writes exactly `ExtraLines` |
| Render.RenderParamsBlock | apib.go:80-101 | the parameters code writes exactly `ParamsBlock` |
| Render.RenderExchange | apib.go:105-139 | the request and response code writes exactly `ExchangeText` |
| Render.RenderResource | apib.go:77-139 | one iteration over a resource writes exactly `ResourceText` |
| Render.RenderGroup | apib.go:75-141 | a group's file receives exactly `GroupText` |
| Apib.Recorder.constructor | apib.go:16-20 | the package variables start not recording, with empty slots and an empty registry |
| Apib.Recorder.Record | apib.go:60-62 | recording becomes true and nothing else changes |
| Apib.Recorder.Group | apib.go:161-163 | only the group slot is overwritten |
| Apib.Recorder.Name | apib.go:165-167 | only the name slot is overwritten |
| Apib.Recorder.AddParam | apib.go:169-180 | exactly one Param with the given name, type, example, description and required flag is appended after the existing ones, which are unchanged |
| Apib.Recorder.Flush | apib.go:182-186 | group and name become "" and the params empty, with registry and flag untouched; the result does not depend on the slots, so Flush is idempotent |
| Apib.Recorder.Store | apib.go:64-144 | recording becomes false before rendering; the result is one (name, text) write per group in visiting order, named by `FileName` and holding `GroupText`; nothing else changes |
| Apib.RenderFiles | apib.go:68-143 | the group loop yields, for each group in visiting order, its file name and text |
| Apib.RenderGroupFile | apib.go:68-143 | one group's file is its file name and its text |
| Snapshot.FirstValues | middleware.go:24-26 | the recorded headers have exactly the incoming header names |
| Snapshot.FirstValuesExact | middleware.go:24-26 | each header is recorded with its first value only, in visiting order |
| Snapshot.CopyParamsExact | middleware.go:28-30 | query parameters are recorded as they are, with every value |
| Snapshot.PathParamRecorded | middleware.go:33-40 | a path parameter is recorded under its name as a one-value list, overriding a query parameter of that name, unless a later path parameter takes the same name |
| Snapshot.OtherParamKept | middleware.go:28-40 | a parameter that no path parameter is renamed to keeps its query values |
| Snapshot.UriRewrite | middleware.go:41 | only the first "/"+v becomes "/{name}"; a URI without "/"+v is unchanged |
| Snapshot.RecordedRequest | middleware.go:15-20 | the recorded body is the body handed on downstream, and the method is kept |
| Snapshot.CopyFirstValues | middleware.go:24-26 | the header loop builds exactly `FirstValues` |
| Snapshot.CopyQuery | middleware.go:28-30 | the query loop builds exactly `CopyParams` |
| Snapshot.ApplyPathParams | middleware.go:32-43 | the path-parameter loop builds exactly `PathParams` and `PathTemplate` |
| Snapshot.SnapshotRequest | middleware.go:15-43 | the request snapshot is exactly `RecordedRequest` |
| Middleware.ParamName | middleware.go:34-39 | a path parameter named "*" is recorded under the escape of "catch_all"; every other name is recorded under its own escape |
| Middleware.RecordedResponse | middleware.go:59-63 | the recorded response body is everything the handler wrote, and the status is the response status |
| Middleware.RecordedResource | middleware.go:45-76 | the resource carries the ambient group, name and extra params, and the request's params |
| Middleware.RecordedBodyDelivered | middleware.go:50-60 | the recorded response body equals the bytes the client received |
| Middleware.CatchAllRecorded | middleware.go:34-40 | a path parameter named `*` is recorded under `catch_all` |
| Middleware.ApibGenerator | middleware.go:12-97 | gate closed: next's result is returned and no state changes. Handler error: the same error, no append, slots kept. Success: exactly one resource appended to the end of the group's list (other groups untouched), nil returned, group and name cleared, params kept |
| Legacy.LegacyResponse | apib_generator.go:181-193 | a failing handler leaves the zero response (status 0, empty body, no headers); otherwise the captured body and the status |
| Legacy.Register | apib_generator.go:194-204 | the group is present afterwards, no other group appears, and every other group's URIs are unchanged |
| Legacy.RegisterAccumulates | apib_generator.go:194-204 | a call is appended to the calls of its group and URI in arrival order; that resource's params become the call's; other URIs and groups are unchanged |
| Legacy.LegacyParamsBlock | apib_generator.go:70-78 | `+ Parameters` appears exactly when the resource has params |
| Legacy.LegacyResourceText | apib_generator.go:69 | a URI's section starts with `## <uri>` |
| Legacy.UriSectionsInOrder | apib_generator.go:66-69 | the file is `# Group <g>` followed by one section per URI, in visiting order |
| Legacy.CallsInOrder | apib_generator.go:79-81 | each call of a URI gets its own `### <name> [<METHOD>]` section, in arrival order |
| Legacy.RenderLegacyCall | apib_generator.go:81-116 | one call's writes are its `### name [METHOD]` heading followed by the request and response sections |
| Legacy.RenderLegacyCalls | apib_generator.go:79-117 | the call loop writes exactly `LegacyCallsText` |
| Legacy.RenderLegacyResource | apib_generator.go:69-117 | one URI's writes are its heading, its `+ Parameters` section when it has params, and then its calls |
| Legacy.RenderLegacyGroup | apib_generator.go:66-118 | a group's file receives exactly `LegacyGroupText`, with parameter names unescaped |
| Legacy.RenderLegacyFiles | apib_generator.go:59-120 | one (name, text) write per group, named by `FileName`, in visiting order |
| Legacy.LegacyRecorder.constructor | apib_generator.go:18-21 | the package variables start not recording, with empty slots and an empty registry |
| Legacy.LegacyRecorder.Record | apib_generator.go:51-53 | recording becomes true and nothing else changes |
| Legacy.LegacyRecorder.Group | apib_generator.go:138-140 | only the group slot is overwritten |
| Legacy.LegacyRecorder.Name | apib_generator.go:142-144 | only the name slot is overwritten |
| Legacy.LegacyRecorder.Store | apib_generator.go:55-121 | recording becomes false before rendering; one (name, text) write per group in visiting order, holding `LegacyGroupText` |
| Legacy.LegacyApibGenerator | apib_generator.go:146-211 | gate closed: next's result and no change. Otherwise the call is registered under group and rewritten URI, path parameters keep their own names, the handler's error is dropped (zero response, nil returned), and group and name are cleared |

## Left out

- The Echo framework and net/http are not modelled: the context, routing, the ResponseWriter implementation, and `params(c)` (apib.go:188-196, apib_generator.go:245-253). The request and the handler's behaviour are inputs (`Incoming`, `Downstream`). The response status is taken as reported after the handler, not derived from the forwarded calls.
- What the handler does to the original writer when the gate is closed is not modelled; only the captured path goes through `Writer`.
- `os.Create`, `f.Write`, `f.Close` and `log.Fatal` are not modelled. Each file is returned as its name and its text, the pieces concatenated in write order. The result is the sequence of creates and writes, not the directory they leave behind. A failure to create a file is outside the model.
- Apib.Recorder.Store: does not model the files left on disk. `os.Create` truncates an existing file, and `FileName` is not one-to-one (`Render.FileNameCollides`). So when two groups' names collide, only the group visited later keeps its file, and which one that is depends on map order (apib.go:67-71).
- Legacy.LegacyRecorder.Store: as for `Apib.Recorder.Store`, a later group whose file name collides with an earlier one replaces that group's file on disk (apib_generator.go:58-62). The returned list still holds both writes.
- `inflections.Underscore`, `url.QueryEscape` and `url.PathEscape` are function parameters, because their code is not part of this model. The one fact used about PathEscape is that "catch_all" escapes to itself; `Middleware.CatchAllRecorded` takes it as a precondition.
- The bufio.Scanner 64 KiB token limit and its stderr diagnostic are not modelled; scanning never fails here.
- `ioutil.ReadAll` errors are not modelled; the body bytes are given.
- Go map iteration order is unspecified. `Store` takes the order of the groups as an input; every other map is rendered in the order its entries were assigned.
- Legacy.LegacyRecorder.Store: renders every map the model builds (response and request headers, params, and the URIs of a legacy group) in insertion order. Go's `range` (apib_generator.go:67 and the header and param loops) may visit them in any order, so the model fixes one of the orders the source may produce.
- Concurrency is not modelled: the globals have no lock, so the model is single-threaded.
- Slice aliasing between `currentParams` and a resource's `ExtraParams` is not modelled; sequences are values.
- A nil slice or map is identified with an empty one, so `AddParam`'s nil check and the legacy nil checks on `rss.Calls` have no visible effect.
- Struct fields the code never assigns are omitted: `Resource.Name`, `Resource.URI`, `Request.PathParams`, and the legacy `Resource.URI`.
- Strings and byte slices are sequences of characters, one per byte; there is no UTF-8 decoding.
- Go panics are preconditions instead of an error path:
  - `v[0]` on a header with no values (middleware.go:25, 66; apib_generator.go:159, 191);
  - the legacy write into a nil header map when the handler fails with response headers set (apib_generator.go:191).
- Snapshot.UriRewrite: states the first-occurrence rewrite for one path parameter. With several, `PathTemplate` applies the same rewrite once per parameter in turn.
- Middleware.ApibGenerator: the handler is a `Downstream` value and cannot touch the package state. The model assumes it does not call `Group`, `Name`, `AddParam` or `Flush` and does not re-enter the middleware. The source reads `currentGroup` and `currentName` into the call before `next(c)` (middleware.go:45-48) but reads `currentGroup` and `currentParams` again afterwards (middleware.go:69-76, 90). A handler that changed them would have its resource filed under the new group or with the new extra parameters; with nested middleware the outer capture is appended under `calls[""]`.
- Legacy.LegacyApibGenerator: likewise the handler is assumed not to call `Group` or `Name` or re-enter the middleware. The source reads `currentGroup` again after `next(c)` (apib_generator.go:194-204), so a handler that changed it would have its call registered under the new group.
- Writers.Writer.Body: no contract; it returns the captured `text`, which `Write` and `WriteHeader` specify.
