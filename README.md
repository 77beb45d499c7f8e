# bodhi request pipeline, modelled in Dafny

bodhi is a small server-side rendering server. Every HTTP request names a
page script under a content root. The server resolves the script, reads it,
evaluates it in a fresh JavaScript context, and calls the script's optional
`loader(request)` hook with a snapshot of the request. It then calls the
mandatory `render(data)` hook with the loader's exported result, if there is
one, and writes render's text into the shared page template `index.tmpl`.
Every failing stage ends the request: 404 when the script does not exist,
otherwise a 500 whose plain-text message names the stage.

The model covers the per-request handler `Server.ServeHTTP` and the
`Request` record handed to the loader:

- `js.dfy` (module `Js`): the script values that cross between host and
  engine, the bindings a script leaves behind (`Absent`, `NotCallable`,
  `Callable`), hook outcomes, export to the host, and the text form of a
  value.
- `resolver.dfy` (module `Resolver`): the URL path to script name rule,
  with its inverse on slash-prefixed paths.
- `pipeline.dfy` (module `Pipeline`): the staged pipeline as a function
  (`Handle`, built from `LoaderStage`, `RenderStage` and `Compose`) and as
  the imperative handler with early returns (`ServeHTTP`, `InvokeHooks`),
  proved to produce the same response and the same trace of steps.
- `pipeline_properties.dfy` (module `PipelineProperties`): what each stage
  promises, stated over the response and the trace of one request.
- `protocol.dfy` (module `Protocol`): an independent state machine for the
  request protocol. It is proved to accept every trace the pipeline
  produces, and to allow each hook to be called at most once, the loader
  before render.
- `transport.dfy` (module `Transport`): status, content type and body as
  sent. It covers the server as written, where the template streams into
  the connection, and the buffered template the pipeline uses. See
  "## Findings".

The filesystem, the JavaScript engine and the template are inputs, carried
by the `Server` value. `files` maps each existing script name to its text or
to `Unreadable`. `evaluate` gives the outcome of running a source text in a
new context. `template` gives the outcome of executing the page template on
a fragment. A request yields a `Response` (`NotFound`, `ServerError(message)`
or `Html(document)`) and a trace of `Event`s. The events are the existence
check, the file read, the evaluation, the global lookups, the body read,
each hook call with its arguments and result, and the template execution.
Each request gets its own evaluation result, so no state carries over
between requests.

The model follows the code. `Pipeline.Handle` gives the response the
handler decides on: which of `http.NotFound`, `http.Error` or the page it
answers with. `Transport.ServeAsWritten` gives what the client actually
receives, which differs from it when the template fails after its first
write call. Three points where the code is easy to misread:

- The loader receives the Go record itself, so the script sees its fields
  under their Go names `Method`, `Path`, `Headers` and `Body`. The JSON
  tags `method`, `path`, `headers` and `body` are not used when the record
  is handed to the engine. `Pipeline.RequestValue` uses the Go names, as
  does the shipped page script (`req.Path`).
- The existence check only recognises "does not exist". Any other failure
  of the check lets the request go on to the read, which then fails with
  "Error reading file". The model's `Unreadable` entry covers that case.
- Every failing stage answers 500 with only its message, except the
  template. The code streams the template into the response, and the first
  write call commits status 200, even a call that writes no bytes. So a
  template failure after any write call is sent with status 200, and the
  error text is appended to what was written (see "## Findings").

## Model

| member | source | states |
|---|---|---|
| Resolver.ScriptName | main.go:45-51 | stated by the `Resolver` lemmas below: every name ends in `.js`, `/` resolves to `index.js`, one leading slash is removed, and resolution is invertible on slash-prefixed paths |
| Resolver.ScriptNameHasExtension | main.go:45-51 | every resolved script name ends in `.js`; the root path `/` resolves to `index.js` |
| Resolver.ScriptNameStripsOneSlash | main.go:50-51 | a path made of one slash and a non-empty rest resolves to the rest plus `.js`: exactly one leading slash is removed |
| Resolver.CanonicalPathOfScriptName | main.go:45-51 | on slash-prefixed paths resolution is invertible: the canonical path of the resolved script is the path itself, except that `/index` leads back to `/` |
| Resolver.ScriptNameOfCanonicalPath | main.go:45-51 | every script with a non-empty stem is reachable: its canonical path resolves to it |
| Resolver.ScriptNameCollisions | main.go:45-51 | two slash-prefixed paths resolve to the same file name only if they are equal or are `/` and `/index` |
| Resolver.ScriptNameKeepsUnslashedPath | main.go:50-51 | a path that does not start with a slash is kept whole and only gains `.js` (`*` resolves to `*.js`) |
| Js.StringForm | main.go:136 | stated by `Js.ArrayText`: the fragment is the text of render's result; an array's text is its elements' texts separated by commas, undefined and null elements empty |
| Js.ArrayText | main.go:136 | an array's text equals an independent comma-join, built from the back, of its elements' texts, with undefined and null elements written as empty text |
| Js.Export | main.go:102 | stated by `PipelineProperties.NullishLoaderResultGivesNoArgument` and `PipelineProperties.RenderArity`: a loader result of undefined or null reaches render as no argument, any other result as render's one argument, unchanged |
| Js.Get | main.go:79-81 | stated by `PipelineProperties.AbsentLoaderIsSkipped`: a loader that is not bound is never called and the body is not read |
| Pipeline.RequestValue | main.go:84-89 | the loader's argument is an object with exactly the properties `Method`, `Path`, `Headers` and `Body`: the method, the original URL path, an object with exactly the request's header names, each holding that header's values in order, and the body |
| Pipeline.Strings | main.go:87 | a header's values become an array of the same length holding each value as a string, in order |
| Pipeline.RenderArgs | main.go:119-125 | stated by `PipelineProperties.RenderArity` and `PipelineProperties.NullishLoaderResultGivesNoArgument`: render is called with one argument exactly when the loader produced non-nil data, and that argument is the data |
| Pipeline.Compose | main.go:139-143 | stated by `PipelineProperties.SuccessComposesFragment` and `Transport.BufferedTemplateReportsFailure`: the handler decides on the document exactly when template execution completed, and on a 500 `Template error: ` plus the message otherwise |
| Pipeline.Snapshot | main.go:84-89 | stated by `PipelineProperties.LoaderCalledOnceWithSnapshot`: the loader's record holds the request's method, original URL path (`/` stays `/`), headers and body |
| Pipeline.LoaderStage | main.go:77-103 | stated by `PipelineProperties.LoaderStageOutcome`, `PipelineProperties.LoaderStageEvents`, `PipelineProperties.LoaderStageCalls` and `Protocol.LoaderStageRun` |
| Pipeline.RenderStage | main.go:105-130 | stated by `PipelineProperties.RenderStageEvents`, `PipelineProperties.RenderStageCalls` and `Protocol.RenderStageRun` |
| Pipeline.Hooks | main.go:77-143 | stated by the `PipelineProperties.Hooks…` lemmas, `Protocol.HooksRun` and `Pipeline.InvokeHooks` |
| Pipeline.Handle | main.go:44-145 | the response the handler decides on and its trace; stated by the `PipelineProperties` request lemmas, `Protocol.HandleFollowsProtocol` and `Pipeline.ServeHTTP` |
| Pipeline.ServeHTTP | main.go:44-145 | the step-by-step handler with early returns produces exactly the response and trace of the staged pipeline `Handle` |
| Pipeline.InvokeHooks | main.go:77-143 | the loader, render and template steps of the handler produce exactly the response and trace of the staged `Hooks` |
| PipelineProperties.LoaderStageOutcome | main.go:77-103 | the loader stage passes exactly when the loader is absent or returns, and then hands render the loader's exported data |
| PipelineProperties.LoaderStageEvents | main.go:79-97 | the loader stage looks the loader up first; the body is read second exactly when a loader is present; it does nothing else but call the loader |
| PipelineProperties.RenderStageEvents | main.go:105-125 | the render stage looks render up first and does nothing else but call render |
| PipelineProperties.LoaderStageCalls | main.go:91-97 | the loader stage calls the loader once, with the request record, when it is a function, and otherwise calls nothing |
| PipelineProperties.RenderStageCalls | main.go:119-125 | the render stage calls render once, with the arguments the loader data gives, when it is a function, and otherwise calls nothing |
| PipelineProperties.HooksWithoutLoader | main.go:77-125 | with no loader, it is not called and the body is not read; render is looked up, and called with no argument if it is a function |
| PipelineProperties.HooksWithLoader | main.go:80-97 | a loader that is a function is called once, with the request record, and the body is read |
| PipelineProperties.HooksWithoutRender | main.go:105-117 | render absent gives `render function not found`, render not callable gives `render is not a function`; either stops right after the lookup without calling render |
| PipelineProperties.HooksCallRender | main.go:119-125 | render, when callable, is called exactly once, with the loader's data if there is any |
| PipelineProperties.HooksRenderError | main.go:127-130 | a render error gives a 500 `Render error: ` plus the message, and the template is not executed |
| PipelineProperties.HooksComposeFragment | main.go:132-143 | when render returns, the template is executed last, on the text form of render's result, and decides the response |
| PipelineProperties.NotFoundIffMissing | main.go:54-58 | the response is 404 exactly when the script does not exist, and then the existence check is the only step |
| PipelineProperties.UnreadableScriptFails | main.go:60-65 | an existing script that cannot be read gives a 500 `Error reading file` after the check and the read, nothing evaluated |
| PipelineProperties.ScriptErrorStopsBeforeHooks | main.go:67-75 | an evaluation error gives a 500 `JavaScript error: ` plus the message; no global is looked up and no hook is called |
| PipelineProperties.AbsentLoaderIsSkipped | main.go:77-81 | an absent loader is never called and the body is not read; render is looked up, and called with no argument if callable |
| PipelineProperties.NonCallableLoaderStops | main.go:80-96 | a loader that is not a function gives exactly `loader is not a function`; render is never looked up and no hook is called |
| PipelineProperties.LoaderCalledOnceWithSnapshot | main.go:83-97 | a callable loader is called exactly once, with method, original URL path (`/` stays `/`), headers and body, and the body is read |
| PipelineProperties.LoaderErrorIsTerminal | main.go:97-101 | a loader error gives a 500 `Loader error: ` plus the message; render is never looked up nor called |
| PipelineProperties.RenderLookupFailures | main.go:105-117 | after the loader passes, render absent gives `render function not found` and render not callable `render is not a function`; the request stops after the lookup, render uncalled |
| PipelineProperties.RenderArity | main.go:119-125 | render is called exactly once; with one argument if and only if the loader produced non-nil data, and that argument is the data; otherwise with none |
| PipelineProperties.NullishLoaderResultGivesNoArgument | main.go:102-125 | a loader that ran but returned undefined or null leaves render called with zero arguments |
| PipelineProperties.RenderErrorIsTerminal | main.go:127-130 | a render error gives a 500 `Render error: ` plus the message, and the template is never executed |
| PipelineProperties.SuccessComposesFragment | main.go:132-143 | when render returns, the template is executed last on render's text; the response is the document if execution completed, else a 500 `Template error: ` |
| PipelineProperties.FragmentEmbeddedVerbatim | main.go:133-140 | the template receives render's raw text: with a template that writes its content unchanged between a head and a tail, the page is head, render's text, tail |
| PipelineProperties.LoaderDataReachesRender | main.go:102-136 | data flows unchanged: with a render that returns its argument, the template receives the text form of the loader's value |
| PipelineProperties.ErrorMessagesFollowTaxonomy | main.go:55-143 | every 500 message is one of the four fixed messages or starts with one of the four stage prefixes |
| Protocol.CallsWithinBudget | main.go:77-125 | a trace the protocol allows calls each hook no more often than the phase it starts from permits |
| Protocol.HooksCalledAtMostOnce | main.go:77-125 | an allowed trace calls the loader at most once and render at most once |
| Protocol.LoaderCallPrecedesRender | main.go:77-125 | in an allowed trace the loader is never called at or after a call to render |
| Protocol.StartedRun | main.go:54-75 | the check, read and evaluate steps of a request lead from the start to a live context |
| Protocol.LoaderStageRun | main.go:77-103 | the loader stage is allowed from a live context and, when it passes, lets render be looked up owing the loader's data |
| Protocol.RenderStageRun | main.go:105-130 | the render stage is allowed once render may be looked up and, when it returns, lets the template be executed on its text |
| Protocol.HooksRun | main.go:77-143 | the hook stages are allowed from a live context and reach the template phase whenever they answer with a document |
| Protocol.HandleFollowsProtocol | main.go:44-145 | every request's trace is allowed; it answers 404 exactly when it stopped after the existence check, and a document only after the template |
| Protocol.HandleCallsHooksInOrder | main.go:77-125 | every request calls the loader at most once and render at most once, and never calls the loader at or after render |
| Transport.ErrorWire | main.go:63 | stated by `Transport.ReceiveSend`: an error sent before anything was written is read back by the client as that error and message |
| Transport.Send | main.go:55-65 | stated by `Transport.ReceiveSend` and `Transport.StatusOfRequest`: sending a whole response loses nothing, and a request is answered 404 exactly when its script does not exist |
| Transport.ReceiveSend | main.go:55-65 | sending loses nothing: reading a sent response back gives the response |
| Transport.StatusOfRequest | main.go:54-58 | a request is answered 404 exactly when its script does not exist; every 200 is `text/html` |
| Transport.StreamTemplate | main.go:138-143 | stated by `Transport.StreamingReportsFailureAsSuccess` and `Transport.StreamingAgreesWithoutPartialPage`: streaming differs from buffering exactly on a failure after a write call, even one of no bytes |
| Transport.ServeAsWritten | main.go:44-145 | what the client receives; stated by `Transport.ServeAsWrittenDiffersOnlyOnPartialPage`, `Transport.StatusOfRequest`, `Transport.PartialPageCounterexample` and `Transport.FailureAfterOneWrite` |
| Transport.StreamingReportsFailureAsSuccess | main.go:139-143 | as written, a template failure after a write call is sent as status 200, and the client reads a page |
| Transport.IndexServerReachesTemplate | main.go:44-143 | a root request to a server whose `index.js` only renders reaches the template: as written the template run is streamed, buffered it is sent composed |
| Transport.PartialPageCounterexample | main.go:139-143 | a concrete request: the as-written server answers 200 with `<html>` and the error text; the buffered pipeline answers 500 |
| Transport.FailureAfterOneWrite | main.go:139-143 | a template that writes render's text in one call and then fails is answered 200 with that text and the error, even when the text is empty; buffered it is a 500 with the error alone |
| Transport.BufferedTemplateReportsFailure | main.go:139-143 | with the template buffered, the status is 200 exactly when execution completed; a failure is a 500 whose body is the template error alone |
| Transport.StreamingAgreesWithoutPartialPage | main.go:139-143 | streaming and buffering send the same thing when the template completes or fails before any write call |
| Transport.ServeAsWrittenDiffersOnlyOnPartialPage | main.go:132-143 | over whole requests the as-written server and the buffered pipeline differ exactly when the request reached the template and it failed after a write call |

## Left out

- HTTP transport: `main` (argument parsing, the port, `ListenAndServe`), response headers other than the content type (such as `X-Content-Type-Options`), and the logging of a superfluous status write.
- Server construction (`NewServer`): parsing `index.tmpl` and the fatal exit when that fails. The parsed template is the `template` input.
- The unused engine field `vm` on the server. Each request uses its own context.
- The JavaScript engine is not interpreted. Evaluating a script, calling a hook, and the text form of a result are inputs or a fixed conversion (`Js.StringForm`). Side effects of one hook on the globals seen by the next are not modelled, and numbers are integers.
- Js.Export: exporting a non-nullish value and wrapping it again for render is modelled as the identity. The engine's conversion of objects, arrays and numbers into host values and back is not modelled.
- The filesystem: cleaning and joining the path onto the content root, including `..` traversal, the gap between the existence check and the read, and error kinds other than "does not exist". Existence and readability come from the `files` input.
- Errors while reading the request body are ignored by the handler. The model only records that the body is read when a loader is present.
- The `Headers` map is handed to the loader by reference in the code. The loader could change it, but nothing later in the request reads it, so the model passes a copy.
- The trusted-HTML marking of the fragment (`template.HTML` at main.go:136). Whether the template escapes its content is decided by the `template` input; the model only states that the template receives render's raw text.
- Termination of the engine: evaluating a script and calling a hook are total functions in the model. In the code a script or hook that never returns blocks its request forever.
- Engine panics (a Go panic raised inside the engine or the template) are not modelled; every failure is a returned error.
- Resolver.ScriptNameCollisions: the file name it compares is the one before `filepath.Join` cleans it. Paths such as `/a`, `//a`, `/./a` and `/b/../a` give different file names in the model but the same file on disk.
- Template parsing and the template language. Execution is an input that either writes the whole document or stops with an error after a sequence of write calls, each with its text.
- Js.StringForm: a number is written in full decimal. The engine writes integer-valued numbers of magnitude 10^21 or more in exponent form (`1e+21`), and numbers are not limited to integers there.
- Concurrency between requests. Each request receives its own evaluation result.
- Navigation listing and per-request named template blocks. Neither is part of `main.go`, so they are not part of this model.
- Page scripts such as `page1.js` are content the server consumes, not server logic.

## Findings

| source | as written | input that shows it | evidently intended | confidence | as-written member | corrected member |
|---|---|---|---|---|---|---|
| main.go:139-143 | the template executes straight into the response writer; on an execution error `http.Error` runs after the first write call, even one of no bytes, so status 200 and `text/html` are already sent and `Template error: …` is appended to the partial page | `GET /` where `index.js` renders `hi` and `index.tmpl` fails during execution after writing `<html>` (for instance `<html>{{.Title}}`, which names a field the data does not have; Go reports `can't evaluate field Title in type struct { Content template.HTML }`); equally `{{.Content}}{{.Title}}` with render returning the empty text, which fails after a write of no bytes (`Transport.FailureAfterOneWrite`) | a template failure answers 500 with only the template error, like every other failing stage, with no partial page | medium, not executed | Transport.PartialPageCounterexample | Transport.BufferedTemplateReportsFailure |
