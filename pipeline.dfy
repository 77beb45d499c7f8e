/** The per-request pipeline of the server: resolve the page script, read
    it, evaluate it in a fresh context, call the optional `loader` hook with
    a snapshot of the request, call the mandatory `render` hook with the
    loader's exported result (if any), and compose the fragment into the
    page template. Every stage either stops the request with a response or
    hands over to the next.

    The filesystem, the scripting engine and the template are inputs (the
    fields of Server). Each request gets the result of evaluating its own
    script, so nothing carries over from one request to the next. Besides
    its response, a request yields the ordered trace of what it did. */
module Pipeline {
  import opened Js
  import Resolver

  /** The record handed to the loader: method, original URL path, headers
      and body of the incoming request. The method is held in `verb`, since
      `method` is a keyword here; the script sees it as `Method`. */
  datatype Request = Request(
    verb: string,
    path: string,
    headers: map<string, seq<string>>,
    body: string)

  /** The parts of an incoming HTTP request the pipeline reads. */
  datatype HttpRequest = HttpRequest(
    verb: string,
    urlPath: string,
    header: map<string, seq<string>>,
    body: string)

  /** A file under the content root that exists: it cannot be read, or it
      holds the given text. */
  datatype FileEntry = Unreadable | Source(text: string)

  /** Executing the page template on a fragment: the whole document was
      written, or execution stopped with an error after the given sequence
      of write calls to the response, each with the text it wrote. A write
      call may write nothing (an empty text node or an empty printed
      value); it is still a write. */
  datatype TemplateRun = Wrote(document: string) | Aborted(writes: seq<string>, message: string)

  /** The text written by a sequence of write calls. */
  function Concat(writes: seq<string>): string {
    if writes == [] then "" else writes[0] + Concat(writes[1..])
  }

  /** What a request depends on: the content root's script files by name
      (a name that is not a key does not exist), the engine's evaluation of
      a script's source text in a new context, and the page template, parsed
      once when the server starts, applied to a fragment. */
  datatype Server = Server(
    files: map<string, FileEntry>,
    evaluate: string -> Evaluation,
    template: string -> TemplateRun)

  /** The response: 404, 500 with a plain-text message, or 200 with an HTML
      document. */
  datatype Response = NotFound | ServerError(message: string) | Html(document: string)

  /** One step a request takes. */
  datatype Event =
    | Stat(file: string)                                     // existence check of the script
    | ReadFile(file: string)                                 // reading the script
    | Evaluate(source: string)                               // running it in a new context
    | Lookup(name: string)                                   // fetching a global of the context
    | ReadBody                                               // consuming the request body
    | Call(hook: string, args: seq<Value>, result: HookResult) // calling a hook
    | Execute(content: string)                               // executing the page template

  datatype Exchange = Exchange(response: Response, trace: seq<Event>)

  /** The outcome of one stage: carry on with a value, or stop with a
      response; either way with the events of the stage. */
  datatype Stage<T> = Continue(value: T, events: seq<Event>) | Stop(response: Response, events: seq<Event>)

  const ReadFailure := "Error reading file"
  const ScriptErrorPrefix := "JavaScript error: "
  const LoaderNotFunction := "loader is not a function"
  const LoaderErrorPrefix := "Loader error: "
  const RenderNotFound := "render function not found"
  const RenderNotFunction := "render is not a function"
  const RenderErrorPrefix := "Render error: "
  const TemplateErrorPrefix := "Template error: "

  /** The snapshot of the incoming request given to the loader. */
  function Snapshot(r: HttpRequest): Request {
    Request(r.verb, r.urlPath, r.header, r.body)
  }

  /** The request record as the loader sees it: an object whose properties
      carry the record's field names. */
  function RequestValue(req: Request): (v: Value)
    ensures v.Object? && v.properties.Keys == {"Method", "Path", "Headers", "Body"}
    ensures v.properties["Method"] == Str(req.verb) && v.properties["Path"] == Str(req.path)
    ensures v.properties["Body"] == Str(req.body)
    ensures v.properties["Headers"].Object? && v.properties["Headers"].properties.Keys == req.headers.Keys
    ensures forall name :: name in req.headers ==>
              v.properties["Headers"].properties[name] == Strings(req.headers[name])
  {
    Object(map[
      "Method" := Str(req.verb),
      "Path" := Str(req.path),
      "Headers" := Object(map name | name in req.headers :: Strings(req.headers[name])),
      "Body" := Str(req.body)])
  }

  /** A list of strings as a script array. */
  function Strings(xs: seq<string>): (v: Value)
    ensures v.Array? && |v.elements| == |xs|
    ensures forall i :: 0 <= i < |xs| ==> v.elements[i] == Str(xs[i])
  {
    Array(seq(|xs|, i requires 0 <= i < |xs| => Str(xs[i])))
  }

  /** The arguments render is called with: the loader's exported result when
      there is one, nothing otherwise. */
  function RenderArgs(data: Option<Value>): (args: seq<Value>)
    ensures |args| <= 1
    ensures |args| == 1 <==> data.Some?
    ensures data.Some? ==> args[0] == data.value
  {
    if data.Some? then [data.value] else []
  }

  /** The loader stage, in a context whose globals are `globals`. An absent
      loader is skipped and leaves no data; a present one makes the body be
      read, must be a function, and is called once with the request
      snapshot; its result, exported, is the data handed to render. */
  function LoaderStage(globals: map<string, Binding>, r: HttpRequest): Stage<Option<Value>>
  {
    match Get(globals, "loader")
    case Absent => Continue(None, [Lookup("loader")])
    case NotCallable(_) => Stop(ServerError(LoaderNotFunction), [Lookup("loader"), ReadBody])
    case Callable(loader) =>
      var args := [RequestValue(Snapshot(r))];
      var result := loader(args);
      var events := [Lookup("loader"), ReadBody, Call("loader", args, result)];
      match result
      case Raised(m) => Stop(ServerError(LoaderErrorPrefix + m), events)
      case Returned(v) => Continue(Export(v), events)
  }

  /** The render stage: render must be present and a function; it is called
      once, with the loader's data if there is any; the text form of its
      result is the fragment. */
  function RenderStage(globals: map<string, Binding>, data: Option<Value>): Stage<string>
  {
    match Get(globals, "render")
    case Absent => Stop(ServerError(RenderNotFound), [Lookup("render")])
    case NotCallable(_) => Stop(ServerError(RenderNotFunction), [Lookup("render")])
    case Callable(render) =>
      var args := RenderArgs(data);
      var result := render(args);
      var events := [Lookup("render"), Call("render", args, result)];
      match result
      case Raised(m) => Stop(ServerError(RenderErrorPrefix + m), events)
      case Returned(v) => Continue(StringForm(v), events)
  }

  /** The response the handler decides on for a template execution: the
      document when it completed, a 500 with the template error otherwise.
      What reaches the client when the template fails after writing part of
      the page is Transport.ServeAsWritten's concern. */
  function Compose(run: TemplateRun): (resp: Response)
    ensures resp.Html? <==> run.Wrote?
    ensures run.Wrote? ==> resp.document == run.document
    ensures run.Aborted? ==> resp == ServerError(TemplateErrorPrefix + run.message)
  {
    match run
    case Wrote(doc) => Html(doc)
    case Aborted(_, m) => ServerError(TemplateErrorPrefix + m)
  }

  /** The request's script exists, was read and evaluated without error. */
  predicate Evaluated(s: Server, r: HttpRequest) {
    var file := Resolver.ScriptName(r.urlPath);
    file in s.files && s.files[file].Source? && s.evaluate(s.files[file].text).Ran?
  }

  /** The globals the request's script left in its context. */
  function Context(s: Server, r: HttpRequest): map<string, Binding>
    requires Evaluated(s, r)
  {
    s.evaluate(s.files[Resolver.ScriptName(r.urlPath)].text).globals
  }

  /** The pipeline, stage by stage: the response the handler decides on
      (which of NotFound, a 500 or the page it answers with) and the trace
      of what it did. */
  function Handle(s: Server, r: HttpRequest): Exchange {
    var file := Resolver.ScriptName(r.urlPath);
    if file !in s.files then Exchange(NotFound, [Stat(file)])
    else match s.files[file]
      case Unreadable => Exchange(ServerError(ReadFailure), [Stat(file), ReadFile(file)])
      case Source(text) =>
        var started := [Stat(file), ReadFile(file), Evaluate(text)];
        match s.evaluate(text)
        case Failed(m) => Exchange(ServerError(ScriptErrorPrefix + m), started)
        case Ran(globals) =>
          var hooks := Hooks(s, globals, r);
          Exchange(hooks.response, started + hooks.trace)
  }

  /** The stages after evaluation: loader, render and template, in the
      context whose globals are `globals`. */
  function Hooks(s: Server, globals: map<string, Binding>, r: HttpRequest): Exchange {
    match LoaderStage(globals, r)
    case Stop(resp, e1) => Exchange(resp, e1)
    case Continue(data, e1) =>
      match RenderStage(globals, data)
      case Stop(resp, e2) => Exchange(resp, e1 + e2)
      case Continue(fragment, e2) =>
        Exchange(Compose(s.template(fragment)), e1 + e2 + [Execute(fragment)])
  }

  /** Handling one request step by step, each failing stage returning
      early: locate, read and evaluate the script, then run its hooks. */
  method ServeHTTP(s: Server, r: HttpRequest) returns (response: Response, trace: seq<Event>)
    ensures Exchange(response, trace) == Handle(s, r)
  {
    var file := Resolver.ScriptName(r.urlPath);
    trace := [Stat(file)];
    if file !in s.files {
      return NotFound, trace;
    }
    trace := trace + [ReadFile(file)];
    if s.files[file].Unreadable? {
      return ServerError(ReadFailure), trace;
    }
    var text := s.files[file].text;
    trace := trace + [Evaluate(text)];
    var evaluation := s.evaluate(text);
    if evaluation.Failed? {
      return ServerError(ScriptErrorPrefix + evaluation.message), trace;
    }
    var events;
    response, events := InvokeHooks(s, evaluation.globals, r);
    trace := trace + events;
  }

  /** The hook stages of ServeHTTP, in the context whose globals are
      `globals`: the optional loader, then render, then the template. */
  method InvokeHooks(s: Server, globals: map<string, Binding>, r: HttpRequest)
    returns (response: Response, trace: seq<Event>)
    ensures Exchange(response, trace) == Hooks(s, globals, r)
  {
    var data: Option<Value> := None;
    var loader := Get(globals, "loader");
    trace := [Lookup("loader")];
    if !loader.Absent? {
      trace := trace + [ReadBody];
      var req := Snapshot(r);
      if !loader.Callable? {
        return ServerError(LoaderNotFunction), trace;
      }
      var args := [RequestValue(req)];
      var result := loader.call(args);
      trace := trace + [Call("loader", args, result)];
      if result.Raised? {
        return ServerError(LoaderErrorPrefix + result.message), trace;
      }
      data := Export(result.value);
    }
    ghost var loaded := LoaderStage(globals, r);
    assert loaded.Continue? && loaded.value == data && trace == loaded.events;

    var render := Get(globals, "render");
    trace := trace + [Lookup("render")];
    if render.Absent? {
      return ServerError(RenderNotFound), trace;
    }
    if !render.Callable? {
      return ServerError(RenderNotFunction), trace;
    }
    var args := if data != None then [data.value] else [];
    var result := render.call(args);
    trace := trace + [Call("render", args, result)];
    if result.Raised? {
      return ServerError(RenderErrorPrefix + result.message), trace;
    }

    var fragment := StringForm(result.value);
    trace := trace + [Execute(fragment)];
    var run := s.template(fragment);
    if run.Aborted? {
      return ServerError(TemplateErrorPrefix + run.message), trace;
    }
    response := Html(run.document);
  }
}
