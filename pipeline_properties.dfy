/** What the pipeline promises, stated over the response and the trace of
    one request. */
module PipelineProperties {
  import opened Js
  import opened Pipeline
  import Resolver

  /** The argument lists of the calls to `hook`, in order. */
  function CallArgs(t: seq<Event>, hook: string): (calls: seq<seq<Value>>)
    ensures |calls| <= |t|
  {
    if t == [] then []
    else (if t[0].Call? && t[0].hook == hook then [t[0].args] else []) + CallArgs(t[1..], hook)
  }

  lemma {:induction false} CallArgsAppend(a: seq<Event>, b: seq<Event>, hook: string)
    ensures CallArgs(a + b, hook) == CallArgs(a, hook) + CallArgs(b, hook)
  {
    if a == [] {
      assert a + b == b;
    } else {
      assert (a + b)[1..] == a[1..] + b;
      CallArgsAppend(a[1..], b, hook);
    }
  }

  /** A trace with no call events has no calls to any hook. */
  lemma {:induction false} NoCallsWithoutCallEvents(t: seq<Event>, hook: string)
    requires forall i :: 0 <= i < |t| ==> !t[i].Call?
    ensures CallArgs(t, hook) == []
  {
    if t != [] {
      NoCallsWithoutCallEvents(t[1..], hook);
    }
  }

  /** The loader's exported result, as the host sees it: present only when
      the loader is a function that returned a value other than undefined
      or null. */
  function LoaderData(s: Server, r: HttpRequest): Option<Value>
    requires Evaluated(s, r)
  {
    var loader := Get(Context(s, r), "loader");
    if loader.Callable? then
      var result := loader.call([RequestValue(Snapshot(r))]);
      if result.Returned? && !IsNullish(result.value) then Some(result.value) else None
    else None
  }

  /** The loader stage lets the request go on. */
  predicate LoaderPasses(s: Server, r: HttpRequest)
    requires Evaluated(s, r)
  {
    var loader := Get(Context(s, r), "loader");
    loader.Absent? || (loader.Callable? && loader.call([RequestValue(Snapshot(r))]).Returned?)
  }

  /** What render returns when it is a function and the loader passed. */
  function RenderResult(s: Server, r: HttpRequest): HookResult
    requires Evaluated(s, r) && LoaderPasses(s, r) && Get(Context(s, r), "render").Callable?
  {
    var data := LoaderData(s, r);
    Get(Context(s, r), "render").call(if data.Some? then [data.value] else [])
  }

  /** The first events of a request whose script was evaluated. */
  function Started(s: Server, r: HttpRequest): seq<Event>
    requires Evaluated(s, r)
  {
    var file := Resolver.ScriptName(r.urlPath);
    [Stat(file), ReadFile(file), Evaluate(s.files[file].text)]
  }

  /** A request whose script was evaluated goes on with its hook stages:
      it answers as they do, its trace is theirs after the first three
      events, and it ends as theirs does. */
  lemma StartedTrace(s: Server, r: HttpRequest)
    requires Evaluated(s, r)
    ensures var h := Hooks(s, Context(s, r), r);
            && Handle(s, r) == Exchange(h.response, Started(s, r) + h.trace)
            && (forall e :: e in Handle(s, r).trace <==> e in Started(s, r) || e in h.trace)
            && (|h.trace| > 0 ==> Handle(s, r).trace[|Handle(s, r).trace| - 1] == h.trace[|h.trace| - 1])
    ensures forall e :: e in Started(s, r) ==> e.Stat? || e.ReadFile? || e.Evaluate?
  {
  }

  /** The loader stage passes exactly when the loader is absent or returns,
      and then hands over the loader's data; render's result is that of
      calling it with the arguments that data gives. */
  lemma LoaderStageOutcome(s: Server, r: HttpRequest)
    requires Evaluated(s, r)
    ensures var loaded := LoaderStage(Context(s, r), r);
            && (loaded.Continue? <==> LoaderPasses(s, r))
            && (loaded.Continue? ==> loaded.value == LoaderData(s, r))
    ensures LoaderPasses(s, r) && Get(Context(s, r), "render").Callable? ==>
              RenderResult(s, r) == Get(Context(s, r), "render").call(RenderArgs(LoaderData(s, r)))
  {
  }

  /** The calls of a request whose script was evaluated are those of its
      hook stages. */
  lemma HandleCalls(s: Server, r: HttpRequest, hook: string)
    requires Evaluated(s, r)
    ensures CallArgs(Handle(s, r).trace, hook) == CallArgs(Hooks(s, Context(s, r), r).trace, hook)
  {
    StartedTrace(s, r);
    NoCallsWithoutCallEvents(Started(s, r), hook);
    CallArgsAppend(Started(s, r), Hooks(s, Context(s, r), r).trace, hook);
  }

  /** The loader stage only looks the loader up, reads the body and calls
      the loader, in that order, and looks the loader up first. */
  lemma LoaderStageEvents(g: map<string, Binding>, r: HttpRequest)
    ensures var e := LoaderStage(g, r).events;
            && |e| >= 1 && e[0] == Lookup("loader")
            && (|e| >= 2 <==> !Get(g, "loader").Absent?)
            && (|e| >= 2 ==> e[1] == ReadBody)
            && forall ev :: ev in e ==> ev == Lookup("loader") || ev == ReadBody || (ev.Call? && ev.hook == "loader")
  {
  }

  /** The render stage only looks render up and calls it, in that order. */
  lemma RenderStageEvents(g: map<string, Binding>, data: Option<Value>)
    ensures var e := RenderStage(g, data).events;
            && |e| >= 1 && e[0] == Lookup("render")
            && forall ev :: ev in e ==> ev == Lookup("render") || (ev.Call? && ev.hook == "render")
  {
  }

  /** The calls of the loader stage: one call to the loader when it is a
      function, with the request record; never a call to anything else. */
  lemma LoaderStageCalls(g: map<string, Binding>, r: HttpRequest, hook: string)
    ensures CallArgs(LoaderStage(g, r).events, hook)
            == if hook == "loader" && Get(g, "loader").Callable? then [[RequestValue(Snapshot(r))]] else []
  {
    var e := LoaderStage(g, r).events;
    if Get(g, "loader").Callable? {
      assert CallArgs(e[2..], hook) == CallArgs(e, hook);
    } else {
      NoCallsWithoutCallEvents(e, hook);
    }
  }

  /** The calls of the render stage: one call to render when it is a
      function, with the arguments the data gives; nothing else. */
  lemma RenderStageCalls(g: map<string, Binding>, data: Option<Value>, hook: string)
    ensures CallArgs(RenderStage(g, data).events, hook)
            == if hook == "render" && Get(g, "render").Callable? then [RenderArgs(data)] else []
  {
    var e := RenderStage(g, data).events;
    if Get(g, "render").Callable? {
      assert CallArgs(e[1..], hook) == CallArgs(e, hook);
    } else {
      NoCallsWithoutCallEvents(e, hook);
    }
  }

  /** The calls of the hook stages are those of the loader stage followed,
      if it passed, by those of the render stage. */
  lemma HooksCalls(s: Server, g: map<string, Binding>, r: HttpRequest, hook: string)
    ensures var loaded := LoaderStage(g, r);
            CallArgs(Hooks(s, g, r).trace, hook)
              == CallArgs(loaded.events, hook)
                 + if loaded.Continue? then CallArgs(RenderStage(g, loaded.value).events, hook) else []
  {
    var loaded := LoaderStage(g, r);
    if loaded.Continue? {
      var rendered := RenderStage(g, loaded.value);
      if rendered.Continue? {
        var last := [Execute(rendered.value)];
        assert Hooks(s, g, r).trace == (loaded.events + rendered.events) + last;
        CallArgsAppend(loaded.events + rendered.events, last, hook);
        CallArgsAppend(loaded.events, rendered.events, hook);
        NoCallsWithoutCallEvents(last, hook);
      } else {
        CallArgsAppend(loaded.events, rendered.events, hook);
      }
    }
  }

  /** The hook stages with an absent loader: the loader is not called and
      the body not read; render is looked up and called, if it is a
      function, with nothing. */
  lemma HooksWithoutLoader(s: Server, g: map<string, Binding>, r: HttpRequest)
    requires Get(g, "loader").Absent?
    ensures var h := Hooks(s, g, r).trace;
            && CallArgs(h, "loader") == []
            && ReadBody !in h
            && Lookup("render") in h
            && CallArgs(h, "render") == if Get(g, "render").Callable? then [[]] else []
  {
    var h := Hooks(s, g, r).trace;
    assert LoaderStage(g, r) == Continue(None, [Lookup("loader")]);
    assert CallArgs(h, "loader") == [] by {
      HooksCalls(s, g, r, "loader");
      LoaderStageCalls(g, r, "loader");
      RenderStageCalls(g, None, "loader");
    }
    assert CallArgs(h, "render") == if Get(g, "render").Callable? then [[]] else [] by {
      HooksCalls(s, g, r, "render");
      LoaderStageCalls(g, r, "render");
      RenderStageCalls(g, None, "render");
    }
    assert ReadBody !in h && Lookup("render") in h by {
      HooksAfterLoader(s, g, r);
      RenderStageEvents(g, None);
      var rendered := RenderStage(g, None);
      var rest := if rendered.Continue? then [Execute(rendered.value)] else [];
      assert h == [Lookup("loader")] + rendered.events + rest;
      assert ReadBody !in rendered.events;
      assert ReadBody !in rest;
      assert h[1] == Lookup("render");
    }
  }

  /** The hook stages with a loader that is a function: it is called once,
      with the request record, after the body was read. */
  lemma HooksWithLoader(s: Server, g: map<string, Binding>, r: HttpRequest)
    requires Get(g, "loader").Callable?
    ensures var h := Hooks(s, g, r).trace;
            && CallArgs(h, "loader") == [[RequestValue(Snapshot(r))]]
            && ReadBody in h
  {
    var loaded := LoaderStage(g, r);
    HooksCalls(s, g, r, "loader");
    LoaderStageCalls(g, r, "loader");
    if loaded.Continue? {
      RenderStageCalls(g, loaded.value, "loader");
      HooksAfterLoader(s, g, r);
    }
    assert Hooks(s, g, r).trace[1] == ReadBody;
  }

  /** The hook stages once the loader has passed: the loader's events, then
      render's, then, if render returned, the template's execution. */
  lemma HooksAfterLoader(s: Server, g: map<string, Binding>, r: HttpRequest)
    requires LoaderStage(g, r).Continue?
    ensures var loaded := LoaderStage(g, r);
            var rendered := RenderStage(g, loaded.value);
            && Hooks(s, g, r).trace
               == loaded.events + rendered.events + (if rendered.Continue? then [Execute(rendered.value)] else [])
            && Hooks(s, g, r).response
               == if rendered.Continue? then Compose(s.template(rendered.value)) else rendered.response
  {
  }

  /** The hook stages when render is missing or not a function: they stop
      right after looking render up, without calling it. */
  lemma HooksWithoutRender(s: Server, g: map<string, Binding>, r: HttpRequest)
    requires LoaderStage(g, r).Continue? && !Get(g, "render").Callable?
    ensures var h := Hooks(s, g, r);
            && h.response == ServerError(if Get(g, "render").Absent? then RenderNotFound else RenderNotFunction)
            && |h.trace| > 0 && h.trace[|h.trace| - 1] == Lookup("render")
            && CallArgs(h.trace, "render") == []
  {
    var loaded := LoaderStage(g, r);
    HooksAfterLoader(s, g, r);
    HooksCalls(s, g, r, "render");
    LoaderStageCalls(g, r, "render");
    RenderStageCalls(g, loaded.value, "render");
    assert Hooks(s, g, r).trace == loaded.events + [Lookup("render")];
  }

  /** The hook stages when render is a function: it is called once, with
      the loader's data if there is any. */
  lemma HooksCallRender(s: Server, g: map<string, Binding>, r: HttpRequest)
    requires LoaderStage(g, r).Continue? && Get(g, "render").Callable?
    ensures CallArgs(Hooks(s, g, r).trace, "render") == [RenderArgs(LoaderStage(g, r).value)]
  {
    HooksCalls(s, g, r, "render");
    LoaderStageCalls(g, r, "render");
    RenderStageCalls(g, LoaderStage(g, r).value, "render");
  }

  /** The hook stages when render throws: a 500 naming the error, and the
      template is not executed. */
  lemma HooksRenderError(s: Server, g: map<string, Binding>, r: HttpRequest)
    requires LoaderStage(g, r).Continue? && Get(g, "render").Callable?
    requires Get(g, "render").call(RenderArgs(LoaderStage(g, r).value)).Raised?
    ensures var h := Hooks(s, g, r);
            && h.response == ServerError(RenderErrorPrefix + Get(g, "render").call(RenderArgs(LoaderStage(g, r).value)).message)
            && forall e :: e in h.trace ==> !e.Execute?
  {
    var loaded := LoaderStage(g, r);
    HooksAfterLoader(s, g, r);
    LoaderStageEvents(g, r);
    RenderStageEvents(g, loaded.value);
    var rendered := RenderStage(g, loaded.value);
    assert forall e :: e in loaded.events + rendered.events ==> e in loaded.events || e in rendered.events;
  }

  /** The hook stages when render returns: the template is executed last,
      on the text form of render's result, and decides the response. */
  lemma HooksComposeFragment(s: Server, g: map<string, Binding>, r: HttpRequest)
    requires LoaderStage(g, r).Continue? && Get(g, "render").Callable?
    requires Get(g, "render").call(RenderArgs(LoaderStage(g, r).value)).Returned?
    ensures var fragment := StringForm(Get(g, "render").call(RenderArgs(LoaderStage(g, r).value)).value);
            var h := Hooks(s, g, r);
            && |h.trace| > 0 && h.trace[|h.trace| - 1] == Execute(fragment)
            && h.response == Compose(s.template(fragment))
  {
    HooksAfterLoader(s, g, r);
  }

  /** The response is 404 exactly when the script file does not exist, and
      then nothing but the existence check happened. */
  lemma NotFoundIffMissing(s: Server, r: HttpRequest)
    ensures var file := Resolver.ScriptName(r.urlPath);
            && (Handle(s, r).response == NotFound <==> file !in s.files)
            && (file !in s.files ==> Handle(s, r).trace == [Stat(file)])
  {
  }

  /** A script that exists but cannot be read stops the request with a 500
      before anything is evaluated. */
  lemma UnreadableScriptFails(s: Server, r: HttpRequest)
    requires var file := Resolver.ScriptName(r.urlPath); file in s.files && s.files[file].Unreadable?
    ensures var file := Resolver.ScriptName(r.urlPath);
            Handle(s, r) == Exchange(ServerError(ReadFailure), [Stat(file), ReadFile(file)])
  {
  }

  /** A script whose evaluation fails stops the request with a 500 naming
      the script error; no global is looked up and no hook is called. */
  lemma ScriptErrorStopsBeforeHooks(s: Server, r: HttpRequest)
    requires var file := Resolver.ScriptName(r.urlPath);
             file in s.files && s.files[file].Source? && s.evaluate(s.files[file].text).Failed?
    ensures var file := Resolver.ScriptName(r.urlPath);
            var text := s.files[file].text;
            Handle(s, r) == Exchange(ServerError(ScriptErrorPrefix + s.evaluate(text).message),
                                     [Stat(file), ReadFile(file), Evaluate(text)])
  {
  }

  /** An absent loader is never called and the body is not read; render is
      still looked up, and if it is called, it is called with no
      argument. */
  lemma AbsentLoaderIsSkipped(s: Server, r: HttpRequest)
    requires Evaluated(s, r) && Get(Context(s, r), "loader").Absent?
    ensures var x := Handle(s, r);
            && CallArgs(x.trace, "loader") == []
            && ReadBody !in x.trace
            && Lookup("render") in x.trace
            && CallArgs(x.trace, "render") == if Get(Context(s, r), "render").Callable? then [[]] else []
  {
    var g := Context(s, r);
    var t := Handle(s, r).trace;
    assert CallArgs(t, "loader") == [] by {
      HandleCalls(s, r, "loader");
      HooksWithoutLoader(s, g, r);
    }
    assert ReadBody !in t && Lookup("render") in t by {
      HooksWithoutLoader(s, g, r);
      StartedTrace(s, r);
    }
    assert CallArgs(t, "render") == if Get(g, "render").Callable? then [[]] else [] by {
      HandleCalls(s, r, "render");
      HooksWithoutLoader(s, g, r);
    }
  }

  /** A loader bound to something that is not a function stops the request
      with exactly "loader is not a function"; the body was read, render is
      never looked up and no hook is called. */
  lemma NonCallableLoaderStops(s: Server, r: HttpRequest)
    requires Evaluated(s, r) && Get(Context(s, r), "loader").NotCallable?
    ensures var x := Handle(s, r);
            && x.response == ServerError(LoaderNotFunction)
            && ReadBody in x.trace
            && Lookup("render") !in x.trace
            && CallArgs(x.trace, "loader") == [] && CallArgs(x.trace, "render") == []
  {
    var hooks := [Lookup("loader"), ReadBody];
    assert Hooks(s, Context(s, r), r) == Exchange(ServerError(LoaderNotFunction), hooks);
    StartedTrace(s, r);
    HandleCalls(s, r, "loader");
    HandleCalls(s, r, "render");
    NoCallsWithoutCallEvents(hooks, "loader");
    NoCallsWithoutCallEvents(hooks, "render");
  }

  /** A loader that is a function is called exactly once, with the request
      record: the method, the original URL path (the root stays "/"), the
      headers and the body; the body is read first. */
  lemma LoaderCalledOnceWithSnapshot(s: Server, r: HttpRequest)
    requires Evaluated(s, r) && Get(Context(s, r), "loader").Callable?
    ensures var x := Handle(s, r);
            && CallArgs(x.trace, "loader") == [[RequestValue(Request(r.verb, r.urlPath, r.header, r.body))]]
            && ReadBody in x.trace
  {
    StartedTrace(s, r);
    HandleCalls(s, r, "loader");
    HooksWithLoader(s, Context(s, r), r);
  }

  /** A loader error stops the request with a 500 naming it; render is
      never looked up nor called. */
  lemma LoaderErrorIsTerminal(s: Server, r: HttpRequest)
    requires Evaluated(s, r) && Get(Context(s, r), "loader").Callable?
    requires Get(Context(s, r), "loader").call([RequestValue(Snapshot(r))]).Raised?
    ensures var x := Handle(s, r);
            && x.response
               == ServerError(LoaderErrorPrefix + Get(Context(s, r), "loader").call([RequestValue(Snapshot(r))]).message)
            && Lookup("render") !in x.trace
            && CallArgs(x.trace, "render") == []
  {
    var g := Context(s, r);
    var args := [RequestValue(Snapshot(r))];
    var result := Get(g, "loader").call(args);
    var hooks := [Lookup("loader"), ReadBody, Call("loader", args, result)];
    assert Hooks(s, g, r) == Exchange(ServerError(LoaderErrorPrefix + result.message), hooks);
    StartedTrace(s, r);
    HandleCalls(s, r, "render");
    LoaderStageCalls(g, r, "render");
  }

  /** Once the loader stage has passed, render is looked up: if it is absent
      the request stops with "render function not found", if it is not a
      function with "render is not a function"; the request stops right
      after the lookup, render is not called. */
  lemma RenderLookupFailures(s: Server, r: HttpRequest)
    requires Evaluated(s, r) && LoaderPasses(s, r) && !Get(Context(s, r), "render").Callable?
    ensures var x := Handle(s, r);
            && x.response
               == ServerError(if Get(Context(s, r), "render").Absent? then RenderNotFound else RenderNotFunction)
            && |x.trace| > 0 && x.trace[|x.trace| - 1] == Lookup("render")
            && CallArgs(x.trace, "render") == []
  {
    LoaderStageOutcome(s, r);
    StartedTrace(s, r);
    HandleCalls(s, r, "render");
    HooksWithoutRender(s, Context(s, r), r);
  }

  /** When render is a function and the loader passed, render is called
      exactly once; it gets one argument exactly when the loader produced
      data (a result other than undefined or null), and that argument is
      the data. */
  lemma RenderArity(s: Server, r: HttpRequest)
    requires Evaluated(s, r) && LoaderPasses(s, r) && Get(Context(s, r), "render").Callable?
    ensures var calls := CallArgs(Handle(s, r).trace, "render");
            && |calls| == 1
            && (|calls[0]| == 1 <==> LoaderData(s, r).Some?)
            && (LoaderData(s, r).None? <==> calls[0] == [])
            && (LoaderData(s, r).Some? ==> calls[0] == [LoaderData(s, r).value])
  {
    LoaderStageOutcome(s, r);
    HandleCalls(s, r, "render");
    HooksCallRender(s, Context(s, r), r);
  }

  /** A loader that returns undefined or null leaves no data: render, if it
      is a function, is called with no argument although the loader ran. */
  lemma NullishLoaderResultGivesNoArgument(s: Server, r: HttpRequest)
    requires Evaluated(s, r) && Get(Context(s, r), "loader").Callable?
    requires var result := Get(Context(s, r), "loader").call([RequestValue(Snapshot(r))]);
             result.Returned? && IsNullish(result.value)
    requires Get(Context(s, r), "render").Callable?
    ensures CallArgs(Handle(s, r).trace, "loader") != []
    ensures CallArgs(Handle(s, r).trace, "render") == [[]]
  {
    LoaderCalledOnceWithSnapshot(s, r);
    RenderArity(s, r);
  }

  /** A render error stops the request with a 500 naming it; the template is
      never executed. */
  lemma RenderErrorIsTerminal(s: Server, r: HttpRequest)
    requires Evaluated(s, r) && LoaderPasses(s, r) && Get(Context(s, r), "render").Callable?
    requires RenderResult(s, r).Raised?
    ensures var x := Handle(s, r);
            && x.response == ServerError(RenderErrorPrefix + RenderResult(s, r).message)
            && forall e :: e in x.trace ==> !e.Execute?
  {
    LoaderStageOutcome(s, r);
    StartedTrace(s, r);
    HooksRenderError(s, Context(s, r), r);
  }

  /** When render returns, the template is executed on the text form of its
      result, last; the response is that document with status 200, or a 500
      naming the template error. */
  lemma SuccessComposesFragment(s: Server, r: HttpRequest)
    requires Evaluated(s, r) && LoaderPasses(s, r) && Get(Context(s, r), "render").Callable?
    requires RenderResult(s, r).Returned?
    ensures var x := Handle(s, r);
            var fragment := StringForm(RenderResult(s, r).value);
            && |x.trace| > 0 && x.trace[|x.trace| - 1] == Execute(fragment)
            && (x.response.Html? <==> s.template(fragment).Wrote?)
            && (s.template(fragment).Wrote? ==> x.response.document == s.template(fragment).document)
            && (s.template(fragment).Aborted? ==>
                  x.response == ServerError(TemplateErrorPrefix + s.template(fragment).message))
  {
    LoaderStageOutcome(s, r);
    StartedTrace(s, r);
    HooksComposeFragment(s, Context(s, r), r);
  }

  /** With a template that places its content between a fixed head and
      tail, unescaped, the response is exactly the head, render's text and
      the tail. */
  lemma FragmentEmbeddedVerbatim(s: Server, r: HttpRequest, head: string, tail: string)
    requires Evaluated(s, r) && LoaderPasses(s, r) && Get(Context(s, r), "render").Callable?
    requires RenderResult(s, r).Returned?
    requires forall content :: s.template(content) == Wrote(head + content + tail)
    ensures Handle(s, r).response == Html(head + StringForm(RenderResult(s, r).value) + tail)
  {
    SuccessComposesFragment(s, r);
  }

  /** Data flows from the loader to render unchanged: with a loader that
      returns a value other than undefined or null and a render that returns
      its one argument, the template receives the text form of the loader's
      value. */
  lemma LoaderDataReachesRender(s: Server, r: HttpRequest, v: Value)
    requires Evaluated(s, r) && Get(Context(s, r), "loader").Callable?
    requires Get(Context(s, r), "loader").call([RequestValue(Snapshot(r))]) == Returned(v)
    requires !IsNullish(v)
    requires Get(Context(s, r), "render").Callable?
    requires forall x :: Get(Context(s, r), "render").call([x]) == Returned(x)
    ensures var t := Handle(s, r).trace;
            |t| > 0 && t[|t| - 1] == Execute(StringForm(v))
  {
    assert LoaderData(s, r) == Some(v);
    assert RenderResult(s, r) == Returned(v);
    SuccessComposesFragment(s, r);
  }

  /** The messages of the 500 responses: one of four fixed messages, or one
      of four prefixes naming the failing stage followed by the underlying
      error. */
  predicate KnownFailure(m: string) {
    || m == ReadFailure || m == LoaderNotFunction || m == RenderNotFound || m == RenderNotFunction
    || (|m| >= |ScriptErrorPrefix| && m[..|ScriptErrorPrefix|] == ScriptErrorPrefix)
    || (|m| >= |LoaderErrorPrefix| && m[..|LoaderErrorPrefix|] == LoaderErrorPrefix)
    || (|m| >= |RenderErrorPrefix| && m[..|RenderErrorPrefix|] == RenderErrorPrefix)
    || (|m| >= |TemplateErrorPrefix| && m[..|TemplateErrorPrefix|] == TemplateErrorPrefix)
  }

  /** Every 500 names its stage. */
  lemma ErrorMessagesFollowTaxonomy(s: Server, r: HttpRequest)
    ensures Handle(s, r).response.ServerError? ==> KnownFailure(Handle(s, r).response.message)
  {
    var x := Handle(s, r);
    if x.response.ServerError? {
      var m := x.response.message;
      forall prefix: string, rest: string
        ensures |prefix + rest| >= |prefix| && (prefix + rest)[..|prefix|] == prefix
      {
        assert (prefix + rest)[..|prefix|] == prefix;
      }
    }
  }
}
