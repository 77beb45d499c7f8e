/** The per-request protocol as a state machine over trace events,
    independent of how the pipeline is written: the script is checked,
    read and evaluated, then the loader is looked up; a present loader makes
    the body be read and is called once with one argument; render is looked
    up only after the loader stage, and is called once, with the loader's
    exported data as its one argument if there is any and with none
    otherwise; the template is executed last, on render's text. */
module Protocol {
  import opened Js
  import opened Pipeline
  import opened PipelineProperties
  import Resolver

  datatype Phase =
    | Idle                                 // nothing done yet
    | Found(file: string)                  // the script's existence was checked
    | Sourced                              // its text was read
    | Live                                 // it was evaluated in a new context
    | LoaderSought                         // the loader binding was fetched
    | BodyConsumed                         // a loader is present: the body was read
    | LoaderDone(data: Option<Value>)      // the loader returned; its exported result
    | RenderSought(data: Option<Value>)    // render was fetched; the data it is owed
    | RenderDone(fragment: string)         // render returned; its text
    | Composed                             // the template was executed
    | Halted                               // a hook threw

  /** The phase an event leads to, if the protocol allows it there. */
  function Next(p: Phase, e: Event): Option<Phase> {
    match p
    case Idle => if e.Stat? then Some(Found(e.file)) else None
    case Found(f) => if e == ReadFile(f) then Some(Sourced) else None
    case Sourced => if e.Evaluate? then Some(Live) else None
    case Live => if e == Lookup("loader") then Some(LoaderSought) else None
    case LoaderSought =>
      if e == ReadBody then Some(BodyConsumed)
      else if e == Lookup("render") then Some(RenderSought(None))
      else None
    case BodyConsumed =>
      if e.Call? && e.hook == "loader" && |e.args| == 1 then
        match e.result
        case Returned(v) => Some(LoaderDone(Export(v)))
        case Raised(_) => Some(Halted)
      else None
    case LoaderDone(d) => if e == Lookup("render") then Some(RenderSought(d)) else None
    case RenderSought(d) =>
      if e.Call? && e.hook == "render" && e.args == (if d.Some? then [d.value] else []) then
        match e.result
        case Returned(v) => Some(RenderDone(StringForm(v)))
        case Raised(_) => Some(Halted)
      else None
    case RenderDone(f) => if e == Execute(f) then Some(Composed) else None
    case Composed => None
    case Halted => None
  }

  /** The phase a trace leads to from `p`, if the protocol allows every
      event of it. */
  function Run(p: Phase, t: seq<Event>): Option<Phase>
    decreases |t|
  {
    if t == [] then Some(p)
    else match Next(p, t[0])
      case None => None
      case Some(q) => Run(q, t[1..])
  }

  lemma {:induction false} RunAppend(p: Phase, a: seq<Event>, b: seq<Event>)
    ensures Run(p, a + b) == if Run(p, a).Some? then Run(Run(p, a).value, b) else None
    decreases |a|
  {
    if a == [] {
      assert a + b == b;
    } else {
      assert (a + b)[1..] == a[1..] + b;
      assert (a + b)[0] == a[0];
      if Next(p, a[0]).Some? {
        RunAppend(Next(p, a[0]).value, a[1..], b);
      }
    }
  }

  /** How far along the protocol a phase is. */
  function Rank(p: Phase): nat {
    match p
    case Idle => 0
    case Found(_) => 1
    case Sourced => 2
    case Live => 3
    case LoaderSought => 4
    case BodyConsumed => 5
    case LoaderDone(_) => 6
    case RenderSought(_) => 7
    case RenderDone(_) => 8
    case Composed => 9
    case Halted => 10
  }

  /** How many more calls to `hook` the protocol allows from `p`. */
  function Budget(p: Phase, hook: string): nat {
    if hook == "loader" then (if Rank(p) <= Rank(BodyConsumed) then 1 else 0)
    else if hook == "render" then (if Rank(p) <= Rank(RenderSought(None)) then 1 else 0)
    else 0
  }

  predicate IsCallTo(e: Event, hook: string) {
    e.Call? && e.hook == hook
  }

  /** Every step moves forward, and a call to a hook uses up that hook's
      budget. */
  lemma NextSpendsBudget(p: Phase, e: Event, hook: string)
    requires Next(p, e).Some?
    ensures Rank(Next(p, e).value) > Rank(p)
    ensures Budget(Next(p, e).value, hook) + (if IsCallTo(e, hook) then 1 else 0) <= Budget(p, hook)
  {
  }

  /** An allowed trace calls each hook no more often than the budget of the
      phase it starts from. */
  lemma {:induction false} CallsWithinBudget(p: Phase, t: seq<Event>, hook: string)
    requires Run(p, t).Some?
    ensures |CallArgs(t, hook)| <= Budget(p, hook)
    decreases |t|
  {
    if t != [] {
      var q := Next(p, t[0]).value;
      NextSpendsBudget(p, t[0], hook);
      CallsWithinBudget(q, t[1..], hook);
    }
  }

  /** An allowed trace calls the loader at most once and render at most
      once. */
  lemma HooksCalledAtMostOnce(t: seq<Event>)
    requires Run(Idle, t).Some?
    ensures |CallArgs(t, "loader")| <= 1 && |CallArgs(t, "render")| <= 1
  {
    CallsWithinBudget(Idle, t, "loader");
    CallsWithinBudget(Idle, t, "render");
  }

  /** After a call to render the protocol allows no call to the loader. */
  lemma RenderCallEndsLoaderBudget(p: Phase, e: Event)
    requires IsCallTo(e, "render") && Next(p, e).Some?
    ensures Budget(Next(p, e).value, "loader") == 0
  {
    assert p.RenderSought?;
  }

  /** An allowed trace, cut anywhere: the part before the cut is allowed,
      and the rest is allowed from where it leads. */
  lemma RunSplit(p: Phase, t: seq<Event>, j: nat)
    requires Run(p, t).Some? && j <= |t|
    ensures Run(p, t[..j]).Some? && Run(Run(p, t[..j]).value, t[j..]) == Run(p, t)
  {
    assert t == t[..j] + t[j..];
    RunAppend(p, t[..j], t[j..]);
  }

  /** In an allowed trace the loader is never called at or after a call to
      render: the loader, if called, comes first. */
  lemma LoaderCallPrecedesRender(t: seq<Event>, j: nat)
    requires Run(Idle, t).Some?
    requires j < |t| && IsCallTo(t[j], "render")
    ensures CallArgs(t[j..], "loader") == []
  {
    RunSplit(Idle, t, j);
    var p := Run(Idle, t[..j]).value;
    var rest := t[j + 1..];
    assert Next(p, t[j]).Some? && Run(Next(p, t[j]).value, rest).Some? by {
      assert t[j..] == [t[j]] + rest;
      RunCons(p, t[j], rest);
    }
    assert CallArgs(rest, "loader") == [] by {
      RenderCallEndsLoaderBudget(p, t[j]);
      CallsWithinBudget(Next(p, t[j]).value, rest, "loader");
    }
    assert t[j..][1..] == rest;
  }

  /** The events before the hooks are allowed, from the start to a live
      context. */
  lemma StartedRun(s: Server, r: HttpRequest)
    requires Evaluated(s, r)
    ensures Run(Idle, Started(s, r)) == Some(Live)
  {
    var e := Started(s, r);
    assert e == [e[0]] + ([e[1]] + [e[2]]);
    RunCons(Idle, e[0], [e[1]] + [e[2]]);
    RunCons(Found(e[0].file), e[1], [e[2]]);
    RunOne(Sourced, e[2]);
  }

  /** Running a trace of one event is taking that event. */
  lemma RunOne(p: Phase, e: Event)
    ensures Run(p, [e]) == Next(p, e)
  {
    if Next(p, e).Some? {
      assert [e][1..] == [];
    }
  }

  /** Running a trace is taking its first event, then running the rest. */
  lemma RunCons(p: Phase, e: Event, t: seq<Event>)
    ensures Run(p, [e] + t) == if Next(p, e).Some? then Run(Next(p, e).value, t) else None
  {
    assert ([e] + t)[0] == e;
    assert ([e] + t)[1..] == t;
  }

  /** The loader stage is allowed from a live context; when it passes, the
      protocol lets render be looked up, owing it the loader's data. */
  lemma LoaderStageRun(g: map<string, Binding>, r: HttpRequest)
    ensures var loaded := LoaderStage(g, r);
            && Run(Live, loaded.events).Some?
            && (loaded.Continue? ==>
                  Next(Run(Live, loaded.events).value, Lookup("render")) == Some(RenderSought(loaded.value)))
  {
    var loaded := LoaderStage(g, r);
    match Get(g, "loader")
    case Absent =>
      RunOne(Live, Lookup("loader"));
    case NotCallable(_) =>
      RunCons(Live, Lookup("loader"), [ReadBody]);
      RunOne(LoaderSought, ReadBody);
    case Callable(loader) =>
      var args := [RequestValue(Snapshot(r))];
      var call := Call("loader", args, loader(args));
      assert loaded.events == [Lookup("loader")] + ([ReadBody] + [call]);
      RunCons(Live, Lookup("loader"), [ReadBody] + [call]);
      RunCons(LoaderSought, ReadBody, [call]);
      RunOne(BodyConsumed, call);
  }

  /** The render stage is allowed once render may be looked up; when it
      passes, the template may be executed on its text. */
  lemma RenderStageRun(g: map<string, Binding>, data: Option<Value>, p: Phase)
    requires Next(p, Lookup("render")) == Some(RenderSought(data))
    ensures var rendered := RenderStage(g, data);
            && Run(p, rendered.events).Some?
            && (rendered.Continue? ==> Run(p, rendered.events) == Some(RenderDone(rendered.value)))
  {
    match Get(g, "render")
    case Absent =>
      RunOne(p, Lookup("render"));
    case NotCallable(_) =>
      RunOne(p, Lookup("render"));
    case Callable(render) =>
      var args := RenderArgs(data);
      var call := Call("render", args, render(args));
      RunCons(p, Lookup("render"), [call]);
      RunOne(RenderSought(data), call);
  }

  /** A run never moves back. */
  lemma {:induction false} RunMovesForward(p: Phase, t: seq<Event>)
    requires Run(p, t).Some?
    ensures Rank(Run(p, t).value) >= Rank(p)
    decreases |t|
  {
    if t != [] {
      NextSpendsBudget(p, t[0], "");
      RunMovesForward(Next(p, t[0]).value, t[1..]);
    }
  }

  /** The hook stages are allowed from a live context, and reach the
      template when they answer with a document. */
  lemma HooksRun(s: Server, g: map<string, Binding>, r: HttpRequest)
    ensures var end := Run(Live, Hooks(s, g, r).trace);
            && end.Some?
            && Rank(end.value) >= Rank(Live)
            && (Hooks(s, g, r).response.Html? ==> end.value == Composed)
  {
    LoaderStageRun(g, r);
    var loaded := LoaderStage(g, r);
    var afterLoader := Run(Live, loaded.events).value;
    if loaded.Continue? {
      RenderStageRun(g, loaded.value, afterLoader);
      var rendered := RenderStage(g, loaded.value);
      RunAppend(Live, loaded.events, rendered.events);
      if rendered.Continue? {
        var last := [Execute(rendered.value)];
        assert Hooks(s, g, r).trace == (loaded.events + rendered.events) + last;
        RunAppend(Live, loaded.events + rendered.events, last);
        RunOne(RenderDone(rendered.value), Execute(rendered.value));
      } else {
        assert Hooks(s, g, r).trace == loaded.events + rendered.events;
      }
    } else {
      assert Hooks(s, g, r).trace == loaded.events;
    }
    RunMovesForward(Live, Hooks(s, g, r).trace);
  }

  /** Every request follows the protocol; it answers 404 exactly when it
      stopped after the existence check, and answers with a document only
      when it went through to the template. */
  lemma HandleFollowsProtocol(s: Server, r: HttpRequest)
    ensures var x := Handle(s, r);
            var end := Run(Idle, x.trace);
            && end.Some?
            && (x.response.NotFound? <==> end.value.Found?)
            && (x.response.Html? ==> end.value == Composed)
  {
    var x := Handle(s, r);
    var file := Resolver.ScriptName(r.urlPath);
    if Evaluated(s, r) {
      var g := Context(s, r);
      StartedTrace(s, r);
      StartedRun(s, r);
      RunAppend(Idle, Started(s, r), Hooks(s, g, r).trace);
      HooksRun(s, g, r);
    } else if file !in s.files {
      RunOne(Idle, Stat(file));
    } else if s.files[file].Unreadable? {
      RunCons(Idle, Stat(file), [ReadFile(file)]);
      RunOne(Found(file), ReadFile(file));
    } else {
      var text := s.files[file].text;
      assert x.trace == [Stat(file)] + ([ReadFile(file)] + [Evaluate(text)]);
      RunCons(Idle, Stat(file), [ReadFile(file)] + [Evaluate(text)]);
      RunCons(Found(file), ReadFile(file), [Evaluate(text)]);
      RunOne(Sourced, Evaluate(text));
    }
  }

  /** Every request calls the loader at most once and render at most once,
      and never calls the loader at or after a call to render. */
  lemma HandleCallsHooksInOrder(s: Server, r: HttpRequest)
    ensures var t := Handle(s, r).trace;
            && |CallArgs(t, "loader")| <= 1
            && |CallArgs(t, "render")| <= 1
            && forall j :: 0 <= j < |t| && IsCallTo(t[j], "render") ==> CallArgs(t[j..], "loader") == []
  {
    var t := Handle(s, r).trace;
    HandleFollowsProtocol(s, r);
    HooksCalledAtMostOnce(t);
    forall j | 0 <= j < |t| && IsCallTo(t[j], "render")
      ensures CallArgs(t[j..], "loader") == []
    {
      LoaderCallPrecedesRender(t, j);
    }
  }
}
