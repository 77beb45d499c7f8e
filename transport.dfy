/** What reaches the client: status code, content type and body. A response
    of the pipeline is sent whole; the page template, as the server runs it,
    is executed straight into the connection, so a template that fails
    after its first write call, even one that wrote no bytes, has already
    committed a success status and the error text is appended to what was
    written. */
module Transport {
  import opened Js
  import opened Pipeline
  import opened PipelineProperties
  import Resolver

  /** A response as sent. */
  datatype Wire = Wire(status: int, contentType: string, body: string)

  const StatusOK := 200
  const StatusNotFound := 404
  const StatusInternalServerError := 500
  const HtmlType := "text/html"
  const PlainText := "text/plain; charset=utf-8"
  const NotFoundText := "404 page not found"

  /** An error response sent before anything else was written: the status,
      plain text, and the message on a line of its own. */
  function ErrorWire(status: int, message: string): (w: Wire)
    ensures w.status == status && w.contentType == PlainText
    ensures |w.body| == |message| + 1 && w.body[..|message|] == message
    ensures w.body[|message|] == '\n'
  {
    Wire(status, PlainText, message + "\n")
  }

  /** Sending a whole response. */
  function Send(resp: Response): (w: Wire)
    ensures w.status == StatusOK <==> resp.Html?
    ensures w.status == StatusNotFound <==> resp.NotFound?
    ensures w.status == StatusInternalServerError <==> resp.ServerError?
    ensures resp.Html? ==> w.contentType == HtmlType && w.body == resp.document
    ensures !resp.Html? ==> w.contentType == PlainText
  {
    match resp
    case NotFound => ErrorWire(StatusNotFound, NotFoundText)
    case ServerError(m) => ErrorWire(StatusInternalServerError, m)
    case Html(doc) => Wire(StatusOK, HtmlType, doc)
  }

  /** How a client reads a sent response back: 404 is "not found", 500 an
      error whose message is the body's first line, anything else a page. */
  function Receive(w: Wire): Response {
    if w.status == StatusNotFound then NotFound
    else if w.status == StatusInternalServerError then
      ServerError(if |w.body| > 0 && w.body[|w.body| - 1] == '\n' then w.body[..|w.body| - 1] else w.body)
    else Html(w.body)
  }

  /** Sending loses nothing: the client reads back the response sent. */
  lemma ReceiveSend(resp: Response)
    ensures Receive(Send(resp)) == resp
  {
    if resp.ServerError? {
      var w := Send(resp);
      assert w.body == resp.message + "\n";
      assert w.body[..|w.body| - 1] == resp.message;
    }
  }

  /** The template stage as the server runs it: the document is executed
      straight into the connection. The first write call commits the success
      status and content type, even when it writes no bytes. When execution
      fails before any write call the error goes out as a 500; when it fails
      after one, the error text is appended to what was written. */
  function StreamTemplate(run: TemplateRun): Wire {
    match run
    case Wrote(doc) => Wire(StatusOK, HtmlType, doc)
    case Aborted(writes, m) =>
      if writes == [] then ErrorWire(StatusInternalServerError, TemplateErrorPrefix + m)
      else Wire(StatusOK, HtmlType, Concat(writes) + TemplateErrorPrefix + m + "\n")
  }

  /** The whole request as the server answers it: every stage but the
      template sends its response whole; the template stage streams. */
  function ServeAsWritten(s: Server, r: HttpRequest): Wire {
    if !Evaluated(s, r) then Send(Handle(s, r).response)
    else
      var g := Context(s, r);
      match LoaderStage(g, r)
      case Stop(resp, _) => Send(resp)
      case Continue(data, _) =>
        match RenderStage(g, data)
        case Stop(resp, _) => Send(resp)
        case Continue(fragment, _) => StreamTemplate(s.template(fragment))
  }

  /** The request as it is answered with the template buffered: the
      pipeline's response, sent whole. */
  function Serve(s: Server, r: HttpRequest): Wire {
    Send(Handle(s, r).response)
  }

  /** A template that fails after a write call is reported as a success:
      the client gets status 200 and reads a page. */
  lemma StreamingReportsFailureAsSuccess(run: TemplateRun)
    requires run.Aborted? && run.writes != []
    ensures StreamTemplate(run).status == StatusOK
    ensures Receive(StreamTemplate(run)).Html?
    ensures Receive(StreamTemplate(run)) != Compose(run)
  {
  }

  /** The reason text/template gives when the page names a field the
      template data lacks, here `{{.Title}}` (its "template: … executing …
      at <.Title>: " location prefix is left out). */
  const TitleError := "can't evaluate field Title in type struct { Content template.HTML }"

  /** A server whose only script is `index.js`, defining a render hook that
      returns `text`, and whose page template runs as `run`. */
  function IndexServer(text: string, run: TemplateRun): Server {
    var hooks := map["render" := Callable(_ => Returned(Str(text)))];
    Server(map["index.js" := Source("")], _ => Ran(hooks), _ => run)
  }

  /** A request for the root path. */
  const RootRequest := HttpRequest("GET", "/", map[], "")

  /** The root request on such a server reaches the template: the server as
      written streams the template run, the buffered pipeline sends it
      composed. */
  lemma IndexServerReachesTemplate(text: string, run: TemplateRun)
    ensures ServeAsWritten(IndexServer(text, run), RootRequest) == StreamTemplate(run)
    ensures Serve(IndexServer(text, run), RootRequest) == Send(Compose(run))
  {
    var s := IndexServer(text, run);
    Resolver.ScriptNameHasExtension("/");
    assert Evaluated(s, RootRequest);
    var g := Context(s, RootRequest);
    assert LoaderStage(g, RootRequest) == Continue(None, [Lookup("loader")]);
    assert RenderStage(g, None).Continue? && RenderStage(g, None).value == text;
  }

  /** A concrete request: the index script renders "hi", and the page
      template `<html>{{.Title}}` fails after writing its opening tag. The
      server as written answers 200 with the partial page and the error
      text; the buffered pipeline answers 500. */
  lemma PartialPageCounterexample()
    ensures ServeAsWritten(IndexServer("hi", Aborted(["<html>"], TitleError)), RootRequest)
              == Wire(StatusOK, HtmlType, "<html>" + TemplateErrorPrefix + TitleError + "\n")
    ensures Serve(IndexServer("hi", Aborted(["<html>"], TitleError)), RootRequest)
              == ErrorWire(StatusInternalServerError, TemplateErrorPrefix + TitleError)
  {
    IndexServerReachesTemplate("hi", Aborted(["<html>"], TitleError));
    assert Concat(["<html>"]) == "<html>" by {
      assert ["<html>"][1..] == [];
    }
  }

  /** The boundary is the first write call, not the first byte: a page
      template such as `{{.Content}}{{.Title}}` writes render's text in one
      call and then fails with some message `m`. The as-written server
      answers 200 with that text and the error text, even when render
      returned the empty text and the call wrote no bytes; the buffered
      pipeline answers 500 with the error alone. */
  lemma FailureAfterOneWrite(text: string, m: string)
    ensures ServeAsWritten(IndexServer(text, Aborted([text], m)), RootRequest)
              == Wire(StatusOK, HtmlType, text + TemplateErrorPrefix + m + "\n")
    ensures Serve(IndexServer(text, Aborted([text], m)), RootRequest)
              == ErrorWire(StatusInternalServerError, TemplateErrorPrefix + m)
  {
    var run := Aborted([text], m);
    IndexServerReachesTemplate(text, run);
    assert Concat(run.writes) == text by {
      assert [text][1..] == [];
    }
  }

  /** With the template buffered, every template failure is a 500 whose body
      is the template error alone, and a completed template is the page. */
  lemma BufferedTemplateReportsFailure(run: TemplateRun)
    ensures Send(Compose(run)).status == StatusOK <==> run.Wrote?
    ensures run.Aborted? ==> Send(Compose(run)) == ErrorWire(StatusInternalServerError, TemplateErrorPrefix + run.message)
    ensures Receive(Send(Compose(run))) == Compose(run)
  {
    ReceiveSend(Compose(run));
  }

  /** Streaming and buffering agree unless the template fails after a write
      call. */
  lemma StreamingAgreesWithoutPartialPage(run: TemplateRun)
    requires run.Wrote? || run.writes == []
    ensures StreamTemplate(run) == Send(Compose(run))
  {
  }

  /** Over whole requests, the server as written and the buffered pipeline
      answer differently exactly when the request reached the template and
      the template failed after a write call. */
  lemma ServeAsWrittenDiffersOnlyOnPartialPage(s: Server, r: HttpRequest)
    ensures ServeAsWritten(s, r) != Serve(s, r) <==>
              var t := Handle(s, r).trace;
              && |t| > 0 && t[|t| - 1].Execute?
              && s.template(t[|t| - 1].content).Aborted?
              && s.template(t[|t| - 1].content).writes != []
  {
    if Evaluated(s, r) {
      var g := Context(s, r);
      var loaded := LoaderStage(g, r);
      if loaded.Continue? {
        var rendered := RenderStage(g, loaded.value);
        if rendered.Continue? {
          var run := s.template(rendered.value);
          if run.Wrote? || run.writes == [] {
            StreamingAgreesWithoutPartialPage(run);
          }
          var t := Handle(s, r).trace;
          assert t[|t| - 1] == Execute(rendered.value);
          if run.Aborted? && run.writes != [] {
            assert ServeAsWritten(s, r).status == StatusOK;
          }
        }
      }
    }
  }

  /** A request is answered 404 exactly when its script does not exist,
      whether or not the template is buffered; a 200 is always an HTML
      document. */
  lemma StatusOfRequest(s: Server, r: HttpRequest)
    ensures Serve(s, r).status == StatusNotFound <==> Resolver.ScriptName(r.urlPath) !in s.files
    ensures ServeAsWritten(s, r).status == StatusNotFound <==> Resolver.ScriptName(r.urlPath) !in s.files
    ensures Serve(s, r).status == StatusOK ==> Serve(s, r).contentType == HtmlType
    ensures ServeAsWritten(s, r).status == StatusOK ==> ServeAsWritten(s, r).contentType == HtmlType
  {
    NotFoundIffMissing(s, r);
    ServeAsWrittenDiffersOnlyOnPartialPage(s, r);
  }
}
