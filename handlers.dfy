/**
  The three HTTP handlers of the snippet web application: `home`, `showSnippet` and
  `createSnippet`. Each is a method that appends to a `Trace` what the Go handler does,
  step by step, and is proved equal to a function of its inputs (`HomeEvents`,
  `ShowEvents`, `CreateEvents`); the lemmas below state what those functions promise.
  The answers of the store and the template package are parameters.
*/
module Handlers {
  import opened Wrappers
  import opened Strconv
  import opened Models
  import opened Responses

  const MethodPost := "POST"
  const ShowPath := "/snippet"

  const HomeFiles: seq<string> :=
    ["./ui/html/home.page.gohtml", "./ui/html/base.layout.gohtml", "./ui/html/footer.partial.gohtml"]
  const ShowFiles: seq<string> :=
    ["./ui/html/show.page.gohtml", "./ui/html/base.layout.gohtml", "./ui/html/footer.partial.gohtml"]

  /** The fixed form values the create handler inserts. */
  const DummyTitle := "DataDavD Awesome Adventures in Life"
  const DummyContent := "DataDavD has had an awesome, super, crazy, cool life!!!"
  const DummyExpires := "7"

  /** The parts of an `*http.Request` the handlers read: the method (`verb`), the URL path and the decoded query string. */
  datatype Request = Request(verb: string, path: string, query: map<string, seq<string>>)

  /** `url.Values.Get`: the first value for `key`, or "" when there is none. */
  function QueryValue(query: map<string, seq<string>>, key: string): string
  {
    if key in query && query[key] != [] then query[key][0] else ""
  }

  /**
    The show handler's validation of the `id` value: it must read as an integer of at
    least 1. An accepted value is unsigned or '+'-signed decimal digits of that integer.
  */
  function ValidId(value: string): (r: Option<GoInt>)
    ensures r.Some? ==> r.value >= 1 && value != [] && value[0] != '-'
                        && AllDigits(Unsigned(value)) && DigitsValue(Unsigned(value)) == r.value
  {
    match Atoi(value)
    case Some(id) => if id < 1 then None else Some(id)
    case None => None
  }

  /** Where the create handler sends the client: the show page of the new snippet. */
  function ShowLocation(id: int): string
  {
    ShowPath + "?id=" + FormatInt(id)
  }

  /** The error `ts.Execute` returned: nil when it succeeded. */
  function ExecError(exec: ExecOutcome): Option<Error>
  {
    if exec.ExecFailed? then Some(exec.err) else None
  }

  /**
    The template steps of a handler that renders a page: parse `files`, and on failure
    report the parse error and stop; otherwise execute with `data` and, if that fails,
    report `reported`, the error value the handler passes to `serverError`.
  */
  function RenderEvents(files: seq<string>, data: TemplateData, parse: ParseOutcome, exec: ExecOutcome,
                        reported: Option<Error>): seq<Event>
  {
    [ParseTemplates(files)]
    + if parse.ParseFailed? then [ServerError(Some(parse.err))]
      else [ExecuteTemplate(data, exec.Wrote())] + if exec.ExecFailed? then [ServerError(reported)] else []
  }

  // ---------------------------------------------------------------------------
  // home

  /** What `home` does, as written: it goes on after reporting a `Latest` failure. */
  function HomeEvents(path: string, latest: Result<seq<Snippet>, Error>, parse: ParseOutcome,
                      exec: ExecOutcome): seq<Event>
  {
    if path != "/" then [NotFound]
    else
      var snippets := if latest.Ok? then latest.value else [];
      [CallLatest]
      + (if latest.Err? then [ServerError(Some(latest.error))] else [])
      + RenderEvents(HomeFiles, TemplateData(None, snippets), parse, exec, None)
  }

  method Home(w: Trace, r: Request, latest: Result<seq<Snippet>, Error>, parse: ParseOutcome,
              exec: ExecOutcome)
    modifies w
    ensures w.events == old(w.events) + HomeEvents(r.path, latest, parse, exec)
  {
    if r.path != "/" {
      w.Emit(NotFound);
      return;
    }
    w.Emit(CallLatest);
    var s: seq<Snippet> := if latest.Ok? then latest.value else [];
    var err: Option<Error> := if latest.Err? then Some(latest.error) else None;
    if err.Some? {
      w.Emit(ServerError(err));
    }
    var data := TemplateData(None, s);
    w.Emit(ParseTemplates(HomeFiles));
    err := if parse.ParseFailed? then Some(parse.err) else None;
    if err.Some? {
      w.Emit(ServerError(err));
      return;
    }
    w.Emit(ExecuteTemplate(data, exec.Wrote()));
    if exec.ExecFailed? {
      // the error reported is `err`, the (nil) error of parsing, not that of execution
      w.Emit(ServerError(err));
    }
  }

  /** What `home` evidently intends: stop after reporting a `Latest` failure, report the execution error. */
  function HomeIntendedEvents(path: string, latest: Result<seq<Snippet>, Error>, parse: ParseOutcome,
                              exec: ExecOutcome): seq<Event>
  {
    if path != "/" then [NotFound]
    else if latest.Err? then [CallLatest, ServerError(Some(latest.error))]
    else
      [CallLatest] + RenderEvents(HomeFiles, TemplateData(None, latest.value), parse, exec, ExecError(exec))
  }

  /** `home` with a `return` after reporting a `Latest` failure and `terr` reported on an execution failure. */
  method HomeIntended(w: Trace, r: Request, latest: Result<seq<Snippet>, Error>, parse: ParseOutcome,
                      exec: ExecOutcome)
    modifies w
    ensures w.events == old(w.events) + HomeIntendedEvents(r.path, latest, parse, exec)
  {
    if r.path != "/" {
      w.Emit(NotFound);
      return;
    }
    w.Emit(CallLatest);
    if latest.Err? {
      w.Emit(ServerError(Some(latest.error)));
      return;
    }
    var data := TemplateData(None, latest.value);
    w.Emit(ParseTemplates(HomeFiles));
    if parse.ParseFailed? {
      w.Emit(ServerError(Some(parse.err)));
      return;
    }
    w.Emit(ExecuteTemplate(data, exec.Wrote()));
    if exec.ExecFailed? {
      w.Emit(ServerError(Some(exec.err)));
    }
  }

  // ---------------------------------------------------------------------------
  // showSnippet

  /** What `showSnippet` does; `get` is the store's answer to `Get` for the requested id. */
  function ShowEvents(query: map<string, seq<string>>, get: Result<Snippet, Error>, parse: ParseOutcome,
                      exec: ExecOutcome): seq<Event>
  {
    match ValidId(QueryValue(query, "id"))
    case None => [NotFound]
    case Some(id) =>
      [CallGet(id)]
      + if get.Err? then [if IsNoRecord(get.error) then NotFound else ServerError(Some(get.error))]
        else RenderEvents(ShowFiles, TemplateData(Some(get.value), []), parse, exec, ExecError(exec))
  }

  method ShowSnippet(w: Trace, r: Request, get: Result<Snippet, Error>, parse: ParseOutcome,
                     exec: ExecOutcome)
    modifies w
    ensures w.events == old(w.events) + ShowEvents(r.query, get, parse, exec)
  {
    var parsed := Atoi(QueryValue(r.query, "id"));
    if parsed.None? || parsed.value < 1 {
      w.Emit(NotFound);
      return;
    }
    var id := parsed.value;
    w.Emit(CallGet(id));
    if get.Err? {
      if IsNoRecord(get.error) {
        w.Emit(NotFound);
      } else {
        w.Emit(ServerError(Some(get.error)));
      }
      return;
    }
    var data := TemplateData(Some(get.value), []);
    w.Emit(ParseTemplates(ShowFiles));
    if parse.ParseFailed? {
      w.Emit(ServerError(Some(parse.err)));
      return;
    }
    w.Emit(ExecuteTemplate(data, exec.Wrote()));
    if exec.ExecFailed? {
      w.Emit(ServerError(Some(exec.err)));
    }
  }

  // ---------------------------------------------------------------------------
  // createSnippet

  /** What `createSnippet` does; `insert` is the store's answer to `Insert`. */
  function CreateEvents(verb: string, insert: Result<GoInt, Error>): seq<Event>
  {
    if verb != MethodPost then [SetHeader("Allow", MethodPost), ClientError(StatusMethodNotAllowed)]
    else
      [CallInsert(DummyTitle, DummyContent, DummyExpires)]
      + if insert.Err? then [ServerError(Some(insert.error))]
        else [Redirect(ShowLocation(insert.value), StatusSeeOther)]
  }

  method CreateSnippet(w: Trace, r: Request, insert: Result<GoInt, Error>)
    modifies w
    ensures w.events == old(w.events) + CreateEvents(r.verb, insert)
  {
    if r.verb != MethodPost {
      w.Emit(SetHeader("Allow", MethodPost));
      w.Emit(ClientError(StatusMethodNotAllowed));
      return;
    }
    w.Emit(CallInsert(DummyTitle, DummyContent, DummyExpires));
    if insert.Err? {
      w.Emit(ServerError(Some(insert.error)));
      return;
    }
    w.Emit(Redirect(ShowLocation(insert.value), StatusSeeOther));
  }
}
