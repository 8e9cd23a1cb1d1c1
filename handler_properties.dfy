/**
  What the three handlers promise, stated over the traces `HomeEvents`, `ShowEvents` and
  `CreateEvents`: which response the client gets, whether the store and the templates
  are reached, and how the create handler's redirect leads back to the show handler.
*/
module HandlerProperties {
  import opened Wrappers
  import opened Strconv
  import opened Models
  import opened Responses
  import opened Handlers

  // ---------------------------------------------------------------------------
  // the template steps

  /** Parsing and executing templates never reaches the store. */
  lemma RenderCallsNoStore(files: seq<string>, data: TemplateData, parse: ParseOutcome, exec: ExecOutcome,
                           reported: Option<Error>)
    ensures StoreCalls(RenderEvents(files, data, parse, exec, reported)) == []
  {
    var es := RenderEvents(files, data, parse, exec, reported);
    assert forall i :: 0 <= i < |es| ==> es[i].ParseTemplates? || es[i].ExecuteTemplate? || es[i].ServerError?;
    SelectNone(es, IsStoreCall);
  }

  /**
    What the template steps write: the parse error alone when parsing fails; otherwise the
    page output, if any was produced, followed by the reported error when execution fails.
  */
  lemma RenderWrites(files: seq<string>, data: TemplateData, parse: ParseOutcome, exec: ExecOutcome,
                     reported: Option<Error>)
    ensures Writes(RenderEvents(files, data, parse, exec, reported)) ==
            if parse.ParseFailed? then [ServerError(Some(parse.err))]
            else (if exec.Wrote() then [ExecuteTemplate(data, true)] else [])
                 + (if exec.ExecFailed? then [ServerError(reported)] else [])
  {
    var p := ParseTemplates(files);
    var rest := if parse.ParseFailed? then [ServerError(Some(parse.err))]
                else [ExecuteTemplate(data, exec.Wrote())] + if exec.ExecFailed? then [ServerError(reported)] else [];
    SelectCons(p, rest, IsWrite);
    if parse.ParseFailed? {
      SelectSingleton(ServerError(Some(parse.err)), IsWrite);
    } else {
      var failure := if exec.ExecFailed? then [ServerError(reported)] else [];
      SelectCons(ExecuteTemplate(data, exec.Wrote()), failure, IsWrite);
      if exec.ExecFailed? {
        SelectSingleton(ServerError(reported), IsWrite);
      }
    }
  }

  // ---------------------------------------------------------------------------
  // home

  /** Any path other than "/" gets a 404 alone: no store query, no template. */
  lemma HomeOtherPathNotFound(path: string, latest: Result<seq<Snippet>, Error>, parse: ParseOutcome,
                              exec: ExecOutcome)
    requires path != "/"
    ensures var es := HomeEvents(path, latest, parse, exec);
      Writes(es) == [NotFound] && StoreCalls(es) == [] && !UsesTemplates(es)
      && CommittedStatus(es) == Some(StatusNotFound)
  {
    SelectSingleton(NotFound, IsWrite);
    SelectSingleton(NotFound, IsStoreCall);
  }

  /** The store is queried, exactly once, precisely when the path is "/". */
  lemma HomeQueriesStoreOnRoot(path: string, latest: Result<seq<Snippet>, Error>, parse: ParseOutcome,
                               exec: ExecOutcome)
    ensures StoreCalls(HomeEvents(path, latest, parse, exec)) == if path == "/" then [CallLatest] else []
  {
    if path == "/" {
      var snippets := if latest.Ok? then latest.value else [];
      var reported := if latest.Err? then [ServerError(Some(latest.error))] else [];
      var render := RenderEvents(HomeFiles, TemplateData(None, snippets), parse, exec, None);
      assert HomeEvents(path, latest, parse, exec) == [CallLatest] + (reported + render);
      SelectCons(CallLatest, reported + render, IsStoreCall);
      SelectAppend(reported, render, IsStoreCall);
      SelectNone(reported, IsStoreCall);
      RenderCallsNoStore(HomeFiles, TemplateData(None, snippets), parse, exec, None);
    } else {
      SelectSingleton(NotFound, IsStoreCall);
    }
  }

  /**
    As written, a failing `Latest` is reported and the handler carries on: the templates
    are still parsed and at least two writes reach the response, the first a 500.
  */
  lemma HomeLatestFailureContinues(latest: Result<seq<Snippet>, Error>, parse: ParseOutcome,
                                   exec: ExecOutcome)
    requires latest.Err?
    ensures var es := HomeEvents("/", latest, parse, exec);
      es[..3] == [CallLatest, ServerError(Some(latest.error)), ParseTemplates(HomeFiles)]
      && |Writes(es)| >= 2
      && CommittedStatus(es) == Some(StatusInternalServerError)
  {
    var es := HomeEvents("/", latest, parse, exec);
    var failure := ServerError(Some(latest.error));
    var render := RenderEvents(HomeFiles, TemplateData(None, []), parse, exec, None);
    assert es == [CallLatest] + ([failure] + render);
    SelectCons(CallLatest, [failure] + render, IsWrite);
    SelectCons(failure, render, IsWrite);
    RenderWrites(HomeFiles, TemplateData(None, []), parse, exec, None);
    assert Writes(es) == [failure] + Writes(render);
  }

  /**
    As written, a failing `Execute` is reported with the nil error of parsing: the trace
    ends in a nil-cause server error, and the execution error is reported only if it
    happens to be the error `Latest` returned.
  */
  lemma HomeExecFailureReportsNil(latest: Result<seq<Snippet>, Error>, exec: ExecOutcome)
    requires exec.ExecFailed?
    ensures var es := HomeEvents("/", latest, Parsed, exec);
      es[|es| - 1] == ServerError(None)
      && (ServerError(Some(exec.err)) in es ==> latest == Err(exec.err))
  {
  }

  /** When everything succeeds, the home page is the one write, with the latest snippets, status 200. */
  lemma HomeSuccess(snippets: seq<Snippet>)
    ensures var es := HomeEvents("/", Ok(snippets), Parsed, Rendered);
      Writes(es) == [ExecuteTemplate(TemplateData(None, snippets), true)]
      && CommittedStatus(es) == Some(StatusOK)
  {
    var render := RenderEvents(HomeFiles, TemplateData(None, snippets), Parsed, Rendered, None);
    assert HomeEvents("/", Ok(snippets), Parsed, Rendered) == [CallLatest] + render;
    SelectCons(CallLatest, render, IsWrite);
    RenderWrites(HomeFiles, TemplateData(None, snippets), Parsed, Rendered, None);
  }

  /** The intended `home` stops at a `Latest` failure: one 500 write, templates untouched. */
  lemma HomeIntendedStopsOnLatestFailure(latest: Result<seq<Snippet>, Error>, parse: ParseOutcome,
                                         exec: ExecOutcome)
    requires latest.Err?
    ensures var es := HomeIntendedEvents("/", latest, parse, exec);
      Writes(es) == [ServerError(Some(latest.error))] && !UsesTemplates(es)
      && CommittedStatus(es) == Some(StatusInternalServerError)
  {
    var failure := ServerError(Some(latest.error));
    assert HomeIntendedEvents("/", latest, parse, exec) == [CallLatest] + [failure];
    SelectCons(CallLatest, [failure], IsWrite);
    SelectSingleton(failure, IsWrite);
  }

  /**
    The intended `home` writes to the response at most once, except when a template
    fails after having written part of the page.
  */
  lemma HomeIntendedWritesOnce(path: string, latest: Result<seq<Snippet>, Error>, parse: ParseOutcome,
                               exec: ExecOutcome)
    ensures var es := HomeIntendedEvents(path, latest, parse, exec);
      |Writes(es)| <= 1 || (parse.Parsed? && exec.ExecFailed? && exec.partial)
  {
    var es := HomeIntendedEvents(path, latest, parse, exec);
    if path != "/" {
      SelectSingleton(NotFound, IsWrite);
    } else if latest.Err? {
      HomeIntendedStopsOnLatestFailure(latest, parse, exec);
    } else {
      var data := TemplateData(None, latest.value);
      var render := RenderEvents(HomeFiles, data, parse, exec, ExecError(exec));
      assert es == [CallLatest] + render;
      SelectCons(CallLatest, render, IsWrite);
      RenderWrites(HomeFiles, data, parse, exec, ExecError(exec));
    }
  }

  /**
    The intended `home` never reports a nil error, and an `Execute` failure ends the trace
    with the execution error itself.
  */
  lemma HomeIntendedReportsCause(path: string, latest: Result<seq<Snippet>, Error>, parse: ParseOutcome,
                                 exec: ExecOutcome)
    ensures var es := HomeIntendedEvents(path, latest, parse, exec);
      && (forall i :: 0 <= i < |es| && es[i].ServerError? ==> es[i].cause.Some?)
      && (path == "/" && latest.Ok? && parse.Parsed? && exec.ExecFailed? ==>
            es[|es| - 1] == ServerError(Some(exec.err)))
  {
  }

  /**
    The written and the intended `home` agree exactly when neither defect is reached:
    the path is not "/", or `Latest` succeeds and `Execute` is not reached with a failure.
  */
  lemma HomeIntendedAgrees(path: string, latest: Result<seq<Snippet>, Error>, parse: ParseOutcome,
                           exec: ExecOutcome)
    ensures HomeIntendedEvents(path, latest, parse, exec) == HomeEvents(path, latest, parse, exec)
            <==> path != "/" || (latest.Ok? && (parse.ParseFailed? || !exec.ExecFailed?))
  {
    var intended := HomeIntendedEvents(path, latest, parse, exec);
    var written := HomeEvents(path, latest, parse, exec);
    if path == "/" && latest.Err? {
      assert |intended| != |written|;
    } else if path == "/" && parse.Parsed? && exec.ExecFailed? {
      assert intended[|intended| - 1] != written[|written| - 1];
    } else if path == "/" {
      assert written == [CallLatest] + RenderEvents(HomeFiles, TemplateData(None, latest.value), parse, exec, None);
    }
  }

  // ---------------------------------------------------------------------------
  // showSnippet

  /**
    An `id` that does not read as an integer, is missing or empty, or is below 1 gets a
    404 alone, before the store is asked; any other `id` is looked up exactly once.
  */
  lemma ShowValidatesBeforeStore(query: map<string, seq<string>>, get: Result<Snippet, Error>,
                                 parse: ParseOutcome, exec: ExecOutcome)
    ensures var v := QueryValue(query, "id");
      var es := ShowEvents(query, get, parse, exec);
      && (Atoi(v).None? || Atoi(v).value < 1 ==>
            es == [NotFound] && !UsesTemplates(es) && CommittedStatus(es) == Some(StatusNotFound))
      && StoreCalls(es) == if Atoi(v).Some? && Atoi(v).value >= 1 then [CallGet(Atoi(v).value)] else []
  {
    var es := ShowEvents(query, get, parse, exec);
    var id := ValidId(QueryValue(query, "id"));
    if id.Some? {
      var tail := es[1..];
      assert es == [CallGet(id.value)] + tail;
      SelectCons(CallGet(id.value), tail, IsStoreCall);
      if get.Err? {
        SelectSingleton(tail[0], IsStoreCall);
      } else {
        RenderCallsNoStore(ShowFiles, TemplateData(Some(get.value), []), parse, exec, ExecError(exec));
      }
    } else {
      SelectSingleton(NotFound, IsWrite);
      SelectSingleton(NotFound, IsStoreCall);
    }
  }

  /** In particular a request without an `id`, or with an empty one, is not found. */
  lemma ShowMissingIdNotFound(query: map<string, seq<string>>, get: Result<Snippet, Error>,
                              parse: ParseOutcome, exec: ExecOutcome)
    requires "id" !in query || query["id"] == [] || query["id"][0] == ""
    ensures ShowEvents(query, get, parse, exec) == [NotFound]
  {
  }

  /**
    A store error ends the request without touching the templates: ErrNoRecord (however
    wrapped) gives 404, any other error 500 with that error as the cause.
  */
  lemma ShowClassifiesStoreError(query: map<string, seq<string>>, get: Result<Snippet, Error>,
                                 parse: ParseOutcome, exec: ExecOutcome)
    requires ValidId(QueryValue(query, "id")).Some? && get.Err?
    ensures var es := ShowEvents(query, get, parse, exec);
      && !UsesTemplates(es)
      && Writes(es) == [if Cause(get.error) == ErrNoRecord then NotFound else ServerError(Some(get.error))]
      && CommittedStatus(es) ==
           Some(if Cause(get.error) == ErrNoRecord then StatusNotFound else StatusInternalServerError)
  {
    IsNoRecordCause(get.error);
    var es := ShowEvents(query, get, parse, exec);
    assert es == [es[0]] + [es[1]];
    SelectCons(es[0], [es[1]], IsWrite);
    SelectSingleton(es[1], IsWrite);
  }

  /** A template parse failure is reported once, with its error, and `Execute` is not reached. */
  lemma ShowParseFailureStops(query: map<string, seq<string>>, snippet: Snippet, err: Error,
                              exec: ExecOutcome)
    requires ValidId(QueryValue(query, "id")).Some?
    ensures var es := ShowEvents(query, Ok(snippet), ParseFailed(err), exec);
      && Writes(es) == [ServerError(Some(err))]
      && es[|es| - 1] == ServerError(Some(err))
      && forall i :: 0 <= i < |es| ==> !es[i].ExecuteTemplate?
  {
    var id := ValidId(QueryValue(query, "id")).value;
    var failure := ServerError(Some(err));
    var es := ShowEvents(query, Ok(snippet), ParseFailed(err), exec);
    assert es == [CallGet(id)] + ([ParseTemplates(ShowFiles)] + [failure]);
    SelectCons(CallGet(id), [ParseTemplates(ShowFiles)] + [failure], IsWrite);
    SelectCons(ParseTemplates(ShowFiles), [failure], IsWrite);
    SelectSingleton(failure, IsWrite);
  }

  /** `Execute` is reached only after a valid id, a found snippet and a parse that succeeded, with that snippet. */
  lemma ShowExecutesFoundSnippet(query: map<string, seq<string>>, get: Result<Snippet, Error>,
                                 parse: ParseOutcome, exec: ExecOutcome)
    ensures var es := ShowEvents(query, get, parse, exec);
      forall i :: 0 <= i < |es| && es[i].ExecuteTemplate? ==>
        ValidId(QueryValue(query, "id")).Some? && get.Ok? && parse.Parsed?
        && es[i].data == TemplateData(Some(get.value), [])
  {
  }

  /** When everything succeeds, the page for the snippet is the one write, status 200. */
  lemma ShowSuccess(query: map<string, seq<string>>, snippet: Snippet)
    requires ValidId(QueryValue(query, "id")).Some?
    ensures var es := ShowEvents(query, Ok(snippet), Parsed, Rendered);
      Writes(es) == [ExecuteTemplate(TemplateData(Some(snippet), []), true)]
      && CommittedStatus(es) == Some(StatusOK)
  {
    var es := ShowEvents(query, Ok(snippet), Parsed, Rendered);
    var data := TemplateData(Some(snippet), []);
    assert es == [es[0]] + RenderEvents(ShowFiles, data, Parsed, Rendered, None);
    SelectCons(es[0], RenderEvents(ShowFiles, data, Parsed, Rendered, None), IsWrite);
    RenderWrites(ShowFiles, data, Parsed, Rendered, None);
  }

  /**
    An `Execute` failure after a found snippet is reported with the execution error: the
    page output, if any was written, is followed by one 500 carrying that error.
  */
  lemma ShowExecFailure(query: map<string, seq<string>>, snippet: Snippet, err: Error, partial: bool)
    requires ValidId(QueryValue(query, "id")).Some?
    ensures var es := ShowEvents(query, Ok(snippet), Parsed, ExecFailed(err, partial));
      && Writes(es) == (if partial then [ExecuteTemplate(TemplateData(Some(snippet), []), true)] else [])
                       + [ServerError(Some(err))]
      && es[|es| - 1] == ServerError(Some(err))
  {
    var exec := ExecFailed(err, partial);
    var es := ShowEvents(query, Ok(snippet), Parsed, exec);
    var data := TemplateData(Some(snippet), []);
    var render := RenderEvents(ShowFiles, data, Parsed, exec, ExecError(exec));
    assert es == [es[0]] + render;
    SelectCons(es[0], render, IsWrite);
    RenderWrites(ShowFiles, data, Parsed, exec, ExecError(exec));
  }

  // ---------------------------------------------------------------------------
  // createSnippet

  /** A method other than POST gets `Allow: POST` and then a 405, and nothing is inserted. */
  lemma CreateRejectsOtherMethods(verb: string, insert: Result<GoInt, Error>)
    requires verb != MethodPost
    ensures var es := CreateEvents(verb, insert);
      es == [SetHeader("Allow", MethodPost), ClientError(StatusMethodNotAllowed)]
      && StoreCalls(es) == [] && CommittedStatus(es) == Some(StatusMethodNotAllowed)
  {
    var es := CreateEvents(verb, insert);
    SelectNone(es, IsStoreCall);
    assert es == [es[0]] + [es[1]];
    SelectAppend([es[0]], [es[1]], IsWrite);
    SelectSingleton(es[0], IsWrite);
    SelectSingleton(es[1], IsWrite);
  }

  /** The store is asked to insert, once, exactly when the method is POST. */
  lemma CreateInsertsOnlyOnPost(verb: string, insert: Result<GoInt, Error>)
    ensures StoreCalls(CreateEvents(verb, insert)) ==
            if verb == MethodPost then [CallInsert(DummyTitle, DummyContent, DummyExpires)] else []
  {
    var es := CreateEvents(verb, insert);
    if verb == MethodPost {
      SelectAppend([es[0]], [es[1]], IsStoreCall);
      SelectSingleton(es[0], IsStoreCall);
      SelectSingleton(es[1], IsStoreCall);
      assert es == [es[0]] + [es[1]];
    } else {
      SelectNone(es, IsStoreCall);
    }
  }

  /**
    After a POST, an insert error gives a 500 with that error and no redirect; a new id
    gives a 303 redirect to the show page of that id.
  */
  lemma CreateOutcome(insert: Result<GoInt, Error>)
    ensures var es := CreateEvents(MethodPost, insert);
      && (insert.Err? ==>
            Writes(es) == [ServerError(Some(insert.error))]
            && CommittedStatus(es) == Some(StatusInternalServerError)
            && forall i :: 0 <= i < |es| ==> !es[i].Redirect?)
      && (insert.Ok? ==>
            Writes(es) == [Redirect(ShowPath + "?id=" + FormatInt(insert.value), StatusSeeOther)]
            && CommittedStatus(es) == Some(StatusSeeOther))
  {
    var es := CreateEvents(MethodPost, insert);
    SelectAppend([es[0]], [es[1]], IsWrite);
    assert es == [es[0]] + [es[1]];
  }

  /**
    The redirect target of a new snippet leads back to it: its `id` value is plain digits
    (so query decoding leaves it as it is), the show handler's validation reads it back as
    the same id whenever the id is at least 1, and the show handler then asks the store
    for exactly that id. An id below 1 would be turned away by the show handler.
  */
  lemma CreateRedirectReachesShow(id: GoInt, get: Result<Snippet, Error>, parse: ParseOutcome,
                                  exec: ExecOutcome)
    ensures var prefix := ShowPath + "?id=";
      var location := ShowLocation(id);
      var value := location[|prefix|..];
      var shown := ShowEvents(map["id" := [value]], get, parse, exec);
      && location == prefix + value
      && ValidId(value) == (if id >= 1 then Some(id) else None)
      && (id >= 1 ==> AllDigits(value) && StoreCalls(shown) == [CallGet(id)])
      && (id < 1 ==> shown == [NotFound])
  {
    var prefix := ShowPath + "?id=";
    var value := FormatInt(id);
    assert ShowLocation(id)[|prefix|..] == value;
    AtoiFormatInt(id);
    var query := map["id" := [value]];
    assert QueryValue(query, "id") == value;
    ShowValidatesBeforeStore(query, get, parse, exec);
  }
}
