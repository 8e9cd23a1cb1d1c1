/**
  What a handler does, as an ordered trace of events: calls to its collaborators (the
  snippet store and the template package) and writes to the `http.ResponseWriter`
  through the application's helpers `notFound`, `serverError` and `clientError`,
  `w.Header().Set` and `http.Redirect`.
*/
module Responses {
  import opened Wrappers
  import opened Models

  const StatusOK := 200
  const StatusSeeOther := 303
  const StatusNotFound := 404
  const StatusMethodNotAllowed := 405
  const StatusInternalServerError := 500

  /** The payload a page template is executed with (`templateData`). */
  datatype TemplateData = TemplateData(snippet: Option<Snippet>, snippets: seq<Snippet>)

  /** The outcome of `template.ParseFiles`. */
  datatype ParseOutcome = Parsed | ParseFailed(err: Error)

  /**
    The outcome of `ts.Execute(w, data)`: it writes to the response as it goes, so a
    failure may come before or after some output has been written.
  */
  datatype ExecOutcome = Rendered | ExecFailed(err: Error, partial: bool)
  {
    /** Whether executing the template wrote anything to the response. */
    predicate Wrote()
    {
      match this
      case Rendered => true
      case ExecFailed(_, partial) => partial
    }
  }

  datatype Event =
    | CallLatest                                             // app.snippets.Latest()
    | CallGet(id: int)                                       // app.snippets.Get(id)
    | CallInsert(title: string, content: string, expires: string)  // app.snippets.Insert(...)
    | ParseTemplates(files: seq<string>)                     // template.ParseFiles(files...)
    | ExecuteTemplate(data: TemplateData, wroteOutput: bool) // ts.Execute(w, data)
    | NotFound                                               // app.notFound(w)
    | ServerError(cause: Option<Error>)                      // app.serverError(w, err); None is a nil err
    | ClientError(status: int)                               // app.clientError(w, status)
    | SetHeader(name: string, value: string)                 // w.Header().Set(name, value)
    | Redirect(location: string, status: int)                // http.Redirect(w, r, location, status)

  predicate IsStoreCall(e: Event) { e.CallLatest? || e.CallGet? || e.CallInsert? }

  predicate IsTemplateCall(e: Event) { e.ParseTemplates? || e.ExecuteTemplate? }

  /** An event that writes a status line or body to the response. */
  predicate IsWrite(e: Event)
  {
    e.NotFound? || e.ServerError? || e.ClientError? || e.Redirect? || (e.ExecuteTemplate? && e.wroteOutput)
  }

  /** The status a write commits when it is the first write of the response. */
  function StatusOf(e: Event): int
    requires IsWrite(e)
  {
    match e
    case NotFound => StatusNotFound
    case ServerError(_) => StatusInternalServerError
    case ClientError(status) => status
    case Redirect(_, status) => status
    case ExecuteTemplate(_, _) => StatusOK
  }

  /** The events of `es` that satisfy `keep`, in their order. */
  function Select(es: seq<Event>, keep: Event -> bool): (r: seq<Event>)
    ensures |r| <= |es|
    ensures forall i :: 0 <= i < |r| ==> keep(r[i])
  {
    if es == [] then []
    else (if keep(es[0]) then [es[0]] else []) + Select(es[1..], keep)
  }

  lemma {:induction false} SelectAppend(a: seq<Event>, b: seq<Event>, keep: Event -> bool)
    ensures Select(a + b, keep) == Select(a, keep) + Select(b, keep)
  {
    if a != [] {
      assert (a + b)[0] == a[0];
      assert (a + b)[1..] == a[1..] + b;
      SelectAppend(a[1..], b, keep);
    } else {
      assert a + b == b;
    }
  }

  lemma SelectSingleton(e: Event, keep: Event -> bool)
    ensures Select([e], keep) == if keep(e) then [e] else []
  {
    assert [e][1..] == [];
  }

  lemma SelectCons(e: Event, rest: seq<Event>, keep: Event -> bool)
    ensures Select([e] + rest, keep) == (if keep(e) then [e] else []) + Select(rest, keep)
  {
    SelectAppend([e], rest, keep);
    SelectSingleton(e, keep);
  }

  lemma {:induction false} SelectNone(es: seq<Event>, keep: Event -> bool)
    requires forall i :: 0 <= i < |es| ==> !keep(es[i])
    ensures Select(es, keep) == []
  {
    if es != [] {
      SelectNone(es[1..], keep);
    }
  }

  /** The writes to the response, in order. */
  function Writes(es: seq<Event>): seq<Event>
  {
    Select(es, IsWrite)
  }

  /** The calls into the snippet store, in order. */
  function StoreCalls(es: seq<Event>): seq<Event>
  {
    Select(es, IsStoreCall)
  }

  /** Whether the trace parses or executes any template. */
  predicate UsesTemplates(es: seq<Event>)
  {
    exists i :: 0 <= i < |es| && IsTemplateCall(es[i])
  }

  /** The status the client receives: that of the first write, if there is one. */
  function CommittedStatus(es: seq<Event>): Option<int>
  {
    var ws := Writes(es);
    if ws == [] then None else Some(StatusOf(ws[0]))
  }

  /**
    A handler's view of the `http.ResponseWriter` together with its collaborators: every
    call and every write is appended to `events`, in the order the handler makes them.
  */
  class Trace {
    var events: seq<Event>

    constructor ()
      ensures events == []
    {
      events := [];
    }

    method Emit(e: Event)
      modifies this
      ensures events == old(events) + [e]
    {
      events := events + [e];
    }
  }
}
