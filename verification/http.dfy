/**
  A symbolic stand-in for the parts of Go's net/http that a middleware chain
  touches: handler values, the handler functions used as terminals, and what a
  handler does to the response when it serves a request.

  Serving is a pure function from a handler and a request path to the trace of
  effects on the response writer; the response body is the concatenation of
  the bytes written in that trace.
 */
module Http {

  /** A value of type http.HandlerFunc: a plain request-processing function. */
  datatype HandlerFunc =
    | NilFunc        // the nil function value
    | TestApp        // the test terminal that writes "app\n"
    | WriteStatusOk  // a function that only writes the status header 200

  /** A value of the interface type http.Handler. */
  datatype Handler =
    | Nil                                          // the nil interface value
    | DefaultServeMux                              // the process-wide default dispatcher
    | Func(f: HandlerFunc)                         // a HandlerFunc converted to a Handler
    | Tagged(tag: string, next: Handler)           // the handler a tag middleware builds
    | StripPrefix(prefix: string, next: Handler)   // http.StripPrefix(prefix, next)

  /** One effect a handler has on the response. */
  datatype Event =
    | Write(data: string)                     // bytes appended to the body
    | WriteHeader(code: int)                  // the status line
    | Dispatch(path: string)                  // the default dispatcher takes the request over
    | Panic                                   // a nil handler or nil function was called
    | Stripped(prefix: string, path: string)  // http.StripPrefix takes the request over

  /** The handler testApp of the tests: a HandlerFunc writing "app\n". */
  const App: Handler := Func(TestApp)

  /** The one effect of a handler function. */
  function FuncEffect(f: HandlerFunc): (e: Event)
  {
    match f
    case NilFunc => Panic
    case TestApp => Write("app\n")
    case WriteStatusOk => WriteHeader(200)
  }

  /** The handler a request finally reaches once every tag wrapper around `h`
      has delegated. */
  function Innermost(h: Handler): (r: Handler)
    ensures !r.Tagged?
    decreases h
  {
    if h.Tagged? then Innermost(h.next) else h
  }

  /** The number of tag wrappers around the innermost handler. */
  function Depth(h: Handler): (n: nat)
    decreases h
  {
    if h.Tagged? then 1 + Depth(h.next) else 0
  }

  /** The tags of the wrappers around the innermost handler, outermost first. */
  function Layers(h: Handler): (tags: seq<string>)
    ensures |tags| == Depth(h)
    decreases h
  {
    if h.Tagged? then [h.tag] + Layers(h.next) else []
  }

  /** The one effect of a handler that is not a tag wrapper. Serving through
      http.StripPrefix is left symbolic: the request is handed over to it. */
  function Effect(h: Handler, path: string): (e: Event)
    requires !h.Tagged?
  {
    match h
    case Nil => Panic
    case DefaultServeMux => Dispatch(path)
    case Func(f) => FuncEffect(f)
    case StripPrefix(prefix, _) => Stripped(prefix, path)
  }

  /** The effects of serving a request for `path` with handler `h`: a tag
      wrapper writes its tag and delegates; any other handler has one effect. */
  function Serve(h: Handler, path: string): (trace: seq<Event>)
    decreases h
  {
    match h
    case Tagged(tag, next) => [Write(tag)] + Serve(next, path)
    case _ => [Effect(h, path)]
  }

  /** The shape of every serving trace: one write per tag wrapper, each
      writing its own layer's tag, outermost first, followed by the single
      effect of the innermost handler. */
  lemma {:induction false} ServeShape(h: Handler, path: string)
    ensures |Serve(h, path)| == Depth(h) + 1
    ensures forall i :: 0 <= i < Depth(h) ==> Serve(h, path)[i] == Write(Layers(h)[i])
    ensures Serve(h, path)[Depth(h)] == Effect(Innermost(h), path)
    ensures h.Tagged? ==> Serve(h, path)[0] == Write(h.tag)
    decreases h
  {
    if h.Tagged? {
      ServeShape(h.next, path);
      assert Serve(h, path) == [Write(h.tag)] + Serve(h.next, path);
      assert Layers(h) == [h.tag] + Layers(h.next);
    }
  }

  /** The response body a trace produces: every written chunk, in order. */
  function Body(trace: seq<Event>): (body: string)
  {
    if trace == [] then ""
    else (if trace[0].Write? then trace[0].data else "") + Body(trace[1..])
  }

  /** The body of two traces one after the other is the two bodies concatenated. */
  lemma {:induction false} BodyAppend(a: seq<Event>, b: seq<Event>)
    ensures Body(a + b) == Body(a) + Body(b)
    decreases |a|
  {
    if a == [] {
      assert a + b == b;
    } else {
      assert (a + b)[1..] == a[1..] + b;
      BodyAppend(a[1..], b);
    }
  }

  /** A tag middleware's handler writes its tag first and then whatever its
      inner handler writes. */
  lemma TaggedWritesTagFirst(tag: string, next: Handler, path: string)
    ensures Body(Serve(Tagged(tag, next), path)) == tag + Body(Serve(next, path))
  {
    BodyAppend([Write(tag)], Serve(next, path));
  }

  /** testApp answers every request with the body "app\n". */
  lemma TestAppWritesApp(path: string)
    ensures Serve(App, path) == [Write("app\n")]
    ensures Body(Serve(App, path)) == "app\n"
  {
  }
}
