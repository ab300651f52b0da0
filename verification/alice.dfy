/**
  The middleware chain of the alice package: an immutable, ordered list of
  constructors, each of which turns a handler into a wrapping handler or fails.

  A chain is a value (a sequence), so deriving a chain with Append or Extend
  can never change the chain it was derived from. Then folds the constructors
  right-to-left around a terminal handler, so the first constructor becomes the
  outermost wrapper and runs first.
 */
module Alice {
  import opened Http

  /** The (http.Handler, error) pair a constructor or Then returns. */
  datatype Result<T> = Success(value: T) | Failure(error: string)

  /** A middleware constructor, func(http.Handler) (http.Handler, error).
      Constructors are opaque to the chain; the ones modelled here are those
      the tests build, plus one that reports an error. */
  datatype Constructor =
    | TagMiddleware(tag: string)        // writes its tag, then delegates
    | ReturnsNil                        // returns a nil handler and no error
    | StripPrefixOfNil(prefix: string)  // returns http.StripPrefix(prefix, nil)
    | Failing(reason: string)            // returns no handler and an error

  /** Running one constructor on the handler it is to wrap. */
  function Apply(c: Constructor, h: Handler): (r: Result<Handler>)
    ensures r.Failure? <==> c.Failing?
    ensures c.TagMiddleware? ==> r == Success(Tagged(c.tag, h))
  {
    match c
    case TagMiddleware(tag) => Success(Tagged(tag, h))
    case ReturnsNil => Success(Nil)
    case StripPrefixOfNil(prefix) =>
      // http.StripPrefix returns its handler unchanged for an empty prefix
      Success(if prefix == "" then Nil else StripPrefix(prefix, Nil))
    case Failing(reason) => Failure(reason)
  }

  /** A middleware chain. */
  datatype Chain = Chain(constructors: seq<Constructor>)

  predicate AllTags(cs: seq<Constructor>)
  {
    forall i :: 0 <= i < |cs| ==> cs[i].TagMiddleware?
  }

  predicate NoneFail(cs: seq<Constructor>)
  {
    forall i :: 0 <= i < |cs| ==> !cs[i].Failing?
  }

  /** New(constructors...): a chain holding exactly the given constructors,
      in the given order. */
  function New(cs: seq<Constructor>): (c: Chain)
    ensures |c.constructors| == |cs|
    ensures forall k :: 0 <= k < |cs| ==> c.constructors[k] == cs[k]
  {
    Chain(cs)
  }

  /** chain.Append(more...): a new chain with `more` after the receiver's
      constructors; the receiver is a value and keeps its own. */
  function Append(c: Chain, more: seq<Constructor>): (r: Chain)
    ensures |r.constructors| == |c.constructors| + |more|
    ensures r.constructors[..|c.constructors|] == c.constructors
    ensures r.constructors[|c.constructors|..] == more
  {
    Chain(c.constructors + more)
  }

  /** chain.Extend(other): a new chain with the constructors of `other` after
      the receiver's. */
  function Extend(c: Chain, other: Chain): (r: Chain)
    ensures r == Append(c, other.constructors)
    ensures |r.constructors| == |c.constructors| + |other.constructors|
    ensures r.constructors[..|c.constructors|] == c.constructors
    ensures r.constructors[|c.constructors|..] == other.constructors
  {
    Append(c, other.constructors)
  }

  /** The terminal Then actually wraps: a nil handler stands for the default
      dispatcher. */
  function Defaulted(h: Handler): (r: Handler)
    ensures !r.Nil?
    ensures !h.Nil? ==> r == h
    ensures h.Nil? ==> r == DefaultServeMux
  {
    if h.Nil? then DefaultServeMux else h
  }

  /** The right fold of the constructors around `h`: the last constructor wraps
      `h` first, the first constructor wraps everything else. The first failure
      met on the way out (that is, the failing constructor nearest the end)
      aborts the build. */
  function Wrap(cs: seq<Constructor>, h: Handler): (r: Result<Handler>)
    ensures r.Failure? <==> !NoneFail(cs)
    ensures r.Failure? ==> Failing(r.error) in cs
    ensures |cs| == 0 ==> r == Success(h)
    decreases |cs|
  {
    if cs == [] then Success(h)
    else
      match Wrap(cs[1..], h)
      case Failure(e) => Failure(e)
      case Success(inner) => Apply(cs[0], inner)
  }

  /** chain.Then(h): the composed handler, or the first construction error. */
  function Then(c: Chain, h: Handler): (r: Result<Handler>)
    ensures |c.constructors| == 0 && !h.Nil? ==> r == Success(h)
    ensures |c.constructors| == 0 && h.Nil? ==> r == Success(DefaultServeMux)
    ensures r.Failure? <==> exists i :: 0 <= i < |c.constructors| && c.constructors[i].Failing?
  {
    Wrap(c.constructors, Defaulted(h))
  }

  /** chain.ThenFunc(fn): Then with a handler function as the terminal; a nil
      function is recognised before it is wrapped, so it too stands for the
      default dispatcher. */
  function ThenFunc(c: Chain, fn: HandlerFunc): (r: Result<Handler>)
    ensures fn.NilFunc? ==> r == Then(c, DefaultServeMux)
    ensures !fn.NilFunc? ==> r == Then(c, Func(fn))
    ensures |c.constructors| == 0 ==> r == Success(if fn.NilFunc? then DefaultServeMux else Func(fn))
  {
    if fn.NilFunc? then Then(c, Nil) else Then(c, Func(fn))
  }

  /** Then written as the loop of the Go implementation: starting from the
      defaulted terminal, walk the constructors from last to first, replacing
      the current handler by each constructor's result and returning at the
      first error. */
  method ThenLoop(c: Chain, h: Handler) returns (r: Result<Handler>)
    ensures r == Then(c, h)
  {
    var cs := c.constructors;
    var cur := if h.Nil? then DefaultServeMux else h;
    var i := 0;
    while i < |cs|
      invariant 0 <= i <= |cs|
      invariant Wrap(cs[|cs| - i..], Defaulted(h)) == Success(cur)
    {
      var k := |cs| - 1 - i;
      assert cs[k..][1..] == cs[k + 1..];
      var built := Apply(cs[k], cur);
      if built.Failure? {
        WrapFailurePropagates(cs, k, Defaulted(h));
        return Failure(built.error);
      }
      cur := built.value;
      i := i + 1;
    }
    assert cs[|cs| - i..] == cs;
    return Success(cur);
  }

  /** Folding a concatenation: the back part is built first, and the front part
      is then built around its result (unless the back part failed). */
  lemma {:induction false} WrapConcat(a: seq<Constructor>, b: seq<Constructor>, h: Handler)
    ensures Wrap(a + b, h) ==
      match Wrap(b, h)
      case Failure(e) => Failure(e)
      case Success(inner) => Wrap(a, inner)
    decreases |a|
  {
    if a == [] {
      assert a + b == b;
    } else {
      assert (a + b)[1..] == a[1..] + b;
      WrapConcat(a[1..], b, h);
    }
  }

  /** Once the fold over a suffix fails, the whole fold fails with that error. */
  lemma WrapFailurePropagates(cs: seq<Constructor>, k: nat, h: Handler)
    requires k <= |cs|
    requires Wrap(cs[k..], h).Failure?
    ensures Wrap(cs, h) == Wrap(cs[k..], h)
  {
    assert cs == cs[..k] + cs[k..];
    WrapConcat(cs[..k], cs[k..], h);
  }

  /** The error Then reports is that of the failing constructor nearest the end
      of the chain: no constructor after it fails. */
  lemma {:induction false} WrapFailureIsLastFailing(cs: seq<Constructor>, h: Handler)
    requires Wrap(cs, h).Failure?
    ensures exists i :: 0 <= i < |cs| && cs[i] == Failing(Wrap(cs, h).error) &&
                        NoneFail(cs[i + 1..])
    decreases |cs|
  {
    var rest := Wrap(cs[1..], h);
    if rest.Failure? {
      WrapFailureIsLastFailing(cs[1..], h);
      var j :| 0 <= j < |cs[1..]| && cs[1..][j] == Failing(rest.error) && NoneFail(cs[1..][j + 1..]);
      assert cs[1..][j + 1..] == cs[j + 2..];
      assert cs[j + 1] == Failing(Wrap(cs, h).error);
    } else {
      assert cs[0] == Failing(Wrap(cs, h).error);
      assert NoneFail(cs[1..]);
    }
  }

  /** The writes of a chain of tag middlewares: one Write per tag, in declared
      order. */
  function TagWrites(cs: seq<Constructor>): (w: seq<Event>)
    requires AllTags(cs)
    ensures |w| == |cs|
  {
    seq(|cs|, i requires 0 <= i < |cs| && cs[i].TagMiddleware? => Write(cs[i].tag))
  }

  /** Ordering law of the fold: serving the composed handler writes the tags in
      declared order, then does what the terminal does. */
  lemma {:induction false} WrapOrdersTags(cs: seq<Constructor>, h: Handler, path: string)
    requires AllTags(cs)
    ensures Wrap(cs, h).Success?
    ensures Serve(Wrap(cs, h).value, path) == TagWrites(cs) + Serve(h, path)
    decreases |cs|
  {
    if cs != [] {
      assert AllTags(cs[1..]) by {
        forall i | 0 <= i < |cs[1..]| ensures cs[1..][i].TagMiddleware? {
          assert cs[1..][i] == cs[i + 1];
        }
      }
      WrapOrdersTags(cs[1..], h, path);
      var inner := Wrap(cs[1..], h).value;
      assert Wrap(cs, h) == Success(Tagged(cs[0].tag, inner));
      assert Serve(Tagged(cs[0].tag, inner), path) == [Write(cs[0].tag)] + Serve(inner, path);
      assert TagWrites(cs) == [Write(cs[0].tag)] + TagWrites(cs[1..]);
    }
  }

  /** Ordering law of Then: a chain of tag middlewares built by New serves its
      tags in declared order, followed by the (defaulted) terminal's effects. */
  lemma ThenOrdersHandlers(cs: seq<Constructor>, h: Handler, path: string)
    requires AllTags(cs)
    ensures Then(New(cs), h).Success?
    ensures Serve(Then(New(cs), h).value, path) == TagWrites(cs) + Serve(Defaulted(h), path)
  {
    WrapOrdersTags(cs, Defaulted(h), path);
  }

  /** The writes of a concatenated chain are the writes of its parts. */
  lemma TagWritesConcat(a: seq<Constructor>, b: seq<Constructor>)
    requires AllTags(a) && AllTags(b)
    ensures AllTags(a + b)
    ensures TagWrites(a + b) == TagWrites(a) + TagWrites(b)
  {
  }

  /** Then over an appended chain: the appended constructors are built first,
      around the terminal, and the original ones around them. */
  lemma AppendThen(c: Chain, more: seq<Constructor>, h: Handler)
    ensures Then(Append(c, more), h) ==
      match Then(New(more), h)
      case Failure(e) => Failure(e)
      case Success(inner) => Wrap(c.constructors, inner)
  {
    WrapConcat(c.constructors, more, Defaulted(h));
  }

  /** Then over an extended chain: the other chain is built around the
      terminal, and the receiver's constructors around that. */
  lemma ExtendThen(c: Chain, other: Chain, h: Handler)
    ensures Then(Extend(c, other), h) ==
      match Then(other, h)
      case Failure(e) => Failure(e)
      case Success(inner) => Wrap(c.constructors, inner)
  {
    WrapConcat(c.constructors, other.constructors, Defaulted(h));
  }

  /** Ordering law through Append: the original tags, then the appended tags,
      then the terminal. */
  lemma AppendOrdersHandlers(c: Chain, more: seq<Constructor>, h: Handler, path: string)
    requires AllTags(c.constructors) && AllTags(more)
    ensures Then(Append(c, more), h).Success?
    ensures Serve(Then(Append(c, more), h).value, path) ==
            TagWrites(c.constructors) + TagWrites(more) + Serve(Defaulted(h), path)
  {
    TagWritesConcat(c.constructors, more);
    WrapOrdersTags(c.constructors + more, Defaulted(h), path);
  }

  /** Ordering law through Extend: the receiver's tags, then the other chain's
      tags, then the terminal. */
  lemma ExtendOrdersHandlers(c: Chain, other: Chain, h: Handler, path: string)
    requires AllTags(c.constructors) && AllTags(other.constructors)
    ensures Then(Extend(c, other), h).Success?
    ensures Serve(Then(Extend(c, other), h).value, path) ==
            TagWrites(c.constructors) + TagWrites(other.constructors) + Serve(Defaulted(h), path)
  {
    AppendOrdersHandlers(c, other.constructors, h, path);
  }

  /** Appending is associative: appending twice is appending the
      concatenation once. */
  lemma AppendAppend(c: Chain, a: seq<Constructor>, b: seq<Constructor>)
    ensures Append(Append(c, a), b) == Append(c, a + b)
  {
    assert c.constructors + a + b == c.constructors + (a + b);
  }

  /** A nil terminal is replaced by the default dispatcher before any
      constructor runs, whatever the length of the chain. */
  lemma ThenNilIsDefault(c: Chain)
    ensures Then(c, Nil) == Then(c, DefaultServeMux)
  {
  }

  /** Wrapping a nil function before the nil check would make a non-nil
      handler that panics, so the default dispatcher would be lost. */
  lemma NaiveThenFuncLosesDefault()
    ensures Then(New([]), Func(NilFunc)) == Success(Func(NilFunc))
    ensures ThenFunc(New([]), NilFunc) == Success(DefaultServeMux)
    ensures Serve(Func(NilFunc), "/") == [Panic]
  {
  }
}
