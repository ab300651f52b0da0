/**
  The scenarios of the alice test suite, stated over the model: the fixtures
  tagMiddleware and testApp are the constructor TagMiddleware and the handler
  App, and a response body is read off the trace of serving a request for "/".
 */
module AliceTest {
  import opened Http
  import opened Alice

  function T(tag: string): (c: Constructor)
  {
    TagMiddleware(tag)
  }

  /** The body the composed handler writes for a request to "/", or "" when
      the chain could not be built. */
  function BodyOf(built: Result<Handler>): (body: string)
  {
    if built.Success? then Body(Serve(built.value, "/")) else ""
  }

  /** The tags of a chain of tag middlewares, concatenated in declared order. */
  function Tags(cs: seq<Constructor>): (tags: string)
    requires AllTags(cs)
  {
    if cs == [] then "" else cs[0].tag + Tags(cs[1..])
  }

  /** The body written by the tag writes of a chain is its tags, in order. */
  lemma {:induction false} TagWritesBody(cs: seq<Constructor>)
    requires AllTags(cs)
    ensures Body(TagWrites(cs)) == Tags(cs)
    decreases |cs|
  {
    if |cs| > 0 {
      assert AllTags(cs[1..]) by {
        forall i | 0 <= i < |cs[1..]| ensures cs[1..][i].TagMiddleware? {
          assert cs[1..][i] == cs[i + 1];
        }
      }
      assert TagWrites(cs) == [Write(cs[0].tag)] + TagWrites(cs[1..]);
      BodyAppend([Write(cs[0].tag)], TagWrites(cs[1..]));
      TagWritesBody(cs[1..]);
    }
  }

  /** Ordering law on bodies: a chain of tag middlewares writes its tags in
      declared order, then the body of the terminal. */
  lemma ThenWritesTagsThenTerminal(cs: seq<Constructor>, h: Handler)
    requires AllTags(cs)
    ensures Then(New(cs), h).Success?
    ensures BodyOf(Then(New(cs), h)) == Tags(cs) + Body(Serve(Defaulted(h), "/"))
  {
    ThenOrdersHandlers(cs, h, "/");
    BodyAppend(TagWrites(cs), Serve(Defaulted(h), "/"));
    TagWritesBody(cs);
  }

  /** New keeps every constructor at its index, including ones that return a
      nil handler or a StripPrefix of nil. */
  lemma NewAddsConstructors()
    ensures var slice := [ReturnsNil, StripPrefixOfNil("potato")];
            forall k :: 0 <= k < |slice| ==> New(slice).constructors[k] == slice[k]
  {
  }

  /** With no middleware, Then returns testApp itself. */
  lemma ThenWorksWithNoMiddleware()
    ensures Then(New([]), App) == Success(App)
  {
  }

  /** With no middleware, Then(nil) and ThenFunc(nil) return the default
      dispatcher. */
  lemma ThenTreatsNilAsDefaultServeMux()
    ensures Then(New([]), Nil) == Success(DefaultServeMux)
    ensures ThenFunc(New([]), NilFunc) == Success(DefaultServeMux)
  {
  }

  /** ThenFunc on a non-nil function returns that function as a handler. */
  lemma ThenFuncConstructsHandlerFunc()
    ensures ThenFunc(New([]), WriteStatusOk) == Success(Func(WriteStatusOk))
    ensures Serve(Func(WriteStatusOk), "/") == [WriteHeader(200)]
  {
  }

  /** The tags of t1, t2, t3, joined. */
  lemma ThreeTags()
    ensures Tags([T("t1\n"), T("t2\n"), T("t3\n")]) == "t1\nt2\nt3\n"
  {
    TagsCons("t3\n", []);
    assert [T("t3\n")] == [T("t3\n")] + [];
    TagsCons("t2\n", [T("t3\n")]);
    TagsCons("t1\n", [T("t2\n"), T("t3\n")]);
  }

  /** New(t1, t2, t3).Then(testApp) writes "t1\nt2\nt3\napp\n". */
  lemma ThenOrdersHandlersCorrectly()
    ensures BodyOf(Then(New([T("t1\n"), T("t2\n"), T("t3\n")]), App)) == "t1\nt2\nt3\napp\n"
  {
    ThreeTags();
    ThenWritesTagsThenTerminal([T("t1\n"), T("t2\n"), T("t3\n")], App);
    TestAppWritesApp("/");
  }

  /** Prepending a tag middleware prepends its tag. */
  lemma TagsCons(t: string, rest: seq<Constructor>)
    requires AllTags(rest)
    ensures AllTags([T(t)] + rest)
    ensures Tags([T(t)] + rest) == t + Tags(rest)
  {
    assert ([T(t)] + rest)[1..] == rest;
  }

  /** The tags of t1, t2, t3, t4, joined. */
  lemma FourTags()
    ensures Tags([T("t1\n"), T("t2\n"), T("t3\n"), T("t4\n")]) == "t1\nt2\nt3\nt4\n"
  {
    TagsCons("t4\n", []);
    assert [T("t4\n")] == [T("t4\n")] + [];
    TagsCons("t3\n", [T("t4\n")]);
    TagsCons("t2\n", [T("t3\n"), T("t4\n")]);
    TagsCons("t1\n", [T("t2\n"), T("t3\n"), T("t4\n")]);
  }

  /** The chain t1, t2, t3, t4 around testApp writes "t1\nt2\nt3\nt4\napp\n". */
  lemma FourTagsThenApp()
    ensures Then(New([T("t1\n"), T("t2\n"), T("t3\n"), T("t4\n")]), App).Success?
    ensures BodyOf(Then(New([T("t1\n"), T("t2\n"), T("t3\n"), T("t4\n")]), App)) ==
            "t1\nt2\nt3\nt4\napp\n"
  {
    FourTags();
    ThenWritesTagsThenTerminal([T("t1\n"), T("t2\n"), T("t3\n"), T("t4\n")], App);
    TestAppWritesApp("/");
  }

  /** Append leaves the original chain at two constructors, yields four, and the
      result writes "t1\nt2\nt3\nt4\napp\n". */
  lemma AppendAddsHandlersCorrectly()
    ensures var chain := New([T("t1\n"), T("t2\n")]);
            var newChain := Append(chain, [T("t3\n"), T("t4\n")]);
            && |chain.constructors| == 2
            && |newChain.constructors| == 4
            && BodyOf(Then(newChain, App)) == "t1\nt2\nt3\nt4\napp\n"
  {
    var chain := New([T("t1\n"), T("t2\n")]);
    var more := [T("t3\n"), T("t4\n")];
    var cs := chain.constructors + more;
    assert cs == [T("t1\n"), T("t2\n"), T("t3\n"), T("t4\n")];
    FourTagsThenApp();
  }

  /** Appending to a chain leaves that chain exactly as it was. */
  lemma AppendRespectsImmutability()
    ensures var chain := New([T("")]);
            var newChain := Append(chain, [T("")]);
            chain.constructors == [T("")] && newChain.constructors == [T(""), T("")]
  {
  }

  /** Extend leaves both chains at two constructors, yields four, and the
      result writes "t1\nt2\nt3\nt4\napp\n". */
  lemma ExtendAddsHandlersCorrectly()
    ensures var chain1 := New([T("t1\n"), T("t2\n")]);
            var chain2 := New([T("t3\n"), T("t4\n")]);
            var newChain := Extend(chain1, chain2);
            && |chain1.constructors| == 2
            && |chain2.constructors| == 2
            && |newChain.constructors| == 4
            && BodyOf(Then(newChain, App)) == "t1\nt2\nt3\nt4\napp\n"
  {
    var chain1 := New([T("t1\n"), T("t2\n")]);
    var chain2 := New([T("t3\n"), T("t4\n")]);
    var cs := chain1.constructors + chain2.constructors;
    assert cs == [T("t1\n"), T("t2\n"), T("t3\n"), T("t4\n")];
    FourTagsThenApp();
  }

  /** Extending a chain leaves that chain exactly as it was. */
  lemma ExtendRespectsImmutability()
    ensures var chain := New([T("")]);
            var newChain := Extend(chain, New([T("")]));
            chain.constructors == [T("")] && newChain.constructors == [T(""), T("")]
  {
  }
}
