# alice middleware chain in Dafny

This project models the `Chain` type of the Go package `alice`. A chain is an
ordered, immutable list of middleware constructors. Each constructor has the type
`func(http.Handler) (http.Handler, error)`. The operations are:

- `New` builds a chain from constructors.
- `Append` and `Extend` derive a longer chain. Both leave the original untouched.
- `Then` and `ThenFunc` fold the constructors right to left around a terminal
  handler. The first constructor becomes the outermost wrapper and runs first.
- A nil terminal is replaced by `http.DefaultServeMux` before any wrapping.

Files:

- `http.dfy` (module `Http`) is a symbolic stand-in for `net/http`.
  - `Handler` is a datatype with these cases: the nil interface value,
    `DefaultServeMux`, a `HandlerFunc`, the tag handler built by the test's
    `tagMiddleware`, and `http.StripPrefix`.
  - `Serve` maps a handler and a request path to the trace of effects on the
    response writer.
  - `Body` reads the response body off that trace.
- `alice.dfy` (module `Alice`) holds the chain itself.
  - A `Chain` wraps a `seq<Constructor>`. `New`, `Append`, `Extend`, `Then` and
    `ThenFunc` are pure functions over it.
  - `Wrap` is the right fold.
  - `ThenLoop` is the index loop of the Go implementation. It walks from the last
    constructor to the first and returns at the first error. It is proved equal
    to `Then`.
  - The lemmas state the ordering law and the composition law for concatenated
    chains, plus what happens when a constructor fails.
- `alice_test.dfy` (module `AliceTest`) states each scenario of `chain_test.go`
  as a lemma over the model.

`chain.go` itself is not cited below. Each row cites the lines of `chain_test.go`
(a test or a fixture) that the member models. The tests fix the scenarios
stated in `alice_test.dfy`. Two behaviours are not exercised by any test, and
the model follows the usual alice implementation for them:

- a nil terminal on a non-empty chain is defaulted to `DefaultServeMux` before
  any wrapping (`Alice.ThenNilIsDefault`, and the `Defaulted` step of `Alice.Then`);
  the tests call `Then(nil)` and `ThenFunc(nil)` only on an empty chain;
- constructor failure: the constructors are applied from last to first, and the
  first error is returned. No test in `chain_test.go` makes a constructor fail.
  The lemma `Alice.WrapFailureIsLastFailing` states which error is reported.

## Model

| member | source | states |
|---|---|---|
| Http.TaggedWritesTagFirst | chain_test.go:16-27 | the handler built by a tag middleware writes its tag to the body and then whatever the handler it wraps writes |
| Http.ServeShape | chain_test.go:18-25 | serving writes one Write per tag-middleware layer, the i-th carrying the i-th layer's tag counting from the outermost, and then has exactly the one effect of the innermost handler |
| Http.TestAppWritesApp | chain_test.go:37-42 | testApp answers any request with exactly one write, "app\n" |
| Alice.Apply | chain_test.go:16-27 | running a tag constructor on `h` succeeds with a tag handler wrapping exactly `h`; a constructor fails exactly when it is one that reports an error |
| Alice.New | chain_test.go:44-61 | the chain holds as many constructors as were given, and each one sits at the same index as in the argument slice |
| Alice.Append | chain_test.go:125-153 | the result has length len(original)+len(more); its first part is the original's constructors and its last part is `more`, in order |
| Alice.Extend | chain_test.go:155-185 | the result is the receiver's constructors followed by the other chain's, with length equal to the sum; it is the same as appending the other chain's constructors |
| Alice.Wrap | chain_test.go:106-123 | the fold fails exactly when some constructor in the sequence fails, the reported error is one raised by a constructor in the sequence, and an empty sequence gives back the handler unchanged |
| Alice.Defaulted | chain_test.go:72-79 | the terminal Then wraps is never nil: a nil terminal becomes DefaultServeMux and any other terminal is kept as it is |
| Alice.Then | chain_test.go:63-79 | on an empty chain a non-nil terminal comes back as itself with no wrapper, and nil comes back as DefaultServeMux; Then fails exactly when some constructor of the chain fails |
| Alice.ThenFunc | chain_test.go:81-104 | a nil function is treated like Then on the default dispatcher, and a non-nil one like Then on that function as a handler; on an empty chain the result is DefaultServeMux or the function itself |
| Alice.ThenLoop | chain_test.go:106-123 | the last-to-first loop with early return on error produces exactly the result of the right fold `Then` |
| Alice.WrapConcat | chain_test.go:155-176 | folding `a ++ b` first builds `b` around the terminal and then `a` around the result, and propagates a failure of `b` unchanged |
| Alice.WrapOrdersTags | chain_test.go:106-123 | for any sequence of tag middlewares the fold succeeds, and serving the result emits one write per tag in declared order followed by the terminal's effects |
| Alice.ThenOrdersHandlers | chain_test.go:106-123 | the ordering law for `Then(New(cs), h)`: the tags in declared order, then the effects of the terminal (defaulted if nil) |
| Alice.AppendThen | chain_test.go:125-144 | Then over an appended chain builds the appended constructors around the terminal first and the original chain around that |
| Alice.ExtendThen | chain_test.go:155-176 | Then over an extended chain builds the other chain around the terminal first and the receiver's constructors around that |
| Alice.AppendOrdersHandlers | chain_test.go:125-144 | after Append, serving writes the original tags, then the appended tags, then the terminal's output |
| Alice.ExtendOrdersHandlers | chain_test.go:155-176 | after Extend, serving writes the receiver's tags, then the other chain's tags, then the terminal's output |
| Alice.AppendAppend | chain_test.go:125-127 | an algebraic law of the model's Append (not itself a tested behaviour): appending twice is the same as appending the concatenation once |
| Alice.ThenNilIsDefault | chain_test.go:72-79 | a nil terminal behaves as DefaultServeMux for any chain; the test shows only the empty chain, and the non-empty case follows the usual alice implementation |
| Alice.NaiveThenFuncLosesDefault | chain_test.go:81-88 | wrapping a nil function before the nil check would return a non-nil handler that panics, whereas ThenFunc returns DefaultServeMux |
| AliceTest.TagWritesBody | chain_test.go:16-27 | the body written by a chain of tag middlewares is its tags concatenated in declared order |
| AliceTest.ThenWritesTagsThenTerminal | chain_test.go:106-123 | for tag middlewares, `New(cs).Then(h)` succeeds and its body is the concatenated tags followed by the terminal's body |
| AliceTest.FourTagsThenApp | chain_test.go:141-143 | the chain t1, t2, t3, t4 around testApp writes "t1\nt2\nt3\nt4\napp\n" |
| AliceTest.NewAddsConstructors | chain_test.go:44-61 | New over the two constructors of the test keeps each at its index |
| AliceTest.ThenWorksWithNoMiddleware | chain_test.go:63-70 | `New().Then(testApp)` is testApp itself |
| AliceTest.ThenTreatsNilAsDefaultServeMux | chain_test.go:72-88 | `New().Then(nil)` and `New().ThenFunc(nil)` are both DefaultServeMux |
| AliceTest.ThenFuncConstructsHandlerFunc | chain_test.go:90-104 | `New().ThenFunc(fn)` is `fn` as a HandlerFunc handler, and serving it writes status 200 |
| AliceTest.ThenOrdersHandlersCorrectly | chain_test.go:106-123 | `New(t1,t2,t3).Then(testApp)` writes "t1\nt2\nt3\napp\n" |
| AliceTest.AppendAddsHandlersCorrectly | chain_test.go:125-144 | the original chain keeps length 2, the appended one has length 4 and writes "t1\nt2\nt3\nt4\napp\n" |
| AliceTest.AppendRespectsImmutability | chain_test.go:146-153 | after Append the original chain still holds exactly its one constructor |
| AliceTest.ExtendAddsHandlersCorrectly | chain_test.go:155-176 | both source chains keep length 2, the extended one has length 4 and writes "t1\nt2\nt3\nt4\napp\n" |
| AliceTest.ExtendRespectsImmutability | chain_test.go:178-185 | after Extend the receiver still holds exactly its one constructor |

## Left out

- `net/http` is only symbolic here. This covers `ResponseWriter`, `httptest.NewRecorder`,
  `http.NewRequest` and headers. Serving is a pure function from a handler and a
  request path to a trace of effects. The default dispatcher's routing is one
  `Dispatch` event, because its registered routes are outside the package.
- The write-error branches of `tagMiddleware` and `testApp` (`http.Error` after a
  failed `Write`) are left out. Writes always succeed in the model.
- Serving an `http.StripPrefix` handler is left out. It is a handler value so that
  the test's constructor can return it, but serving it is a single `Stripped`
  event. No test serves one.
- `funcsEqual` and the reflected type check in `TestThenFuncConstructsHandlerFunc`
  are left out. Datatype equality replaces function-pointer identity, and "is a
  HandlerFunc" becomes "is the `Func` case".
- The address-identity checks in the immutability tests are left out. Chains are
  immutable values in Dafny, so a derived chain cannot share storage with its
  source. The model states instead that the source chain is unchanged.
- Constructors form a closed datatype. It has the test's fixtures (`TagMiddleware`,
  the constructor returning nil, the one returning `StripPrefix` of nil) and one
  `Failing` constructor. Arbitrary user middleware is not modelled. No test makes
  a constructor fail, so the failure results of `Alice.Then`, `Alice.Wrap` and
  `Alice.WrapFailureIsLastFailing` describe the model's error plumbing, not
  tested behaviour.
- Concurrent use of a shared chain is left out. The chain is a value and every
  operation is a pure function, so there is nothing further to model.
