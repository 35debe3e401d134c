# OSlash Observable, modelled in Dafny

OSlash's `Observable` (oslash/observable.py) is the continuation monad
`Cont r a = Cont ((a -> r) -> r)` written in continuation-passing style. An
observable holds one suspended computation; `subscribe(on_next)` runs it with
the continuation `on_next`. The combinators `unit`/`just`, `map`,
`bind`/`flat_map`, `filter` and `call_cc` each build a new observable around a
closure, and `==` compares two observables by running both with the identity
continuation.

The model (three files, three modules):

- `observable.dfy`, module `ObservableMonad`: the datatype
  `Observable<A, R>` with its one field `run: (A -> R) -> R` (the datatype
  constructor plays the part of `__init__`); the operations `Subscribe`,
  `Unit`, `Map`, `Bind`, `FilterNext` (the inner `_next` of `filter`),
  `Filter`, `Escape` (the escape observable of `call_cc`), `CallCC`, `Eq` and
  `EqTraced` (`==` on observables whose continuations return a `Trace`);
  the result type `Trace` used by `filter`; and the specification predicates
  `Delivers` (runs as `unit(x)`), `IsEscape`, `Pointwise` and `Extensional`.
  `just` and `flat_map` are aliases in the source and are the members `Unit`
  and `Bind` here.
- `laws.dfy`, module `ObservableLaws`: the functor and monad laws, the
  behaviour of `filter`, `call_cc` and `==`, and the lemmas showing that the
  combinators keep observables extensional.
- `scenarios.dfy`, module `ObservableScenarios`: worked examples of
  `filter`, `call_cc`, `==` and a `map`/`bind` pipeline, run against `Recorder`, a continuation that records the value it
  receives and returns `None`, as `print` does.

Two modelling choices shape every statement:

- Dafny cannot compare function values, so each law says that both sides,
  run with the same continuation `k`, give the same result, for every `k`.
- Dafny has no function extensionality: two lambdas that agree on every
  argument cannot be proved equal. The laws whose two sides hand the
  source two such continuations (`MapIdentity`, `MapComposition`,
  `RightIdentity`, `Associativity` and others) therefore require the source
  to be `Extensional`: given continuations that agree everywhere, it returns
  the same result. The `...PreservesExtensional` lemmas show that `unit`,
  `map`, `bind`, `filter` and the escape observable build extensional
  observables from extensional parts.

`filter`'s `_next` calls `on_next(x)` for its effect only and returns `None`.
To make that effect visible, `Filter` works on continuations whose results are
a `Trace(log, result)`: the effects performed, in order, and the Python return
value (`Nothing` for `None`). `_next` keeps `on_next`'s log when the predicate
holds, records nothing otherwise, and returns `Nothing` in both cases.

## Model

| member | source | states |
|---|---|---|
| `ObservableMonad.FilterNext` | oslash/observable.py:59-62 | the inner continuation always returns `None`; when the predicate holds it has exactly `on_next(x)`'s effect, otherwise no effect |
| `ObservableMonad.Escape` | oslash/observable.py:73-74 | the escape observable ignores whatever continuation it is run with and returns the captured `on_next(a)` |
| `ObservableLaws.UnitRunsContinuation` | oslash/observable.py:33-36 | `unit(x)` run with any `k` gives exactly `k(x)` |
| `ObservableLaws.MapIdentity` | oslash/observable.py:39-45 | functor identity: `m.map(identity)` runs as `m` under every continuation |
| `ObservableLaws.MapComposition` | oslash/observable.py:39-45 | functor composition: `m.map(f).map(g)` runs as `m.map(g∘f)`, `f` applied first |
| `ObservableLaws.MapAfterDelivery` | oslash/observable.py:39-45 | mapping over a source that runs as `unit(x)` runs as `unit(mapper(x))` |
| `ObservableLaws.LeftIdentity` | oslash/observable.py:47-52 | `unit(x).bind(fn)` runs as `fn(x)` under every continuation |
| `ObservableLaws.BindAfterDelivery` | oslash/observable.py:47-52 | `m.bind(fn)` runs as `fn(x)` whenever `m` runs as `unit(x)` |
| `ObservableLaws.BindAfterIgnoring` | oslash/observable.py:47-52 | when the source ignores its continuation, `bind` gives the source's result and `fn` is never used |
| `ObservableLaws.RightIdentity` | oslash/observable.py:47-52 | `m.bind(unit)` runs as `m` under every continuation |
| `ObservableLaws.Associativity` | oslash/observable.py:47-52 | `m.bind(f).bind(g)` runs as `m.bind(λx. f(x).bind(g))` under every continuation |
| `ObservableLaws.MapIsBindUnit` | oslash/observable.py:39-52 | `m.map(f)` runs as `m.bind(λx. unit(f(x)))` |
| `ObservableLaws.FilterRunsSourceWithNext` | oslash/observable.py:55-65 | the filtered observable returns what the source returns when run with `_next` (whose behaviour `FilterNext` states) |
| `ObservableLaws.FilterUnit` | oslash/observable.py:55-65 | filtering `unit(x)`: `on_next`'s effect happens exactly when the predicate accepts `x`, and the result is `None` |
| `ObservableLaws.FilterRejectAllIgnoresOnNext` | oslash/observable.py:55-65 | with a predicate that rejects everything, the result does not depend on `on_next` at all |
| `ObservableLaws.FilterAcceptAll` | oslash/observable.py:55-65 | with a predicate that accepts everything, the source runs with `on_next`'s effects kept and its return values replaced by `None` |
| `ObservableLaws.FilterFusion` | oslash/observable.py:55-65 | `m.filter(p).filter(q)` runs as `m.filter(λx. p(x) and q(x))` |
| `ObservableLaws.EscapeDiscardsBind` | oslash/observable.py:47-52 | every `bind` chained after an escape is discarded: the captured continuation receives the escape value |
| `ObservableLaws.EscapeDiscardsMap` | oslash/observable.py:39-45 | every `map` chained after an escape is discarded likewise |
| `ObservableLaws.CallCCByEscape` | oslash/observable.py:67-76 | `call_cc(fn)` run with `k` gives `r` whenever `fn`, handed any escape bound to `k`, yields an observable that gives `r` with `k` |
| `ObservableLaws.CallCCWithoutEscape` | oslash/observable.py:67-76 | a `call_cc` body that never uses its escape runs as the body itself |
| `ObservableLaws.CallCCEscapeSkipsRest` | oslash/observable.py:67-76 | `call_cc(λesc. m.bind(esc).bind(rest))` runs as `m`: the escape delivers `m`'s value to the captured continuation and `rest` never runs |
| `ObservableLaws.CallCCEscapeWithIsMap` | oslash/observable.py:67-76 | `call_cc(λesc. m.bind(λx. esc(h(x))))` runs as `m.map(h)` |
| `ObservableLaws.EqUnit` | oslash/observable.py:81-82 | `unit(x) == unit(y)` holds exactly when `x == y` |
| `ObservableLaws.EqTracedUnit` | oslash/observable.py:81-82 | with traced continuations, `unit(x) == unit(y)` holds exactly when `x == y` |
| `ObservableLaws.FilteredUnitsEqTraced` | oslash/observable.py:55-65 | any two filtered `unit` observables are equal under `==`: both return `None` and record nothing |
| `ObservableLaws.FilterUnitSilent` | oslash/observable.py:55-65 | filtering `unit(x)` with a continuation that records nothing for `x` returns `None` and records nothing |
| `ObservableLaws.SameRunsAreEq` | oslash/observable.py:81-82 | observables that run alike under every continuation are equal |
| `ObservableLaws.EqDoesNotImplySameRuns` | oslash/observable.py:81-82 | the converse fails: `==` looks only at the identity continuation, and a computation that ignores its continuation can equal `unit(0)` |
| `ObservableLaws.UnitPreservesExtensional` | oslash/observable.py:33-36 | `unit(x)` is extensional |
| `ObservableLaws.MapPreservesExtensional` | oslash/observable.py:39-45 | `map` over an extensional source is extensional |
| `ObservableLaws.BindPreservesExtensional` | oslash/observable.py:47-52 | `bind` of an extensional source with a function giving extensional observables is extensional |
| `ObservableLaws.FilterPreservesExtensional` | oslash/observable.py:55-65 | `filter` over an extensional source is extensional |
| `ObservableLaws.EscapePreservesExtensional` | oslash/observable.py:74 | the escape observable is extensional |
| `ObservableScenarios.FilterRejectScenario` | oslash/observable.py:55-65 | `unit(4).filter(x > 10)` never reaches `on_next` and returns `None` |
| `ObservableScenarios.FilterAcceptScenario` | oslash/observable.py:55-65 | `unit(4).filter(x > 1)` delivers 4 to `on_next` exactly once and returns `None` |
| `ObservableScenarios.CallCCScenario` | oslash/observable.py:67-76 | `call_cc(λesc. unit(1).bind(λ_. esc(42)).bind(λ_. unit(99)))` run with any `k` gives `k(42)` |
| `ObservableScenarios.CallCCScenarioRecorded` | oslash/observable.py:67-76 | in that example 42 reaches `on_next` exactly once and 99 never |
| `ObservableScenarios.EqScenario` | oslash/observable.py:81-82 | `unit(5) == unit(5)` and not `unit(5) == unit(6)` |
| `ObservableScenarios.PipelineScenario` | oslash/observable.py:33-52 | `unit(3).map(λx. x + 1).bind(λx. unit(x * 2))` delivers 8 to `on_next` exactly once |

`Subscribe` (oslash/observable.py:78-79), `Unit` (:33-36), `Map` (:39-45),
`Bind` (:47-52), `Filter` (:55-65), `CallCC` (:67-76), `Eq` and `EqTraced`
(:81-82) are plain definitions without contracts of their own; what they
promise is stated by the lemmas above:

- `Subscribe`: every law is stated through it.
- `Unit`: `UnitRunsContinuation`, `LeftIdentity`, `RightIdentity`.
- `Map`: `MapIdentity`, `MapComposition`, `MapAfterDelivery`, `MapIsBindUnit`.
- `Bind`: `LeftIdentity`, `RightIdentity`, `Associativity`, `BindAfterDelivery`, `BindAfterIgnoring`.
- `Filter`: `FilterRunsSourceWithNext`, `FilterUnit`, `FilterFusion`, `FilterAcceptAll`, `FilterRejectAllIgnoresOnNext`.
- `CallCC`: `CallCCByEscape`, `CallCCWithoutEscape`, `CallCCEscapeSkipsRest`, `CallCCEscapeWithIsMap`.
- `Eq`: `EqUnit`, `SameRunsAreEq`, `EqDoesNotImplySameRuns`; `EqTraced`: `EqTracedUnit`, `FilteredUnitsEqTraced`.

## Left out

- Laziness: `__init__` stores a thunk that returns the computation
  (oslash/observable.py:31). In a pure model storing the function is the same
  thing, so the datatype holds the computation directly.
- The `Monad` and `Functor` base classes (oslash/abc.py is not part of this
  model): they are capability tags with no behaviour.
- `identity` and `compose` (oslash/util.py is not part of this model): they
  appear inline as Dafny lambdas.
- Exceptions raised by mappers, predicates or continuations: they propagate
  unchanged and there is no handling code. All Dafny arrows here are total.
- Side effects of continuations other than through `Trace`: the log records
  only the effects of the continuation results a computation passes on. A
  computation that calls `on_next` and discards the result loses that
  effect in the model, where Python would still have performed it.
- `Filter` is modelled only for continuations whose results are `Trace`
  values, because `_next` must produce Python's `None` as a value of the
  continuation's result type.
- Non-terminating computations under `==`: every Dafny function here is
  total, so the model cannot express a comparison that never returns.
- Eq: applies only to observables whose result type is their value type,
  because the identity continuation must return the value it is given. On
  filtered observables, whose continuations return a `Trace`, `Eq` has no
  faithful counterpart of Python's `==`; `EqTraced` takes its place, running
  both sides with the traced identity `x => Trace([], Returned(x))`.
- Python's dynamic typing: the type parameters `A`, `B`, `R` are fixed per
  use.
- `call_cc` has no extensionality-preservation lemma: whether
  `call_cc(fn)` is extensional depends on how `fn` treats the escape
  function it is given, which the source does not constrain.
- MapIdentity: requires the source to be `Extensional`, because Dafny cannot identify two pointwise-equal continuations.
- MapComposition: requires the source to be `Extensional`, for the same reason.
- RightIdentity: requires the source to be `Extensional`, for the same reason.
- Associativity: requires the source to be `Extensional`, for the same reason.
- MapIsBindUnit: requires the source to be `Extensional`, for the same reason.
- FilterRejectAllIgnoresOnNext: requires the source to be `Extensional`, for the same reason.
- FilterAcceptAll: requires the source to be `Extensional`, for the same reason.
- FilterFusion: requires the source to be `Extensional`, for the same reason.
- CallCCEscapeSkipsRest: requires the source to be `Extensional`, for the same reason.
- CallCCEscapeWithIsMap: requires the source to be `Extensional`, for the same reason.
