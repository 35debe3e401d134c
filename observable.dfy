/**
 * The Observable monad of OSlash: a continuation monad in continuation-passing
 * style, `newtype Cont r a = Cont ((a -> r) -> r)`.
 *
 * An `Observable<A, R>` holds one suspended computation. Given a continuation
 * (`on_next`) of type `A -> R`, the computation produces an `R`, normally by
 * passing values of type `A` to the continuation. Nothing runs until
 * `Subscribe` supplies the continuation.
 *
 * Dafny cannot compare function values, so every law is stated as "run with
 * the same continuation `k`, both sides give the same result, for every `k`".
 */
module ObservableMonad {

  /** The one entity: the held computation. The datatype constructor plays the
      part of `Observable.__init__`, which stores the computation and nothing else. */
  datatype Observable<!A, !R> = Observable(run: (A -> R) -> R)

  /** Runs the computation with the continuation `onNext`; the only operation
      that executes anything. */
  function Subscribe<A, R>(m: Observable<A, R>, onNext: A -> R): R
  {
    m.run(onNext)
  }

  /** `unit` / `just`: the computation that hands `x` to its continuation. */
  function Unit<A, R>(x: A): Observable<A, R>
  {
    Observable((onNext: A -> R) => onNext(x))
  }

  /** `map`: runs the source with the continuation `onNext` composed after `mapper`. */
  function Map<A, B, R>(m: Observable<A, R>, mapper: A -> B): Observable<B, R>
  {
    Observable((onNext: B -> R) => Subscribe(m, (x: A) => onNext(mapper(x))))
  }

  /** `bind` / `flat_map`: runs the source; each value `a` it delivers is turned
      into the observable `fn(a)`, which is run with the outer continuation. */
  function Bind<A, B, R>(m: Observable<A, R>, fn: A -> Observable<B, R>): Observable<B, R>
  {
    Observable((onNext: B -> R) => Subscribe(m, (a: A) => Subscribe(fn(a), onNext)))
  }

  // ---------------------------------------------------------------------------
  // Continuations with an explicit effect log, for `filter`.

  /** What a Python callable returns: `None`, or some value. */
  datatype Ret<V> = Nothing | Returned(value: V)

  /** The result of running a continuation: the effects it performed, in order,
      and what it returned. */
  datatype Trace<E, V> = Trace(log: seq<E>, result: Ret<V>)

  /** The inner continuation `_next` that `filter` hands to its source: when
      `keep(x)` holds it calls `onNext(x)` for its effect only; either way
      it returns `None`. */
  function FilterNext<A(!new), E, V>(keep: A -> bool, onNext: A -> Trace<E, V>): (next: A -> Trace<E, V>)
    ensures forall x :: next(x).result == Nothing
    ensures forall x :: keep(x) ==> next(x).log == onNext(x).log
    ensures forall x :: !keep(x) ==> next(x).log == []
  {
    (x: A) => if keep(x) then Trace(onNext(x).log, Nothing) else Trace([], Nothing)
  }

  /** `filter`: runs the source with `FilterNext(keep, onNext)` and returns
      whatever the source returns. */
  function Filter<A(!new), E, V>(m: Observable<A, Trace<E, V>>, keep: A -> bool): Observable<A, Trace<E, V>>
  {
    Observable((onNext: A -> Trace<E, V>) => Subscribe(m, FilterNext(keep, onNext)))
  }

  // ---------------------------------------------------------------------------
  // call-with-current-continuation.

  /** The escape observable built by `call_cc` around the captured continuation
      `onNext`: it ignores the continuation it is run with and calls `onNext(a)`. */
  function Escape<A, B(!new), R(!new)>(onNext: A -> R, a: A): (esc: Observable<B, R>)
    ensures forall k :: Subscribe(esc, k) == onNext(a)
  {
    Observable((_: B -> R) => onNext(a))
  }

  /** `call_cc`: captures the continuation `onNext`, gives `fn` the escape
      function bound to it, and runs what `fn` returns with `onNext`. */
  function CallCC<A, B(!new), R(!new)>(fn: (A -> Observable<B, R>) -> Observable<A, R>): Observable<A, R>
  {
    Observable((onNext: A -> R) => Subscribe(fn((a: A) => Escape(onNext, a)), onNext))
  }

  // ---------------------------------------------------------------------------
  // Equality.

  /** `__eq__`: both observables are run with the identity continuation and the
      results compared. */
  predicate Eq<A(==)>(m1: Observable<A, A>, m2: Observable<A, A>)
  {
    Subscribe(m1, (x: A) => x) == Subscribe(m2, (x: A) => x)
  }

  /** `__eq__` on observables whose continuations return a `Trace`, such as
      filtered ones: the identity continuation performs no effect and returns
      its argument, so both sides are run with `x => Trace([], Returned(x))`. */
  predicate EqTraced<A(==), E(==)>(m1: Observable<A, Trace<E, A>>, m2: Observable<A, Trace<E, A>>)
  {
    Subscribe(m1, (x: A) => Trace([], Returned(x))) == Subscribe(m2, (x: A) => Trace([], Returned(x)))
  }

  // ---------------------------------------------------------------------------
  // Extensionality.

  /** `m` runs as `unit(x)`: whatever the continuation, it hands it `x`. */
  ghost predicate Delivers<A(!new), R(!new)>(m: Observable<A, R>, x: A)
  {
    forall k: A -> R :: Subscribe(m, k) == k(x)
  }

  /** `esc` behaves as an escape bound to `onNext`: for every value `a`,
      `esc(a)` ignores the continuation it is run with and gives `onNext(a)`. */
  ghost predicate IsEscape<A(!new), B(!new), R(!new)>(esc: A -> Observable<B, R>, onNext: A -> R)
  {
    forall a, k :: Subscribe(esc(a), k) == onNext(a)
  }

  /** Two continuations that return the same result for every value. */
  ghost predicate Pointwise<A(!new), R>(k1: A -> R, k2: A -> R)
  {
    forall a :: k1(a) == k2(a)
  }

  /** A computation that looks only at what its continuation returns, never at
      which function object it was given. The laws below need this of the
      source observable, because Dafny cannot prove two lambdas equal merely
      because they agree everywhere; every combinator preserves it (the Preserves lemmas). */
  ghost predicate Extensional<A(!new), R(!new)>(m: Observable<A, R>)
  {
    forall k1, k2 :: Pointwise(k1, k2) ==> Subscribe(m, k1) == Subscribe(m, k2)
  }
}
