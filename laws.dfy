/**
 * The functor and monad laws the Observable claims, and the behaviour of
 * `filter`, `call_cc` and `__eq__`, each stated for every continuation.
 */
module ObservableLaws {
  import opened ObservableMonad

  /** Running an extensional observable with two continuations that agree
      everywhere gives the same result. */
  lemma RunsAlike<A(!new), R(!new)>(m: Observable<A, R>, k1: A -> R, k2: A -> R)
    requires Extensional(m)
    requires Pointwise(k1, k2)
    ensures Subscribe(m, k1) == Subscribe(m, k2)
  {
  }

  // ---------------------------------------------------------------------------
  // Every combinator builds an extensional observable from extensional parts.

  lemma UnitPreservesExtensional<A(!new), R(!new)>(x: A)
    ensures Extensional(Unit<A, R>(x))
  {
  }

  lemma MapPreservesExtensional<A(!new), B(!new), R(!new)>(m: Observable<A, R>, mapper: A -> B)
    requires Extensional(m)
    ensures Extensional(Map(m, mapper))
  {
  }

  lemma BindPreservesExtensional<A(!new), B(!new), R(!new)>(m: Observable<A, R>, fn: A -> Observable<B, R>)
    requires Extensional(m)
    requires forall a :: Extensional(fn(a))
    ensures Extensional(Bind(m, fn))
  {
  }

  lemma FilterPreservesExtensional<A(!new), E(!new), V(!new)>(m: Observable<A, Trace<E, V>>, keep: A -> bool)
    requires Extensional(m)
    ensures Extensional(Filter(m, keep))
  {
    forall k1: A -> Trace<E, V>, k2: A -> Trace<E, V> | Pointwise(k1, k2)
      ensures Subscribe(Filter(m, keep), k1) == Subscribe(Filter(m, keep), k2)
    {
      assert Pointwise(FilterNext(keep, k1), FilterNext(keep, k2)) by {
        forall x: A ensures FilterNext(keep, k1)(x) == FilterNext(keep, k2)(x) {
          assert k1(x) == k2(x);
        }
      }
    }
  }

  lemma EscapePreservesExtensional<A, B(!new), R(!new)>(onNext: A -> R, a: A)
    ensures Extensional(Escape<A, B, R>(onNext, a))
  {
  }

  // ---------------------------------------------------------------------------
  // unit, and the functor laws.

  lemma UnitRunsContinuation<A, R>(x: A)
    ensures forall k: A -> R :: Subscribe(Unit<A, R>(x), k) == k(x)
  {
  }

  lemma MapIdentity<A(!new), R(!new)>(m: Observable<A, R>)
    requires Extensional(m)
    ensures forall k: A -> R :: Subscribe(Map(m, (x: A) => x), k) == Subscribe(m, k)
  {
  }

  lemma MapComposition<A(!new), B, C, R(!new)>(m: Observable<A, R>, f: A -> B, g: B -> C)
    requires Extensional(m)
    ensures forall k: C -> R ::
      Subscribe(Map(Map(m, f), g), k) == Subscribe(Map(m, (x: A) => g(f(x))), k)
  {
  }

  // ---------------------------------------------------------------------------
  // The monad laws.

  lemma LeftIdentity<A, B, R>(x: A, fn: A -> Observable<B, R>)
    ensures forall k: B -> R :: Subscribe(Bind(Unit(x), fn), k) == Subscribe(fn(x), k)
  {
  }

  /** Left identity for any source that runs as `unit(x)`. */
  lemma BindAfterDelivery<A(!new), B, R(!new)>(m: Observable<A, R>, x: A, fn: A -> Observable<B, R>)
    requires Delivers(m, x)
    ensures forall k: B -> R :: Subscribe(Bind(m, fn), k) == Subscribe(fn(x), k)
  {
  }

  /** Mapping over a source that runs as `unit(x)` runs as `unit(mapper(x))`. */
  lemma MapAfterDelivery<A(!new), B(!new), R(!new)>(m: Observable<A, R>, x: A, mapper: A -> B)
    requires Delivers(m, x)
    ensures Delivers(Map(m, mapper), mapper(x))
  {
  }

  /** A source that ignores its continuation makes every `bind` after it
      irrelevant. */
  lemma BindAfterIgnoring<A(!new), B(!new), R(!new)>(m: Observable<A, R>, r: R, fn: A -> Observable<B, R>)
    requires forall k: A -> R :: Subscribe(m, k) == r
    ensures forall k: B -> R :: Subscribe(Bind(m, fn), k) == r
  {
  }

  lemma RightIdentity<A(!new), R(!new)>(m: Observable<A, R>)
    requires Extensional(m)
    ensures forall k: A -> R :: Subscribe(Bind(m, (x: A) => Unit(x)), k) == Subscribe(m, k)
  {
    forall k: A -> R ensures Subscribe(Bind(m, (x: A) => Unit(x)), k) == Subscribe(m, k) {
      var c := (a: A) => Subscribe(((x: A) => Unit<A, R>(x))(a), k);
      forall a: A ensures c(a) == k(a) {
        assert Subscribe(Unit<A, R>(a), k) == k(a);
      }
      RunsAlike(m, c, k);
    }
  }

  lemma Associativity<A(!new), B, C, R(!new)>(m: Observable<A, R>, f: A -> Observable<B, R>, g: B -> Observable<C, R>)
    requires Extensional(m)
    ensures forall k: C -> R ::
      Subscribe(Bind(Bind(m, f), g), k) == Subscribe(Bind(m, (x: A) => Bind(f(x), g)), k)
  {
    forall k: C -> R ensures Subscribe(Bind(Bind(m, f), g), k) == Subscribe(Bind(m, (x: A) => Bind(f(x), g)), k) {
      var c1 := (a: A) => Subscribe(f(a), (b: B) => Subscribe(g(b), k));
      var c2 := (a: A) => Subscribe(((x: A) => Bind(f(x), g))(a), k);
      forall a: A ensures c1(a) == c2(a) {
        assert c2(a) == Subscribe(Bind(f(a), g), k);
      }
      RunsAlike(m, c1, c2);
    }
  }

  /** `map` is `bind` followed by `unit`. */
  lemma MapIsBindUnit<A(!new), B, R(!new)>(m: Observable<A, R>, mapper: A -> B)
    requires Extensional(m)
    ensures forall k: B -> R :: Subscribe(Map(m, mapper), k) == Subscribe(Bind(m, (x: A) => Unit(mapper(x))), k)
  {
    forall k: B -> R ensures Subscribe(Map(m, mapper), k) == Subscribe(Bind(m, (x: A) => Unit(mapper(x))), k) {
      var c1 := (x: A) => k(mapper(x));
      var c2 := (a: A) => Subscribe(((x: A) => Unit<B, R>(mapper(x)))(a), k);
      forall a: A ensures c1(a) == c2(a) {
        assert c2(a) == Subscribe(Unit<B, R>(mapper(a)), k);
      }
      RunsAlike(m, c1, c2);
    }
  }

  // ---------------------------------------------------------------------------
  // filter.

  /** Filtering `unit(x)`: `onNext` takes effect exactly when the predicate
      accepts `x`, and the result is `None` either way. */
  lemma FilterUnit<A(!new), E, V>(x: A, keep: A -> bool)
    ensures forall k: A -> Trace<E, V> ::
      Subscribe(Filter(Unit(x), keep), k) == Trace(if keep(x) then k(x).log else [], Nothing)
  {
  }

  /** The filtered observable returns what its source returns when run with
      the inner continuation; whenever that continuation is reached, its
      result is `None` and its effect is `onNext`'s effect or nothing. */
  lemma FilterRunsSourceWithNext<A(!new), E, V>(m: Observable<A, Trace<E, V>>, keep: A -> bool)
    ensures forall k: A -> Trace<E, V> ::
      Subscribe(Filter(m, keep), k) == Subscribe(m, FilterNext(keep, k))
  {
  }

  /** A predicate that rejects everything makes `onNext` irrelevant: the
      result is the same for every continuation. */
  lemma FilterRejectAllIgnoresOnNext<A(!new), E(!new), V(!new)>(m: Observable<A, Trace<E, V>>, keep: A -> bool)
    requires Extensional(m)
    requires forall x :: !keep(x)
    ensures forall k1: A -> Trace<E, V>, k2: A -> Trace<E, V> ::
      Subscribe(Filter(m, keep), k1) == Subscribe(Filter(m, keep), k2)
  {
  }

  /** A predicate that accepts everything passes every value on unchanged to
      `onNext`, keeping its effect and dropping its return value. */
  lemma FilterAcceptAll<A(!new), E(!new), V(!new)>(m: Observable<A, Trace<E, V>>, keep: A -> bool)
    requires Extensional(m)
    requires forall x :: keep(x)
    ensures forall k: A -> Trace<E, V> ::
      Subscribe(Filter(m, keep), k) == Subscribe(m, (x: A) => Trace(k(x).log, Nothing))
  {
  }

  /** Two filters in a row behave as one filter on the conjunction. */
  lemma FilterFusion<A(!new), E(!new), V(!new)>(m: Observable<A, Trace<E, V>>, p: A -> bool, q: A -> bool)
    requires Extensional(m)
    ensures forall k: A -> Trace<E, V> ::
      Subscribe(Filter(Filter(m, p), q), k) == Subscribe(Filter(m, (x: A) => p(x) && q(x)), k)
  {
    forall k: A -> Trace<E, V>
      ensures Subscribe(Filter(Filter(m, p), q), k) == Subscribe(Filter(m, (x: A) => p(x) && q(x)), k)
    {
      assert Pointwise(FilterNext(p, FilterNext(q, k)), FilterNext((x: A) => p(x) && q(x), k));
    }
  }

  // ---------------------------------------------------------------------------
  // call_cc.

  /** Whatever is chained after an escape is discarded: the captured
      continuation receives the escape value. */
  lemma EscapeDiscardsBind<A, B(!new), C(!new), R(!new)>(onNext: A -> R, a: A, fn: B -> Observable<C, R>)
    ensures forall k: C -> R :: Subscribe(Bind(Escape<A, B, R>(onNext, a), fn), k) == onNext(a)
  {
  }

  lemma EscapeDiscardsMap<A, B(!new), C, R(!new)>(onNext: A -> R, a: A, mapper: B -> C)
    ensures forall k: C -> R :: Subscribe(Map(Escape<A, B, R>(onNext, a), mapper), k) == onNext(a)
  {
  }

  /** `call_cc(fn)` run with `k` gives `r` whenever `fn`, handed any escape
      bound to `k`, builds an observable that gives `r` when run with `k`. */
  lemma CallCCByEscape<A(!new), B(!new), R(!new)>(fn: (A -> Observable<B, R>) -> Observable<A, R>, k: A -> R, r: R)
    requires forall esc :: IsEscape(esc, k) ==> Subscribe(fn(esc), k) == r
    ensures Subscribe(CallCC(fn), k) == r
  {
    var esc := (a: A) => Escape<A, B, R>(k, a);
    assert IsEscape(esc, k);
  }

  /** A `call_cc` body that never escapes runs as the body itself. */
  lemma CallCCWithoutEscape<A, B(!new), R(!new)>(m: Observable<A, R>)
    ensures forall k: A -> R ::
      Subscribe(CallCC((esc: A -> Observable<B, R>) => m), k) == Subscribe(m, k)
  {
  }

  /** Escaping from inside a chain of binds: the value given to the escape
      reaches the captured continuation, and the rest of the chain (`rest`)
      never runs. */
  lemma CallCCEscapeSkipsRest<A(!new), B(!new), R(!new)>(m: Observable<A, R>, rest: B -> Observable<A, R>)
    requires Extensional(m)
    ensures forall k: A -> R ::
      Subscribe(CallCC((esc: A -> Observable<B, R>) => Bind(Bind(m, esc), rest)), k) == Subscribe(m, k)
  {
    forall k: A -> R
      ensures Subscribe(CallCC((esc: A -> Observable<B, R>) => Bind(Bind(m, esc), rest)), k) == Subscribe(m, k)
    {
      var esc := (a: A) => Escape<A, B, R>(k, a);
      var next := (b: B) => Subscribe(rest(b), k);
      var c := (a: A) => Subscribe(esc(a), next);
      forall a: A ensures c(a) == k(a) {
        assert Subscribe(Escape<A, B, R>(k, a), next) == k(a);
      }
      RunsAlike(m, c, k);
      assert Subscribe(CallCC((e: A -> Observable<B, R>) => Bind(Bind(m, e), rest)), k)
          == Subscribe(Bind(Bind(m, esc), rest), k);
    }
  }

  /** Escaping with a transformed value is `map`. */
  lemma CallCCEscapeWithIsMap<A(!new), B(!new), R(!new)>(m: Observable<A, R>, h: A -> B)
    requires Extensional(m)
    ensures forall k: B -> R ::
      Subscribe(CallCC((esc: B -> Observable<B, R>) => Bind(m, (x: A) => esc(h(x)))), k) == Subscribe(Map(m, h), k)
  {
    forall k: B -> R
      ensures Subscribe(CallCC((esc: B -> Observable<B, R>) => Bind(m, (x: A) => esc(h(x)))), k) == Subscribe(Map(m, h), k)
    {
      var esc := (b: B) => Escape<B, B, R>(k, b);
      var c1 := (a: A) => Subscribe(((x: A) => esc(h(x)))(a), k);
      var c2 := (x: A) => k(h(x));
      forall a: A ensures c1(a) == c2(a) {
        assert Subscribe(Escape<B, B, R>(k, h(a)), k) == k(h(a));
      }
      RunsAlike(m, c1, c2);
      assert Subscribe(CallCC((e: B -> Observable<B, R>) => Bind(m, (x: A) => e(h(x)))), k)
          == Subscribe(Bind(m, (x: A) => esc(h(x))), k);
    }
  }

  // ---------------------------------------------------------------------------
  // Equality.

  /** `unit(x) == unit(y)` holds exactly when `x == y`. */
  lemma EqUnit<A>(x: A, y: A)
    ensures Eq(Unit(x), Unit(y)) <==> x == y
  {
  }

  /** Compared by `__eq__`, `unit(x)` and `unit(y)` with traced
      continuations are equal exactly when `x == y`. */
  lemma EqTracedUnit<A, E>(x: A, y: A)
    ensures EqTraced<A, E>(Unit(x), Unit(y)) <==> x == y
  {
  }

  /** Any two filtered `unit` observables are equal under `__eq__`: the inner
      continuation returns `None` whatever it is given, so both sides return
      `None` and record nothing. */
  lemma FilteredUnitsEqTraced<A(!new), E>(a: A, b: A, p: A -> bool, q: A -> bool)
    ensures EqTraced<A, E>(Filter(Unit(a), p), Filter(Unit(b), q))
  {
    var id: A -> Trace<E, A> := (x: A) => Trace([], Returned(x));
    FilterUnitSilent(a, p, id);
    FilterUnitSilent(b, q, id);
  }

  /** Filtering `unit(x)` for a continuation that records nothing for `x`
      gives `None` and records nothing. */
  lemma FilterUnitSilent<A(!new), E, V>(x: A, keep: A -> bool, k: A -> Trace<E, V>)
    requires k(x).log == []
    ensures Subscribe(Filter(Unit(x), keep), k) == Trace([], Nothing)
  {
    FilterUnit<A, E, V>(x, keep);
  }

  /** Observables that run alike under every continuation are equal. */
  lemma SameRunsAreEq<A>(m1: Observable<A, A>, m2: Observable<A, A>)
    requires forall k: A -> A :: Subscribe(m1, k) == Subscribe(m2, k)
    ensures Eq(m1, m2)
  {
  }

  /** The converse fails: equality looks only at the identity continuation, so
      a computation that ignores its continuation can equal `unit(0)`. */
  lemma EqDoesNotImplySameRuns()
    ensures exists m1: Observable<int, int>, m2: Observable<int, int> ::
      Eq(m1, m2) && Subscribe(m1, (x: int) => x + 1) != Subscribe(m2, (x: int) => x + 1)
  {
    var m1: Observable<int, int> := Unit(0);
    var m2: Observable<int, int> := Observable((k: int -> int) => 0);
    assert Eq(m1, m2);
    assert Subscribe(m1, (x: int) => x + 1) == 1;
  }
}
