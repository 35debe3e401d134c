/**
 * Concrete uses of the Observable, run against a continuation that records
 * every value it receives and returns `None`, as `print` does.
 */
module ObservableScenarios {
  import opened ObservableMonad
  import opened ObservableLaws

  /** Records the value it is given as its one effect and returns `None`. */
  function Recorder(x: int): Trace<int, int>
  {
    Trace([x], Nothing)
  }

  /** `unit(4).filter(x > 10)` never reaches `on_next`. */
  lemma FilterRejectScenario()
    ensures Subscribe(Filter(Unit(4), (x: int) => x > 10), Recorder) == Trace([], Nothing)
  {
  }

  /** `unit(4).filter(x > 1)` reaches `on_next` once, with 4. */
  lemma FilterAcceptScenario()
    ensures Subscribe(Filter(Unit(4), (x: int) => x > 1), Recorder) == Trace([4], Nothing)
  {
  }

  /** `call_cc(λesc. unit(1).bind(λ_. esc(42)).bind(λ_. unit(99)))`: the
      continuation receives 42, and the final `bind` never runs. */
  lemma CallCCScenario<R(!new)>(k: int -> R)
    ensures Subscribe(CallCC((esc: int -> Observable<int, R>) =>
      Bind(Bind(Unit(1), (_: int) => esc(42)), (_: int) => Unit(99))), k) == k(42)
  {
    var body := (esc: int -> Observable<int, R>) =>
      Bind(Bind(Unit(1), (_: int) => esc(42)), (_: int) => Unit(99));
    forall esc: int -> Observable<int, R> | IsEscape(esc, k)
      ensures Subscribe(body(esc), k) == k(42)
    {
      var jump := (_: int) => esc(42);
      LeftIdentity(1, jump);
      assert forall k2: int -> R :: Subscribe(Bind(Unit(1), jump), k2) == k(42) by {
        assert jump(1) == esc(42);
      }
      BindAfterIgnoring(Bind(Unit(1), jump), k(42), (_: int) => Unit<int, R>(99));
    }
    CallCCByEscape(body, k, k(42));
  }

  /** The same scenario with the recording continuation: 42 is recorded,
      once, and 99 never. */
  lemma CallCCScenarioRecorded()
    ensures Subscribe(CallCC((esc: int -> Observable<int, Trace<int, int>>) =>
      Bind(Bind(Unit(1), (_: int) => esc(42)), (_: int) => Unit(99))), Recorder) == Trace([42], Nothing)
  {
    CallCCScenario(Recorder);
  }

  /** `unit(5) == unit(5)` and `unit(5) != unit(6)`. */
  lemma EqScenario()
    ensures Eq(Unit(5), Unit(5))
    ensures !Eq(Unit(5), Unit(6))
  {
  }

  /** `unit(3).map(λx. x + 1).bind(λx. unit(x * 2))` delivers 8, once. */
  lemma PipelineScenario()
    ensures Subscribe(Bind(Map(Unit(3), (x: int) => x + 1), (x: int) => Unit(x * 2)), Recorder) == Trace([8], Nothing)
  {
    var inc := (x: int) => x + 1;
    var double := (x: int) => Unit<int, Trace<int, int>>(x * 2);
    UnitRunsContinuation<int, Trace<int, int>>(3);
    MapAfterDelivery(Unit<int, Trace<int, int>>(3), 3, inc);
    assert inc(3) == 4;
    BindAfterDelivery(Map(Unit<int, Trace<int, int>>(3), inc), 4, double);
    assert Subscribe(double(4), Recorder) == Recorder(8);
  }
}
