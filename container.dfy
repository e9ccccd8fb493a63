/**
 * The dependency-injection container (src/infrastructure/di/Container.ts): a map from token to
 * registration. A transient registration runs its factory on every `get`; a singleton keeps the
 * instance its factory produced; a value registration serves a fixed value.
 *
 * A factory is code the container cannot see: it is modelled by the outcome of its n-th run
 * (a value or a thrown fault), so a factory with a counter and a factory that throws are both
 * covered. Each registration counts the runs of its factory.
 */
module Container {
  import opened Wrappers
  import opened ErrorHandling

  /** The JavaScript values a service can be, as far as truthiness is concerned. */
  datatype JsValue = Undefined | Null | Bool(b: bool) | Num(n: int) | Str(s: string) | Obj(id: nat)

  predicate Truthy(v: JsValue) {
    match v
    case Undefined => false
    case Null => false
    case Bool(b) => b
    case Num(n) => n != 0
    case Str(s) => s != ""
    case Obj(_) => true
  }

  /** A factory, as the outcome of its n-th run. */
  type Factory = nat -> Attempt<JsValue>

  /** The factory registerValue installs: `() => value`. */
  function Constant(value: JsValue): (f: Factory)
    ensures forall n :: f(n) == Returned(value)
  {
    n => Returned(value)
  }

  /** A registration: the factory, whether it is a singleton, the cached instance, and the runs so far. */
  datatype Registration = Registration(factory: Factory, singleton: bool, instance: Option<JsValue>, calls: nat)

  function NotRegisteredMessage(token: string): string {
    "Service not registered: " + token
  }

  /**
   * What `get` does with a registration it found: the value or fault it returns and the
   * registration afterwards. A singleton whose cached instance is truthy is served without running
   * the factory; otherwise the factory runs, and a singleton caches what it returned.
   */
  function Resolve(reg: Registration): (r: (Attempt<JsValue>, Registration))
    ensures r.1.factory == reg.factory && r.1.singleton == reg.singleton
    ensures !reg.singleton ==> r.0 == reg.factory(reg.calls) && r.1 == reg.(calls := reg.calls + 1)
    ensures reg.singleton && reg.instance.Some? && Truthy(reg.instance.value) ==>
              r == (Returned(reg.instance.value), reg)
    ensures reg.singleton && !(reg.instance.Some? && Truthy(reg.instance.value)) ==>
              && r.0 == reg.factory(reg.calls)
              && r.1.calls == reg.calls + 1
              && r.1.instance == (if r.0.Returned? then Some(r.0.value) else reg.instance)
  {
    if reg.singleton then
      if reg.instance.Some? && Truthy(reg.instance.value) then (Returned(reg.instance.value), reg)
      else
        var next := reg.(calls := reg.calls + 1);
        match reg.factory(reg.calls)
        case Threw(fault) => (Threw(fault), next)
        case Returned(v) => (Returned(v), next.(instance := Some(v)))
    else (reg.factory(reg.calls), reg.(calls := reg.calls + 1))
  }

  /** A transient registration runs its factory afresh on every get: two gets see runs k and k + 1. */
  lemma {:induction false} TransientRunsEachTime(reg: Registration)
    requires !reg.singleton
    ensures var first := Resolve(reg);
            var second := Resolve(first.1);
            && first.0 == reg.factory(reg.calls)
            && second.0 == reg.factory(reg.calls + 1)
            && second.1.calls == reg.calls + 2
  {
  }

  /** A singleton that has produced a truthy instance serves that instance from then on. */
  lemma {:induction false} SingletonReused(reg: Registration)
    requires reg.singleton
    requires Resolve(reg).0.Returned? && Truthy(Resolve(reg).0.value)
    ensures Resolve(Resolve(reg).1) == Resolve(reg)
  {
    var first := Resolve(reg);
    assert first.1.instance == Some(first.0.value);
  }

  /** A value registration for v: every run of its factory returns v, and v is cached. */
  ghost predicate ServesValue(reg: Registration, v: JsValue) {
    && reg.singleton
    && reg.instance == Some(v)
    && forall n :: reg.factory(n) == Returned(v)
  }

  /** A value registration returns its value on every get, whatever the value's truthiness. */
  lemma {:induction false} ValueServed(reg: Registration, v: JsValue)
    requires ServesValue(reg, v)
    ensures Resolve(reg).0 == Returned(v)
    ensures ServesValue(Resolve(reg).1, v)
  {
    assert reg.factory(reg.calls) == Returned(v);
  }

  /**
   * As written, the singleton check tests the cached instance for truthiness, so a singleton
   * whose factory returns a falsy value (0, "", false, null) runs its factory again on every get.
   */
  lemma FalsySingletonRerun(reg: Registration)
    requires reg.singleton && reg.instance.None?
    requires forall n :: reg.factory(n) == Returned(Num(0))
    ensures Resolve(Resolve(reg).1).1.calls == reg.calls + 2
  {
    assert reg.factory(reg.calls) == Returned(Num(0));
    assert reg.factory(reg.calls + 1) == Returned(Num(0));
  }

  /** get with the singleton check the documentation describes: run the factory only while nothing is cached. */
  function ResolveOnce(reg: Registration): (r: (Attempt<JsValue>, Registration))
    ensures r.1.factory == reg.factory && r.1.singleton == reg.singleton
    ensures reg.singleton && reg.instance.Some? ==> r == (Returned(reg.instance.value), reg)
    ensures !(reg.singleton && reg.instance.Some?) ==> r.0 == reg.factory(reg.calls) && r.1.calls == reg.calls + 1
  {
    if reg.singleton then
      if reg.instance.Some? then (Returned(reg.instance.value), reg)
      else
        var next := reg.(calls := reg.calls + 1);
        match reg.factory(reg.calls)
        case Threw(fault) => (Threw(fault), next)
        case Returned(v) => (Returned(v), next.(instance := Some(v)))
    else (reg.factory(reg.calls), reg.(calls := reg.calls + 1))
  }

  /** With that check, a singleton's factory runs until it first returns, and never again. */
  lemma {:induction false} SingletonResolvedOnce(reg: Registration)
    requires reg.singleton && ResolveOnce(reg).0.Returned?
    ensures ResolveOnce(ResolveOnce(reg).1) == ResolveOnce(reg)
    ensures ResolveOnce(ResolveOnce(reg).1).1.calls <= reg.calls + 1
  {
    var first := ResolveOnce(reg);
    assert first.1.instance.Some?;
  }

  /**
   * The two checks agree exactly when there is no falsy cached instance: with one, the code as
   * written runs the factory again (one more run counted) where the corrected check does not.
   */
  lemma {:induction false} ResolveAgreesUnlessFalsy(reg: Registration)
    ensures (Resolve(reg) == ResolveOnce(reg)) <==> !(reg.singleton && reg.instance.Some? && !Truthy(reg.instance.value))
  {
    if reg.singleton && reg.instance.Some? && !Truthy(reg.instance.value) {
      assert Resolve(reg).1.calls != ResolveOnce(reg).1.calls;
    }
  }

  class SimpleContainer {
    var services: map<string, Registration>

    constructor ()
      ensures services == map[]
    {
      services := map[];
    }

    /** register: a transient registration, replacing any earlier one for the token. */
    method Register(token: string, factory: Factory)
      modifies this
      ensures services == old(services)[token := Registration(factory, false, None, 0)]
      ensures Has(token) && forall t :: t != token ==> Has(t) == old(Has(t))
    {
      services := services[token := Registration(factory, false, None, 0)];
    }

    /** registerSingleton: a singleton registration with nothing cached yet. */
    method RegisterSingleton(token: string, factory: Factory)
      modifies this
      ensures services == old(services)[token := Registration(factory, true, None, 0)]
      ensures Has(token) && forall t :: t != token ==> Has(t) == old(Has(t))
    {
      services := services[token := Registration(factory, true, None, 0)];
    }

    /** registerValue: a singleton whose factory returns the value and whose instance is the value. */
    method RegisterValue(token: string, value: JsValue)
      modifies this
      ensures services == old(services)[token := Registration(Constant(value), true, Some(value), 0)]
      ensures ServesValue(services[token], value)
      ensures Has(token) && forall t :: t != token ==> Has(t) == old(Has(t))
    {
      services := services[token := Registration(Constant(value), true, Some(value), 0)];
    }

    /**
     * get: throws for an unknown token; otherwise resolves the registration and stores it back.
     * The singleton branch uses the corrected check of ResolveOnce (run the factory only while
     * nothing is cached); Resolve keeps the truthiness test as written.
     */
    method Get(token: string) returns (r: Attempt<JsValue>)
      modifies this
      ensures token !in old(services) ==> r == Threw(NotRegisteredMessage(token)) && services == old(services)
      ensures token in old(services) ==>
                var (outcome, next) := ResolveOnce(old(services)[token]);
                r == outcome && services == old(services)[token := next]
      ensures services.Keys == old(services.Keys)
    {
      if token !in services {
        return Threw(NotRegisteredMessage(token));
      }
      var registration := services[token];
      if registration.singleton {
        if registration.instance.None? {
          var created := registration.factory(registration.calls);
          registration := registration.(calls := registration.calls + 1);
          if created.Threw? {
            services := services[token := registration];
            return created;
          }
          registration := registration.(instance := Some(created.value));
          services := services[token := registration];
        }
        return Returned(registration.instance.value);
      }
      services := services[token := registration.(calls := registration.calls + 1)];
      return registration.factory(registration.calls);
    }

    /**
     * has: whether a registration exists. These are exactly the tokens Get resolves; for every
     * other token Get throws NotRegisteredMessage and changes nothing (its first ensures).
     */
    function Has(token: string): (b: bool)
      reads this
      ensures b <==> token in services
    {
      token in services
    }
  }
}
