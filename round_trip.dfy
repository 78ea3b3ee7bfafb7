/**
 * Register-then-resolve on the fallback path: a collection after named
 * registrations, resolved by the host container, answers the named lookups
 * with the registered implementations and is otherwise unchanged.
 */
module RoundTrip {
  import opened Wrappers
  import opened Container
  import opened NamedServices
  import opened Providers
  import opened NamedServiceManagement
  import opened ServiceCollectionExtensions
  import opened NamedServiceFactories
  import SP = ServiceProviderExtensions
  import FX = NamedServiceFactoryExtensions

  /**
   * A cache state `t` at resolution time that still holds the key registered
   * for `name` in state `s`: any later state of the cache the registration left.
   */
  ghost predicate LaterState(s: KeyState, name: string, t: KeyState)
    requires name != ""
  {
    Extends(GetOrAdd(s, name).state, t)
  }

  /** Any name the comparer equates with the registered one finds the registered compound key. */
  lemma {:induction false} LookupFindsRegisteredKey(s: KeyState, name: string, t: KeyState, n: string, serviceType: Ty)
    requires name != "" && n != "" && s.canon(n) == s.canon(name) && LaterState(s, name, t)
    ensures NamedServiceInterface(t, serviceType, n).key == INamedServiceOf(serviceType, GetOrAdd(s, name).key)
  {
    var l := GetOrAdd(s, name);
    KeyStable(l.state, t, n);
  }

  /**
   * The fallback lambda the host runs for a registration is the manager's
   * wrap: Activator's for an activated type or a factory's result,
   * ActivatorUtilities' for a captured instance, on the registration's carrier
   * type and compound key.
   */
  lemma {:induction false} FallbackRunsManagerWrap(g: Registration, key: Ty, activate: Ty -> Obj, invoke: Func -> Obj, isA: (Obj, Ty) -> bool)
    ensures var o := Some(Produce(g.wraps, activate, invoke));
            var w := if g.wraps.ReuseInstance? then ActivateCarrierWithServices(isA, g.carrier, key, o)
                     else ActivateCarrier(isA, g.carrier, key, o);
            && (w.Success? ==> Materialise(FallbackDescriptor(g, key), activate, invoke, isA) == Success(Wrapped(w.value)))
            && (w.Failure? ==> Materialise(FallbackDescriptor(g, key), activate, invoke, isA) == Failure(w.error))
  {
    var o := Some(Produce(g.wraps, activate, invoke));
    assert RunWrapper(g.carrier, key, g.wraps, activate, invoke, isA)
           == if g.wraps.ReuseInstance? then ActivateCarrierWithServices(isA, g.carrier, key, o)
              else ActivateCarrier(isA, g.carrier, key, o);
  }

  /**
   * Resolving a compound key after a fallback registration under it runs that
   * registration's lambda: its carrier, or the wrap's error.
   */
  lemma {:induction false} ResolveRegisteredKey(descs: seq<ServiceDescriptor>, g: Registration, key: Ty, activate: Ty -> Obj, invoke: Func -> Obj, isA: (Obj, Ty) -> bool)
    ensures var w := RunWrapper(g.carrier, key, g.wraps, activate, invoke, isA);
            Resolve(AfterFallback(descs, g, key), activate, invoke, isA, INamedServiceOf(g.serviceType, key))
            == if w.Success? then Success(Some(Wrapped(w.value))) else Failure(w.error)
  {
    FallbackFootprint(descs, g, key);
    var m := Matching(AfterFallback(descs, g, key), INamedServiceOf(g.serviceType, key));
    assert m[|m| - 1] == FallbackDescriptor(g, key);
  }

  /**
   * After a fallback registration of (T, name), GetNamedService(T, n) for any n
   * the comparer equates with name returns the registered implementation.
   */
  lemma {:induction false} RegisterThenGetNamedService(
    descs: seq<ServiceDescriptor>, g: Registration, s: KeyState, t: KeyState, n: string, activate: Ty -> Obj, invoke: Func -> Obj, isA: (Obj, Ty) -> bool)
    requires g.serviceName != "" && n != "" && s.canon(n) == s.canon(g.serviceName) && LaterState(s, g.serviceName, t)
    requires isA(Produce(g.wraps, activate, invoke), g.carrier)
    ensures var host := Host(AfterFallback(descs, g, GetOrAdd(s, g.serviceName).key), activate, invoke, isA);
            && SP.GetNamedService(Some(host), t, Some(g.serviceType), Some(n)) == Success(Some(Produce(g.wraps, activate, invoke)))
            && SP.GetRequiredNamedService(Some(host), t, Some(g.serviceType), Some(n)) == Success(Produce(g.wraps, activate, invoke))
  {
    var key := GetOrAdd(s, g.serviceName).key;
    LookupFindsRegisteredKey(s, g.serviceName, t, n, g.serviceType);
    ResolveRegisteredKey(descs, g, key, activate, invoke, isA);
  }

  /**
   * When the registered implementation is not of the carrier's service type,
   * the fallback lambda cannot build the carrier: GetNamedService and
   * GetRequiredNamedService report the activation error (MissingMethodException
   * from Activator, InvalidOperationException from ActivatorUtilities).
   */
  lemma {:induction false} IllTypedRegistrationFails(
    descs: seq<ServiceDescriptor>, g: Registration, s: KeyState, t: KeyState, n: string, activate: Ty -> Obj, invoke: Func -> Obj, isA: (Obj, Ty) -> bool)
    requires g.serviceName != "" && n != "" && s.canon(n) == s.canon(g.serviceName) && LaterState(s, g.serviceName, t)
    requires !isA(Produce(g.wraps, activate, invoke), g.carrier)
    ensures var key := GetOrAdd(s, g.serviceName).key;
            var host := Host(AfterFallback(descs, g, key), activate, invoke, isA);
            var e := if g.wraps.ReuseInstance? then NoSuitableConstructor(NamedServiceOf(g.carrier, key))
                     else MissingConstructor(NamedServiceOf(g.carrier, key));
            && SP.GetNamedService(Some(host), t, Some(g.serviceType), Some(n)) == Failure(e)
            && SP.GetRequiredNamedService(Some(host), t, Some(g.serviceType), Some(n)) == Failure(e)
  {
    var key := GetOrAdd(s, g.serviceName).key;
    LookupFindsRegisteredKey(s, g.serviceName, t, n, g.serviceType);
    ResolveRegisteredKey(descs, g, key, activate, invoke, isA);
  }

  /** The same round trip through a NamedServiceFactory built over the host provider, and through its generic forms. */
  lemma {:induction false} RegisterThenFactoryLookup(
    descs: seq<ServiceDescriptor>, g: Registration, s: KeyState, t: KeyState, n: string,
    activate: Ty -> Obj, invoke: Func -> Obj, isA: (Obj, Ty) -> bool)
    requires g.serviceName != "" && n != "" && s.canon(n) == s.canon(g.serviceName) && LaterState(s, g.serviceName, t)
    requires isA(Produce(g.wraps, activate, invoke), g.carrier)
    requires isA(Produce(g.wraps, activate, invoke), g.serviceType)
    ensures var factory := New(Some(Host(AfterFallback(descs, g, GetOrAdd(s, g.serviceName).key), activate, invoke, isA)));
            var o := Produce(g.wraps, activate, invoke);
            && factory.Success?
            && factory.value.GetNamedService(t, Some(g.serviceType), Some(n)) == Success(Some(o))
            && factory.value.GetRequiredNamedService(t, Some(g.serviceType), Some(n)) == Success(o)
            && FX.GetNamedServiceOf(Some(factory.value), t, isA, g.serviceType, Some(n)) == Success(Some(o))
            && FX.GetRequiredNamedServiceOf(Some(factory.value), t, isA, g.serviceType, Some(n)) == Success(o)
  {
    var key := GetOrAdd(s, g.serviceName).key;
    LookupFindsRegisteredKey(s, g.serviceName, t, n, g.serviceType);
    ResolveRegisteredKey(descs, g, key, activate, invoke, isA);
  }

  /**
   * A fallback registration changes what the host resolves only for the
   * compound key, the NamedServiceFactory helper and their enumerables: in
   * particular an unnamed GetService(T) answers as before.
   */
  lemma {:induction false} OtherTypesUnaffected(descs: seq<ServiceDescriptor>, g: Registration, key: Ty, activate: Ty -> Obj, invoke: Func -> Obj, isA: (Obj, Ty) -> bool, u: Ty)
    requires u != NamedServiceFactoryType && u != INamedServiceOf(g.serviceType, key)
    requires u != EnumerableOf(NamedServiceFactoryType) && u != EnumerableOf(INamedServiceOf(g.serviceType, key))
    ensures Resolve(AfterFallback(descs, g, key), activate, invoke, isA, u) == Resolve(descs, activate, invoke, isA, u)
  {
    if u.EnumerableOf? {
      assert u.element != NamedServiceFactoryType && u.element != INamedServiceOf(g.serviceType, key);
      FallbackMatching(descs, g, key, u.element);
      assert Matching(AfterFallback(descs, g, key), u.element) == Matching(descs, u.element);
    } else {
      FallbackMatching(descs, g, key, u);
    }
  }

  /**
   * On an empty collection, the unnamed service type stays unregistered after
   * a named registration: OtherTypesUnaffected for u = T on [].
   */
  lemma UnnamedLookupStaysEmpty(g: Registration, key: Ty, activate: Ty -> Obj, invoke: Func -> Obj, isA: (Obj, Ty) -> bool)
    requires g.serviceType.Clr?
    ensures Resolve(AfterFallback([], g, key), activate, invoke, isA, g.serviceType) == Success(None)
  {
    OtherTypesUnaffected([], g, key, activate, invoke, isA, g.serviceType);
  }

  /**
   * A lookup under another service type, or under a name the comparer tells
   * apart, answers after the registration exactly as it did before.
   */
  lemma {:induction false} OtherNamedLookupsUnaffected(
    descs: seq<ServiceDescriptor>, g: Registration, s: KeyState, t: KeyState, u: Ty, m: string, activate: Ty -> Obj, invoke: Func -> Obj, isA: (Obj, Ty) -> bool)
    requires g.serviceName != "" && m != "" && ValidKeys(s) && ValidKeys(t) && LaterState(s, g.serviceName, t)
    requires u != g.serviceType || s.canon(m) != s.canon(g.serviceName)
    ensures var before := Host(descs, activate, invoke, isA);
            var after := Host(AfterFallback(descs, g, GetOrAdd(s, g.serviceName).key), activate, invoke, isA);
            SP.GetNamedService(Some(after), t, Some(u), Some(m)) == SP.GetNamedService(Some(before), t, Some(u), Some(m))
  {
    var l := GetOrAdd(s, g.serviceName);
    var probe := NamedServiceInterface(t, u, m).key;
    if u == g.serviceType {
      assert t.types[s.canon(g.serviceName)] == l.key;
      if s.canon(m) in t.types {
        assert t.types[s.canon(m)] != l.key;
      } else {
        assert l.key.serial < l.state.defined <= t.defined;
      }
    }
    assert probe != INamedServiceOf(g.serviceType, l.key);
    OtherTypesUnaffected(descs, g, l.key, activate, invoke, isA, probe);
  }

  /** The host's answer for IEnumerable of a compound key after one more fallback registration under it. */
  lemma {:induction false} EnumerateRegisteredKey(descs: seq<ServiceDescriptor>, g: Registration, key: Ty, activate: Ty -> Obj, invoke: Func -> Obj, isA: (Obj, Ty) -> bool)
    requires MaterialiseAll(Matching(descs, INamedServiceOf(g.serviceType, key)), activate, invoke, isA).Success?
    requires isA(Produce(g.wraps, activate, invoke), g.carrier)
    ensures var earlier := MaterialiseAll(Matching(descs, INamedServiceOf(g.serviceType, key)), activate, invoke, isA).value;
            var carrier := Wrapped(NamedService(g.carrier, key, Produce(g.wraps, activate, invoke)));
            Resolve(AfterFallback(descs, g, key), activate, invoke, isA, EnumerableOf(INamedServiceOf(g.serviceType, key)))
            == Success(Some(Sequence(earlier + [carrier])))
  {
    var ck := INamedServiceOf(g.serviceType, key);
    var f := FallbackDescriptor(g, key);
    FallbackMatching(descs, g, key, ck);
    var carrier := Wrapped(NamedService(g.carrier, key, Produce(g.wraps, activate, invoke)));
    assert MaterialiseAll([f], activate, invoke, isA) == Success([carrier]) by {
      assert [f][..0] == [];
      assert Materialise(f, activate, invoke, isA) == Success(carrier);
      assert [] + [carrier] == [carrier];
    }
    MaterialiseAllAppend(Matching(descs, ck), [f], activate, invoke, isA);
    var earlier := MaterialiseAll(Matching(descs, ck), activate, invoke, isA).value;
    assert Matching(AfterFallback(descs, g, key), ck) == Matching(descs, ck) + [f];
    assert MaterialiseAll(Matching(AfterFallback(descs, g, key), ck), activate, invoke, isA) == Success(earlier + [carrier]);
  }

  /** After a fallback registration, GetNamedServices for that (T, name) is the earlier answer followed by the new implementation. */
  lemma {:induction false} RegisterThenGetNamedServices(
    descs: seq<ServiceDescriptor>, g: Registration, s: KeyState, t: KeyState, n: string, activate: Ty -> Obj, invoke: Func -> Obj, isA: (Obj, Ty) -> bool)
    requires g.serviceName != "" && n != "" && s.canon(n) == s.canon(g.serviceName) && LaterState(s, g.serviceName, t)
    requires SP.GetNamedServices(Some(Host(descs, activate, invoke, isA)), t, Some(g.serviceType), Some(n)).Success?
    requires isA(Produce(g.wraps, activate, invoke), g.carrier)
    ensures var before := SP.GetNamedServices(Some(Host(descs, activate, invoke, isA)), t, Some(g.serviceType), Some(n));
            var after := Host(AfterFallback(descs, g, GetOrAdd(s, g.serviceName).key), activate, invoke, isA);
            SP.GetNamedServices(Some(after), t, Some(g.serviceType), Some(n)) == Success(before.value + [Some(Produce(g.wraps, activate, invoke))])
  {
    var key := GetOrAdd(s, g.serviceName).key;
    var ck := INamedServiceOf(g.serviceType, key);
    var hostBefore := Host(descs, activate, invoke, isA);
    var hostAfter := Host(AfterFallback(descs, g, key), activate, invoke, isA);
    LookupFindsRegisteredKey(s, g.serviceName, t, n, g.serviceType);
    assert NamedServiceInterface(t, g.serviceType, n).key == ck;
    var items := MaterialiseAll(Matching(descs, ck), activate, invoke, isA);
    assert hostBefore.getService(EnumerableOf(ck)) == Resolve(descs, activate, invoke, isA, EnumerableOf(ck));
    assert items.Success?;
    assert GetServices(hostBefore, ck) == Success(items.value);
    EnumerateRegisteredKey(descs, g, key, activate, invoke, isA);
    var carrier := Wrapped(NamedService(g.carrier, key, Produce(g.wraps, activate, invoke)));
    assert GetServices(hostAfter, ck) == Success(items.value + [carrier]);
    assert SP.UnwrapAll([carrier]) == Success([Some(carrier.carrier.service)]) by {
      var one := SP.UnwrapAll([carrier]);
      assert one.Success? && |one.value| == 1 && one.value[0] == Some(carrier.carrier.service);
      assert one.value == [Some(carrier.carrier.service)];
    }
    SP.UnwrapAllAppend(items.value, [carrier]);
  }

  /**
   * On an empty host, GetNamedServices finds nothing: the base case that
   * TwoRegistrationsResolveInOrder starts from.
   */
  lemma {:induction false} NothingRegisteredYet(t: KeyState, u: Ty, m: string, activate: Ty -> Obj, invoke: Func -> Obj, isA: (Obj, Ty) -> bool)
    requires m != ""
    ensures SP.GetNamedServices(Some(Host([], activate, invoke, isA)), t, Some(u), Some(m)) == Success([])
  {
    var ck := NamedServiceInterface(t, u, m).key;
    assert Resolve([], activate, invoke, isA, EnumerableOf(ck)) == Success(Some(Sequence([])));
    assert GetServices(Host([], activate, invoke, isA), ck) == Success([]);
  }

  /** The cache state of a second registration under an equivalent name: the key is found again and nothing changes. */
  lemma {:induction false} SecondRegistrationReusesKey(s: KeyState, t: KeyState, name1: string, name2: string)
    requires name1 != "" && name2 != "" && s.canon(name2) == s.canon(name1) && LaterState(s, name1, t)
    ensures GetOrAdd(GetOrAdd(s, name1).state, name2) == GetOrAdd(s, name1)
    ensures LaterState(GetOrAdd(s, name1).state, name2, t)
  {
    EquivalentNamesShareKey(s, name1, name2);
  }

  /**
   * Two fallback registrations of the same service type under names the
   * comparer equates, on an empty collection: GetNamedServices returns both
   * implementations in registration order.
   */
  lemma {:induction false} TwoRegistrationsResolveInOrder(
    g1: Registration, g2: Registration, s: KeyState, t: KeyState, n: string, activate: Ty -> Obj, invoke: Func -> Obj, isA: (Obj, Ty) -> bool)
    requires g1.serviceName != "" && g2.serviceName != "" && n != ""
    requires g2.serviceType == g1.serviceType && s.canon(g2.serviceName) == s.canon(g1.serviceName) && s.canon(n) == s.canon(g1.serviceName)
    requires LaterState(s, g1.serviceName, t)
    requires isA(Produce(g1.wraps, activate, invoke), g1.carrier) && isA(Produce(g2.wraps, activate, invoke), g2.carrier)
    ensures var key := GetOrAdd(s, g1.serviceName).key;
            var host := Host(AfterFallback(AfterFallback([], g1, key), g2, key), activate, invoke, isA);
            SP.GetNamedServices(Some(host), t, Some(g1.serviceType), Some(n))
            == Success([Some(Produce(g1.wraps, activate, invoke)), Some(Produce(g2.wraps, activate, invoke))])
  {
    var l := GetOrAdd(s, g1.serviceName);
    var o1, o2 := Produce(g1.wraps, activate, invoke), Produce(g2.wraps, activate, invoke);
    SecondRegistrationReusesKey(s, t, g1.serviceName, g2.serviceName);
    var once := AfterFallback([], g1, l.key);
    var twice := AfterFallback(once, g2, l.key);
    NothingRegisteredYet(t, g1.serviceType, n, activate, invoke, isA);
    RegisterThenGetNamedServices([], g1, s, t, n, activate, invoke, isA);
    var first := SP.GetNamedServices(Some(Host(once, activate, invoke, isA)), t, Some(g1.serviceType), Some(n));
    assert first == Success([] + [Some(o1)]);
    assert [] + [Some(o1)] == [Some(o1)];
    RegisterThenGetNamedServices(once, g2, l.state, t, n, activate, invoke, isA);
    assert SP.GetNamedServices(Some(Host(twice, activate, invoke, isA)), t, Some(g1.serviceType), Some(n)) == Success(first.value + [Some(o2)]);
    assert first.value + [Some(o2)] == [Some(o1), Some(o2)];
  }

  /** Of two such registrations, GetNamedService returns the later one. */
  lemma {:induction false} LastRegistrationWins(
    g1: Registration, g2: Registration, s: KeyState, t: KeyState, n: string, activate: Ty -> Obj, invoke: Func -> Obj, isA: (Obj, Ty) -> bool)
    requires g1.serviceName != "" && g2.serviceName != "" && n != ""
    requires g2.serviceType == g1.serviceType && s.canon(g2.serviceName) == s.canon(g1.serviceName) && s.canon(n) == s.canon(g1.serviceName)
    requires LaterState(s, g1.serviceName, t)
    requires isA(Produce(g2.wraps, activate, invoke), g2.carrier)
    ensures var key := GetOrAdd(s, g1.serviceName).key;
            var host := Host(AfterFallback(AfterFallback([], g1, key), g2, key), activate, invoke, isA);
            SP.GetNamedService(Some(host), t, Some(g1.serviceType), Some(n)) == Success(Some(Produce(g2.wraps, activate, invoke)))
  {
    var l := GetOrAdd(s, g1.serviceName);
    SecondRegistrationReusesKey(s, t, g1.serviceName, g2.serviceName);
    RegisterThenGetNamedService(AfterFallback([], g1, l.key), g2, l.state, t, n, activate, invoke, isA);
  }

  /**
   * With nothing registered under the compound key, the fallback lookups
   * report absence: null, the container's "no service" error, or the
   * factory's "No services registered" error.
   */
  lemma {:induction false} UnregisteredLookups(descs: seq<ServiceDescriptor>, t: KeyState, u: Ty, m: string, activate: Ty -> Obj, invoke: Func -> Obj, isA: (Obj, Ty) -> bool)
    requires m != "" && |Matching(descs, NamedServiceInterface(t, u, m).key)| == 0
    ensures var host := Host(descs, activate, invoke, isA);
            && SP.GetNamedService(Some(host), t, Some(u), Some(m)) == Success(None)
            && SP.GetRequiredNamedService(Some(host), t, Some(u), Some(m)) == Failure(NoServiceRegistered(NamedServiceInterface(t, u, m).key))
            && NamedServiceFactory(host).GetNamedService(t, Some(u), Some(m)) == Success(None)
            && NamedServiceFactory(host).GetRequiredNamedService(t, Some(u), Some(m)) == Failure(NamedServiceNotRegistered(u, m))
  {
    assert Resolve(descs, activate, invoke, isA, NamedServiceInterface(t, u, m).key) == Success(None);
  }
}
