/**
 * NamedServiceManager: the process-wide cache that gives every service name
 * a synthesized key type (names compared case-insensitively), the compound
 * keys built from it, and the wrappers that put an instance into a
 * NamedService carrier.
 */
module NamedServiceManagement {
  import opened Wrappers
  import opened Container
  import opened NamedServices
  import opened Providers

  /**
   * The cache AnonymousNamedServiceTypes. `canon` is the comparer: two names
   * are the same entry exactly when their canonical forms agree, so the map
   * is keyed by canonical form. `defined` counts the key types synthesized so
   * far; its value is the serial of the next one.
   */
  datatype KeyState = KeyState(canon: string -> string, types: map<string, Ty>, defined: nat)

  /** The cache after one GetOrAdd together with the key it returned. */
  datatype Lookup = Lookup(state: KeyState, key: Ty)

  /** Every cached key is a distinct synthesized type with a serial that was already handed out. */
  predicate ValidKeys(s: KeyState) {
    && (forall c :: c in s.types ==> s.types[c].KeyMarker? && s.types[c].serial < s.defined)
    && (forall c1, c2 :: c1 in s.types && c2 in s.types && c1 != c2 ==> s.types[c1] != s.types[c2])
  }

  /** `t` is a later state of the cache `s`: same comparer, no entry lost or changed. */
  ghost predicate Extends(s: KeyState, t: KeyState) {
    && s.canon == t.canon
    && s.defined <= t.defined
    && (forall c :: c in s.types ==> c in t.types && t.types[c] == s.types[c])
  }

  /**
   * CreateNamedServiceKeyType(name): a hit returns the cached key; a miss
   * defines a fresh key type named after `name` and caches it. An empty name
   * never reaches it (every public caller rejects it first).
   */
  function GetOrAdd(s: KeyState, name: string): (r: Lookup)
    requires name != ""
    ensures s.canon(name) in s.types ==> r.key == s.types[s.canon(name)] && r.state == s
    ensures s.canon(name) !in s.types ==>
              && r.key == KeyMarker(s.defined, name)
              && r.state.types == s.types[s.canon(name) := r.key]
              && r.state.defined == s.defined + 1
    ensures r.state.canon == s.canon
    ensures s.canon(name) in r.state.types && r.state.types[s.canon(name)] == r.key
    ensures Extends(s, r.state)
    ensures ValidKeys(s) ==> ValidKeys(r.state)
    ensures ValidKeys(s) && s.canon(name) !in s.types ==> forall c :: c in s.types ==> s.types[c] != r.key
  {
    var c := s.canon(name);
    if c in s.types then Lookup(s, s.types[c])
    else
      var key := KeyMarker(s.defined, name);
      Lookup(KeyState(s.canon, s.types[c := key], s.defined + 1), key)
  }

  /** A name equal under the comparer to one looked up before is a hit: same key, cache unchanged. */
  lemma EquivalentNamesShareKey(s: KeyState, a: string, b: string)
    requires a != "" && b != "" && s.canon(a) == s.canon(b)
    ensures GetOrAdd(GetOrAdd(s, a).state, b) == GetOrAdd(s, a)
  {
  }

  /** Two names that differ under the comparer get distinct keys, whichever order they are looked up in. */
  lemma DistinctNamesGetDistinctKeys(s: KeyState, a: string, b: string)
    requires ValidKeys(s) && a != "" && b != "" && s.canon(a) != s.canon(b)
    ensures GetOrAdd(GetOrAdd(s, a).state, b).key != GetOrAdd(s, a).key
  {
    var l := GetOrAdd(s, a);
    var m := GetOrAdd(l.state, b);
    assert m.state.types[s.canon(a)] == l.key;
    assert m.state.types[s.canon(b)] == m.key;
  }

  /** Once a name is cached, every later state of the cache still answers it with the same key and is left unchanged. */
  lemma KeyStable(s: KeyState, t: KeyState, name: string)
    requires name != "" && Extends(s, t) && s.canon(name) in s.types
    ensures GetOrAdd(t, name).key == GetOrAdd(s, name).key
    ensures GetOrAdd(t, name).state == t
  {
  }

  /** The cache after a run of lookups and the keys they returned, in order. */
  datatype Lookups = Lookups(state: KeyState, keys: seq<Ty>)

  /** CreateNamedServiceKeyType called on each of `names` in turn. */
  function KeysFor(s: KeyState, names: seq<string>): (r: Lookups)
    requires forall i :: 0 <= i < |names| ==> names[i] != ""
    ensures |r.keys| == |names|
    ensures Extends(s, r.state)
    ensures ValidKeys(s) ==> ValidKeys(r.state)
    ensures forall i :: 0 <= i < |names| ==> s.canon(names[i]) in r.state.types && r.state.types[s.canon(names[i])] == r.keys[i]
    decreases |names|
  {
    if |names| == 0 then Lookups(s, [])
    else
      var init := KeysFor(s, names[..|names| - 1]);
      var l := GetOrAdd(init.state, names[|names| - 1]);
      Lookups(l.state, init.keys + [l.key])
  }

  /** Over any run of lookups, two names receive the same key exactly when the comparer equates them. */
  lemma KeysAgreeExactlyOnEquivalentNames(s: KeyState, names: seq<string>, i: nat, j: nat)
    requires ValidKeys(s) && forall k :: 0 <= k < |names| ==> names[k] != ""
    requires i < |names| && j < |names|
    ensures KeysFor(s, names).keys[i] == KeysFor(s, names).keys[j] <==> s.canon(names[i]) == s.canon(names[j])
  {
    var r := KeysFor(s, names);
    assert r.state.types[s.canon(names[i])] == r.keys[i];
    assert r.state.types[s.canon(names[j])] == r.keys[j];
  }

  /** CreateNamedServiceInterface(serviceType, name): INamedService<serviceType, key(name)>. */
  function NamedServiceInterface(s: KeyState, serviceType: Ty, name: string): (r: Lookup)
    requires name != ""
    ensures r.key.INamedServiceOf? && r.key.service == serviceType
    ensures r.key.key == GetOrAdd(s, name).key && r.state == GetOrAdd(s, name).state
  {
    var l := GetOrAdd(s, name);
    Lookup(l.state, INamedServiceOf(serviceType, l.key))
  }

  /** CreateNamedServiceEnumerableInterface(serviceType, name): IEnumerable of the compound key. */
  function NamedServiceEnumerableInterface(s: KeyState, serviceType: Ty, name: string): (r: Lookup)
    requires name != ""
    ensures r.key == EnumerableOf(NamedServiceInterface(s, serviceType, name).key)
    ensures r.state == NamedServiceInterface(s, serviceType, name).state
  {
    var l := NamedServiceInterface(s, serviceType, name);
    Lookup(l.state, EnumerableOf(l.key))
  }

  /** CreateNamedServiceType(serviceType, name): NamedService<serviceType, key(name)>. */
  function NamedServiceType(s: KeyState, serviceType: Ty, name: string): (r: Lookup)
    requires name != ""
    ensures r.key == NamedServiceOf(serviceType, GetOrAdd(s, name).key)
    ensures r.state == GetOrAdd(s, name).state
  {
    var l := GetOrAdd(s, name);
    Lookup(l.state, NamedServiceOf(serviceType, l.key))
  }

  /**
   * Two compound keys built one after the other are equal exactly when the
   * service types are equal and the comparer equates the names.
   */
  lemma CompoundKeysEqualExactly(s: KeyState, serviceA: Ty, a: string, serviceB: Ty, b: string)
    requires ValidKeys(s) && a != "" && b != ""
    ensures var l := NamedServiceInterface(s, serviceA, a);
            NamedServiceInterface(l.state, serviceB, b).key == l.key <==> serviceA == serviceB && s.canon(a) == s.canon(b)
  {
    if s.canon(a) != s.canon(b) {
      DistinctNamesGetDistinctKeys(s, a, b);
    }
  }

  /** The static class NamedServiceManager, whose only state is the key cache. */
  class NamedServiceManager {
    const canon: string -> string
    var types: map<string, Ty>
    var defined: nat

    function State(): (s: KeyState)
      reads this
      ensures s.canon == canon && s.types == types && s.defined == defined
    {
      KeyState(canon, types, defined)
    }

    ghost predicate Valid()
      reads this
    {
      ValidKeys(State())
    }

    /** The cache as the type initializer leaves it: empty. */
    constructor(canon: string -> string)
      ensures this.canon == canon && types == map[] && defined == 0
      ensures Valid()
    {
      this.canon := canon;
      types := map[];
      defined := 0;
    }

    /** CreateNamedServiceKeyType(name) */
    method CreateNamedServiceKeyType(name: string) returns (key: Ty)
      requires name != ""
      modifies this
      ensures key == GetOrAdd(old(State()), name).key
      ensures State() == GetOrAdd(old(State()), name).state
      ensures old(Valid()) ==> Valid()
    {
      var c := canon(name);
      if c in types {
        key := types[c];
      } else {
        key := KeyMarker(defined, name);
        types := types[c := key];
        defined := defined + 1;
      }
    }

    /** CreateNamedServiceInterface(serviceType, name) and CreateNamedServiceInterface<TService>(name) */
    method CreateNamedServiceInterface(serviceType: Ty, name: string) returns (t: Ty)
      requires name != ""
      modifies this
      ensures t == NamedServiceInterface(old(State()), serviceType, name).key
      ensures State() == NamedServiceInterface(old(State()), serviceType, name).state
    {
      var key := CreateNamedServiceKeyType(name);
      t := INamedServiceOf(serviceType, key);
    }

    /** CreateNamedServiceEnumerableInterface(serviceType, name) */
    method CreateNamedServiceEnumerableInterface(serviceType: Ty, name: string) returns (t: Ty)
      requires name != ""
      modifies this
      ensures t == NamedServiceEnumerableInterface(old(State()), serviceType, name).key
      ensures State() == NamedServiceEnumerableInterface(old(State()), serviceType, name).state
    {
      var i := CreateNamedServiceInterface(serviceType, name);
      t := EnumerableOf(i);
    }

    /** CreateNamedServiceType(serviceType, name) */
    method CreateNamedServiceType(serviceType: Ty, name: string) returns (t: Ty)
      requires name != ""
      modifies this
      ensures t == NamedServiceType(old(State()), serviceType, name).key
      ensures State() == NamedServiceType(old(State()), serviceType, name).state
    {
      var key := CreateNamedServiceKeyType(name);
      t := NamedServiceOf(serviceType, key);
    }

    /**
     * CreateNamedServiceImplementation(serviceType, instance, name): computes
     * NamedService<serviceType, key(name)> and has Activator construct it
     * around `instance`. The key is cached even when the construction fails.
     */
    method CreateNamedServiceImplementation(serviceType: Ty, instance: Option<Obj>, name: string, isA: (Obj, Ty) -> bool)
      returns (r: Result<NamedService, Error>)
      requires name != ""
      modifies this
      ensures r == ActivateCarrier(isA, serviceType, GetOrAdd(old(State()), name).key, instance)
      ensures State() == GetOrAdd(old(State()), name).state
      ensures r.Success? ==> r.value.service == instance.value && r.value.RuntimeType() == NamedServiceType(old(State()), serviceType, name).key
    {
      var t := CreateNamedServiceType(serviceType, name);
      r := ActivateCarrier(isA, serviceType, t.key, instance);
    }

    /**
     * CreateNamedServiceImplementation(services, serviceType, instance, name)
     * and its generic form: the same, but constructed through
     * ActivatorUtilities with the provider.
     */
    method CreateNamedServiceImplementationWithServices(services: Provider, serviceType: Ty, instance: Option<Obj>, name: string, isA: (Obj, Ty) -> bool)
      returns (r: Result<NamedService, Error>)
      requires name != ""
      modifies this
      ensures r == ActivateCarrierWithServices(isA, serviceType, GetOrAdd(old(State()), name).key, instance)
      ensures State() == GetOrAdd(old(State()), name).state
      ensures r.Success? ==> r.value.service == instance.value && r.value.RuntimeType() == NamedServiceType(old(State()), serviceType, name).key
    {
      var t := CreateNamedServiceType(serviceType, name);
      r := ActivateCarrierWithServices(isA, serviceType, t.key, instance);
    }

    /**
     * CreateNamedServiceImplementation(services, serviceType, factory, name):
     * calls the factory once with the provider, then wraps its result. An
     * exception from the factory leaves the cache untouched.
     */
    method CreateNamedServiceImplementationFromFactory(
      services: Provider, serviceType: Ty, factory: Func, invoke: (Func, Provider) -> Result<Option<Obj>, Error>, name: string, isA: (Obj, Ty) -> bool)
      returns (r: Result<NamedService, Error>)
      requires name != ""
      modifies this
      ensures invoke(factory, services).Failure? ==> r == Failure(invoke(factory, services).error) && unchanged(this)
      ensures invoke(factory, services).Success? ==>
                && r == ActivateCarrier(isA, serviceType, GetOrAdd(old(State()), name).key, invoke(factory, services).value)
                && State() == GetOrAdd(old(State()), name).state
    {
      var instance := invoke(factory, services);
      if instance.Failure? {
        return Failure(instance.error);
      }
      r := CreateNamedServiceImplementation(serviceType, instance.value, name, isA);
    }

    /**
     * CreateNamedServiceImplementation(services, serviceType, implementationType, name):
     * activates `implementationType` with constructor injection from the
     * provider, then wraps the new instance.
     */
    method CreateNamedServiceImplementationFromType(
      services: Provider, serviceType: Ty, implementationType: Ty, activate: (Provider, Ty) -> Result<Obj, Error>, name: string, isA: (Obj, Ty) -> bool)
      returns (r: Result<NamedService, Error>)
      requires name != ""
      modifies this
      ensures activate(services, implementationType).Failure? ==> r == Failure(activate(services, implementationType).error) && unchanged(this)
      ensures activate(services, implementationType).Success? ==>
                && r == ActivateCarrier(isA, serviceType, GetOrAdd(old(State()), name).key, Some(activate(services, implementationType).value))
                && State() == GetOrAdd(old(State()), name).state
    {
      var instance := activate(services, implementationType);
      if instance.Failure? {
        return Failure(instance.error);
      }
      r := CreateNamedServiceImplementation(serviceType, Some(instance.value), name, isA);
    }

    /** CreateNamedServiceImplementation<TService>(services, name): activates and wraps TService itself. */
    method CreateNamedServiceImplementationOfSelf(
      services: Provider, service: Ty, activate: (Provider, Ty) -> Result<Obj, Error>, name: string, isA: (Obj, Ty) -> bool)
      returns (r: Result<NamedService, Error>)
      requires name != ""
      modifies this
      ensures activate(services, service).Failure? ==> r == Failure(activate(services, service).error) && unchanged(this)
      ensures activate(services, service).Success? ==>
                && r == ActivateCarrier(isA, service, GetOrAdd(old(State()), name).key, Some(activate(services, service).value))
                && State() == GetOrAdd(old(State()), name).state
    {
      r := CreateNamedServiceImplementationFromType(services, service, service, activate, name, isA);
    }
  }
}
