/**
 * The resolving side of the host container: what `IServiceProvider.GetService`
 * returns, the optional named-service capabilities a provider may implement,
 * the container's own `GetRequiredService`/`GetServices` extensions, and a
 * reference container that resolves a descriptor list the way the host does.
 */
module Providers {
  import opened Wrappers
  import opened Container
  import opened NamedServices

  /** A non-null object returned by GetService. */
  datatype Value =
    | Instance(obj: Obj)             // an ordinary service object
    | Wrapped(carrier: NamedService) // an object implementing INamedService
    | Sequence(items: seq<Value>)    // the array returned for IEnumerable<T>

  /** ISupportNamedServices. */
  datatype NamedSupport = NamedSupport(
    getNamedService: (Ty, string) -> Result<Option<Obj>, Error>,
    getNamedServices: (Ty, string) -> Result<seq<Option<Obj>>, Error>)

  /**
   * An IServiceProvider: its GetService and which of ISupportNamedServices and
   * ISupportRequiredNamedServices it implements.
   */
  datatype Provider = Provider(
    getService: Ty -> Result<Option<Value>, Error>,
    named: Option<NamedSupport>,
    requiredNamed: Option<(Ty, string) -> Result<Obj, Error>>)

  /** ServiceProviderServiceExtensions.GetRequiredService: a null answer becomes an error. */
  function GetRequiredService(p: Provider, t: Ty): (r: Result<Value, Error>)
    ensures r.Success? <==> p.getService(t).Success? && p.getService(t).value.Some?
    ensures r.Success? ==> r.value == p.getService(t).value.value
    ensures p.getService(t).Failure? ==> r == Failure(p.getService(t).error)
    ensures p.getService(t) == Success(None) ==> r == Failure(NoServiceRegistered(t))
  {
    match p.getService(t)
    case Failure(e) => Failure(e)
    case Success(None) => Failure(NoServiceRegistered(t))
    case Success(Some(v)) => Success(v)
  }

  /** ServiceProviderServiceExtensions.GetServices(Type): the required IEnumerable<T>, cast to IEnumerable<object>. */
  function GetServices(p: Provider, t: Ty): (r: Result<seq<Value>, Error>)
    ensures r.Success? <==> GetRequiredService(p, EnumerableOf(t)).Success? && GetRequiredService(p, EnumerableOf(t)).value.Sequence?
    ensures r.Success? ==> r.value == GetRequiredService(p, EnumerableOf(t)).value.items
  {
    var v :- GetRequiredService(p, EnumerableOf(t));
    if v.Sequence? then Success(v.items) else Failure(InvalidCast(EnumerableOf(ObjectType)))
  }

  // ---------------------------------------------------------------------------
  // A reference container.

  /** The descriptors registered for exactly `t`, in registration order. */
  function Matching(descs: seq<ServiceDescriptor>, t: Ty): (r: seq<ServiceDescriptor>)
    ensures |r| <= |descs|
  {
    if |descs| == 0 then []
    else Matching(descs[..|descs| - 1], t) + (if descs[|descs| - 1].serviceType == t then [descs[|descs| - 1]] else [])
  }

  /** Matching keeps exactly the descriptors of type `t`, and nothing else. */
  lemma {:induction false} MatchingMembers(descs: seq<ServiceDescriptor>, t: Ty, d: ServiceDescriptor)
    ensures d in Matching(descs, t) <==> d in descs && d.serviceType == t
    decreases |descs|
  {
    if |descs| > 0 {
      var init := descs[..|descs| - 1];
      MatchingMembers(init, t, d);
      assert descs == init + [descs[|descs| - 1]];
    }
  }

  lemma {:induction false} MatchingAppend(a: seq<ServiceDescriptor>, b: seq<ServiceDescriptor>, t: Ty)
    ensures Matching(a + b, t) == Matching(a, t) + Matching(b, t)
    decreases |b|
  {
    if |b| == 0 {
      assert a + b == a;
    } else {
      var b' := b[..|b| - 1];
      assert (a + b)[..|a + b| - 1] == a + b';
      assert b[..|b| - 1] == b';
      MatchingAppend(a, b', t);
    }
  }

  /** What the container runs to obtain the object one descriptor stands for. */
  function Materialise(d: ServiceDescriptor, activate: Ty -> Obj, invoke: Func -> Obj, isA: (Obj, Ty) -> bool): (r: Result<Value, Error>)
    ensures d.implementationInstance.None? && d.implementationFactory.None? && d.implementationType.None? ==>
              r == Failure(InvalidServiceDescriptor(d.serviceType))
    ensures d.implementationInstance.Some? ==> r == Success(Instance(d.implementationInstance.value))
    ensures d.implementationInstance.None? && d.implementationFactory.Some? && d.implementationFactory.value.UserFactory? ==>
              r == Success(Instance(invoke(d.implementationFactory.value.func)))
    ensures d.implementationInstance.None? && d.implementationFactory.None? && d.implementationType.Some? ==>
              r == Success(Instance(activate(d.implementationType.value)))
    ensures d.implementationInstance.None? && d.implementationFactory.Some? && d.implementationFactory.value.WrapperFactory? ==>
              var f := d.implementationFactory.value;
              var w := RunWrapper(f.serviceType, f.key, f.source, activate, invoke, isA);
              && (w.Success? ==> r == Success(Wrapped(w.value)))
              && (w.Failure? ==> r == Failure(w.error))
  {
    if d.implementationInstance.Some? then Success(Instance(d.implementationInstance.value))
    else if d.implementationFactory.Some? then
      match d.implementationFactory.value
      case UserFactory(func) => Success(Instance(invoke(func)))
      case WrapperFactory(serviceType, key, source) =>
        var carrier :- RunWrapper(serviceType, key, source, activate, invoke, isA);
        Success(Wrapped(carrier))
    else if d.implementationType.Some? then Success(Instance(activate(d.implementationType.value)))
    else Failure(InvalidServiceDescriptor(d.serviceType))
  }

  /** The object a fallback lambda wraps: activated, returned by the factory, or the captured instance. */
  function Produce(source: WrapSource, activate: Ty -> Obj, invoke: Func -> Obj): (o: Obj)
    ensures source.ActivateType? ==> o == activate(source.implementationType)
    ensures source.InvokeFactory? ==> o == invoke(source.func)
    ensures source.ReuseInstance? ==> o == source.instance
  {
    match source
    case ActivateType(t) => activate(t)
    case InvokeFactory(f) => invoke(f)
    case ReuseInstance(o) => o
  }

  /**
   * A fallback lambda `sp => sp.CreateNamedServiceImplementation(…)` run by
   * the container: it produces the object and wraps it in
   * NamedService<serviceType, key>. An activated type or a factory's result
   * goes through Activator; a captured instance goes through
   * ActivatorUtilities. Either way the object must be a serviceType.
   */
  function RunWrapper(serviceType: Ty, key: Ty, source: WrapSource, activate: Ty -> Obj, invoke: Func -> Obj, isA: (Obj, Ty) -> bool)
    : (r: Result<NamedService, Error>)
    ensures r.Success? <==> isA(Produce(source, activate, invoke), serviceType)
    ensures r.Success? ==> r.value == NamedService(serviceType, key, Produce(source, activate, invoke))
    ensures r.Failure? && source.ReuseInstance? ==> r.error == NoSuitableConstructor(NamedServiceOf(serviceType, key))
    ensures r.Failure? && !source.ReuseInstance? ==> r.error == MissingConstructor(NamedServiceOf(serviceType, key))
  {
    var o := Some(Produce(source, activate, invoke));
    if source.ReuseInstance? then ActivateCarrierWithServices(isA, serviceType, key, o)
    else ActivateCarrier(isA, serviceType, key, o)
  }

  function MaterialiseAll(descs: seq<ServiceDescriptor>, activate: Ty -> Obj, invoke: Func -> Obj, isA: (Obj, Ty) -> bool): (r: Result<seq<Value>, Error>)
    ensures r.Success? ==> |r.value| == |descs|
  {
    if |descs| == 0 then Success([])
    else
      var init :- MaterialiseAll(descs[..|descs| - 1], activate, invoke, isA);
      var last :- Materialise(descs[|descs| - 1], activate, invoke, isA);
      Success(init + [last])
  }

  lemma {:induction false} MaterialiseAllAppend(a: seq<ServiceDescriptor>, b: seq<ServiceDescriptor>, activate: Ty -> Obj, invoke: Func -> Obj, isA: (Obj, Ty) -> bool)
    requires MaterialiseAll(a, activate, invoke, isA).Success?
    requires MaterialiseAll(b, activate, invoke, isA).Success?
    ensures MaterialiseAll(a + b, activate, invoke, isA)
            == Success(MaterialiseAll(a, activate, invoke, isA).value + MaterialiseAll(b, activate, invoke, isA).value)
    decreases |b|
  {
    if |b| == 0 {
      assert a + b == a;
      assert MaterialiseAll(b, activate, invoke, isA).value == [];
      assert MaterialiseAll(a, activate, invoke, isA).value + [] == MaterialiseAll(a, activate, invoke, isA).value;
    } else {
      var b' := b[..|b| - 1];
      assert MaterialiseAll(b', activate, invoke, isA).Success?;
      assert (a + b)[..|a + b| - 1] == a + b';
      MaterialiseAllAppend(a, b', activate, invoke, isA);
      assert (a + b)[|a + b| - 1] == b[|b| - 1];
      var last := Materialise(b[|b| - 1], activate, invoke, isA).value;
      assert MaterialiseAll(b, activate, invoke, isA).value == MaterialiseAll(b', activate, invoke, isA).value + [last];
      assert MaterialiseAll(a + b, activate, invoke, isA).value == MaterialiseAll(a + b', activate, invoke, isA).value + [last];
      assert MaterialiseAll(a, activate, invoke, isA).value + MaterialiseAll(b', activate, invoke, isA).value + [last]
          == MaterialiseAll(a, activate, invoke, isA).value + (MaterialiseAll(b', activate, invoke, isA).value + [last]);
    }
  }

  /**
   * The host container's resolution of one type: IEnumerable<T> gives every
   * registration of T in order; any other type gives the last registration of
   * it, or null when there is none.
   */
  function Resolve(descs: seq<ServiceDescriptor>, activate: Ty -> Obj, invoke: Func -> Obj, isA: (Obj, Ty) -> bool, t: Ty): (r: Result<Option<Value>, Error>)
    ensures t.EnumerableOf? && MaterialiseAll(Matching(descs, t.element), activate, invoke, isA).Success? ==>
              r == Success(Some(Sequence(MaterialiseAll(Matching(descs, t.element), activate, invoke, isA).value)))
    ensures !t.EnumerableOf? && |Matching(descs, t)| == 0 ==> r == Success(None)
    ensures !t.EnumerableOf? && |Matching(descs, t)| > 0 ==>
              var m := Matching(descs, t);
              r == (var v :- Materialise(m[|m| - 1], activate, invoke, isA); Success(Some(v)))
  {
    if t.EnumerableOf? then
      var items :- MaterialiseAll(Matching(descs, t.element), activate, invoke, isA);
      Success(Some(Sequence(items)))
    else
      var m := Matching(descs, t);
      if |m| == 0 then Success(None)
      else
        var v :- Materialise(m[|m| - 1], activate, invoke, isA);
        Success(Some(v))
  }

  /**
   * A plain host provider over `descs`: it implements neither named-service
   * capability. `activate` and `invoke` stand for constructor injection and for
   * calling a user factory.
   */
  function Host(descs: seq<ServiceDescriptor>, activate: Ty -> Obj, invoke: Func -> Obj, isA: (Obj, Ty) -> bool): (p: Provider)
    ensures p.named.None? && p.requiredNamed.None?
    ensures forall t :: p.getService(t) == Resolve(descs, activate, invoke, isA, t)
  {
    Provider(t => Resolve(descs, activate, invoke, isA, t), None, None)
  }
}
