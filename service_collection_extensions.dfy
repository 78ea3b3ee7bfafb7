/**
 * ServiceCollectionExtensions: the named AddTransient/AddScoped/AddSingleton
 * overloads. Each validates its arguments and then either appends one
 * NamedServiceDescriptor (when the collection implements
 * ISupportNamedServiceDescriptor) or falls back to registering the
 * NamedServiceFactory helper once plus one plain descriptor under the
 * compound key INamedService<serviceType, key(name)>.
 */
module ServiceCollectionExtensions {
  import opened Wrappers
  import opened Container
  import opened NamedServiceDescriptors
  import opened NamedServiceManagement
  import opened Providers

  /**
   * What one accepted registration call records: on the native path the
   * source of the NamedServiceDescriptor, on the fallback path what the
   * registered lambda produces and the TService of the NamedService<TService, TKey>
   * it wraps the result in.
   */
  datatype Registration = Registration(
    serviceType: Ty,
    serviceName: string,
    lifetime: Lifetime,
    native: Source,
    wraps: WrapSource,
    carrier: Ty)

  /** The descriptor TryAddSingleton<NamedServiceFactory>() adds. */
  const HelperDescriptor := ServiceDescriptor(NamedServiceFactoryType, Singleton, Some(NamedServiceFactoryType), None, None, None)

  /** The NamedServiceDescriptor the native path appends; an instance is always a singleton. */
  function NativeDescriptor(g: Registration): (d: ServiceDescriptor)
    ensures Describes(d, g.serviceType, g.serviceName, if g.native.InstanceSource? then Singleton else g.lifetime, g.native)
  {
    match g.native
    case TypeSource(t) => ServiceDescriptor(g.serviceType, g.lifetime, Some(t), None, None, Some(g.serviceName))
    case InstanceSource(o) => ServiceDescriptor(g.serviceType, Singleton, None, Some(o), None, Some(g.serviceName))
    case FactorySource(f) => ServiceDescriptor(g.serviceType, g.lifetime, None, None, Some(f), Some(g.serviceName))
  }

  /** The plain descriptor the fallback path appends, for the key type `key` of the registration's name. */
  function FallbackDescriptor(g: Registration, key: Ty): (d: ServiceDescriptor)
    ensures d.serviceType == INamedServiceOf(g.serviceType, key) && d.lifetime == g.lifetime && d.serviceName.None?
    ensures HasSingleSource(d) && d.implementationFactory == Some(WrapperFactory(g.carrier, key, g.wraps))
  {
    ServiceDescriptor(INamedServiceOf(g.serviceType, key), g.lifetime, None, None, Some(WrapperFactory(g.carrier, key, g.wraps)), None)
  }

  /** ServiceCollectionDescriptorExtensions.TryAdd: add `d` unless its service type is already registered. */
  function TryAdd(descs: seq<ServiceDescriptor>, d: ServiceDescriptor): (r: seq<ServiceDescriptor>)
    ensures |Matching(descs, d.serviceType)| == 0 ==> r == descs + [d]
    ensures |Matching(descs, d.serviceType)| > 0 ==> r == descs
  {
    if |Matching(descs, d.serviceType)| == 0 then descs + [d] else descs
  }

  /** The collection after a native registration. */
  function AfterNative(descs: seq<ServiceDescriptor>, g: Registration): seq<ServiceDescriptor> {
    descs + [NativeDescriptor(g)]
  }

  /** The collection after a fallback registration whose name has key type `key`. */
  function AfterFallback(descs: seq<ServiceDescriptor>, g: Registration, key: Ty): seq<ServiceDescriptor> {
    TryAdd(descs, HelperDescriptor) + [FallbackDescriptor(g, key)]
  }

  /** A one-descriptor collection matches t exactly when the descriptor registers t. */
  lemma MatchingOne(d: ServiceDescriptor, t: Ty)
    ensures Matching([d], t) == if d.serviceType == t then [d] else []
  {
    assert [d][..0] == [];
  }

  /** What a fallback registration registers for one type `t`. */
  lemma {:induction false} FallbackMatching(descs: seq<ServiceDescriptor>, g: Registration, key: Ty, t: Ty)
    ensures Matching(AfterFallback(descs, g, key), t)
            == Matching(descs, t)
               + (if t == NamedServiceFactoryType && |Matching(descs, NamedServiceFactoryType)| == 0 then [HelperDescriptor] else [])
               + (if t == INamedServiceOf(g.serviceType, key) then [FallbackDescriptor(g, key)] else [])
  {
    var f := FallbackDescriptor(g, key);
    MatchingOne(f, t);
    if |Matching(descs, NamedServiceFactoryType)| == 0 {
      MatchingOne(HelperDescriptor, t);
      MatchingAppend(descs, [HelperDescriptor], t);
      MatchingAppend(descs + [HelperDescriptor], [f], t);
    } else {
      MatchingAppend(descs, [f], t);
    }
  }

  /**
   * A fallback registration adds the helper only if no NamedServiceFactory is
   * registered yet, adds exactly one descriptor under the compound key, and
   * leaves what is registered for every other type as it was.
   */
  lemma {:induction false} FallbackFootprint(descs: seq<ServiceDescriptor>, g: Registration, key: Ty)
    ensures |AfterFallback(descs, g, key)| == |descs| + (if |Matching(descs, NamedServiceFactoryType)| == 0 then 2 else 1)
    ensures |Matching(AfterFallback(descs, g, key), NamedServiceFactoryType)|
            == if |Matching(descs, NamedServiceFactoryType)| == 0 then 1 else |Matching(descs, NamedServiceFactoryType)|
    ensures Matching(AfterFallback(descs, g, key), INamedServiceOf(g.serviceType, key))
            == Matching(descs, INamedServiceOf(g.serviceType, key)) + [FallbackDescriptor(g, key)]
    ensures forall t :: t != NamedServiceFactoryType && t != INamedServiceOf(g.serviceType, key) ==>
              Matching(AfterFallback(descs, g, key), t) == Matching(descs, t)
  {
    FallbackMatching(descs, g, key, NamedServiceFactoryType);
    FallbackMatching(descs, g, key, INamedServiceOf(g.serviceType, key));
    forall t | t != NamedServiceFactoryType && t != INamedServiceOf(g.serviceType, key)
      ensures Matching(AfterFallback(descs, g, key), t) == Matching(descs, t)
    {
      FallbackMatching(descs, g, key, t);
    }
  }

  /** A native registration appends exactly its NamedServiceDescriptor and nothing else. */
  lemma {:induction false} NativeFootprint(descs: seq<ServiceDescriptor>, g: Registration, t: Ty)
    ensures |AfterNative(descs, g)| == |descs| + 1
    ensures Matching(AfterNative(descs, g), t) == Matching(descs, t) + (if t == g.serviceType then [NativeDescriptor(g)] else [])
  {
    MatchingOne(NativeDescriptor(g), t);
    MatchingAppend(descs, [NativeDescriptor(g)], t);
  }

  /**
   * On an empty collection, one fallback registration leaves two descriptors,
   * the helper and the registration: AfterFallback on [] spelled out.
   */
  lemma FirstFallbackRegistration(g: Registration, key: Ty)
    ensures AfterFallback([], g, key) == [HelperDescriptor, FallbackDescriptor(g, key)]
  {
  }

  /** However many fallback registrations follow, there is still exactly one NamedServiceFactory descriptor. */
  lemma {:induction false} HelperRegisteredOnce(descs: seq<ServiceDescriptor>, g1: Registration, key1: Ty, g2: Registration, key2: Ty)
    requires |Matching(descs, NamedServiceFactoryType)| <= 1
    ensures |Matching(AfterFallback(descs, g1, key1), NamedServiceFactoryType)| == 1
    ensures |Matching(AfterFallback(AfterFallback(descs, g1, key1), g2, key2), NamedServiceFactoryType)| == 1
  {
    FallbackFootprint(descs, g1, key1);
    FallbackFootprint(AfterFallback(descs, g1, key1), g2, key2);
  }

  /** An IServiceCollection; `supportsNamedDescriptors` says whether it also implements ISupportNamedServiceDescriptor. */
  class ServiceCollection {
    const supportsNamedDescriptors: bool
    var descriptors: seq<ServiceDescriptor>

    constructor(supportsNamedDescriptors: bool)
      ensures this.supportsNamedDescriptors == supportsNamedDescriptors && descriptors == []
    {
      this.supportsNamedDescriptors := supportsNamedDescriptors;
      descriptors := [];
    }

    /** ICollection<ServiceDescriptor>.Add */
    method Add(d: ServiceDescriptor)
      modifies this
      ensures descriptors == old(descriptors) + [d]
    {
      descriptors := descriptors + [d];
    }

    /** AddNamedServiceSupportServices(): TryAddSingleton<NamedServiceFactory>(). */
    method AddNamedServiceSupportServices()
      modifies this
      ensures descriptors == TryAdd(old(descriptors), HelperDescriptor)
      ensures |Matching(descriptors, NamedServiceFactoryType)| > 0
    {
      if |Matching(descriptors, NamedServiceFactoryType)| == 0 {
        Add(HelperDescriptor);
        MatchingAppend(old(descriptors), [HelperDescriptor], NamedServiceFactoryType);
      }
    }
  }

  /** A failed call changes neither the collection nor the key cache. */
  twostate predicate Untouched(services: ServiceCollection?, keys: NamedServiceManager)
    reads services, keys
  {
    (services != null ==> unchanged(services)) && unchanged(keys)
  }

  /** The effect of an accepted registration `g`, on whichever path the collection selects. */
  twostate predicate Done(services: ServiceCollection, keys: NamedServiceManager, g: Registration)
    requires g.serviceName != ""
    reads services, keys
  {
    if services.supportsNamedDescriptors then
      && services.descriptors == AfterNative(old(services.descriptors), g)
      && unchanged(keys)
    else
      var l := GetOrAdd(old(keys.State()), g.serviceName);
      && keys.State() == l.state
      && services.descriptors == AfterFallback(old(services.descriptors), g, l.key)
  }

  // ---------------------------------------------------------------------------
  // The private Add helpers of the native path.

  /** Add(collection, serviceType, serviceName, implementationType, lifetime) */
  method AddTypeDescriptor(collection: ServiceCollection, serviceType: Ty, serviceName: string, implementationType: Ty, lifetime: Lifetime)
    returns (r: Result<ServiceCollection, Error>)
    requires collection.supportsNamedDescriptors
    modifies collection
    ensures serviceName == "" ==> r == Failure(ArgumentNull("serviceName")) && unchanged(collection)
    ensures serviceName != "" ==>
              && r == Success(collection)
              && collection.descriptors == old(collection.descriptors) + [NewWithType(serviceType, Some(serviceName), implementationType, lifetime).value]
  {
    var d := NewWithType(serviceType, Some(serviceName), implementationType, lifetime);
    if d.Failure? {
      return Failure(d.error);
    }
    collection.Add(d.value);
    r := Success(collection);
  }

  /** Add(collection, serviceType, serviceName, instance) */
  method AddInstanceDescriptor(collection: ServiceCollection, serviceType: Ty, serviceName: string, instance: Obj)
    returns (r: Result<ServiceCollection, Error>)
    requires collection.supportsNamedDescriptors
    modifies collection
    ensures serviceName == "" ==> r == Failure(ArgumentNull("serviceName")) && unchanged(collection)
    ensures serviceName != "" ==>
              && r == Success(collection)
              && collection.descriptors == old(collection.descriptors) + [NewWithInstance(serviceType, Some(serviceName), instance).value]
  {
    var d := NewWithInstance(serviceType, Some(serviceName), instance);
    if d.Failure? {
      return Failure(d.error);
    }
    collection.Add(d.value);
    r := Success(collection);
  }

  /** Add(collection, serviceType, serviceName, implementationFactory, lifetime) */
  method AddFactoryDescriptor(collection: ServiceCollection, serviceType: Ty, serviceName: string, implementationFactory: Factory, lifetime: Lifetime)
    returns (r: Result<ServiceCollection, Error>)
    requires collection.supportsNamedDescriptors
    modifies collection
    ensures serviceName == "" ==> r == Failure(ArgumentNull("serviceName")) && unchanged(collection)
    ensures serviceName != "" ==>
              && r == Success(collection)
              && collection.descriptors == old(collection.descriptors) + [NewWithFactory(serviceType, Some(serviceName), implementationFactory, lifetime).value]
  {
    var d := NewWithFactory(serviceType, Some(serviceName), implementationFactory, lifetime);
    if d.Failure? {
      return Failure(d.error);
    }
    collection.Add(d.value);
    r := Success(collection);
  }

  /** The two paths every overload ends in, once its arguments are known to be valid. */
  method Register(services: ServiceCollection, keys: NamedServiceManager, g: Registration) returns (r: Result<ServiceCollection, Error>)
    requires g.serviceName != ""
    requires g.native.InstanceSource? ==> g.lifetime == Singleton
    modifies services, keys
    ensures r == Success(services)
    ensures Done(services, keys, g)
  {
    if services.supportsNamedDescriptors {
      match g.native
      case TypeSource(t) =>
        r := AddTypeDescriptor(services, g.serviceType, g.serviceName, t, g.lifetime);
      case InstanceSource(o) =>
        r := AddInstanceDescriptor(services, g.serviceType, g.serviceName, o);
      case FactorySource(f) =>
        r := AddFactoryDescriptor(services, g.serviceType, g.serviceName, f, g.lifetime);
    } else {
      services.AddNamedServiceSupportServices();
      var compound := keys.CreateNamedServiceInterface(g.serviceType, g.serviceName);
      services.Add(FallbackDescriptor(g, compound.key));
      r := Success(services);
    }
  }

  // ---------------------------------------------------------------------------
  // The public overloads. Each stands for its Transient, Scoped and Singleton
  // forms, which differ only in the lifetime passed on.

  /** AddTransient/AddScoped/AddSingleton(services, Type serviceType, string serviceName, Type implementationType) */
  method AddType(services: ServiceCollection?, serviceType: Option<Ty>, serviceName: Option<string>, implementationType: Option<Ty>, lifetime: Lifetime, keys: NamedServiceManager)
    returns (r: Result<ServiceCollection, Error>)
    modifies services, keys
    ensures r.Success? <==> services != null && serviceType.Some? && !IsNullOrEmpty(serviceName) && implementationType.Some?
    ensures services == null ==> r == Failure(ArgumentNull("services"))
    ensures services != null && serviceType.None? ==> r == Failure(ArgumentNull("serviceType"))
    ensures services != null && serviceType.Some? && IsNullOrEmpty(serviceName) ==> r == Failure(ArgumentNull("serviceName"))
    ensures services != null && serviceType.Some? && !IsNullOrEmpty(serviceName) && implementationType.None? ==> r == Failure(ArgumentNull("implementationType"))
    ensures r.Failure? ==> Untouched(services, keys)
    ensures r.Success? ==>
              && r.value == services
              && Done(services, keys, Registration(serviceType.value, serviceName.value, lifetime,
                                                   TypeSource(implementationType.value), ActivateType(implementationType.value), serviceType.value))
  {
    if services == null { return Failure(ArgumentNull("services")); }
    if serviceType.None? { return Failure(ArgumentNull("serviceType")); }
    if IsNullOrEmpty(serviceName) { return Failure(ArgumentNull("serviceName")); }
    if implementationType.None? { return Failure(ArgumentNull("implementationType")); }
    var t := implementationType.value;
    r := Register(services, keys, Registration(serviceType.value, serviceName.value, lifetime, TypeSource(t), ActivateType(t), serviceType.value));
  }

  /** AddTransient/AddScoped/AddSingleton(services, Type serviceType, string serviceName, Func<IServiceProvider, object> implementationFactory) */
  method AddFactory(services: ServiceCollection?, serviceType: Option<Ty>, serviceName: Option<string>, implementationFactory: Option<Func>, lifetime: Lifetime, keys: NamedServiceManager)
    returns (r: Result<ServiceCollection, Error>)
    modifies services, keys
    ensures r.Success? <==> services != null && serviceType.Some? && !IsNullOrEmpty(serviceName) && implementationFactory.Some?
    ensures services == null ==> r == Failure(ArgumentNull("services"))
    ensures services != null && serviceType.None? ==> r == Failure(ArgumentNull("serviceType"))
    ensures services != null && serviceType.Some? && IsNullOrEmpty(serviceName) ==> r == Failure(ArgumentNull("serviceName"))
    ensures services != null && serviceType.Some? && !IsNullOrEmpty(serviceName) && implementationFactory.None? ==> r == Failure(ArgumentNull("implementationFactory"))
    ensures r.Failure? ==> Untouched(services, keys)
    ensures r.Success? ==>
              && r.value == services
              && Done(services, keys, Registration(serviceType.value, serviceName.value, lifetime,
                                                   FactorySource(UserFactory(implementationFactory.value)), InvokeFactory(implementationFactory.value), serviceType.value))
  {
    if services == null { return Failure(ArgumentNull("services")); }
    if serviceType.None? { return Failure(ArgumentNull("serviceType")); }
    if IsNullOrEmpty(serviceName) { return Failure(ArgumentNull("serviceName")); }
    if implementationFactory.None? { return Failure(ArgumentNull("implementationFactory")); }
    var f := implementationFactory.value;
    r := Register(services, keys, Registration(serviceType.value, serviceName.value, lifetime, FactorySource(UserFactory(f)), InvokeFactory(f), serviceType.value));
  }

  /** AddTransient/AddScoped/AddSingleton<TService, TImplementation>(services, serviceName) */
  method AddGenericType(services: ServiceCollection?, service: Ty, implementation: Ty, serviceName: Option<string>, lifetime: Lifetime, keys: NamedServiceManager)
    returns (r: Result<ServiceCollection, Error>)
    modifies services, keys
    ensures r.Success? <==> services != null && !IsNullOrEmpty(serviceName)
    ensures services == null ==> r == Failure(ArgumentNull("services"))
    ensures services != null && IsNullOrEmpty(serviceName) ==> r == Failure(ArgumentNull("serviceName"))
    ensures r.Failure? ==> Untouched(services, keys)
    ensures r.Success? ==>
              && r.value == services
              && Done(services, keys, Registration(service, serviceName.value, lifetime, TypeSource(implementation), ActivateType(implementation), service))
  {
    if services == null { return Failure(ArgumentNull("services")); }
    if IsNullOrEmpty(serviceName) { return Failure(ArgumentNull("serviceName")); }
    r := Register(services, keys, Registration(service, serviceName.value, lifetime, TypeSource(implementation), ActivateType(implementation), service));
  }

  /** AddTransient/AddScoped/AddSingleton(services, Type serviceType, string serviceName): the service type is its own implementation. */
  method AddSelf(services: ServiceCollection?, serviceType: Option<Ty>, serviceName: Option<string>, lifetime: Lifetime, keys: NamedServiceManager)
    returns (r: Result<ServiceCollection, Error>)
    modifies services, keys
    ensures r.Success? <==> services != null && serviceType.Some? && !IsNullOrEmpty(serviceName)
    ensures services == null ==> r == Failure(ArgumentNull("services"))
    ensures services != null && serviceType.None? ==> r == Failure(ArgumentNull("serviceType"))
    ensures services != null && serviceType.Some? && IsNullOrEmpty(serviceName) ==> r == Failure(ArgumentNull("serviceName"))
    ensures r.Failure? ==> Untouched(services, keys)
    ensures r.Success? ==>
              && r.value == services
              && Done(services, keys, Registration(serviceType.value, serviceName.value, lifetime,
                                                   TypeSource(serviceType.value), ActivateType(serviceType.value), serviceType.value))
  {
    if services == null { return Failure(ArgumentNull("services")); }
    if serviceType.None? { return Failure(ArgumentNull("serviceType")); }
    if IsNullOrEmpty(serviceName) { return Failure(ArgumentNull("serviceName")); }
    var t := serviceType.value;
    r := Register(services, keys, Registration(t, serviceName.value, lifetime, TypeSource(t), ActivateType(t), t));
  }

  /** AddTransient/AddScoped/AddSingleton<TService>(services, serviceName): TService is its own implementation. */
  method AddGenericSelf(services: ServiceCollection?, service: Ty, serviceName: Option<string>, lifetime: Lifetime, keys: NamedServiceManager)
    returns (r: Result<ServiceCollection, Error>)
    modifies services, keys
    ensures r.Success? <==> services != null && !IsNullOrEmpty(serviceName)
    ensures services == null ==> r == Failure(ArgumentNull("services"))
    ensures services != null && IsNullOrEmpty(serviceName) ==> r == Failure(ArgumentNull("serviceName"))
    ensures r.Failure? ==> Untouched(services, keys)
    ensures r.Success? ==>
              && r.value == services
              && Done(services, keys, Registration(service, serviceName.value, lifetime, TypeSource(service), ActivateType(service), service))
  {
    if services == null { return Failure(ArgumentNull("services")); }
    if IsNullOrEmpty(serviceName) { return Failure(ArgumentNull("serviceName")); }
    r := Register(services, keys, Registration(service, serviceName.value, lifetime, TypeSource(service), ActivateType(service), service));
  }

  /**
   * AddTransient/AddScoped/AddSingleton<TService>(services, serviceName, implementationFactory).
   * The scoped form's native path registers TService as an implementation
   * type and drops the factory.
   */
  method AddGenericFactory(services: ServiceCollection?, service: Ty, serviceName: Option<string>, implementationFactory: Option<Func>, lifetime: Lifetime, keys: NamedServiceManager)
    returns (r: Result<ServiceCollection, Error>)
    modifies services, keys
    ensures r.Success? <==> services != null && !IsNullOrEmpty(serviceName) && implementationFactory.Some?
    ensures services == null ==> r == Failure(ArgumentNull("services"))
    ensures services != null && IsNullOrEmpty(serviceName) ==> r == Failure(ArgumentNull("serviceName"))
    ensures services != null && !IsNullOrEmpty(serviceName) && implementationFactory.None? ==> r == Failure(ArgumentNull("implementationFactory"))
    ensures r.Failure? ==> Untouched(services, keys)
    ensures r.Success? ==>
              && r.value == services
              && Done(services, keys, Registration(service, serviceName.value, lifetime,
                                                   if lifetime == Scoped then TypeSource(service) else FactorySource(UserFactory(implementationFactory.value)),
                                                   InvokeFactory(implementationFactory.value), service))
  {
    if services == null { return Failure(ArgumentNull("services")); }
    if IsNullOrEmpty(serviceName) { return Failure(ArgumentNull("serviceName")); }
    if implementationFactory.None? { return Failure(ArgumentNull("implementationFactory")); }
    var f := implementationFactory.value;
    var native := if lifetime == Scoped then TypeSource(service) else FactorySource(UserFactory(f));
    r := Register(services, keys, Registration(service, serviceName.value, lifetime, native, InvokeFactory(f), service));
  }

  /**
   * AddTransient/AddScoped/AddSingleton<TService, TImplementation>(services, serviceName, implementationFactory).
   * As for AddGenericFactory the scoped native path drops the factory; the
   * transient fallback lambda wraps the result as a NamedService of
   * TImplementation rather than of TService.
   */
  method AddGenericFactoryWithImplementation(
    services: ServiceCollection?, service: Ty, implementation: Ty, serviceName: Option<string>, implementationFactory: Option<Func>,
    lifetime: Lifetime, keys: NamedServiceManager)
    returns (r: Result<ServiceCollection, Error>)
    modifies services, keys
    ensures r.Success? <==> services != null && !IsNullOrEmpty(serviceName) && implementationFactory.Some?
    ensures services == null ==> r == Failure(ArgumentNull("services"))
    ensures services != null && IsNullOrEmpty(serviceName) ==> r == Failure(ArgumentNull("serviceName"))
    ensures services != null && !IsNullOrEmpty(serviceName) && implementationFactory.None? ==> r == Failure(ArgumentNull("implementationFactory"))
    ensures r.Failure? ==> Untouched(services, keys)
    ensures r.Success? ==>
              && r.value == services
              && Done(services, keys, Registration(service, serviceName.value, lifetime,
                                                   if lifetime == Scoped then TypeSource(service) else FactorySource(UserFactory(implementationFactory.value)),
                                                   InvokeFactory(implementationFactory.value),
                                                   if lifetime == Transient then implementation else service))
  {
    if services == null { return Failure(ArgumentNull("services")); }
    if IsNullOrEmpty(serviceName) { return Failure(ArgumentNull("serviceName")); }
    if implementationFactory.None? { return Failure(ArgumentNull("implementationFactory")); }
    var f := implementationFactory.value;
    var native := if lifetime == Scoped then TypeSource(service) else FactorySource(UserFactory(f));
    var carrier := if lifetime == Transient then implementation else service;
    r := Register(services, keys, Registration(service, serviceName.value, lifetime, native, InvokeFactory(f), carrier));
  }

  /** AddSingleton(services, Type serviceType, object implementationInstance, string serviceName) */
  method AddInstance(services: ServiceCollection?, serviceType: Option<Ty>, implementationInstance: Option<Obj>, serviceName: Option<string>, keys: NamedServiceManager)
    returns (r: Result<ServiceCollection, Error>)
    modifies services, keys
    ensures r.Success? <==> services != null && serviceType.Some? && !IsNullOrEmpty(serviceName) && implementationInstance.Some?
    ensures services == null ==> r == Failure(ArgumentNull("services"))
    ensures services != null && serviceType.None? ==> r == Failure(ArgumentNull("serviceType"))
    ensures services != null && serviceType.Some? && IsNullOrEmpty(serviceName) ==> r == Failure(ArgumentNull("serviceName"))
    ensures services != null && serviceType.Some? && !IsNullOrEmpty(serviceName) && implementationInstance.None? ==> r == Failure(ArgumentNull("implementationInstance"))
    ensures r.Failure? ==> Untouched(services, keys)
    ensures r.Success? ==>
              && r.value == services
              && Done(services, keys, Registration(serviceType.value, serviceName.value, Singleton,
                                                   InstanceSource(implementationInstance.value), ReuseInstance(implementationInstance.value), serviceType.value))
  {
    if services == null { return Failure(ArgumentNull("services")); }
    if serviceType.None? { return Failure(ArgumentNull("serviceType")); }
    if IsNullOrEmpty(serviceName) { return Failure(ArgumentNull("serviceName")); }
    if implementationInstance.None? { return Failure(ArgumentNull("implementationInstance")); }
    var o := implementationInstance.value;
    r := Register(services, keys, Registration(serviceType.value, serviceName.value, Singleton, InstanceSource(o), ReuseInstance(o), serviceType.value));
  }

  /** AddSingleton<TService>(services, TService implementationInstance, string serviceName) */
  method AddGenericInstance(services: ServiceCollection?, service: Ty, implementationInstance: Option<Obj>, serviceName: Option<string>, keys: NamedServiceManager)
    returns (r: Result<ServiceCollection, Error>)
    modifies services, keys
    ensures r.Success? <==> services != null && !IsNullOrEmpty(serviceName) && implementationInstance.Some?
    ensures services == null ==> r == Failure(ArgumentNull("services"))
    ensures services != null && IsNullOrEmpty(serviceName) ==> r == Failure(ArgumentNull("serviceName"))
    ensures services != null && !IsNullOrEmpty(serviceName) && implementationInstance.None? ==> r == Failure(ArgumentNull("implementationInstance"))
    ensures r.Failure? ==> Untouched(services, keys)
    ensures r.Success? ==>
              && r.value == services
              && Done(services, keys, Registration(service, serviceName.value, Singleton,
                                                   InstanceSource(implementationInstance.value), ReuseInstance(implementationInstance.value), service))
  {
    if services == null { return Failure(ArgumentNull("services")); }
    if IsNullOrEmpty(serviceName) { return Failure(ArgumentNull("serviceName")); }
    if implementationInstance.None? { return Failure(ArgumentNull("implementationInstance")); }
    var o := implementationInstance.value;
    r := Register(services, keys, Registration(service, serviceName.value, Singleton, InstanceSource(o), ReuseInstance(o), service));
  }
}
