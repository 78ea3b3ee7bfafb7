/**
 * NamedServiceDescriptor: a service registration that also carries a service
 * name, with the constructors and the static Transient/Scoped/Singleton/Describe
 * helpers that validate their arguments before building one.
 */
module NamedServiceDescriptors {
  import opened Wrappers
  import opened Container

  /** The single implementation source of a well-formed descriptor. */
  datatype Source = TypeSource(implementationType: Ty) | InstanceSource(instance: Obj) | FactorySource(factory: Factory)

  const UndeterminedImplementation := "Unable to determine serviceType descriptor implementation."
  const ServiceNameLabel := " ServiceName: "

  /** Exactly one of ImplementationType, ImplementationInstance and ImplementationFactory is set. */
  predicate HasSingleSource(d: ServiceDescriptor) {
    (if d.implementationType.Some? then 1 else 0)
    + (if d.implementationInstance.Some? then 1 else 0)
    + (if d.implementationFactory.Some? then 1 else 0) == 1
  }

  /** The first populated implementation field, in the order type, instance, factory. */
  function SourceOf(d: ServiceDescriptor): Option<Source> {
    if d.implementationType.Some? then Some(TypeSource(d.implementationType.value))
    else if d.implementationInstance.Some? then Some(InstanceSource(d.implementationInstance.value))
    else if d.implementationFactory.Some? then Some(FactorySource(d.implementationFactory.value))
    else None
  }

  /** `d` is the named registration of `serviceType` under `serviceName` with exactly the given source. */
  predicate Describes(d: ServiceDescriptor, serviceType: Ty, serviceName: string, lifetime: Lifetime, source: Source) {
    && d.serviceType == serviceType
    && d.serviceName == Some(serviceName)
    && d.lifetime == lifetime
    && HasSingleSource(d)
    && SourceOf(d) == Some(source)
  }

  // ---------------------------------------------------------------------------
  // Constructors. The base ServiceDescriptor constructor's own null checks are
  // foreign code; its arguments are therefore non-null here.

  /** new NamedServiceDescriptor(serviceType, serviceName, implementationType, lifetime) */
  function NewWithType(serviceType: Ty, serviceName: Option<string>, implementationType: Ty, lifetime: Lifetime): (r: Result<ServiceDescriptor, Error>)
    ensures r.Success? <==> !IsNullOrEmpty(serviceName)
    ensures r.Failure? ==> r.error == ArgumentNull("serviceName")
    ensures r.Success? ==> Describes(r.value, serviceType, serviceName.value, lifetime, TypeSource(implementationType))
  {
    if IsNullOrEmpty(serviceName) then Failure(ArgumentNull("serviceName"))
    else Success(ServiceDescriptor(serviceType, lifetime, Some(implementationType), None, None, serviceName))
  }

  /** new NamedServiceDescriptor(serviceType, serviceName, instance): always a singleton. */
  function NewWithInstance(serviceType: Ty, serviceName: Option<string>, instance: Obj): (r: Result<ServiceDescriptor, Error>)
    ensures r.Success? <==> !IsNullOrEmpty(serviceName)
    ensures r.Failure? ==> r.error == ArgumentNull("serviceName")
    ensures r.Success? ==> Describes(r.value, serviceType, serviceName.value, Singleton, InstanceSource(instance))
  {
    if IsNullOrEmpty(serviceName) then Failure(ArgumentNull("serviceName"))
    else Success(ServiceDescriptor(serviceType, Singleton, None, Some(instance), None, serviceName))
  }

  /** new NamedServiceDescriptor(serviceType, serviceName, factory, lifetime) */
  function NewWithFactory(serviceType: Ty, serviceName: Option<string>, factory: Factory, lifetime: Lifetime): (r: Result<ServiceDescriptor, Error>)
    ensures r.Success? <==> !IsNullOrEmpty(serviceName)
    ensures r.Failure? ==> r.error == ArgumentNull("serviceName")
    ensures r.Success? ==> Describes(r.value, serviceType, serviceName.value, lifetime, FactorySource(factory))
  {
    if IsNullOrEmpty(serviceName) then Failure(ArgumentNull("serviceName"))
    else Success(ServiceDescriptor(serviceType, lifetime, None, None, Some(factory), serviceName))
  }

  /** ToString(): the base class's text (foreign) followed by " ServiceName: <name>". */
  function ToString(d: ServiceDescriptor, baseText: string): (r: string)
    requires d.serviceName.Some?
    ensures |r| == |baseText| + |ServiceNameLabel| + |d.serviceName.value|
    ensures r[..|baseText|] == baseText
    ensures r[|baseText|..|baseText| + |ServiceNameLabel|] == ServiceNameLabel
    ensures r[|baseText| + |ServiceNameLabel|..] == d.serviceName.value
  {
    baseText + ServiceNameLabel + d.serviceName.value
  }

  /**
   * GetImplementationType(): the implementation type if set, else the runtime
   * type of the instance, else the factory's declared return type; `None`
   * (the source's `null!` after a failed Debug.Assert) when nothing is set.
   */
  function GetImplementationType(d: ServiceDescriptor): (r: Option<Ty>)
    ensures r.None? <==> SourceOf(d).None?
    ensures d.implementationType.Some? ==> r == d.implementationType
    ensures d.implementationType.None? && d.implementationInstance.Some? ==> r == Some(d.implementationInstance.value.runtimeType)
    ensures d.implementationType.None? && d.implementationInstance.None? && d.implementationFactory.Some? ==>
              r == Some(FactoryReturnType(d.implementationFactory.value))
  {
    if d.implementationType.Some? then d.implementationType
    else if d.implementationInstance.Some? then Some(d.implementationInstance.value.runtimeType)
    else if d.implementationFactory.Some? then Some(FactoryReturnType(d.implementationFactory.value))
    else None
  }

  // ---------------------------------------------------------------------------
  // Describe overloads, which every static helper funnels into.

  /** Describe(Type serviceType, string serviceName, Type implementationType, lifetime) */
  function DescribeType(serviceType: Option<Ty>, serviceName: Option<string>, implementationType: Option<Ty>, lifetime: Lifetime): (r: Result<ServiceDescriptor, Error>)
    ensures r.Success? <==> serviceType.Some? && !IsNullOrEmpty(serviceName) && implementationType.Some?
    ensures serviceType.None? ==> r == Failure(ArgumentNull("serviceType"))
    ensures serviceType.Some? && IsNullOrEmpty(serviceName) ==> r == Failure(ArgumentNull("serviceName"))
    ensures serviceType.Some? && !IsNullOrEmpty(serviceName) && implementationType.None? ==> r == Failure(ArgumentNull("implementationType"))
    ensures r.Success? ==> Describes(r.value, serviceType.value, serviceName.value, lifetime, TypeSource(implementationType.value))
  {
    if serviceType.None? then Failure(ArgumentNull("serviceType"))
    else if IsNullOrEmpty(serviceName) then Failure(ArgumentNull("serviceName"))
    else if implementationType.None? then Failure(ArgumentNull("implementationType"))
    else NewWithType(serviceType.value, serviceName, implementationType.value, lifetime)
  }

  /** Describe<TService, TImplementation>(serviceName, lifetime): typeof(T) is never null. */
  function DescribeGeneric(service: Ty, implementation: Ty, serviceName: Option<string>, lifetime: Lifetime): (r: Result<ServiceDescriptor, Error>)
    ensures r.Success? <==> !IsNullOrEmpty(serviceName)
    ensures r.Failure? ==> r.error == ArgumentNull("serviceName")
    ensures r.Success? ==> Describes(r.value, service, serviceName.value, lifetime, TypeSource(implementation))
  {
    DescribeType(Some(service), serviceName, Some(implementation), lifetime)
  }

  /** Describe(Type serviceType, string serviceName, Func<IServiceProvider, object> implementationFactory, lifetime) */
  function DescribeFactory(serviceType: Option<Ty>, serviceName: Option<string>, implementationFactory: Option<Func>, lifetime: Lifetime): (r: Result<ServiceDescriptor, Error>)
    ensures r.Success? <==> serviceType.Some? && !IsNullOrEmpty(serviceName) && implementationFactory.Some?
    ensures serviceType.None? ==> r == Failure(ArgumentNull("serviceType"))
    ensures serviceType.Some? && IsNullOrEmpty(serviceName) ==> r == Failure(ArgumentNull("serviceName"))
    ensures serviceType.Some? && !IsNullOrEmpty(serviceName) && implementationFactory.None? ==> r == Failure(ArgumentNull("implementationFactory"))
    ensures r.Success? ==> Describes(r.value, serviceType.value, serviceName.value, lifetime, FactorySource(UserFactory(implementationFactory.value)))
  {
    if serviceType.None? then Failure(ArgumentNull("serviceType"))
    else if IsNullOrEmpty(serviceName) then Failure(ArgumentNull("serviceName"))
    else if implementationFactory.None? then Failure(ArgumentNull("implementationFactory"))
    else NewWithFactory(serviceType.value, serviceName, UserFactory(implementationFactory.value), lifetime)
  }

  /**
   * Describe(ServiceDescriptor descriptor, string serviceName): re-wraps a plain
   * descriptor under a name, copying its first populated source.
   */
  function DescribeDescriptor(descriptor: Option<ServiceDescriptor>, serviceName: Option<string>): (r: Result<ServiceDescriptor, Error>)
    ensures r.Success? <==> descriptor.Some? && !IsNullOrEmpty(serviceName) && SourceOf(descriptor.value).Some?
    ensures descriptor.None? ==> r == Failure(ArgumentNull("descriptor"))
    ensures descriptor.Some? && IsNullOrEmpty(serviceName) ==> r == Failure(ArgumentNull("serviceName"))
    ensures descriptor.Some? && !IsNullOrEmpty(serviceName) && SourceOf(descriptor.value).None? ==>
              r == Failure(Argument("descriptor", UndeterminedImplementation))
    ensures r.Success? ==>
              var d := descriptor.value;
              var source := SourceOf(d).value;
              Describes(r.value, d.serviceType, serviceName.value, if source.InstanceSource? then Singleton else d.lifetime, source)
  {
    if descriptor.None? then Failure(ArgumentNull("descriptor"))
    else if IsNullOrEmpty(serviceName) then Failure(ArgumentNull("serviceName"))
    else
      var d := descriptor.value;
      if d.implementationType.Some? then NewWithType(d.serviceType, serviceName, d.implementationType.value, d.lifetime)
      else if d.implementationInstance.Some? then NewWithInstance(d.serviceType, serviceName, d.implementationInstance.value)
      else if d.implementationFactory.Some? then NewWithFactory(d.serviceType, serviceName, d.implementationFactory.value, d.lifetime)
      else Failure(Argument("descriptor", UndeterminedImplementation))
  }

  // ---------------------------------------------------------------------------
  // Transient helpers.

  /** Transient<TService, TImplementation>(serviceName) */
  function TransientGeneric(service: Ty, implementation: Ty, serviceName: Option<string>): (r: Result<ServiceDescriptor, Error>)
    ensures r.Success? <==> !IsNullOrEmpty(serviceName)
    ensures r.Failure? ==> r.error == ArgumentNull("serviceName")
    ensures r.Success? ==> Describes(r.value, service, serviceName.value, Transient, TypeSource(implementation))
  {
    DescribeGeneric(service, implementation, serviceName, Transient)
  }

  /** Transient(Type serviceType, string serviceName, Type implementationType) */
  function TransientType(serviceType: Option<Ty>, serviceName: Option<string>, implementationType: Option<Ty>): (r: Result<ServiceDescriptor, Error>)
    ensures r.Success? <==> serviceType.Some? && !IsNullOrEmpty(serviceName) && implementationType.Some?
    ensures serviceType.None? ==> r == Failure(ArgumentNull("serviceType"))
    ensures serviceType.Some? && IsNullOrEmpty(serviceName) ==> r == Failure(ArgumentNull("serviceName"))
    ensures serviceType.Some? && !IsNullOrEmpty(serviceName) && implementationType.None? ==> r == Failure(ArgumentNull("implementationType"))
    ensures r.Success? ==> Describes(r.value, serviceType.value, serviceName.value, Transient, TypeSource(implementationType.value))
  {
    if serviceType.None? then Failure(ArgumentNull("serviceType"))
    else if IsNullOrEmpty(serviceName) then Failure(ArgumentNull("serviceName"))
    else if implementationType.None? then Failure(ArgumentNull("implementationType"))
    else DescribeType(serviceType, serviceName, implementationType, Transient)
  }

  /**
   * Transient<TService, TImplementation>(serviceName, implementationFactory) and
   * Transient<TService>(serviceName, implementationFactory): both register
   * typeof(TService) and check serviceName before the factory.
   */
  function TransientGenericFactory(service: Ty, serviceName: Option<string>, implementationFactory: Option<Func>): (r: Result<ServiceDescriptor, Error>)
    ensures r.Success? <==> !IsNullOrEmpty(serviceName) && implementationFactory.Some?
    ensures IsNullOrEmpty(serviceName) ==> r == Failure(ArgumentNull("serviceName"))
    ensures !IsNullOrEmpty(serviceName) && implementationFactory.None? ==> r == Failure(ArgumentNull("implementationFactory"))
    ensures r.Success? ==> Describes(r.value, service, serviceName.value, Transient, FactorySource(UserFactory(implementationFactory.value)))
  {
    if IsNullOrEmpty(serviceName) then Failure(ArgumentNull("serviceName"))
    else if implementationFactory.None? then Failure(ArgumentNull("implementationFactory"))
    else DescribeFactory(Some(service), serviceName, implementationFactory, Transient)
  }

  /** Transient(Type serviceType, string serviceName, Func<IServiceProvider, object> implementationFactory) */
  function TransientFactory(serviceType: Option<Ty>, serviceName: Option<string>, implementationFactory: Option<Func>): (r: Result<ServiceDescriptor, Error>)
    ensures r.Success? <==> serviceType.Some? && !IsNullOrEmpty(serviceName) && implementationFactory.Some?
    ensures serviceType.None? ==> r == Failure(ArgumentNull("serviceType"))
    ensures serviceType.Some? && IsNullOrEmpty(serviceName) ==> r == Failure(ArgumentNull("serviceName"))
    ensures serviceType.Some? && !IsNullOrEmpty(serviceName) && implementationFactory.None? ==> r == Failure(ArgumentNull("implementationFactory"))
    ensures r.Success? ==> Describes(r.value, serviceType.value, serviceName.value, Transient, FactorySource(UserFactory(implementationFactory.value)))
  {
    if serviceType.None? then Failure(ArgumentNull("serviceType"))
    else if IsNullOrEmpty(serviceName) then Failure(ArgumentNull("serviceName"))
    else if implementationFactory.None? then Failure(ArgumentNull("implementationFactory"))
    else DescribeFactory(serviceType, serviceName, implementationFactory, Transient)
  }

  // ---------------------------------------------------------------------------
  // Scoped helpers.

  /** Scoped<TService, TImplementation>(serviceName) */
  function ScopedGeneric(service: Ty, implementation: Ty, serviceName: Option<string>): (r: Result<ServiceDescriptor, Error>)
    ensures r.Success? <==> !IsNullOrEmpty(serviceName)
    ensures r.Failure? ==> r.error == ArgumentNull("serviceName")
    ensures r.Success? ==> Describes(r.value, service, serviceName.value, Scoped, TypeSource(implementation))
  {
    DescribeGeneric(service, implementation, serviceName, Scoped)
  }

  /** Scoped(Type serviceType, string serviceName, Type implementationType) */
  function ScopedType(serviceType: Option<Ty>, serviceName: Option<string>, implementationType: Option<Ty>): (r: Result<ServiceDescriptor, Error>)
    ensures r.Success? <==> serviceType.Some? && !IsNullOrEmpty(serviceName) && implementationType.Some?
    ensures serviceType.None? ==> r == Failure(ArgumentNull("serviceType"))
    ensures serviceType.Some? && IsNullOrEmpty(serviceName) ==> r == Failure(ArgumentNull("serviceName"))
    ensures serviceType.Some? && !IsNullOrEmpty(serviceName) && implementationType.None? ==> r == Failure(ArgumentNull("implementationType"))
    ensures r.Success? ==> Describes(r.value, serviceType.value, serviceName.value, Scoped, TypeSource(implementationType.value))
  {
    if serviceType.None? then Failure(ArgumentNull("serviceType"))
    else if IsNullOrEmpty(serviceName) then Failure(ArgumentNull("serviceName"))
    else if implementationType.None? then Failure(ArgumentNull("implementationType"))
    else DescribeType(serviceType, serviceName, implementationType, Scoped)
  }

  /** Scoped<TService, TImplementation>(serviceName, implementationFactory) and Scoped<TService>(serviceName, implementationFactory) */
  function ScopedGenericFactory(service: Ty, serviceName: Option<string>, implementationFactory: Option<Func>): (r: Result<ServiceDescriptor, Error>)
    ensures r.Success? <==> !IsNullOrEmpty(serviceName) && implementationFactory.Some?
    ensures IsNullOrEmpty(serviceName) ==> r == Failure(ArgumentNull("serviceName"))
    ensures !IsNullOrEmpty(serviceName) && implementationFactory.None? ==> r == Failure(ArgumentNull("implementationFactory"))
    ensures r.Success? ==> Describes(r.value, service, serviceName.value, Scoped, FactorySource(UserFactory(implementationFactory.value)))
  {
    if IsNullOrEmpty(serviceName) then Failure(ArgumentNull("serviceName"))
    else if implementationFactory.None? then Failure(ArgumentNull("implementationFactory"))
    else DescribeFactory(Some(service), serviceName, implementationFactory, Scoped)
  }

  /** Scoped(Type serviceType, string serviceName, Func<IServiceProvider, object> implementationFactory) */
  function ScopedFactory(serviceType: Option<Ty>, serviceName: Option<string>, implementationFactory: Option<Func>): (r: Result<ServiceDescriptor, Error>)
    ensures r.Success? <==> serviceType.Some? && !IsNullOrEmpty(serviceName) && implementationFactory.Some?
    ensures serviceType.None? ==> r == Failure(ArgumentNull("serviceType"))
    ensures serviceType.Some? && IsNullOrEmpty(serviceName) ==> r == Failure(ArgumentNull("serviceName"))
    ensures serviceType.Some? && !IsNullOrEmpty(serviceName) && implementationFactory.None? ==> r == Failure(ArgumentNull("implementationFactory"))
    ensures r.Success? ==> Describes(r.value, serviceType.value, serviceName.value, Scoped, FactorySource(UserFactory(implementationFactory.value)))
  {
    if serviceType.None? then Failure(ArgumentNull("serviceType"))
    else if IsNullOrEmpty(serviceName) then Failure(ArgumentNull("serviceName"))
    else if implementationFactory.None? then Failure(ArgumentNull("implementationFactory"))
    else DescribeFactory(serviceType, serviceName, implementationFactory, Scoped)
  }

  // ---------------------------------------------------------------------------
  // Singleton helpers.

  /** Singleton<TService, TImplementation>(serviceName) */
  function SingletonGeneric(service: Ty, implementation: Ty, serviceName: Option<string>): (r: Result<ServiceDescriptor, Error>)
    ensures r.Success? <==> !IsNullOrEmpty(serviceName)
    ensures r.Failure? ==> r.error == ArgumentNull("serviceName")
    ensures r.Success? ==> Describes(r.value, service, serviceName.value, Singleton, TypeSource(implementation))
  {
    DescribeGeneric(service, implementation, serviceName, Singleton)
  }

  /** Singleton(Type serviceType, string serviceName, Type implementationType) */
  function SingletonType(serviceType: Option<Ty>, serviceName: Option<string>, implementationType: Option<Ty>): (r: Result<ServiceDescriptor, Error>)
    ensures r.Success? <==> serviceType.Some? && !IsNullOrEmpty(serviceName) && implementationType.Some?
    ensures serviceType.None? ==> r == Failure(ArgumentNull("serviceType"))
    ensures serviceType.Some? && IsNullOrEmpty(serviceName) ==> r == Failure(ArgumentNull("serviceName"))
    ensures serviceType.Some? && !IsNullOrEmpty(serviceName) && implementationType.None? ==> r == Failure(ArgumentNull("implementationType"))
    ensures r.Success? ==> Describes(r.value, serviceType.value, serviceName.value, Singleton, TypeSource(implementationType.value))
  {
    if serviceType.None? then Failure(ArgumentNull("serviceType"))
    else if IsNullOrEmpty(serviceName) then Failure(ArgumentNull("serviceName"))
    else if implementationType.None? then Failure(ArgumentNull("implementationType"))
    else DescribeType(serviceType, serviceName, implementationType, Singleton)
  }

  /**
   * Singleton<TService, TImplementation>(serviceName, implementationFactory) and
   * Singleton<TService>(serviceName, implementationFactory): unlike the
   * transient and scoped forms these check the factory BEFORE serviceName.
   */
  function SingletonGenericFactory(service: Ty, serviceName: Option<string>, implementationFactory: Option<Func>): (r: Result<ServiceDescriptor, Error>)
    ensures r.Success? <==> !IsNullOrEmpty(serviceName) && implementationFactory.Some?
    ensures implementationFactory.None? ==> r == Failure(ArgumentNull("implementationFactory"))
    ensures implementationFactory.Some? && IsNullOrEmpty(serviceName) ==> r == Failure(ArgumentNull("serviceName"))
    ensures r.Success? ==> Describes(r.value, service, serviceName.value, Singleton, FactorySource(UserFactory(implementationFactory.value)))
  {
    if implementationFactory.None? then Failure(ArgumentNull("implementationFactory"))
    else if IsNullOrEmpty(serviceName) then Failure(ArgumentNull("serviceName"))
    else DescribeFactory(Some(service), serviceName, implementationFactory, Singleton)
  }

  /** Singleton(Type serviceType, string serviceName, Func<IServiceProvider, object> implementationFactory) */
  function SingletonFactory(serviceType: Option<Ty>, serviceName: Option<string>, implementationFactory: Option<Func>): (r: Result<ServiceDescriptor, Error>)
    ensures r.Success? <==> serviceType.Some? && !IsNullOrEmpty(serviceName) && implementationFactory.Some?
    ensures serviceType.None? ==> r == Failure(ArgumentNull("serviceType"))
    ensures serviceType.Some? && IsNullOrEmpty(serviceName) ==> r == Failure(ArgumentNull("serviceName"))
    ensures serviceType.Some? && !IsNullOrEmpty(serviceName) && implementationFactory.None? ==> r == Failure(ArgumentNull("implementationFactory"))
    ensures r.Success? ==> Describes(r.value, serviceType.value, serviceName.value, Singleton, FactorySource(UserFactory(implementationFactory.value)))
  {
    if serviceType.None? then Failure(ArgumentNull("serviceType"))
    else if IsNullOrEmpty(serviceName) then Failure(ArgumentNull("serviceName"))
    else if implementationFactory.None? then Failure(ArgumentNull("implementationFactory"))
    else DescribeFactory(serviceType, serviceName, implementationFactory, Singleton)
  }

  /** Singleton(Type serviceType, string serviceName, object implementationInstance) */
  function SingletonInstance(serviceType: Option<Ty>, serviceName: Option<string>, implementationInstance: Option<Obj>): (r: Result<ServiceDescriptor, Error>)
    ensures r.Success? <==> serviceType.Some? && !IsNullOrEmpty(serviceName) && implementationInstance.Some?
    ensures serviceType.None? ==> r == Failure(ArgumentNull("serviceType"))
    ensures serviceType.Some? && IsNullOrEmpty(serviceName) ==> r == Failure(ArgumentNull("serviceName"))
    ensures serviceType.Some? && !IsNullOrEmpty(serviceName) && implementationInstance.None? ==> r == Failure(ArgumentNull("implementationInstance"))
    ensures r.Success? ==> Describes(r.value, serviceType.value, serviceName.value, Singleton, InstanceSource(implementationInstance.value))
  {
    if serviceType.None? then Failure(ArgumentNull("serviceType"))
    else if IsNullOrEmpty(serviceName) then Failure(ArgumentNull("serviceName"))
    else if implementationInstance.None? then Failure(ArgumentNull("implementationInstance"))
    else NewWithInstance(serviceType.value, serviceName, implementationInstance.value)
  }

  /** Singleton<TService>(serviceName, implementationInstance): checks the instance BEFORE serviceName. */
  function SingletonGenericInstance(service: Ty, serviceName: Option<string>, implementationInstance: Option<Obj>): (r: Result<ServiceDescriptor, Error>)
    ensures r.Success? <==> !IsNullOrEmpty(serviceName) && implementationInstance.Some?
    ensures implementationInstance.None? ==> r == Failure(ArgumentNull("implementationInstance"))
    ensures implementationInstance.Some? && IsNullOrEmpty(serviceName) ==> r == Failure(ArgumentNull("serviceName"))
    ensures r.Success? ==> Describes(r.value, service, serviceName.value, Singleton, InstanceSource(implementationInstance.value))
  {
    if implementationInstance.None? then Failure(ArgumentNull("implementationInstance"))
    else if IsNullOrEmpty(serviceName) then Failure(ArgumentNull("serviceName"))
    else SingletonInstance(Some(service), serviceName, implementationInstance)
  }

  // ---------------------------------------------------------------------------
  // Properties relating several members.

  /** The invariant of a plain descriptor built by the host's own constructors. */
  predicate WellFormedPlain(d: ServiceDescriptor) {
    && d.serviceName.None?
    && HasSingleSource(d)
    && (d.implementationInstance.Some? ==> d.lifetime == Singleton)
  }

  /**
   * Describe(descriptor, name) on a well-formed plain descriptor changes nothing
   * but the name: stripping the name again gives back the original.
   */
  lemma DescribeOnlyAddsName(d: ServiceDescriptor, serviceName: string)
    requires WellFormedPlain(d) && serviceName != ""
    ensures DescribeDescriptor(Some(d), Some(serviceName)) == Success(d.(serviceName := Some(serviceName)))
    ensures DescribeDescriptor(Some(d), Some(serviceName)).value.(serviceName := None) == d
  {
    var r := DescribeDescriptor(Some(d), Some(serviceName));
    var e := d.(serviceName := Some(serviceName));
    assert r.Success?;
    if d.implementationType.Some? {
      assert r.value.implementationType == e.implementationType;
    } else if d.implementationInstance.Some? {
      assert r.value.implementationInstance == e.implementationInstance;
    } else {
      assert r.value.implementationFactory == e.implementationFactory;
    }
  }

  /** A descriptor with a single source has an implementation type, and it is the one its source determines. */
  lemma ImplementationTypeOfSource(d: ServiceDescriptor)
    requires HasSingleSource(d)
    ensures GetImplementationType(d).Some?
    ensures match SourceOf(d).value
            case TypeSource(t) => GetImplementationType(d) == Some(t)
            case InstanceSource(o) => GetImplementationType(d) == Some(o.runtimeType)
            case FactorySource(f) => GetImplementationType(d) == Some(FactoryReturnType(f))
  {
  }
}
