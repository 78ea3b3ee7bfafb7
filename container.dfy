/**
 * The vocabulary of the host dependency-injection container that the named
 * services are layered on: runtime types, objects, lifetimes, delegates,
 * plain service descriptors and the exceptions that cross the API.
 */
module Container {
  import opened Wrappers

  /** Runtime types, compared by identity. */
  datatype Ty =
    | Clr(fullName: string)                 // an ordinary type of the application or the framework
    | KeyMarker(serial: nat, name: string)  // a marker interface synthesized for one service name
    | INamedServiceOf(service: Ty, key: Ty) // INamedService<TService, TKey>
    | NamedServiceOf(service: Ty, key: Ty)  // the carrier class NamedService<TService, TKey>
    | INamedServiceInterface                // the non-generic INamedService
    | EnumerableOf(element: Ty)             // IEnumerable<T>
    | NamedServiceFactoryType               // the NamedServiceFactory helper class

  const ObjectType: Ty := Clr("System.Object")

  /** An object of the running program: an identity and its runtime type. */
  datatype Obj = Obj(id: nat, runtimeType: Ty)

  datatype Lifetime = Transient | Scoped | Singleton

  /** A `Func<IServiceProvider, T>` supplied by a caller: an identity and its declared return type T. */
  datatype Func = Func(id: nat, returnType: Ty)

  /** What the lambda registered on the fallback path produces its instance from. */
  datatype WrapSource =
    | ActivateType(implementationType: Ty)  // ActivatorUtilities.CreateInstance(sp, implementationType)
    | InvokeFactory(func: Func)             // implementationFactory(sp)
    | ReuseInstance(instance: Obj)          // the captured instance

  /**
   * The factory a descriptor holds: either a caller's delegate or the lambda
   * `sp => sp.CreateNamedServiceImplementation(…)` that the fallback path
   * registers, which wraps its instance in a NamedService<serviceType, key>.
   */
  datatype Factory =
    | UserFactory(func: Func)
    | WrapperFactory(serviceType: Ty, key: Ty, source: WrapSource)

  /** The declared return type of a factory delegate (its second generic argument). */
  function FactoryReturnType(f: Factory): Ty {
    match f
    case UserFactory(func) => func.returnType
    case WrapperFactory(_, _, _) => ObjectType  // the lambda is a Func<IServiceProvider, object>
  }

  /**
   * A service registration. `serviceName` is `None` for a plain ServiceDescriptor
   * and `Some` for a NamedServiceDescriptor; the three implementation fields
   * are the nullable properties of the base class.
   */
  datatype ServiceDescriptor = ServiceDescriptor(
    serviceType: Ty,
    lifetime: Lifetime,
    implementationType: Option<Ty>,
    implementationInstance: Option<Obj>,
    implementationFactory: Option<Factory>,
    serviceName: Option<string>)

  /** The exceptions the core throws or lets through. */
  datatype Error =
    | ArgumentNull(paramName: string)                                // ArgumentNullException
    | Argument(paramName: string, message: string)                   // ArgumentException
    | NamedServiceNotFound(serviceType: Ty, serviceName: string)     // InvalidOperationException "No service of type '…' with the name '…' was found."
    | NamedServiceNotRegistered(serviceType: Ty, serviceName: string) // NullReferenceException "No services registered for … with a name of '…'."
    | NoServiceRegistered(serviceType: Ty)                           // the container's own GetRequiredService failure
    | InvalidCast(targetType: Ty)                                    // InvalidCastException from a cast to targetType
    | InvalidServiceDescriptor(serviceType: Ty)                      // the container meets a descriptor with no implementation
    | MissingConstructor(targetType: Ty)                             // MissingMethodException from Activator.CreateInstance
    | NoSuitableConstructor(targetType: Ty)                          // InvalidOperationException from ActivatorUtilities.CreateInstance
    | ForeignError(code: nat)                                        // anything thrown inside foreign code

  /** string.IsNullOrEmpty */
  predicate IsNullOrEmpty(s: Option<string>) {
    s.None? || s.value == ""
  }

  /** A hard cast `(T?)o` of a nullable object: null passes, an object that is not a T throws. */
  function CastTo(isA: (Obj, Ty) -> bool, t: Ty, o: Option<Obj>): (r: Result<Option<Obj>, Error>)
    ensures r.Failure? <==> o.Some? && !isA(o.value, t)
    ensures r.Failure? ==> r.error == InvalidCast(t)
    ensures r.Success? ==> r.value == o
  {
    if o.Some? && !isA(o.value, t) then Failure(InvalidCast(t)) else Success(o)
  }
}
