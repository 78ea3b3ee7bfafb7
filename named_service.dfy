/**
 * NamedService<TService, TKey>: the immutable carrier the fallback path
 * registers under INamedService<TService, TKey>, exposing the wrapped
 * instance through its get-only Service property.
 */
module NamedServices {
  import opened Wrappers
  import opened Container

  /**
   * A constructed carrier. `serviceType` and `key` are its two generic
   * arguments; `service` is the object the constructor received, which as a
   * value of type Obj is never null.
   */
  datatype NamedService = NamedService(serviceType: Ty, key: Ty, service: Obj) {
    /** The carrier's runtime type, NamedService<TService, TKey>. */
    function RuntimeType(): (t: Ty)
      ensures t.NamedServiceOf? && t.service == serviceType && t.key == key
    {
      NamedServiceOf(serviceType, key)
    }
  }

  /** new NamedService<serviceType, key>(service): rejects a null service. */
  function Create(serviceType: Ty, key: Ty, service: Option<Obj>): (r: Result<NamedService, Error>)
    ensures r.Success? <==> service.Some?
    ensures r.Failure? ==> r.error == ArgumentNull("service")
    ensures r.Success? ==> r.value.service == service.value
    ensures r.Success? ==> r.value.RuntimeType() == NamedServiceOf(serviceType, key)
  {
    if service.None? then Failure(ArgumentNull("service"))
    else Success(NamedService(serviceType, key, service.value))
  }

  /**
   * Activator.CreateInstance(NamedService<serviceType, key>, instance). The
   * one constructor takes a serviceType, so a non-null argument of another
   * type finds no constructor; a null argument reaches the constructor, which
   * rejects it.
   */
  function ActivateCarrier(isA: (Obj, Ty) -> bool, serviceType: Ty, key: Ty, instance: Option<Obj>): (r: Result<NamedService, Error>)
    ensures r.Success? <==> instance.Some? && isA(instance.value, serviceType)
    ensures instance.None? ==> r == Failure(ArgumentNull("service"))
    ensures instance.Some? && !isA(instance.value, serviceType) ==> r == Failure(MissingConstructor(NamedServiceOf(serviceType, key)))
    ensures r.Success? ==> r == Create(serviceType, key, instance)
  {
    if instance.Some? && !isA(instance.value, serviceType) then Failure(MissingConstructor(NamedServiceOf(serviceType, key)))
    else Create(serviceType, key, instance)
  }

  /**
   * ActivatorUtilities.CreateInstance(services, NamedService<serviceType, key>, instance).
   * A given argument is used only when the constructor's parameter type is
   * assignable from its runtime type, so a null or an object of another type
   * leaves no suitable constructor.
   */
  function ActivateCarrierWithServices(isA: (Obj, Ty) -> bool, serviceType: Ty, key: Ty, instance: Option<Obj>): (r: Result<NamedService, Error>)
    ensures r.Success? <==> instance.Some? && isA(instance.value, serviceType)
    ensures r.Failure? ==> r.error == NoSuitableConstructor(NamedServiceOf(serviceType, key))
    ensures r.Success? ==> r == Create(serviceType, key, instance)
  {
    if instance.Some? && isA(instance.value, serviceType) then Create(serviceType, key, instance)
    else Failure(NoSuitableConstructor(NamedServiceOf(serviceType, key)))
  }

  /**
   * The two activation routes accept exactly the same objects and build the
   * same carrier around them; they differ only in the exception they throw.
   */
  lemma ActivationRoutesAgree(isA: (Obj, Ty) -> bool, serviceType: Ty, key: Ty, instance: Option<Obj>)
    ensures ActivateCarrier(isA, serviceType, key, instance).Success? <==> ActivateCarrierWithServices(isA, serviceType, key, instance).Success?
    ensures ActivateCarrier(isA, serviceType, key, instance).Success? ==>
              ActivateCarrier(isA, serviceType, key, instance) == ActivateCarrierWithServices(isA, serviceType, key, instance)
              && ActivateCarrier(isA, serviceType, key, instance).value.service == instance.value
  {
  }

  /** Constructing a carrier and reading Service back gives the constructor's argument, and nothing else does. */
  lemma CreateThenService(serviceType: Ty, key: Ty, a: Obj, b: Obj)
    ensures Create(serviceType, key, Some(a)).value.service == a
    ensures Create(serviceType, key, Some(a)) == Create(serviceType, key, Some(b)) <==> a == b
  {
  }
}
