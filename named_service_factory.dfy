/**
 * NamedServiceFactory: the helper the fallback path registers. It implements
 * both named-service capabilities on top of an ordinary provider, forwarding
 * to the provider's own capabilities where it has them and otherwise
 * resolving the compound keys itself.
 */
module NamedServiceFactories {
  import opened Wrappers
  import opened Container
  import opened NamedServices
  import opened Providers
  import opened NamedServiceManagement

  /** `GetService(key) as INamedService`: anything but a carrier becomes null. */
  function AsCarrier(got: Option<Value>): (r: Option<NamedService>)
    ensures r.Some? <==> got.Some? && got.value.Wrapped?
    ensures r.Some? ==> r.value == got.value.carrier
  {
    if got.Some? && got.value.Wrapped? then Some(got.value.carrier) else None
  }

  /** The carriers of a sequence whose every element is one, in order. */
  function Carriers(items: seq<Value>): (r: seq<NamedService>)
    requires forall i :: 0 <= i < |items| ==> items[i].Wrapped?
    ensures |r| == |items| && forall i :: 0 <= i < |items| ==> r[i] == items[i].carrier
  {
    if |items| == 0 then [] else Carriers(items[..|items| - 1]) + [items[|items| - 1].carrier]
  }

  /** The Service of each carrier, in order. */
  function ServicesOf(carriers: seq<NamedService>): (r: seq<Option<Obj>>)
    ensures |r| == |carriers| && forall i :: 0 <= i < |carriers| ==> r[i] == Some(carriers[i].service)
  {
    if |carriers| == 0 then [] else ServicesOf(carriers[..|carriers| - 1]) + [Some(carriers[|carriers| - 1].service)]
  }

  /** A NamedServiceFactory over the provider it was constructed with. */
  datatype NamedServiceFactory = NamedServiceFactory(services: Provider) {

    /** GetNamedServiceWrapper: the compound key resolved with GetService, as INamedService. */
    function Wrapper(keys: KeyState, serviceType: Ty, serviceName: string): (r: Result<Option<NamedService>, Error>)
      requires serviceName != ""
      ensures var got := services.getService(NamedServiceInterface(keys, serviceType, serviceName).key);
              && (got.Failure? ==> r == Failure(got.error))
              && (got.Success? ==> r == Success(AsCarrier(got.value)))
    {
      var got :- services.getService(NamedServiceInterface(keys, serviceType, serviceName).key);
      Success(AsCarrier(got))
    }

    /**
     * GetNamedServiceWrappers: IEnumerable of the compound key resolved with
     * GetRequiredService, as IEnumerable<INamedService>, or empty when the
     * answer is not a sequence of carriers.
     */
    function Wrappers(keys: KeyState, serviceType: Ty, serviceName: string): (r: Result<seq<NamedService>, Error>)
      requires serviceName != ""
      ensures var got := GetRequiredService(services, NamedServiceEnumerableInterface(keys, serviceType, serviceName).key);
              && (got.Failure? ==> r == Failure(got.error))
              && (got.Success? && got.value.Sequence? && (forall i :: 0 <= i < |got.value.items| ==> got.value.items[i].Wrapped?) ==>
                    r == Success(Carriers(got.value.items)))
              && (got.Success? && !(got.value.Sequence? && forall i :: 0 <= i < |got.value.items| ==> got.value.items[i].Wrapped?) ==>
                    r == Success([]))
    {
      var got :- GetRequiredService(services, NamedServiceEnumerableInterface(keys, serviceType, serviceName).key);
      if got.Sequence? && forall i :: 0 <= i < |got.items| ==> got.items[i].Wrapped? then Success(Carriers(got.items))
      else Success([])
    }

    /** GetNamedService(Type serviceType, string serviceName) */
    function GetNamedService(keys: KeyState, serviceType: Option<Ty>, serviceName: Option<string>): (r: Result<Option<Obj>, Error>)
      ensures serviceType.None? ==> r == Failure(ArgumentNull("serviceType"))
      ensures serviceType.Some? && IsNullOrEmpty(serviceName) ==> r == Failure(ArgumentNull("serviceName"))
      ensures serviceType.Some? && !IsNullOrEmpty(serviceName) && services.named.Some? ==>
                r == services.named.value.getNamedService(serviceType.value, serviceName.value)
      ensures serviceType.Some? && !IsNullOrEmpty(serviceName) && services.named.None? ==>
                var w := Wrapper(keys, serviceType.value, serviceName.value);
                && (w.Failure? ==> r == Failure(w.error))
                && (w.Success? && w.value.None? ==> r == Success(None))
                && (w.Success? && w.value.Some? ==> r == Success(Some(w.value.value.service)))
    {
      if serviceType.None? then Failure(ArgumentNull("serviceType"))
      else if IsNullOrEmpty(serviceName) then Failure(ArgumentNull("serviceName"))
      else if services.named.Some? then services.named.value.getNamedService(serviceType.value, serviceName.value)
      else
        var w :- Wrapper(keys, serviceType.value, serviceName.value);
        if w.Some? then Success(Some(w.value.service)) else Success(None)
    }

    /** GetNamedServices(Type serviceType, string serviceName) */
    function GetNamedServices(keys: KeyState, serviceType: Option<Ty>, serviceName: Option<string>): (r: Result<seq<Option<Obj>>, Error>)
      ensures serviceType.None? ==> r == Failure(ArgumentNull("serviceType"))
      ensures serviceType.Some? && IsNullOrEmpty(serviceName) ==> r == Failure(ArgumentNull("serviceName"))
      ensures serviceType.Some? && !IsNullOrEmpty(serviceName) && services.named.Some? ==>
                r == services.named.value.getNamedServices(serviceType.value, serviceName.value)
      ensures serviceType.Some? && !IsNullOrEmpty(serviceName) && services.named.None? ==>
                var w := Wrappers(keys, serviceType.value, serviceName.value);
                && (w.Failure? ==> r == Failure(w.error))
                && (w.Success? ==> r == Success(ServicesOf(w.value)))
      ensures r.Success? && services.named.None? ==> forall i :: 0 <= i < |r.value| ==> r.value[i].Some?
    {
      if serviceType.None? then Failure(ArgumentNull("serviceType"))
      else if IsNullOrEmpty(serviceName) then Failure(ArgumentNull("serviceName"))
      else if services.named.Some? then services.named.value.getNamedServices(serviceType.value, serviceName.value)
      else
        var w :- Wrappers(keys, serviceType.value, serviceName.value);
        Success(ServicesOf(w))
    }

    /**
     * GetRequiredNamedService(Type serviceType, string serviceName): forwards
     * only to ISupportRequiredNamedServices; otherwise a missing carrier is a
     * "No services registered" error.
     */
    function GetRequiredNamedService(keys: KeyState, serviceType: Option<Ty>, serviceName: Option<string>): (r: Result<Obj, Error>)
      ensures serviceType.None? ==> r == Failure(ArgumentNull("serviceType"))
      ensures serviceType.Some? && IsNullOrEmpty(serviceName) ==> r == Failure(ArgumentNull("serviceName"))
      ensures serviceType.Some? && !IsNullOrEmpty(serviceName) && services.requiredNamed.Some? ==>
                r == services.requiredNamed.value(serviceType.value, serviceName.value)
      ensures serviceType.Some? && !IsNullOrEmpty(serviceName) && services.requiredNamed.None? ==>
                var w := Wrapper(keys, serviceType.value, serviceName.value);
                && (w.Failure? ==> r == Failure(w.error))
                && (w.Success? && w.value.None? ==> r == Failure(NamedServiceNotRegistered(serviceType.value, serviceName.value)))
                && (w.Success? && w.value.Some? ==> r == Success(w.value.value.service))
    {
      if serviceType.None? then Failure(ArgumentNull("serviceType"))
      else if IsNullOrEmpty(serviceName) then Failure(ArgumentNull("serviceName"))
      else if services.requiredNamed.Some? then services.requiredNamed.value(serviceType.value, serviceName.value)
      else
        var w :- Wrapper(keys, serviceType.value, serviceName.value);
        if w.Some? then Success(w.value.service) else Failure(NamedServiceNotRegistered(serviceType.value, serviceName.value))
    }
  }

  /** new NamedServiceFactory(services): rejects a null provider. */
  function New(services: Option<Provider>): (r: Result<NamedServiceFactory, Error>)
    ensures r.Success? <==> services.Some?
    ensures r.Failure? ==> r.error == ArgumentNull("services")
    ensures r.Success? ==> r.value.services == services.value
  {
    if services.None? then Failure(ArgumentNull("services")) else Success(NamedServiceFactory(services.value))
  }
}
