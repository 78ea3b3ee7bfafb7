/**
 * ServiceProviderExtensions: GetNamedService, GetRequiredNamedService and
 * GetNamedServices on any IServiceProvider. Each validates its arguments,
 * delegates to the provider's own named-service capability when it has one,
 * and otherwise resolves the compound key and unwraps the NamedService
 * carriers found there.
 *
 * The key cache is read as a snapshot `keys`: the compound key is the one
 * CreateNamedServiceInterface would return in that state.
 */
module ServiceProviderExtensions {
  import opened Wrappers
  import opened Container
  import opened NamedServices
  import opened Providers
  import opened NamedServiceManagement

  /** `((INamedService?)got)?.Service` for the answer of one GetService call. */
  function Unwrap(got: Result<Option<Value>, Error>): (r: Result<Option<Obj>, Error>)
    ensures got.Failure? ==> r == Failure(got.error)
    ensures got == Success(None) ==> r == Success(None)
    ensures got.Success? && got.value.Some? && got.value.value.Wrapped? ==> r == Success(Some(got.value.value.carrier.service))
    ensures got.Success? && got.value.Some? && !got.value.value.Wrapped? ==> r == Failure(InvalidCast(INamedServiceInterface))
  {
    match got
    case Failure(e) => Failure(e)
    case Success(None) => Success(None)
    case Success(Some(Wrapped(carrier))) => Success(Some(carrier.service))
    case Success(Some(_)) => Failure(InvalidCast(INamedServiceInterface))
  }

  /** `.Cast<INamedService>().Select(x => x.Service)`: fails on the first element that is not a carrier. */
  function UnwrapAll(items: seq<Value>): (r: Result<seq<Option<Obj>>, Error>)
    ensures r.Success? <==> forall i :: 0 <= i < |items| ==> items[i].Wrapped?
    ensures r.Failure? ==> r.error == InvalidCast(INamedServiceInterface)
    ensures r.Success? ==> |r.value| == |items| && forall i :: 0 <= i < |items| ==> r.value[i] == Some(items[i].carrier.service)
  {
    if |items| == 0 then Success([])
    else
      var init :- UnwrapAll(items[..|items| - 1]);
      var last := items[|items| - 1];
      if last.Wrapped? then Success(init + [Some(last.carrier.service)])
      else Failure(InvalidCast(INamedServiceInterface))
  }

  /** `.Cast<TService?>()` over a sequence of nullable objects. */
  function CastAll(isA: (Obj, Ty) -> bool, t: Ty, xs: seq<Option<Obj>>): (r: Result<seq<Option<Obj>>, Error>)
    ensures r.Success? <==> forall i :: 0 <= i < |xs| ==> CastTo(isA, t, xs[i]).Success?
    ensures r.Failure? ==> r.error == InvalidCast(t)
    ensures r.Success? ==> r.value == xs
  {
    if |xs| == 0 then Success([])
    else
      var init :- CastAll(isA, t, xs[..|xs| - 1]);
      var last :- CastTo(isA, t, xs[|xs| - 1]);
      assert xs == xs[..|xs| - 1] + [xs[|xs| - 1]];
      Success(init + [last])
  }

  /** The argument checks every non-generic resolver starts with, in order. */
  function CheckArguments(services: Option<Provider>, serviceType: Option<Ty>, serviceName: Option<string>): (r: Option<Error>)
    ensures r.None? <==> services.Some? && serviceType.Some? && !IsNullOrEmpty(serviceName)
    ensures services.None? ==> r == Some(ArgumentNull("services"))
    ensures services.Some? && serviceType.None? ==> r == Some(ArgumentNull("serviceType"))
    ensures services.Some? && serviceType.Some? && IsNullOrEmpty(serviceName) ==> r == Some(ArgumentNull("serviceName"))
  {
    if services.None? then Some(ArgumentNull("services"))
    else if serviceType.None? then Some(ArgumentNull("serviceType"))
    else if IsNullOrEmpty(serviceName) then Some(ArgumentNull("serviceName"))
    else None
  }

  /** GetNamedService(services, Type serviceType, string serviceName) */
  function GetNamedService(services: Option<Provider>, keys: KeyState, serviceType: Option<Ty>, serviceName: Option<string>): (r: Result<Option<Obj>, Error>)
    ensures CheckArguments(services, serviceType, serviceName).Some? ==> r == Failure(CheckArguments(services, serviceType, serviceName).value)
    ensures CheckArguments(services, serviceType, serviceName).None? && services.value.named.Some? ==>
              r == services.value.named.value.getNamedService(serviceType.value, serviceName.value)
    ensures CheckArguments(services, serviceType, serviceName).None? && services.value.named.None? ==>
              r == Unwrap(services.value.getService(NamedServiceInterface(keys, serviceType.value, serviceName.value).key))
  {
    if services.None? then Failure(ArgumentNull("services"))
    else if serviceType.None? then Failure(ArgumentNull("serviceType"))
    else if IsNullOrEmpty(serviceName) then Failure(ArgumentNull("serviceName"))
    else
      var p := services.value;
      if p.named.Some? then p.named.value.getNamedService(serviceType.value, serviceName.value)
      else Unwrap(p.getService(NamedServiceInterface(keys, serviceType.value, serviceName.value).key))
  }

  /** GetNamedService<TService>(services, serviceName): no serviceType check; the result is cast to TService. */
  function GetNamedServiceOf(services: Option<Provider>, keys: KeyState, isA: (Obj, Ty) -> bool, service: Ty, serviceName: Option<string>): (r: Result<Option<Obj>, Error>)
    ensures services.None? ==> r == Failure(ArgumentNull("services"))
    ensures services.Some? && IsNullOrEmpty(serviceName) ==> r == Failure(ArgumentNull("serviceName"))
    ensures services.Some? && !IsNullOrEmpty(serviceName) ==>
              var found := GetNamedService(services, keys, Some(service), serviceName);
              && (found.Failure? ==> r == Failure(found.error))
              && (found.Success? ==> r == CastTo(isA, service, found.value))
    ensures r.Success? && r.value.Some? ==> isA(r.value.value, service)
  {
    if services.None? then Failure(ArgumentNull("services"))
    else if IsNullOrEmpty(serviceName) then Failure(ArgumentNull("serviceName"))
    else
      var p := services.value;
      var found :- if p.named.Some? then p.named.value.getNamedService(service, serviceName.value)
                   else Unwrap(p.getService(NamedServiceInterface(keys, service, serviceName.value).key));
      CastTo(isA, service, found)
  }

  /**
   * GetRequiredNamedService(services, Type serviceType, string serviceName):
   * ISupportRequiredNamedServices first, then ISupportNamedServices with a
   * "not found" error for null, else the container's required lookup of the
   * compound key, whose own error propagates.
   */
  function GetRequiredNamedService(services: Option<Provider>, keys: KeyState, serviceType: Option<Ty>, serviceName: Option<string>): (r: Result<Obj, Error>)
    ensures CheckArguments(services, serviceType, serviceName).Some? ==> r == Failure(CheckArguments(services, serviceType, serviceName).value)
    ensures CheckArguments(services, serviceType, serviceName).None? ==>
              var p, st, n := services.value, serviceType.value, serviceName.value;
              && (p.requiredNamed.Some? ==> r == p.requiredNamed.value(st, n))
              && (p.requiredNamed.None? && p.named.Some? ==>
                    var found := p.named.value.getNamedService(st, n);
                    && (found.Failure? ==> r == Failure(found.error))
                    && (found == Success(None) ==> r == Failure(NamedServiceNotFound(st, n)))
                    && (found.Success? && found.value.Some? ==> r == Success(found.value.value)))
              && (p.requiredNamed.None? && p.named.None? ==>
                    var got := GetRequiredService(p, NamedServiceInterface(keys, st, n).key);
                    && (got.Failure? ==> r == Failure(got.error))
                    && (got.Success? && got.value.Wrapped? ==> r == Success(got.value.carrier.service))
                    && (got.Success? && !got.value.Wrapped? ==> r == Failure(InvalidCast(INamedServiceInterface))))
  {
    if services.None? then Failure(ArgumentNull("services"))
    else if serviceType.None? then Failure(ArgumentNull("serviceType"))
    else if IsNullOrEmpty(serviceName) then Failure(ArgumentNull("serviceName"))
    else RequiredLookup(services.value, keys, serviceType.value, serviceName.value)
  }

  /** The capability switch of GetRequiredNamedService, shared by both overloads. */
  function RequiredLookup(p: Provider, keys: KeyState, st: Ty, n: string): Result<Obj, Error>
    requires n != ""
  {
    if p.requiredNamed.Some? then p.requiredNamed.value(st, n)
    else if p.named.Some? then
      var found :- p.named.value.getNamedService(st, n);
      if found.None? then Failure(NamedServiceNotFound(st, n)) else Success(found.value)
    else
      var got :- GetRequiredService(p, NamedServiceInterface(keys, st, n).key);
      if got.Wrapped? then Success(got.carrier.service) else Failure(InvalidCast(INamedServiceInterface))
  }

  /**
   * GetRequiredNamedService<TService>(services, serviceName): as the
   * non-generic form, with the result cast to TService; on the
   * ISupportNamedServices branch the cast comes before the null test.
   */
  function GetRequiredNamedServiceOf(services: Option<Provider>, keys: KeyState, isA: (Obj, Ty) -> bool, service: Ty, serviceName: Option<string>): (r: Result<Obj, Error>)
    ensures services.None? ==> r == Failure(ArgumentNull("services"))
    ensures services.Some? && IsNullOrEmpty(serviceName) ==> r == Failure(ArgumentNull("serviceName"))
    ensures services.Some? && !IsNullOrEmpty(serviceName) ==>
              var found := GetRequiredNamedService(services, keys, Some(service), serviceName);
              && (found.Failure? ==> r == Failure(found.error))
              && (found.Success? && isA(found.value, service) ==> r == found)
              && (found.Success? && !isA(found.value, service) ==> r == Failure(InvalidCast(service)))
    ensures r.Success? ==> isA(r.value, service)
  {
    if services.None? then Failure(ArgumentNull("services"))
    else if IsNullOrEmpty(serviceName) then Failure(ArgumentNull("serviceName"))
    else
      var found :- RequiredLookup(services.value, keys, service, serviceName.value);
      if isA(found, service) then Success(found) else Failure(InvalidCast(service))
  }

  /** GetNamedServices(services, Type serviceType, string serviceName) */
  function GetNamedServices(services: Option<Provider>, keys: KeyState, serviceType: Option<Ty>, serviceName: Option<string>): (r: Result<seq<Option<Obj>>, Error>)
    ensures CheckArguments(services, serviceType, serviceName).Some? ==> r == Failure(CheckArguments(services, serviceType, serviceName).value)
    ensures CheckArguments(services, serviceType, serviceName).None? && services.value.named.Some? ==>
              r == services.value.named.value.getNamedServices(serviceType.value, serviceName.value)
    ensures CheckArguments(services, serviceType, serviceName).None? && services.value.named.None? ==>
              var got := GetServices(services.value, NamedServiceInterface(keys, serviceType.value, serviceName.value).key);
              && (got.Failure? ==> r == Failure(got.error))
              && (got.Success? ==> r == UnwrapAll(got.value))
  {
    if services.None? then Failure(ArgumentNull("services"))
    else if serviceType.None? then Failure(ArgumentNull("serviceType"))
    else if IsNullOrEmpty(serviceName) then Failure(ArgumentNull("serviceName"))
    else
      var p := services.value;
      if p.named.Some? then p.named.value.getNamedServices(serviceType.value, serviceName.value)
      else
        var items :- GetServices(p, NamedServiceInterface(keys, serviceType.value, serviceName.value).key);
        UnwrapAll(items)
  }

  /** GetNamedServices<TService>(services, serviceName): the non-generic form for typeof(TService), each element cast to TService. */
  function GetNamedServicesOf(services: Option<Provider>, keys: KeyState, isA: (Obj, Ty) -> bool, service: Ty, serviceName: Option<string>): (r: Result<seq<Option<Obj>>, Error>)
    ensures GetNamedServices(services, keys, Some(service), serviceName).Failure? ==> r == Failure(GetNamedServices(services, keys, Some(service), serviceName).error)
    ensures GetNamedServices(services, keys, Some(service), serviceName).Success? ==>
              r == CastAll(isA, service, GetNamedServices(services, keys, Some(service), serviceName).value)
    ensures r.Success? ==> forall i :: 0 <= i < |r.value| && r.value[i].Some? ==> isA(r.value[i].value, service)
  {
    var all :- GetNamedServices(services, keys, Some(service), serviceName);
    CastAll(isA, service, all)
  }

  /** Unwrapping a concatenation unwraps each part. */
  lemma {:induction false} UnwrapAllAppend(a: seq<Value>, b: seq<Value>)
    requires UnwrapAll(a).Success? && UnwrapAll(b).Success?
    ensures UnwrapAll(a + b) == Success(UnwrapAll(a).value + UnwrapAll(b).value)
  {
    var r := UnwrapAll(a + b);
    assert forall i :: 0 <= i < |a + b| ==> (a + b)[i].Wrapped? by {
      forall i | 0 <= i < |a + b| ensures (a + b)[i].Wrapped? {
        if i < |a| { assert (a + b)[i] == a[i]; } else { assert (a + b)[i] == b[i - |a|]; }
      }
    }
    assert r.Success?;
    var expected := UnwrapAll(a).value + UnwrapAll(b).value;
    assert |r.value| == |expected|;
    forall i | 0 <= i < |r.value| ensures r.value[i] == expected[i] {
      if i < |a| { assert (a + b)[i] == a[i]; } else { assert (a + b)[i] == b[i - |a|]; }
    }
    assert r.value == expected;
  }
}
