/**
 * NamedServiceFactoryExtensions: the generic forms of the NamedServiceFactory
 * lookups, which filter the results by the requested type with `as`/`is`
 * instead of casting.
 */
module NamedServiceFactoryExtensions {
  import opened Wrappers
  import opened Container
  import opened NamedServiceManagement
  import opened NamedServiceFactories

  /** `.Where(x => x is TService).Cast<TService>()`: the non-null elements that are a T, in order. */
  function OfType(isA: (Obj, Ty) -> bool, t: Ty, xs: seq<Option<Obj>>): (r: seq<Obj>)
    ensures |r| <= |xs|
    ensures forall i :: 0 <= i < |r| ==> isA(r[i], t) && Some(r[i]) in xs
    ensures forall i :: 0 <= i < |xs| && xs[i].Some? && isA(xs[i].value, t) ==> xs[i].value in r
  {
    if |xs| == 0 then []
    else
      var init := OfType(isA, t, xs[..|xs| - 1]);
      var last := xs[|xs| - 1];
      assert forall i :: 0 <= i < |xs| - 1 ==> xs[..|xs| - 1][i] == xs[i];
      if last.Some? && isA(last.value, t) then init + [last.value] else init
  }

  /** Filtering keeps the order: a concatenation filters to the concatenation of the filtered parts. */
  lemma {:induction false} OfTypeAppend(isA: (Obj, Ty) -> bool, t: Ty, a: seq<Option<Obj>>, b: seq<Option<Obj>>)
    ensures OfType(isA, t, a + b) == OfType(isA, t, a) + OfType(isA, t, b)
    decreases |b|
  {
    if |b| == 0 {
      assert a + b == a;
    } else {
      var b' := b[..|b| - 1];
      assert (a + b)[..|a + b| - 1] == a + b';
      assert (a + b)[|a + b| - 1] == b[|b| - 1];
      OfTypeAppend(isA, t, a, b');
    }
  }

  /** GetNamedService<TService>(factory, serviceName): the factory's result if it is a T, else null. */
  function GetNamedServiceOf(factory: Option<NamedServiceFactory>, keys: KeyState, isA: (Obj, Ty) -> bool, service: Ty, serviceName: Option<string>): (r: Result<Option<Obj>, Error>)
    ensures factory.None? ==> r == Failure(ArgumentNull("factory"))
    ensures factory.Some? ==>
              var found := factory.value.GetNamedService(keys, Some(service), serviceName);
              && (found.Failure? ==> r == Failure(found.error))
              && (found.Success? && found.value.Some? && isA(found.value.value, service) ==> r == found)
              && (found.Success? && !(found.value.Some? && isA(found.value.value, service)) ==> r == Success(None))
  {
    if factory.None? then Failure(ArgumentNull("factory"))
    else
      var found :- factory.value.GetNamedService(keys, Some(service), serviceName);
      if found.Some? && isA(found.value, service) then Success(found) else Success(None)
  }

  /** GetNamedServices<TService>(factory, serviceName): exactly the results that are a T, in order. */
  function GetNamedServicesOf(factory: Option<NamedServiceFactory>, keys: KeyState, isA: (Obj, Ty) -> bool, service: Ty, serviceName: Option<string>): (r: Result<seq<Obj>, Error>)
    ensures factory.None? ==> r == Failure(ArgumentNull("factory"))
    ensures factory.Some? ==>
              var found := factory.value.GetNamedServices(keys, Some(service), serviceName);
              && (found.Failure? ==> r == Failure(found.error))
              && (found.Success? ==> r == Success(OfType(isA, service, found.value)))
  {
    if factory.None? then Failure(ArgumentNull("factory"))
    else
      var found :- factory.value.GetNamedServices(keys, Some(service), serviceName);
      Success(OfType(isA, service, found))
  }

  /** GetRequiredNamedService<TService>(factory, serviceName): a result that is not a T is a "No services registered" error. */
  function GetRequiredNamedServiceOf(factory: Option<NamedServiceFactory>, keys: KeyState, isA: (Obj, Ty) -> bool, service: Ty, serviceName: Option<string>): (r: Result<Obj, Error>)
    ensures factory.None? ==> r == Failure(ArgumentNull("factory"))
    ensures factory.Some? ==>
              var found := factory.value.GetRequiredNamedService(keys, Some(service), serviceName);
              && (found.Failure? ==> r == Failure(found.error))
              && (found.Success? && isA(found.value, service) ==> r == found)
              && (found.Success? && !isA(found.value, service) ==> r == Failure(NamedServiceNotRegistered(service, serviceName.value)))
    ensures r.Success? ==> isA(r.value, service)
  {
    if factory.None? then Failure(ArgumentNull("factory"))
    else
      var found :- factory.value.GetRequiredNamedService(keys, Some(service), serviceName);
      if isA(found, service) then Success(found) else Failure(NamedServiceNotRegistered(service, serviceName.value))
  }

  /**
   * A null or empty name is rejected by the underlying factory, naming
   * "serviceName": an instance of GetNamedServiceOf's and
   * GetRequiredNamedServiceOf's own postconditions, stated for both at once.
   */
  lemma EmptyNameRejected(factory: NamedServiceFactory, keys: KeyState, isA: (Obj, Ty) -> bool, service: Ty, serviceName: Option<string>)
    requires IsNullOrEmpty(serviceName)
    ensures GetNamedServiceOf(Some(factory), keys, isA, service, serviceName) == Failure(ArgumentNull("serviceName"))
    ensures GetNamedServicesOf(Some(factory), keys, isA, service, serviceName) == Failure(ArgumentNull("serviceName"))
    ensures GetRequiredNamedServiceOf(Some(factory), keys, isA, service, serviceName) == Failure(ArgumentNull("serviceName"))
  {
  }
}
