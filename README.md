# Named services for Microsoft.Extensions.DependencyInjection — a Dafny model

The library adds *named* registrations to the .NET dependency-injection
container: `AddTransient/AddScoped/AddSingleton(serviceType, serviceName, …)`
on an `IServiceCollection`, and `GetNamedService`, `GetRequiredNamedService` and
`GetNamedServices` on an `IServiceProvider`. A registration takes one of two paths.

- **Native path.** The collection implements `ISupportNamedServiceDescriptor`.
  The call appends a `NamedServiceDescriptor`: a plain descriptor plus a
  `ServiceName`.
- **Fallback path.** The collection is any other kind. The call registers the
  `NamedServiceFactory` helper once, through `TryAdd`. It then appends a plain
  descriptor for the compound key `INamedService<TService, TKey>`. Here `TKey`
  is a marker interface that `NamedServiceManager` synthesizes once per
  service name, with names compared case-insensitively. The descriptor's
  factory wraps the real implementation in a `NamedService<TService, TKey>`
  carrier.

Resolution also has two paths. A provider may implement
`ISupportNamedServices`; if it does, the call is forwarded to the provider.
Otherwise the library asks for the compound key and unwraps the carrier.

The model is organised by the repository's files:

| Dafny module (file) | models |
|---|---|
| `Container` (container.dfy) | the host container's vocabulary: types, objects, lifetimes, plain descriptors, exceptions |
| `NamedServiceDescriptors` (named_service_descriptor.dfy) | `NamedServiceDescriptor`: its constructors, its static `Transient`/`Scoped`/`Singleton`/`Describe` helpers, `ToString` and `GetImplementationType` |
| `NamedServiceManagement` (named_service_manager.dfy) | `NamedServiceManager`: the name→key cache, the compound key types and the carrier wrappers (a class whose fields are the cache) |
| `NamedServices` (named_service.dfy) | the carrier `NamedService<TService, TKey>` |
| `ServiceCollectionExtensions` (service_collection_extensions.dfy) | the registration overloads on a mutable `ServiceCollection` class |
| `ServiceProviderExtensions` (service_provider_extensions.dfy) | the resolution extensions on `IServiceProvider` |
| `NamedServiceFactories` (named_service_factory.dfy) | `NamedServiceFactory`, the helper registered on the fallback path |
| `NamedServiceFactoryExtensions` (named_service_factory_extensions.dfy) | the helper's generic extensions |
| `Providers` (providers.dfy) | `IServiceProvider` with its optional capabilities, and a reference container (`Host`) that resolves a descriptor list |
| `RoundTrip` (round_trip.dfy) | register-then-resolve properties on the fallback path |

The model keeps several behaviours of the code that a reader might not expect:

- The scoped generic factory overloads, `AddScoped<TService>(…, factory)` and
  `AddScoped<TService, TImplementation>(…, factory)`, drop the factory on the
  native path. They register `TService` as an implementation *type* instead.
  The model keeps this (`AddGenericFactory`, `AddGenericFactoryWithImplementation`).
- On the fallback path, `AddTransient<TService, TImplementation>(…, factory)`
  wraps the result in a `NamedService<TImplementation, TKey>`. Every other
  overload uses `TService`, and the scoped and singleton forms of this
  overload do too.
- `NamedServiceDescriptor.Singleton<TService>(name, factory)` and
  `Singleton<TService>(name, instance)` check the factory or instance *before*
  the name. Every other helper checks the name first.
- The fallback `GetRequiredNamedService` casts with `(INamedService)`. A
  missing registration therefore surfaces as the container's own "no service"
  error. `NamedServiceFactory.GetRequiredNamedService` instead throws
  "No services registered" when its provider lacks
  `ISupportRequiredNamedServices`.

## Model

| member | source | states |
|---|---|---|
| NamedServiceDescriptors.NewWithType | src/Cosmic.Extensions.DependencyInjection.Named.Abstractions/NamedServiceDescriptor.cs:25-41 | succeeds exactly when the name is neither null nor empty, and throws ArgumentNull("serviceName") otherwise; on success the descriptor has the service type, name, lifetime and implementation type given, and no other implementation |
| NamedServiceDescriptors.NewWithInstance | src/Cosmic.Extensions.DependencyInjection.Named.Abstractions/NamedServiceDescriptor.cs:50-62 | the same name check; an instance descriptor is always a singleton and holds only the instance |
| NamedServiceDescriptors.NewWithFactory | src/Cosmic.Extensions.DependencyInjection.Named.Abstractions/NamedServiceDescriptor.cs:71-84 | the same name check; the descriptor holds only the factory, with the lifetime given |
| NamedServiceDescriptors.ToString | src/Cosmic.Extensions.DependencyInjection.Named.Abstractions/NamedServiceDescriptor.cs:92-93 | the text is the base description, then the label " ServiceName: ", then the name, and the lengths add up |
| NamedServiceDescriptors.GetImplementationType | src/Cosmic.Extensions.DependencyInjection.Named.Abstractions/NamedServiceDescriptor.cs:100-123 | the implementation type when one is set, else the instance's runtime type, else the factory's declared return type; there is no answer exactly when the descriptor has no implementation |
| NamedServiceDescriptors.TransientGeneric | src/Cosmic.Extensions.DependencyInjection.Named.Abstractions/NamedServiceDescriptor.cs:134-141 | Transient<TService, TImplementation>(name): the name check, then a transient type descriptor |
| NamedServiceDescriptors.TransientType | src/Cosmic.Extensions.DependencyInjection.Named.Abstractions/NamedServiceDescriptor.cs:152-176 | checks serviceType, then serviceName, then implementationType, each with its own ArgumentNull, and succeeds exactly when all three pass |
| NamedServiceDescriptors.TransientGenericFactory | src/Cosmic.Extensions.DependencyInjection.Named.Abstractions/NamedServiceDescriptor.cs:189-231 | checks the name, then the factory, and succeeds exactly when both pass; the result is a transient factory descriptor |
| NamedServiceDescriptors.TransientFactory | src/Cosmic.Extensions.DependencyInjection.Named.Abstractions/NamedServiceDescriptor.cs:242-260 | checks serviceType, then name, then factory, in that order; the result is a transient factory descriptor |
| NamedServiceDescriptors.ScopedGeneric | src/Cosmic.Extensions.DependencyInjection.Named.Abstractions/NamedServiceDescriptor.cs:271-278 | the name check, then a scoped type descriptor |
| NamedServiceDescriptors.ScopedType | src/Cosmic.Extensions.DependencyInjection.Named.Abstractions/NamedServiceDescriptor.cs:289-313 | the three ordered checks, then a scoped type descriptor |
| NamedServiceDescriptors.ScopedGenericFactory | src/Cosmic.Extensions.DependencyInjection.Named.Abstractions/NamedServiceDescriptor.cs:326-368 | the name check, then the factory check, then a scoped factory descriptor |
| NamedServiceDescriptors.ScopedFactory | src/Cosmic.Extensions.DependencyInjection.Named.Abstractions/NamedServiceDescriptor.cs:379-397 | the three ordered checks, then a scoped factory descriptor |
| NamedServiceDescriptors.SingletonGeneric | src/Cosmic.Extensions.DependencyInjection.Named.Abstractions/NamedServiceDescriptor.cs:408-415 | the name check, then a singleton type descriptor |
| NamedServiceDescriptors.SingletonType | src/Cosmic.Extensions.DependencyInjection.Named.Abstractions/NamedServiceDescriptor.cs:426-450 | the three ordered checks, then a singleton type descriptor |
| NamedServiceDescriptors.SingletonGenericFactory | src/Cosmic.Extensions.DependencyInjection.Named.Abstractions/NamedServiceDescriptor.cs:463-505 | checks the factory BEFORE the name, and succeeds exactly when both pass; the result is a singleton factory descriptor |
| NamedServiceDescriptors.SingletonFactory | src/Cosmic.Extensions.DependencyInjection.Named.Abstractions/NamedServiceDescriptor.cs:516-537 | the three ordered checks, then a singleton factory descriptor |
| NamedServiceDescriptors.SingletonGenericInstance | src/Cosmic.Extensions.DependencyInjection.Named.Abstractions/NamedServiceDescriptor.cs:548-562 | checks the instance BEFORE the name; the result is a singleton instance descriptor |
| NamedServiceDescriptors.SingletonInstance | src/Cosmic.Extensions.DependencyInjection.Named.Abstractions/NamedServiceDescriptor.cs:573-594 | checks serviceType, then name, then instance; the result is a singleton instance descriptor |
| NamedServiceDescriptors.DescribeGeneric | src/Cosmic.Extensions.DependencyInjection.Named.Abstractions/NamedServiceDescriptor.cs:606-613 | Describe<TService, TImplementation>(name, lifetime): the name check, then a type descriptor with that lifetime |
| NamedServiceDescriptors.DescribeType | src/Cosmic.Extensions.DependencyInjection.Named.Abstractions/NamedServiceDescriptor.cs:625-650 | the three ordered checks, then a type descriptor with the lifetime given |
| NamedServiceDescriptors.DescribeFactory | src/Cosmic.Extensions.DependencyInjection.Named.Abstractions/NamedServiceDescriptor.cs:662-680 | the three ordered checks, then a factory descriptor with the lifetime given |
| NamedServiceDescriptors.DescribeDescriptor | src/Cosmic.Extensions.DependencyInjection.Named.Abstractions/NamedServiceDescriptor.cs:689-728 | copies a plain descriptor under a name. It checks the descriptor, then the name, then that the descriptor has an implementation (else an ArgumentException), and it keeps the type first, then the instance, then the factory |
| NamedServiceDescriptors.DescribeOnlyAddsName | src/Cosmic.Extensions.DependencyInjection.Named.Abstractions/NamedServiceDescriptor.cs:689-728 | for a descriptor with exactly one implementation, Describe only adds the name; removing the name gives back the original descriptor |
| NamedServiceDescriptors.ImplementationTypeOfSource | src/Cosmic.Extensions.DependencyInjection.Named.Abstractions/NamedServiceDescriptor.cs:100-123 | every descriptor the constructors build has an implementation type, and it is the one its source determines |
| NamedServices.NamedService.RuntimeType | src/Cosmic.Extensions.DependencyInjection.Named/NamedService.cs:10 | the carrier's runtime type is NamedService<serviceType, key> |
| NamedServices.Create | src/Cosmic.Extensions.DependencyInjection.Named/NamedService.cs:20-23 | the constructor rejects a null service with ArgumentNull("service"); otherwise `Service` is the given object |
| NamedServices.CreateThenService | src/Cosmic.Extensions.DependencyInjection.Named/NamedService.cs:20-30 | `Service` returns what the constructor was given, and two carriers of one type are equal exactly when their services are |
| NamedServices.ActivateCarrier | src/Cosmic.Extensions.DependencyInjection.Named/NamedServiceManager.cs:107-112 | Activator.CreateInstance(NamedService<serviceType, key>, instance) succeeds exactly for a non-null serviceType; null fails with the constructor's ArgumentNull("service"), any other object with MissingMethodException; a success is the carrier Create builds |
| NamedServices.ActivateCarrierWithServices | src/Cosmic.Extensions.DependencyInjection.Named/NamedServiceManager.cs:82-86 | ActivatorUtilities.CreateInstance(services, NamedService<serviceType, key>, instance) succeeds exactly for a non-null serviceType; every failure is InvalidOperationException for the carrier type |
| NamedServices.ActivationRoutesAgree | src/Cosmic.Extensions.DependencyInjection.Named/NamedServiceManager.cs:82-112 | the two activation routes accept the same instances and build the same carrier, whose service is the instance |
| NamedServiceManagement.GetOrAdd | src/Cosmic.Extensions.DependencyInjection.Named/NamedServiceManager.cs:216-231 | a hit returns the cached key and leaves the cache unchanged; a miss creates a fresh marker type, caches it and returns it. The cache only grows, and its keys stay distinct |
| NamedServiceManagement.EquivalentNamesShareKey | src/Cosmic.Extensions.DependencyInjection.Named/NamedServiceManager.cs:21 | after one lookup, any name the case-insensitive comparer equates with it gets the same key and changes nothing |
| NamedServiceManagement.DistinctNamesGetDistinctKeys | src/Cosmic.Extensions.DependencyInjection.Named/NamedServiceManager.cs:216-231 | names the comparer tells apart get different key types |
| NamedServiceManagement.KeyStable | src/Cosmic.Extensions.DependencyInjection.Named/NamedServiceManager.cs:216-231 | once a name is cached, every later cache state returns the same key for it without change |
| NamedServiceManagement.KeysFor | src/Cosmic.Extensions.DependencyInjection.Named/NamedServiceManager.cs:216-231 | a run of lookups returns one key per name, and each key is the cache entry for its name afterwards |
| NamedServiceManagement.KeysAgreeExactlyOnEquivalentNames | src/Cosmic.Extensions.DependencyInjection.Named/NamedServiceManager.cs:21 | in any run of lookups, two names share a key exactly when the comparer equates them |
| NamedServiceManagement.NamedServiceInterface | src/Cosmic.Extensions.DependencyInjection.Named/NamedServiceManager.cs:33-49 | INamedService<serviceType, key(name)>, with the cache as GetOrAdd leaves it |
| NamedServiceManagement.NamedServiceEnumerableInterface | src/Cosmic.Extensions.DependencyInjection.Named/NamedServiceManager.cs:57-58 | IEnumerable of that compound key |
| NamedServiceManagement.NamedServiceType | src/Cosmic.Extensions.DependencyInjection.Named/NamedServiceManager.cs:66-72 | NamedService<serviceType, key(name)> |
| NamedServiceManagement.CompoundKeysEqualExactly | src/Cosmic.Extensions.DependencyInjection.Named/NamedServiceManager.cs:33-39 | two compound keys are equal exactly when the service types are equal and the comparer equates the names |
| NamedServiceManagement.NamedServiceManager.constructor | src/Cosmic.Extensions.DependencyInjection.Named/NamedServiceManager.cs:21 | the cache starts empty and valid |
| NamedServiceManagement.NamedServiceManager.CreateNamedServiceKeyType | src/Cosmic.Extensions.DependencyInjection.Named/NamedServiceManager.cs:216-231 | updates the cache fields as GetOrAdd does, returns its key and keeps the cache valid |
| NamedServiceManagement.NamedServiceManager.CreateNamedServiceInterface | src/Cosmic.Extensions.DependencyInjection.Named/NamedServiceManager.cs:33-49 | the result and the new cache are those of NamedServiceInterface |
| NamedServiceManagement.NamedServiceManager.CreateNamedServiceEnumerableInterface | src/Cosmic.Extensions.DependencyInjection.Named/NamedServiceManager.cs:57-58 | the result and the new cache are those of NamedServiceEnumerableInterface |
| NamedServiceManagement.NamedServiceManager.CreateNamedServiceType | src/Cosmic.Extensions.DependencyInjection.Named/NamedServiceManager.cs:66-72 | the result and the new cache are those of NamedServiceType |
| NamedServiceManagement.NamedServiceManager.CreateNamedServiceImplementation | src/Cosmic.Extensions.DependencyInjection.Named/NamedServiceManager.cs:107-112 | looks up key(name) as GetOrAdd does, then activates NamedService<serviceType, key(name)> with the instance through Activator: a null instance fails as the carrier's constructor does (ArgumentNull "service"), an instance that is not a serviceType fails with MissingMethodException, otherwise the carrier wraps the instance |
| NamedServiceManagement.NamedServiceManager.CreateNamedServiceImplementationWithServices | src/Cosmic.Extensions.DependencyInjection.Named/NamedServiceManager.cs:82-98 | looks up key(name) as GetOrAdd does, then activates the carrier through ActivatorUtilities: a null instance, or one that is not a serviceType, fails with InvalidOperationException ("no suitable constructor"); otherwise the carrier wraps the instance |
| NamedServiceManagement.NamedServiceManager.CreateNamedServiceImplementationFromFactory | src/Cosmic.Extensions.DependencyInjection.Named/NamedServiceManager.cs:122-152 | calls the factory once. If it throws, the exception passes through and the cache is untouched; otherwise its result goes through the Activator wrap under key(name), with that wrap's null and type-mismatch errors |
| NamedServiceManagement.NamedServiceManager.CreateNamedServiceImplementationFromType | src/Cosmic.Extensions.DependencyInjection.Named/NamedServiceManager.cs:162-173 | activates the implementation type; an activation error passes through and leaves the cache untouched; otherwise the new instance goes through the Activator wrap, so an implementation that is not a serviceType fails with MissingMethodException |
| NamedServiceManagement.NamedServiceManager.CreateNamedServiceImplementationOfSelf | src/Cosmic.Extensions.DependencyInjection.Named/NamedServiceManager.cs:183-205 | the same with TService as its own implementation |
| ServiceCollectionExtensions.NativeDescriptor | src/Cosmic.Extensions.DependencyInjection.Named/ServiceCollectionExtensions.cs:1082-1118 | the NamedServiceDescriptor the native path adds describes the registration, and an instance is always a singleton |
| ServiceCollectionExtensions.FallbackDescriptor | src/Cosmic.Extensions.DependencyInjection.Named/ServiceCollectionExtensions.cs:62-66 | the fallback descriptor is plain. It is registered under INamedService<TService, key> with the registration's lifetime, and its only implementation is the wrapping factory |
| ServiceCollectionExtensions.TryAdd | src/Cosmic.Extensions.DependencyInjection.Named/ServiceCollectionExtensions.cs:1120-1126 | appends the descriptor exactly when nothing is registered yet for its service type |
| ServiceCollectionExtensions.FallbackMatching | src/Cosmic.Extensions.DependencyInjection.Named/ServiceCollectionExtensions.cs:62-66 | after a fallback registration, a type's registrations are the earlier ones, plus the helper if none was registered yet, plus the new descriptor if the type is the compound key |
| ServiceCollectionExtensions.FallbackFootprint | src/Cosmic.Extensions.DependencyInjection.Named/ServiceCollectionExtensions.cs:62-66 | the collection grows by one or two; the compound key gains exactly one descriptor; every other type except the helper keeps its registrations |
| ServiceCollectionExtensions.NativeFootprint | src/Cosmic.Extensions.DependencyInjection.Named/ServiceCollectionExtensions.cs:57-60 | a native registration appends exactly one descriptor, under the service type itself |
| ServiceCollectionExtensions.FirstFallbackRegistration | tests/Cosmic.Extensions.DependencyInjection.Named.Tests.Inter/MicrosoftImplementationServiceCollectionTests.cs:23-30 | on an empty collection, one fallback registration leaves exactly the helper and the compound-key descriptor |
| ServiceCollectionExtensions.HelperRegisteredOnce | tests/Cosmic.Extensions.DependencyInjection.Named.Tests.Inter/MicrosoftImplementationServiceCollectionTests.cs:439-448 | after two fallback registrations the helper is registered exactly once |
| ServiceCollectionExtensions.ServiceCollection.constructor | src/Cosmic.Extensions.DependencyInjection.Named/ServiceCollectionExtensions.cs:57 | a collection starts empty and either supports named descriptors or does not |
| ServiceCollectionExtensions.ServiceCollection.Add | src/Cosmic.Extensions.DependencyInjection.Named/ServiceCollectionExtensions.cs:1082-1095 | appends one descriptor at the end |
| ServiceCollectionExtensions.ServiceCollection.AddNamedServiceSupportServices | src/Cosmic.Extensions.DependencyInjection.Named/ServiceCollectionExtensions.cs:1120-1126 | the collection becomes TryAdd of the helper, and afterwards the helper is registered |
| ServiceCollectionExtensions.AddTypeDescriptor | src/Cosmic.Extensions.DependencyInjection.Named/ServiceCollectionExtensions.cs:1082-1095 | an empty name fails with the collection untouched; otherwise it appends the type descriptor to the collection and returns that collection |
| ServiceCollectionExtensions.AddInstanceDescriptor | src/Cosmic.Extensions.DependencyInjection.Named/ServiceCollectionExtensions.cs:1097-1106 | the same for an instance descriptor |
| ServiceCollectionExtensions.AddFactoryDescriptor | src/Cosmic.Extensions.DependencyInjection.Named/ServiceCollectionExtensions.cs:1108-1118 | the same for a factory descriptor |
| ServiceCollectionExtensions.Register | src/Cosmic.Extensions.DependencyInjection.Named/ServiceCollectionExtensions.cs:57-66 | returns the collection. On the native path it appends the NamedServiceDescriptor and leaves the key cache unchanged. On the fallback path it adds the helper if needed, then looks up the key as GetOrAdd does, then appends the compound-key descriptor |
| ServiceCollectionExtensions.AddType | src/Cosmic.Extensions.DependencyInjection.Named/ServiceCollectionExtensions.cs:28-67 | checks services, serviceType, serviceName and implementationType in that order, and succeeds exactly when all pass; a failure changes nothing; a success registers the type on whichever path the collection selects |
| ServiceCollectionExtensions.AddFactory | src/Cosmic.Extensions.DependencyInjection.Named/ServiceCollectionExtensions.cs:80-116 | the same four ordered checks with implementationFactory; the factory is registered on both paths |
| ServiceCollectionExtensions.AddGenericType | src/Cosmic.Extensions.DependencyInjection.Named/ServiceCollectionExtensions.cs:130-160 | checks services, then the name; registers TImplementation for TService |
| ServiceCollectionExtensions.AddSelf | src/Cosmic.Extensions.DependencyInjection.Named/ServiceCollectionExtensions.cs:171-204 | checks services, serviceType and name; the service type is its own implementation |
| ServiceCollectionExtensions.AddGenericSelf | src/Cosmic.Extensions.DependencyInjection.Named/ServiceCollectionExtensions.cs:216-245 | checks services and name; TService is its own implementation |
| ServiceCollectionExtensions.AddGenericFactory | src/Cosmic.Extensions.DependencyInjection.Named/ServiceCollectionExtensions.cs:582-614 | checks services, name and factory. The native scoped form registers TService as an implementation type and drops the factory; every other form registers the factory |
| ServiceCollectionExtensions.AddGenericFactoryWithImplementation | src/Cosmic.Extensions.DependencyInjection.Named/ServiceCollectionExtensions.cs:305-338 | as AddGenericFactory; in addition, the transient fallback wraps the result as a NamedService of TImplementation |
| ServiceCollectionExtensions.AddInstance | src/Cosmic.Extensions.DependencyInjection.Named/ServiceCollectionExtensions.cs:999-1035 | checks services, serviceType, name and instance; always a singleton, with the instance reused on the fallback path |
| ServiceCollectionExtensions.AddGenericInstance | src/Cosmic.Extensions.DependencyInjection.Named/ServiceCollectionExtensions.cs:1048-1080 | checks services, name and instance; always a singleton |
| ServiceProviderExtensions.Unwrap | src/Cosmic.Extensions.DependencyInjection.Named/ServiceProviderExtensions.cs:47-49 | null stays null; a carrier gives its Service; any other object fails the cast to INamedService; an error from GetService passes through |
| ServiceProviderExtensions.UnwrapAll | src/Cosmic.Extensions.DependencyInjection.Named/ServiceProviderExtensions.cs:187-190 | succeeds exactly when every item is a carrier, giving their services in order; otherwise an InvalidCast to INamedService |
| ServiceProviderExtensions.UnwrapAllAppend | src/Cosmic.Extensions.DependencyInjection.Named/ServiceProviderExtensions.cs:187-190 | unwrapping a concatenation gives the concatenation of the unwrapped parts |
| ServiceProviderExtensions.CastAll | src/Cosmic.Extensions.DependencyInjection.Named/ServiceProviderExtensions.cs:203-205 | the cast to TService? succeeds exactly when every non-null item is a TService, and then returns the items unchanged |
| ServiceProviderExtensions.CheckArguments | src/Cosmic.Extensions.DependencyInjection.Named/ServiceProviderExtensions.cs:27-40 | reports services, then serviceType, then serviceName (null or empty), and nothing exactly when all three are valid |
| ServiceProviderExtensions.GetNamedService | src/Cosmic.Extensions.DependencyInjection.Named/ServiceProviderExtensions.cs:25-50 | the argument errors, in order; then the provider's own GetNamedService if it supports named services, otherwise the unwrapped answer for the compound key |
| ServiceProviderExtensions.GetNamedServiceOf | src/Cosmic.Extensions.DependencyInjection.Named/ServiceProviderExtensions.cs:62-83 | checks services and name, then casts the untyped answer to TService; a non-null result is a TService |
| ServiceProviderExtensions.GetRequiredNamedService | src/Cosmic.Extensions.DependencyInjection.Named/ServiceProviderExtensions.cs:96-120 | the argument errors; then ISupportRequiredNamedServices if the provider has it; else ISupportNamedServices, with "No service of type … was found" for null; otherwise the container's GetRequiredService of the compound key, unwrapped |
| ServiceProviderExtensions.GetRequiredNamedServiceOf | src/Cosmic.Extensions.DependencyInjection.Named/ServiceProviderExtensions.cs:133-153 | checks services and name, then casts to TService; a result is always a TService |
| ServiceProviderExtensions.GetNamedServices | src/Cosmic.Extensions.DependencyInjection.Named/ServiceProviderExtensions.cs:165-191 | the argument errors; then the provider's GetNamedServices, or every registration of the compound key unwrapped in order |
| ServiceProviderExtensions.GetNamedServicesOf | src/Cosmic.Extensions.DependencyInjection.Named/ServiceProviderExtensions.cs:203-205 | the untyped answer cast item by item to TService; its errors pass through |
| NamedServiceFactories.AsCarrier | src/Cosmic.Extensions.DependencyInjection.Named/NamedServiceFactory.cs:110-111 | `as INamedService`: the carrier when the answer is one, null otherwise |
| NamedServiceFactories.Carriers | src/Cosmic.Extensions.DependencyInjection.Named/NamedServiceFactory.cs:113-115 | the carriers of a sequence of carriers, in order |
| NamedServiceFactories.ServicesOf | src/Cosmic.Extensions.DependencyInjection.Named/NamedServiceFactory.cs:75-78 | the Service of each carrier, in order |
| NamedServiceFactories.NamedServiceFactory.Wrapper | src/Cosmic.Extensions.DependencyInjection.Named/NamedServiceFactory.cs:110-111 | the compound key's answer, as INamedService |
| NamedServiceFactories.NamedServiceFactory.Wrappers | src/Cosmic.Extensions.DependencyInjection.Named/NamedServiceFactory.cs:113-115 | every carrier registered under the compound key, in order |
| NamedServiceFactories.NamedServiceFactory.GetNamedService | src/Cosmic.Extensions.DependencyInjection.Named/NamedServiceFactory.cs:33-52 | checks serviceType, then name; forwards to ISupportNamedServices if the provider has it, else returns the wrapper's Service or null |
| NamedServiceFactories.NamedServiceFactory.GetNamedServices | src/Cosmic.Extensions.DependencyInjection.Named/NamedServiceFactory.cs:60-79 | the same checks; forwards, or gives the services of all wrappers, none of them null |
| NamedServiceFactories.NamedServiceFactory.GetRequiredNamedService | src/Cosmic.Extensions.DependencyInjection.Named/NamedServiceFactory.cs:88-108 | the same checks; forwards to ISupportRequiredNamedServices, else fails with "No services registered" |
| NamedServiceFactories.New | src/Cosmic.Extensions.DependencyInjection.Named/NamedServiceFactory.cs:22-25 | the constructor rejects a null provider and otherwise keeps the one given |
| NamedServiceFactoryExtensions.OfType | src/Cosmic.Extensions.DependencyInjection.Named/NamedServiceFactoryExtensions.cs:40-49 | `OfType<TService>`: keeps exactly the non-null items that are a TService, drops the rest |
| NamedServiceFactoryExtensions.OfTypeAppend | src/Cosmic.Extensions.DependencyInjection.Named/NamedServiceFactoryExtensions.cs:40-49 | OfType over a concatenation gives the concatenation of the filtered parts |
| NamedServiceFactoryExtensions.GetNamedServiceOf | src/Cosmic.Extensions.DependencyInjection.Named/NamedServiceFactoryExtensions.cs:22-31 | rejects a null factory, then casts the factory's answer to TService |
| NamedServiceFactoryExtensions.GetNamedServicesOf | src/Cosmic.Extensions.DependencyInjection.Named/NamedServiceFactoryExtensions.cs:40-49 | rejects a null factory, then filters the factory's answer with OfType |
| NamedServiceFactoryExtensions.GetRequiredNamedServiceOf | src/Cosmic.Extensions.DependencyInjection.Named/NamedServiceFactoryExtensions.cs:59-69 | rejects a null factory, then casts the required answer to TService |
| NamedServiceFactoryExtensions.EmptyNameRejected | src/Cosmic.Extensions.DependencyInjection.Named/NamedServiceFactory.cs:40-43 | null or empty names are rejected by all three generic extensions with ArgumentNull("serviceName") |
| Providers.Produce | src/Cosmic.Extensions.DependencyInjection.Named/ServiceCollectionExtensions.cs:1030-1034 | the object a fallback lambda wraps: the activated implementation type (line 66), the factory's result (line 115) or the captured instance (line 1034) |
| Providers.RunWrapper | src/Cosmic.Extensions.DependencyInjection.Named/ServiceCollectionExtensions.cs:62-66 | a fallback lambda run by the host succeeds exactly when the produced object is a serviceType, giving the carrier around it; a captured instance fails with ActivatorUtilities' InvalidOperationException, an activated or factory-made object with Activator's MissingMethodException |
| Providers.Materialise | src/Cosmic.Extensions.DependencyInjection.Named/ServiceCollectionExtensions.cs:62-66 | a descriptor with no implementation is invalid; an instance, a user factory or a type gives that object; a fallback descriptor gives the carrier, or the error, of RunWrapper |
| RoundTrip.FallbackRunsManagerWrap | src/Cosmic.Extensions.DependencyInjection.Named/ServiceCollectionExtensions.cs:62-66 | what the host builds from a fallback descriptor is the manager's wrap: ActivateCarrier for an activated or factory-made object, ActivateCarrierWithServices for a captured instance, on the registration's carrier type and key |
| RoundTrip.LookupFindsRegisteredKey | src/Cosmic.Extensions.DependencyInjection.Named/NamedServiceManager.cs:216-231 | at resolution time, any name the comparer equates with the registered one finds the compound key stored at registration |
| RoundTrip.ResolveRegisteredKey | src/Cosmic.Extensions.DependencyInjection.Named/ServiceCollectionExtensions.cs:62-66 | the host resolves the compound key by running the last fallback registration under it: RunWrapper's carrier, or its error |
| RoundTrip.RegisterThenGetNamedService | tests/Cosmic.Extensions.DependencyInjection.Named.Tests.Inter/MicrosoftImplementationServiceProviderTests.cs:15-27 | after a fallback registration, GetNamedService and GetRequiredNamedService return the registered implementation, for any name that differs only in case |
| RoundTrip.IllTypedRegistrationFails | src/Cosmic.Extensions.DependencyInjection.Named/NamedServiceManager.cs:82-112 | when the registered implementation is not a serviceType of the carrier, GetNamedService and GetRequiredNamedService fail with the activation error: MissingMethodException on the Activator route, InvalidOperationException on the ActivatorUtilities route |
| RoundTrip.RegisterThenFactoryLookup | src/Cosmic.Extensions.DependencyInjection.Named/NamedServiceFactory.cs:33-108 | the same holds through a NamedServiceFactory over the host and through its generic extensions |
| RoundTrip.OtherTypesUnaffected | tests/Cosmic.Extensions.DependencyInjection.Named.Tests.Inter/MicrosoftImplementationServiceProviderTests.cs:22-25 | a fallback registration changes what the host resolves only for the compound key, the helper and their enumerables |
| RoundTrip.UnnamedLookupStaysEmpty | tests/Cosmic.Extensions.DependencyInjection.Named.Tests.Inter/MicrosoftImplementationServiceProviderTests.cs:22-25 | after one named registration, the unnamed GetService(T) is still null |
| RoundTrip.OtherNamedLookupsUnaffected | tests/Cosmic.Extensions.DependencyInjection.Named.Tests.Inter/MicrosoftImplementationServiceProviderTests.cs:62-77 | a lookup under another service type, or a name the comparer tells apart, answers as before the registration |
| RoundTrip.EnumerateRegisteredKey | src/Cosmic.Extensions.DependencyInjection.Named/ServiceProviderExtensions.cs:187-189 | enumerating the compound key gives the earlier carriers followed by the new one |
| RoundTrip.RegisterThenGetNamedServices | src/Cosmic.Extensions.DependencyInjection.Named/ServiceProviderExtensions.cs:165-191 | after a fallback registration, GetNamedServices is the earlier answer followed by the new implementation |
| RoundTrip.NothingRegisteredYet | src/Cosmic.Extensions.DependencyInjection.Named/ServiceProviderExtensions.cs:165-191 | on an empty host, GetNamedServices is empty |
| RoundTrip.SecondRegistrationReusesKey | src/Cosmic.Extensions.DependencyInjection.Named/NamedServiceManager.cs:216-231 | a second registration under an equivalent name reuses the key, and the cache stays as it was |
| RoundTrip.TwoRegistrationsResolveInOrder | tests/Cosmic.Extensions.DependencyInjection.Named.Tests.Inter/MicrosoftImplementationServiceProviderTests.cs:482-499 | two registrations under one name: GetNamedServices returns both implementations in registration order |
| RoundTrip.LastRegistrationWins | tests/Cosmic.Extensions.DependencyInjection.Named.Tests.Inter/MicrosoftImplementationServiceProviderTests.cs:482-499 | of two such registrations, GetNamedService returns the later one |
| RoundTrip.UnregisteredLookups | src/Cosmic.Extensions.DependencyInjection.Named/ServiceProviderExtensions.cs:25-120 | with nothing under the compound key: GetNamedService is null; GetRequiredNamedService fails with the container's "no service" error; the factory's lookups report null or "No services registered" |

## Left out

- Reflection emit: `DefineType`/`CreateType` become a fresh `KeyMarker` value with a serial number. `DefineType` rejects an empty name. This becomes the precondition `name != ""` of `GetOrAdd`, because every public caller rejects an empty name first.
- The cache is a `ConcurrentDictionary`, but the model ignores concurrency. It treats `GetOrAdd` as one atomic step, so the key factory never runs twice.
- The comparer is `StringComparer.InvariantCultureIgnoreCase`. It is modelled as an abstract function `canon`; the two agree on which names are equal. The model does not fix the Unicode case-folding rules themselves.
- The null checks inside the base `ServiceDescriptor` constructors run in code that is not part of this model. It also supplies the text of `base.ToString()`, which the model takes as a parameter.
- `Host` is a reference container: the last registration wins, and `IEnumerable<T>` gives every registration in order. It ignores lifetimes, scopes and disposal. Its user factories and activation never return null and never throw.
- LINQ `Cast`/`Select`/`OfType` are lazy in C#; the model evaluates them eagerly, so a cast error surfaces at the call, not on enumeration.
- The model does not represent the `TargetInvocationException` that wraps a failure of `Activator.CreateInstance`. Nor does it represent the `NullReferenceException` thrown when that call returns null, which cannot happen for the carrier type.
- Activation is a type test `isA(instance, serviceType)` on the one carrier constructor, `NamedService(TService service)`. The model does not follow the constructor-selection rules of `Activator` and `ActivatorUtilities` beyond that test and the exception each throws.
- Generic forms that differ from non-generic ones only by `typeof(T)` are modelled once. This covers the manager's generic wrapper overloads: the `<TService>` forms at NamedServiceManager.cs:96-98, 136-138 and 149-152 are the non-generic methods they call.
- Every AddTransient/AddScoped/AddSingleton family is merged into one method with a lifetime parameter: the three forms differ only in the lifetime they pass on, except for the quirks listed above.
- The resolvers (`ServiceProviderExtensions`, `NamedServiceFactory`) read a snapshot of the key cache. They return the key `GetOrAdd` would return, but drop the cache entry that a miss would add. `KeyStable` and `UnregisteredLookups` show this changes no answer.
- On the fallback path the real lambda recomputes the key at resolution time; the wrapper factory stores the key computed at registration instead. `KeyStable` shows the two agree.
- Exception messages are structured `Error` values, not formatted strings.
- The `ISupportNamedServices`/`ISupportRequiredNamedServices`/`ISupportNamedServiceDescriptor` interfaces are capability fields (`Provider.named`, `Provider.requiredNamed`, `ServiceCollection.supportsNamedDescriptors`).
- The .NET 5 default interface method `Add(descriptor, name)` is not part of this model. Nor are the `DynamicallyAccessedMembers` trimming annotations.
