/**
 * The front door of the library: `NetworkManagerBuilder`, `createEngine`,
 * which checks each repository class's constructor shape, instantiates it and
 * allocates its slot, and `NetworkEngine`, which looks repositories up and
 * dispatches their calls.
 */
module Engine {
  import opened Wrappers
  import opened Caching
  import opened Coordinator
  import opened Repositories

  /** The running-operations limit of a builder nobody configured. */
  const DefaultRunningOperationLimit: int := 1

  const BaseUrlMustBeDefined: string := "Base URL must be defined!"
  const OnlyOneConstructor: string := "Repository class should contain only one constructor"
  const OnlyOneParameter: string := "Repository's constructor should contain only one parameter"
  const ParameterShouldBeInterface: string := "Repository's constructor parameter should be interface"
  const EngineCreationFailed: string := "Something went wrong when trying to create NetworkEngine!"

  /** The message of `getRepository` for an unregistered class. */
  function RepositoryNotFound(repoClass: RepoKey): string {
    "Did not find repository class' instance (" + repoClass + ")"
  }

  /** Collects a `NetworkManager`'s configuration; every setter returns the builder itself. */
  class NetworkManagerBuilder {
    var baseUrl: string
    var runningOperationsLimit: int
    var defaultErrorClass: Option<ErrorClass>

    /** An empty base URL, the default limit and no default error class. */
    constructor ()
      ensures baseUrl == "" && runningOperationsLimit == DefaultRunningOperationLimit && defaultErrorClass == None
    {
      baseUrl := "";
      runningOperationsLimit := DefaultRunningOperationLimit;
      defaultErrorClass := None;
    }

    method BaseUrl(url: string) returns (b: NetworkManagerBuilder)
      modifies this
      ensures b == this && baseUrl == url
      ensures runningOperationsLimit == old(runningOperationsLimit) && defaultErrorClass == old(defaultErrorClass)
    {
      baseUrl := url;
      b := this;
    }

    method RunningOperationsLimit(limit: int) returns (b: NetworkManagerBuilder)
      modifies this
      ensures b == this && runningOperationsLimit == limit
      ensures baseUrl == old(baseUrl) && defaultErrorClass == old(defaultErrorClass)
    {
      runningOperationsLimit := limit;
      b := this;
    }

    method DefaultErrorClass(errorClass: ErrorClass) returns (b: NetworkManagerBuilder)
      modifies this
      ensures b == this && defaultErrorClass == Some(errorClass)
      ensures baseUrl == old(baseUrl) && runningOperationsLimit == old(runningOperationsLimit)
    {
      defaultErrorClass := Some(errorClass);
      b := this;
    }

    /**
     * `build`: an empty base URL is refused; otherwise a new manager with the
     * configured values and nothing running or pending. The limit is not
     * checked.
     */
    method Build() returns (r: Result<NetworkManager, Thrown>)
      ensures r.Failure? <==> baseUrl == ""
      ensures r.Failure? ==> r.error == IllegalState(BaseUrlMustBeDefined)
      ensures r.Success? ==> fresh(r.value) && r.value.Valid()
      ensures r.Success? ==> r.value.baseUrl == baseUrl && r.value.runningOperationsLimit == runningOperationsLimit
      ensures r.Success? ==> r.value.defaultErrorClass == defaultErrorClass
      ensures r.Success? ==> r.value.runningOperations == map[] && r.value.pendingOperations == []
    {
      if |baseUrl| == 0 {
        return Failure(IllegalState(BaseUrlMustBeDefined));
      }
      var manager := new NetworkManager(baseUrl, runningOperationsLimit, defaultErrorClass);
      r := Success(manager);
    }
  }

  /** A constructor parameter's type: its name, and whether it is an interface. */
  datatype ParameterType = ParameterType(name: string, isInterface: bool)

  /**
   * What `createEngine` learns of a repository class by reflection: its name,
   * the parameter lists of its declared constructors, and what the instance
   * built from it holds.
   */
  datatype RepositoryDescriptor = RepositoryDescriptor(
    name: RepoKey,
    declaredConstructors: seq<seq<ParameterType>>,
    cacheSize: int,
    errorClass: Option<ErrorClass>,
    idForCall: Params -> string,
    createCallAsync: CallBuilder)

  /**
   * The constructor-shape checks of `createEngine`: exactly one constructor
   * with exactly one parameter, of an interface type, which is the API class.
   * No constructor or no parameter fails on the `[0]` access.
   */
  function ApiClassOf(d: RepositoryDescriptor): (r: Result<ParameterType, Thrown>)
    ensures r.Success? <==>
      |d.declaredConstructors| == 1 && |d.declaredConstructors[0]| == 1 && d.declaredConstructors[0][0].isInterface
    ensures r.Success? ==> r.value == d.declaredConstructors[0][0]
    ensures |d.declaredConstructors| > 1 ==> r == Failure(IllegalState(OnlyOneConstructor))
    ensures |d.declaredConstructors| == 1 && |d.declaredConstructors[0]| > 1 ==> r == Failure(IllegalState(OnlyOneParameter))
    ensures |d.declaredConstructors| == 1 && |d.declaredConstructors[0]| == 1 && !d.declaredConstructors[0][0].isInterface
      ==> r == Failure(IllegalState(ParameterShouldBeInterface))
    ensures |d.declaredConstructors| == 0 || (|d.declaredConstructors| == 1 && |d.declaredConstructors[0]| == 0)
      ==> r == Failure(IndexOutOfBounds)
  {
    var constructors := d.declaredConstructors;
    if |constructors| > 1 then Failure(IllegalState(OnlyOneConstructor))
    else if |constructors| == 0 then Failure(IndexOutOfBounds)
    else
      var parameterTypes := constructors[0];
      if |parameterTypes| > 1 then Failure(IllegalState(OnlyOneParameter))
      else if |parameterTypes| == 0 then Failure(IndexOutOfBounds)
      else if !parameterTypes[0].isInterface then Failure(IllegalState(ParameterShouldBeInterface))
      else Success(parameterTypes[0])
  }

  /** The instances `createEngine` registers, by class: a class listed twice keeps its last descriptor. */
  function Registered(list: seq<RepositoryDescriptor>): map<RepoKey, RepositoryDescriptor>
    decreases |list|
  {
    if list == [] then map[]
    else Registered(list[..|list| - 1])[list[|list| - 1].name := list[|list| - 1]]
  }

  /** The engine's slots after `createEngine`: one allocation per listed class, in order. */
  function EngineSlots(list: seq<RepositoryDescriptor>): map<RepoKey, Slot>
    decreases |list|
  {
    if list == [] then map[]
    else Allocated(EngineSlots(list[..|list| - 1]), list[|list| - 1].name, list[|list| - 1].cacheSize)
  }

  /** A class is registered exactly when it is listed. */
  lemma {:induction false} RegisteredNames(list: seq<RepositoryDescriptor>, k: RepoKey)
    ensures k in Registered(list) <==> exists i :: 0 <= i < |list| && list[i].name == k
    decreases |list|
  {
    if list != [] {
      var prefix := list[..|list| - 1];
      RegisteredNames(prefix, k);
      if exists i :: 0 <= i < |prefix| && prefix[i].name == k {
        var i :| 0 <= i < |prefix| && prefix[i].name == k;
        assert list[i].name == k;
      }
      if exists i :: 0 <= i < |list| && list[i].name == k {
        var i :| 0 <= i < |list| && list[i].name == k;
        if i < |prefix| {
          assert prefix[i].name == k;
        }
      }
    }
  }

  /** A class is registered with the last descriptor that lists it. */
  lemma {:induction false} RegisteredLastWins(list: seq<RepositoryDescriptor>, i: nat)
    requires i < |list|
    requires forall j :: i < j < |list| ==> list[j].name != list[i].name
    ensures list[i].name in Registered(list) && Registered(list)[list[i].name] == list[i]
    decreases |list|
  {
    if i < |list| - 1 {
      var prefix := list[..|list| - 1];
      assert prefix[i] == list[i];
      forall j | i < j < |prefix| ensures prefix[j].name != prefix[i].name {
        assert prefix[j] == list[j];
      }
      RegisteredLastWins(prefix, i);
    }
  }

  /** Every registered class has a fresh, empty slot of its registered descriptor's cache size, and no other class has one. */
  lemma {:induction false} EngineSlotsFollowRegistered(list: seq<RepositoryDescriptor>)
    ensures EngineSlots(list).Keys == Registered(list).Keys
    ensures forall k :: k in EngineSlots(list) ==> EngineSlots(list)[k] == Slot(Registered(list)[k].cacheSize, [])
    decreases |list|
  {
    if list != [] {
      EngineSlotsFollowRegistered(list[..|list| - 1]);
    }
  }

  /** Registering one more listed class updates its entry and its slot. */
  lemma RegistrationStep(list: seq<RepositoryDescriptor>, i: nat)
    requires i < |list|
    ensures Registered(list[..i + 1]) == Registered(list[..i])[list[i].name := list[i]]
    ensures EngineSlots(list[..i + 1]) == Allocated(EngineSlots(list[..i]), list[i].name, list[i].cacheSize)
  {
    assert list[..i + 1][..i] == list[..i];
  }

  /** A repository instance built from a descriptor. */
  ghost predicate Instantiates(repository: Repository, d: RepositoryDescriptor) {
    && repository.repositoryClass == d.name
    && repository.cacheSize == d.cacheSize
    && repository.errorClass == d.errorClass
    && repository.idForCall == d.idForCall
    && repository.createCallAsync == d.createCallAsync
  }

  /** The repositories built from the registered descriptors, each keyed by its own class and sharing one cache. */
  ghost predicate InstancesOf(repositories: map<RepoKey, Repository>, cacheProvider: CacheProvider,
                              registered: map<RepoKey, RepositoryDescriptor>) {
    && repositories.Keys == registered.Keys
    && forall k :: k in repositories ==>
         && Instantiates(repositories[k], registered[k])
         && repositories[k].repositoryClass == k
         && repositories[k].cacheProvider == cacheProvider
  }

  /** Registering one more instance keeps the instances matched to their descriptors. */
  lemma InstancesOfUpdate(repositories: map<RepoKey, Repository>, cacheProvider: CacheProvider,
                          registered: map<RepoKey, RepositoryDescriptor>, d: RepositoryDescriptor, repository: Repository)
    requires InstancesOf(repositories, cacheProvider, registered)
    requires Instantiates(repository, d) && repository.cacheProvider == cacheProvider
    ensures InstancesOf(repositories[d.name := repository], cacheProvider, registered[d.name := d])
  {
  }

  /** The engine: the manager, the cache and the registered repositories by class. */
  class NetworkEngine {
    const networkManager: NetworkManager
    const cacheProvider: CacheProvider
    const repositories: map<RepoKey, Repository>

    /** Every registered repository is keyed by its own class, shares the engine's cache and has a slot in it. */
    ghost predicate Valid()
      reads cacheProvider, cacheProvider.dataHolder.Values
    {
      && cacheProvider.Valid()
      && forall k :: k in repositories ==>
           && repositories[k].repositoryClass == k
           && repositories[k].cacheProvider == cacheProvider
           && k in cacheProvider.Slots()
    }

    constructor (networkManager: NetworkManager, cacheProvider: CacheProvider, repositories: map<RepoKey, Repository>)
      requires cacheProvider.Valid()
      requires forall k :: k in repositories ==>
        repositories[k].repositoryClass == k && repositories[k].cacheProvider == cacheProvider
      requires repositories.Keys <= cacheProvider.Slots().Keys
      ensures this.networkManager == networkManager && this.cacheProvider == cacheProvider
      ensures this.repositories == repositories && Valid()
    {
      this.networkManager := networkManager;
      this.cacheProvider := cacheProvider;
      this.repositories := repositories;
    }

    /** `getRepository`: the registered instance, or an `IllegalStateException` naming the class. */
    function GetRepository(repoClass: RepoKey): (r: Result<Repository, Thrown>)
      ensures r.Success? <==> repoClass in repositories
      ensures r.Success? ==> r.value == repositories[repoClass]
      ensures r.Failure? ==> r.error == IllegalState(RepositoryNotFound(repoClass))
    {
      if repoClass in repositories then Success(repositories[repoClass])
      else Failure(IllegalState(RepositoryNotFound(repoClass)))
    }

    /**
     * `callRepository`: look the repository up, compute the data id from
     * `params` once, and use it both as the cache key and as the data id of
     * the `execute` a miss leads to.
     */
    function CallRepository(repoClass: RepoKey, params: Params := NoParams): (r: Result<Dispatch, Thrown>)
      reads cacheProvider, cacheProvider.dataHolder.Values
      ensures r.Failure? <==> repoClass !in repositories
      ensures r.Failure? ==> r.error == IllegalState(RepositoryNotFound(repoClass))
      ensures r.Success? ==>
        var repository := repositories[repoClass];
        var dataId := repository.idForCall(params);
        && (r.value.CacheHit? <==> Lookup(cacheProvider.Slots(), repoClass, dataId).Some?)
        && (r.value.CacheHit? ==> Lookup(cacheProvider.Slots(), repoClass, dataId) == Some(r.value.data))
        && (!r.value.CacheHit? && repository.createCallAsync(params).Failure? ==>
              r.value == CallThrew(repository.createCallAsync(params).error))
        && (!r.value.CacheHit? && repository.createCallAsync(params).Success? ==>
              r.value == Execute(repoClass, dataId, repository.createCallAsync(params).value, repository.errorClass))
    {
      match GetRepository(repoClass)
      case Failure(e) => Failure(e)
      case Success(repository) =>
        var dataId := repository.idForCall(params);
        Success(Route(cacheProvider.GetData(repoClass, dataId), repoClass, dataId,
                      repository.createCallAsync(params), repository.errorClass))
    }

    /** In a valid engine, `callRepository` does what the repository's own `get` does with the data id `idForCall` gives. */
    lemma CallRepositoryIsGet(repoClass: RepoKey, params: Params)
      requires Valid() && repoClass in repositories
      ensures CallRepository(repoClass, params)
           == Success(repositories[repoClass].Get(repositories[repoClass].idForCall(params), params))
    {
    }
  }

  /**
   * One registration of `createEngine`: build the repository from its
   * descriptor (its construction allocates its slot), then allocate the slot
   * again with the instance's cache size, which leaves the same empty slot.
   */
  method Instantiate(d: RepositoryDescriptor, cacheProvider: CacheProvider) returns (repository: Repository)
    requires cacheProvider.Valid()
    modifies cacheProvider
    ensures fresh(repository) && Instantiates(repository, d) && repository.cacheProvider == cacheProvider
    ensures cacheProvider.Valid() && cacheProvider.Slots() == Allocated(old(cacheProvider.Slots()), d.name, d.cacheSize)
  {
    repository := new Repository(d.name, cacheProvider, d.createCallAsync, d.idForCall, d.errorClass, d.cacheSize);
    cacheProvider.Allocate(d.name, repository.cacheSize);
  }

  /**
   * The `try` block of `createEngine`: for each listed class in turn, check
   * its constructor's shape, instantiate it and allocate its slot. `None`
   * when some class's shape is refused.
   */
  method RegisterAll(list: seq<RepositoryDescriptor>, cacheProvider: CacheProvider)
    returns (repositories: Option<map<RepoKey, Repository>>)
    requires cacheProvider.Valid() && cacheProvider.Slots() == map[]
    modifies cacheProvider
    ensures cacheProvider.Valid()
    ensures repositories.None? <==> exists i :: 0 <= i < |list| && ApiClassOf(list[i]).Failure?
    ensures repositories.Some? ==> InstancesOf(repositories.value, cacheProvider, Registered(list))
    ensures repositories.Some? ==> cacheProvider.Slots() == EngineSlots(list)
  {
    var repoInstanceList: map<RepoKey, Repository> := map[];
    for i := 0 to |list|
      invariant cacheProvider.Valid()
      invariant forall j :: 0 <= j < i ==> ApiClassOf(list[j]).Success?
      invariant cacheProvider.Slots() == EngineSlots(list[..i])
      invariant InstancesOf(repoInstanceList, cacheProvider, Registered(list[..i]))
    {
      var repoClass := list[i];
      var apiClass := ApiClassOf(repoClass);
      if apiClass.Failure? {
        return None;
      }
      RegistrationStep(list, i);
      var repository := Instantiate(repoClass, cacheProvider);
      InstancesOfUpdate(repoInstanceList, cacheProvider, Registered(list[..i]), repoClass, repository);
      repoInstanceList := repoInstanceList[repoClass.name := repository];
    }
    assert list[..|list|] == list;
    repositories := Some(repoInstanceList);
  }

  /**
   * `createEngine`: register every listed class into a new cache; any
   * failure becomes one `IllegalStateException` and no engine.
   */
  method CreateEngine(list: seq<RepositoryDescriptor>, networkManager: NetworkManager) returns (r: Result<NetworkEngine, Thrown>)
    ensures r.Failure? <==> exists i :: 0 <= i < |list| && ApiClassOf(list[i]).Failure?
    ensures r.Failure? ==> r.error == IllegalState(EngineCreationFailed)
    ensures r.Success? ==> fresh(r.value) && fresh(r.value.cacheProvider) && r.value.Valid()
    ensures r.Success? ==> r.value.networkManager == networkManager
    ensures r.Success? ==> InstancesOf(r.value.repositories, r.value.cacheProvider, Registered(list))
    ensures r.Success? ==> r.value.cacheProvider.Slots() == EngineSlots(list)
  {
    var cacheProvider := new CacheProvider();
    var repoInstanceList := RegisterAll(list, cacheProvider);
    if repoInstanceList.None? {
      return Failure(IllegalState(EngineCreationFailed));
    }
    EngineSlotsFollowRegistered(list);
    ghost var slots := cacheProvider.Slots();
    label Registered:
    var engine := new NetworkEngine(networkManager, cacheProvider, repoInstanceList.value);
    assert unchanged@Registered(cacheProvider) && unchanged@Registered(cacheProvider.dataHolder.Values);
    assert cacheProvider.Slots() == slots;
    r := Success(engine);
  }
}
