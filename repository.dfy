/**
 * `Repository`: a repository owns a cache slot, allocated when it is
 * constructed, and its `get` answers from that slot or hands the call to the
 * coordinator's `execute`.
 */
module Repositories {
  import opened Wrappers
  import opened Caching
  import opened Coordinator

  /** The cache size of a repository that does not choose one. */
  const DefaultCacheSize: int := 5

  /** The data id `get` uses when the caller gives none. */
  const DefaultDataId: string := "Default_data_ID"

  /** The untyped `params` a call is built from: `null`, or some value. */
  datatype Params = NoParams | Param(value: string)

  /**
   * Building a call (`createCallAsync`): the deferred job it returns, or the
   * exception it throws before returning one.
   */
  type CallBuilder = Params -> Result<Job, Thrown>

  /**
   * What `get` leads to: the cached entry, the exception building the call
   * threw, or an `execute` with these arguments.
   */
  datatype Dispatch =
    | CacheHit(data: Data)
    | CallThrew(error: Thrown)
    | Execute(repositoryClass: RepoKey, dataId: string, call: Job, errorClass: Option<ErrorClass>)

  /**
   * The cache-or-execute choice of `get` and `callRepository`: a hit returns
   * the cached entry whatever building the call would do, since the call is
   * only built on a miss; a miss executes the built call under the same
   * repository and data id, or passes on what building it threw.
   */
  function Route(cached: Option<Data>, repositoryClass: RepoKey, dataId: string, call: Result<Job, Thrown>,
                 errorClass: Option<ErrorClass>): (d: Dispatch)
    ensures cached.Some? ==> d == CacheHit(cached.value)
    ensures d.CacheHit? <==> cached.Some?
    ensures d.CallThrew? <==> cached.None? && call.Failure?
    ensures d.CallThrew? ==> call == Failure(d.error)
    ensures d.Execute? ==> d.repositoryClass == repositoryClass && d.dataId == dataId
    ensures d.Execute? ==> call == Success(d.call) && d.errorClass == errorClass
  {
    if cached.Some? then CacheHit(cached.value)
    else match call
      case Failure(e) => CallThrew(e)
      case Success(job) => Execute(repositoryClass, dataId, job, errorClass)
  }

  /** A repository: its class, cache size, error class and the calls it builds, over a shared cache. */
  class Repository {
    /** The repository's concrete class, the key of its slot. */
    const repositoryClass: RepoKey
    const cacheSize: int
    /** The class its error bodies decode into; `None` leaves the choice to the manager's default. */
    const errorClass: Option<ErrorClass>
    /** The data id a call with these params is cached under. */
    const idForCall: Params -> string
    /** `createCallAsync`: builds the call for these params. */
    const createCallAsync: CallBuilder
    const cacheProvider: CacheProvider

    /** Construction allocates the repository's slot with `cacheSize`, discarding what it held before. */
    constructor (repositoryClass: RepoKey, cacheProvider: CacheProvider, createCallAsync: CallBuilder,
                 idForCall: Params -> string, errorClass: Option<ErrorClass>, cacheSize: int := DefaultCacheSize)
      requires cacheProvider.Valid()
      modifies cacheProvider
      ensures this.repositoryClass == repositoryClass && this.cacheProvider == cacheProvider
      ensures this.createCallAsync == createCallAsync && this.idForCall == idForCall
      ensures this.errorClass == errorClass && this.cacheSize == cacheSize
      ensures cacheProvider.Valid()
      ensures cacheProvider.Slots() == Allocated(old(cacheProvider.Slots()), repositoryClass, cacheSize)
    {
      this.repositoryClass := repositoryClass;
      this.cacheProvider := cacheProvider;
      this.createCallAsync := createCallAsync;
      this.idForCall := idForCall;
      this.errorClass := errorClass;
      this.cacheSize := cacheSize;
      new;
      cacheProvider.Allocate(repositoryClass, cacheSize);
    }

    /**
     * `get`: the entry cached under `dataId` for this repository's class, or
     * else an `execute` of the call built from `params`, under the same class
     * and data id, with the repository's error class; building the call may
     * throw instead.
     */
    function Get(dataId: string := DefaultDataId, params: Params := NoParams): (d: Dispatch)
      reads cacheProvider, cacheProvider.dataHolder.Values
      ensures d.CacheHit? <==> Lookup(cacheProvider.Slots(), repositoryClass, dataId).Some?
      ensures d.CacheHit? ==> Lookup(cacheProvider.Slots(), repositoryClass, dataId) == Some(d.data) && d.data.id == dataId
      ensures !d.CacheHit? && createCallAsync(params).Failure? ==> d == CallThrew(createCallAsync(params).error)
      ensures !d.CacheHit? && createCallAsync(params).Success? ==>
        d == Execute(repositoryClass, dataId, createCallAsync(params).value, errorClass)
    {
      Route(cacheProvider.GetData(repositoryClass, dataId), repositoryClass, dataId, createCallAsync(params), errorClass)
    }
  }

  /**
   * A repository whose slot has just been allocated misses for every data id,
   * so its first `get` builds the call and executes it.
   */
  lemma FreshSlotMisses(slots: map<RepoKey, Slot>, repositoryClass: RepoKey, cacheSize: int, dataId: string,
                        job: Job, errorClass: Option<ErrorClass>)
    ensures Route(Lookup(Allocated(slots, repositoryClass, cacheSize), repositoryClass, dataId),
                  repositoryClass, dataId, Success(job), errorClass)
         == Execute(repositoryClass, dataId, job, errorClass)
  {
  }

  /**
   * Once an execution of a repository with a non-zero cache size has stored
   * its result, a `get` of the same data id is a hit on that result, and
   * does not build a call at all.
   */
  lemma StoredResultHits(slots: map<RepoKey, Slot>, repositoryClass: RepoKey, data: Data, call: Result<Job, Thrown>,
                         errorClass: Option<ErrorClass>)
    requires repositoryClass in slots && slots[repositoryClass].sizeLimit != ZeroCache
    ensures Route(Lookup(Put(slots, repositoryClass, data), repositoryClass, data.id), repositoryClass, data.id,
                  call, errorClass)
         == CacheHit(data)
  {
    PutThenLookup(slots, repositoryClass, data);
  }
}
