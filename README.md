# NetworkEngine core in Dafny

This project models the sequential core of NetworkEngine, a Kotlin library that
puts a per-repository result cache and a bounded execution coordinator in front
of REST calls. It covers four source files:

- `CacheProvider.kt` is modelled in `cache_provider.dfy` (module `Caching`):
  - `DataList` is a class whose `items` sequence is updated in place.
    `DataList.add` is a scanning loop, proved against the specification
    function `Added`.
  - `CacheProvider` is a class whose `dataHolder` map is reassigned. Its
    methods are proved against `Allocated`, `Lookup` and `Put`, which work on
    slot values.
- `NetworkManager.kt` is modelled in `network_manager.dfy` (module
  `Coordinator`):
  - The pure helpers are functions: error-converter choice, operation id and
    response classification.
  - The bookkeeping of `execute` is the `NetworkManager` class. It holds the
    running map and the pending list. Its methods are atomic steps, each
    grouping several synchronized blocks of `execute`:
    - `Start` groups the lookup (`NetworkManager.kt:62`), the size check and
      insert (70-78), the pending append (82) and `waitForRun`'s unsynchronized
      `isPending = true` (145).
    - `Finish` groups the removal from the running map (95) and the admission
      of a pending operation (97-106).
    - `Complete` is what a caller does once its job has resolved and, for a
      queued operation, once a finish has admitted it: take the response,
      classify it, then `Retire`: `Finish` and store the result.
  - These methods are proved against the value-level steps `StartStep` and
    `FinishStep`. The lemmas are stated about those steps and about runs of
    them (`Run`).
- `Repository.kt` is modelled in `repository.dfy` (module `Repositories`).
  Construction allocates the repository's slot. `get` is the cache-or-execute
  choice `Route`. Building the call (`createCallAsync`) may throw, and a job
  may complete with an exception that `await` rethrows; both are modelled as
  `Result` values.
- `EngineBuilder.kt` is modelled in `engine_builder.dfy` (module `Engine`):
  - the builder, with its defaults, setters and `build`;
  - the constructor-shape checks and the registration loop of `createEngine`,
    over abstract descriptors of the reflected classes;
  - `NetworkEngine.getRepository` and `callRepository`.
- `wrappers.dfy` holds `Option`, which stands for Kotlin nullables, and
  `Result`, which stands for thrown exceptions.

The model follows the code, including these behaviours, which a reader of the
code might not expect:

- **Eviction.** When a full list gets a new id, the code removes the *last*
  entry (`removeLast`) and then appends. From the moment the list fills, the
  first `sizeLimit - 1` entries stay for good, and only the newest slot changes
  (`FullListChurnsLastSlot`).
- **Admission.** Admission of pending operations is last in, first out
  (`PendingIsLastInFirstOut`). The admitted operation is never put into the
  running map, so a new operation can start beside it, with two jobs running
  under limit 1 (`AdmittedOperationIsNotCounted`).
- **Joined callers.** Every caller joined to an operation runs the finishing
  steps itself. So one operation can admit several pending ones
  (`EveryJoinedCallerAdmits`).
- **Limit check.** The test is `size == limit`, not `size < limit`, and `build`
  does not check the limit. With a negative limit nothing is ever queued.
- **Unallocated repositories.** `getData` answers nothing for an unallocated
  repository, and `putData` ignores it. The tests expect a
  `RepositoryNotFoundException`, which the code never throws.
- **Revisions of the source.** The source files come from slightly different
  revisions, and the model follows `EngineBuilder.kt` and `NetworkManager.kt`:
  - `Data` carries three fields (`id`, payload, `isError`).
  - Repositories are keyed by class name.
  - `get` hands `execute` the repository's own error class. In
    `Repository.kt:24` the fifth argument of `execute` is the result editor,
    which lands in the error-class slot.

## Model

All source paths are under `app/src/main/java/com/calicode/networkengine/`.

| member | source | states |
|---|---|---|
| Caching.IndexOf | app/src/main/java/com/calicode/networkengine/CacheProvider.kt:45-51 | the scan stops at the first entry with the id; nothing found exactly when no entry has it |
| Caching.DataList.constructor | app/src/main/java/com/calicode/networkengine/CacheProvider.kt:40-41 | a new list is empty, keeps its limit, and satisfies the slot invariant |
| Caching.DataList.Add | app/src/main/java/com/calicode/networkengine/CacheProvider.kt:43-58 | the loop finds the first index with the id; the new list is `Added(old list)`; ids stay distinct and the length stays within a non-negative limit |
| Caching.DataList.Find | app/src/main/java/com/calicode/networkengine/CacheProvider.kt:60-62 | nothing exactly when no entry has the id; otherwise the first entry with that id |
| Caching.ZeroCacheKeepsList | app/src/main/java/com/calicode/networkengine/CacheProvider.kt:44 | under `ZERO_CACHE` no sequence of adds changes the list |
| Caching.ZeroCacheNeverHits | app/src/main/java/com/calicode/networkengine/CacheProvider.kt:43-62 | a `ZERO_CACHE` list never finds anything, whatever was added |
| Caching.AddedKeepsInvariant | app/src/main/java/com/calicode/networkengine/CacheProvider.kt:45-57 | one add keeps ids distinct and the length within a non-negative limit |
| Caching.AddAllKeepsInvariant | app/src/main/java/com/calicode/networkengine/CacheProvider.kt:52-54 | from an empty list, no sequence of adds breaks the size bound or id uniqueness |
| Caching.UpsertInPlace | app/src/main/java/com/calicode/networkengine/CacheProvider.kt:45-57 | adding a present id replaces it at the same index; length and all other entries are unchanged |
| Caching.FullListDropsLast | app/src/main/java/com/calicode/networkengine/CacheProvider.kt:52-54 | a new id on a full list removes exactly the last entry, keeps the others in order, and appends the new one |
| Caching.FindAfterAdd | app/src/main/java/com/calicode/networkengine/CacheProvider.kt:43-62 | with a non-zero limit, `find(e.id)` after `add(e)` returns `e` |
| Caching.AddIdempotent | app/src/main/java/com/calicode/networkengine/CacheProvider.kt:43-58 | adding the same entry twice leaves what adding it once leaves |
| Caching.FillsInOrder | app/src/main/java/com/calicode/networkengine/CacheProvider.kt:52-54 | up to the limit, distinct ids are kept exactly in the order added |
| Caching.FullListChurnsLastSlot | app/src/main/java/com/calicode/networkengine/CacheProvider.kt:52-54 | past the limit, a list of distinct ids holds the first `limit - 1` entries and the latest one |
| Caching.ReplaceNewest | app/src/main/java/com/calicode/networkengine/CacheProvider.kt:52-54 | on a full list a new id takes the place of the newest entry |
| Caching.AllocateResets | app/src/main/java/com/calicode/networkengine/CacheProvider.kt:17-19 | after `allocate` the repository finds nothing; every other repository answers as before |
| Caching.UnallocatedIgnored | app/src/main/java/com/calicode/networkengine/CacheProvider.kt:21-29 | for an unallocated repository `getData` yields nothing and `putData` changes nothing |
| Caching.PutThenLookup | app/src/main/java/com/calicode/networkengine/CacheProvider.kt:21-29 | after `putData` into a non-zero slot, `getData` for that id returns the stored value |
| Caching.CacheProvider.constructor | app/src/main/java/com/calicode/networkengine/CacheProvider.kt:14-15 | the cache starts with no slots |
| Caching.CacheProvider.Allocate | app/src/main/java/com/calicode/networkengine/CacheProvider.kt:17-19 | the slots become `Allocated(old slots)`: a fresh empty list for the repository, the others untouched, the invariant kept |
| Caching.CacheProvider.GetData | app/src/main/java/com/calicode/networkengine/CacheProvider.kt:21-24 | the answer is `Lookup` on the slots: nothing for an unallocated repository, else the list's first entry with the id |
| Caching.CacheProvider.PutData | app/src/main/java/com/calicode/networkengine/CacheProvider.kt:26-29 | only the repository's own list changes; the slots become `Put(old slots)`; the invariant is kept |
| Coordinator.CreateErrorConverterIfNeeded | app/src/main/java/com/calicode/networkengine/NetworkManager.kt:121-126 | `EmptyErrorClass` gives no converter; else the repository's class, else the manager's default; none exactly in those two cases |
| Coordinator.OperationId | app/src/main/java/com/calicode/networkengine/NetworkManager.kt:128-130 | the id is the class name, then `;`, then the data id |
| Coordinator.OperationIdInjective | app/src/main/java/com/calicode/networkengine/NetworkManager.kt:128-130 | a canonical class name holds no `;`, so distinct (class, data id) pairs get distinct ids |
| Coordinator.HandleResponse | app/src/main/java/com/calicode/networkengine/NetworkManager.kt:157-172 | a success carries its body, unflagged; an error is flagged and carries the converted body, or the raw text when there is no converter; a failed conversion is an `IllegalStateException`; a null body is an exception |
| Coordinator.EmptyErrorClassKeepsRawBody | app/src/main/java/com/calicode/networkengine/NetworkManager.kt:115-126 | with `EmptyErrorClass` an error body stays raw text, whatever the default |
| Coordinator.DefaultErrorClassDecodes | app/src/main/java/com/calicode/networkengine/NetworkManager.kt:115-126 | without a class of its own, a repository's error bodies are decoded into the manager's default |
| Coordinator.StartKeepsLimit | app/src/main/java/com/calicode/networkengine/NetworkManager.kt:70-78 | a start never grows the running map past a non-negative limit |
| Coordinator.FinishShrinks | app/src/main/java/com/calicode/networkengine/NetworkManager.kt:95 | a finish never grows the running map |
| Coordinator.RunKeepsLimit | app/src/main/java/com/calicode/networkengine/NetworkManager.kt:61-106 | no interleaving of starts and finishes takes the running map past the limit |
| Coordinator.PendingIsLastInFirstOut | app/src/main/java/com/calicode/networkengine/NetworkManager.kt:97-106 | of two queued operations, the later is admitted first; the rest of the pending list keeps its order |
| Coordinator.AdmittedOperationIsNotCounted | app/src/main/java/com/calicode/networkengine/NetworkManager.kt:70-106 | with limit 1, an admitted operation is not in the running map, so a new one starts beside it |
| Coordinator.EveryJoinedCallerAdmits | app/src/main/java/com/calicode/networkengine/NetworkManager.kt:88-106 | an operation with one joined caller finishes twice and admits two pending operations |
| Coordinator.Operation.constructor | app/src/main/java/com/calicode/networkengine/NetworkManager.kt:132-136 | a new operation keeps its data id, job and converter, and is not pending |
| Coordinator.Operation.Outcome | app/src/main/java/com/calicode/networkengine/NetworkManager.kt:138-154 | `await` and `waitForRun` rethrow the job's own exception; otherwise they classify its response: a result under the operation's data id, flagged exactly when the response failed |
| Coordinator.NetworkManager.constructor | app/src/main/java/com/calicode/networkengine/NetworkManager.kt:24-31 | a new manager keeps its configuration, with nothing running or pending |
| Coordinator.NetworkManager.Start | app/src/main/java/com/calicode/networkengine/NetworkManager.kt:61-91 | joins the running operation with the same id, changing nothing, and that operation is not pending; else a fresh operation with the chosen converter is started when the map's size is not the limit, or appended to pending and flagged; either way the operation belongs to the caller's class and data id, and running operations stay filed under their own ids and unflagged |
| Coordinator.NetworkManager.Finish | app/src/main/java/com/calicode/networkengine/NetworkManager.kt:94-106 | removes the id from the running map; pops the last pending operation and clears its flag; the rest of the pending list keeps its order; no other operation changes |
| Coordinator.NetworkManager.Retire | app/src/main/java/com/calicode/networkengine/NetworkManager.kt:94-110 | for a result carrying the data id, the bookkeeping becomes `FinishStep` of the old one, the admitted operation's flag is cleared, and the slots become `Put(old slots)` with the result |
| Coordinator.NetworkManager.Complete | app/src/main/java/com/calicode/networkengine/NetworkManager.kt:93-112 | for an operation of the caller's class and data id that is no longer pending (a started, joined or admitted one), returns its outcome; on success it finishes, clearing the admitted operation's flag, and stores that same value in the repository's slot; on an exception, from the job or from classification, it changes nothing, so the operation is never removed from the running map and the last pending operation keeps its flag, unadmitted |
| Repositories.Route | app/src/main/java/com/calicode/networkengine/Repository.kt:23-24 | a hit exactly when the cache answers, returning the cached entry whatever building the call would do; on a miss, the exception building the call threw, or else an execute of the built call under the same class and data id |
| Repositories.Repository.constructor | app/src/main/java/com/calicode/networkengine/Repository.kt:11-16 | construction allocates the repository's slot with its cache size, 5 by default |
| Repositories.Repository.Get | app/src/main/java/com/calicode/networkengine/Repository.kt:20-25 | the data id defaults to `Default_data_ID`; a hit returns the cached entry and builds no call; a miss builds the call from `params` and executes it under its own class and the same data id, or passes on the exception building it threw |
| Repositories.FreshSlotMisses | app/src/main/java/com/calicode/networkengine/Repository.kt:16-24 | right after its slot is allocated, a repository misses for every data id and executes the call it builds |
| Repositories.StoredResultHits | app/src/main/java/com/calicode/networkengine/Repository.kt:23-24 | once a result is stored in a non-zero slot, `get` of its id is a hit on it, whatever building the call would do |
| Engine.NetworkManagerBuilder.constructor | app/src/main/java/com/calicode/networkengine/EngineBuilder.kt:62-65 | an empty base URL, limit 1, no default error class |
| Engine.NetworkManagerBuilder.BaseUrl | app/src/main/java/com/calicode/networkengine/EngineBuilder.kt:68-71 | sets only the base URL and returns the same builder |
| Engine.NetworkManagerBuilder.RunningOperationsLimit | app/src/main/java/com/calicode/networkengine/EngineBuilder.kt:73-76 | sets only the limit and returns the same builder |
| Engine.NetworkManagerBuilder.DefaultErrorClass | app/src/main/java/com/calicode/networkengine/EngineBuilder.kt:78-81 | sets only the default error class and returns the same builder |
| Engine.NetworkManagerBuilder.Build | app/src/main/java/com/calicode/networkengine/EngineBuilder.kt:83-87 | fails exactly when the base URL is empty; otherwise a new manager with the configured values |
| Engine.ApiClassOf | app/src/main/java/com/calicode/networkengine/EngineBuilder.kt:31-45 | accepts exactly one constructor with one interface parameter and returns that parameter; otherwise names the first violated rule: several constructors, several parameters, a non-interface parameter, or an index out of bounds when there is no constructor or no parameter |
| Engine.RegisteredNames | app/src/main/java/com/calicode/networkengine/EngineBuilder.kt:29-49 | a class is registered exactly when it is listed |
| Engine.RegisteredLastWins | app/src/main/java/com/calicode/networkengine/EngineBuilder.kt:49 | a class listed twice keeps its last instance |
| Engine.EngineSlotsFollowRegistered | app/src/main/java/com/calicode/networkengine/EngineBuilder.kt:49-50 | every registered class, and no other, has an empty slot of its registered cache size |
| Engine.Instantiate | app/src/main/java/com/calicode/networkengine/EngineBuilder.kt:47-50 | the instance matches its descriptor, and its slot is allocated with its cache size |
| Engine.RegisterAll | app/src/main/java/com/calicode/networkengine/EngineBuilder.kt:27-52 | fails exactly when some listed class has a refused shape; otherwise it registers every class and allocates its slot |
| Engine.CreateEngine | app/src/main/java/com/calicode/networkengine/EngineBuilder.kt:23-60 | any refused shape becomes one `IllegalStateException`; otherwise an engine holding every registered instance and its slots |
| Engine.NetworkEngine.constructor | app/src/main/java/com/calicode/networkengine/EngineBuilder.kt:90-92 | the engine holds the given manager, cache and repositories |
| Engine.NetworkEngine.GetRepository | app/src/main/java/com/calicode/networkengine/EngineBuilder.kt:95-99 | the registered instance, or an `IllegalStateException` naming the class exactly when none is registered |
| Engine.NetworkEngine.CallRepository | app/src/main/java/com/calicode/networkengine/EngineBuilder.kt:101-107 | fails for an unregistered class; else `idForCall(params)` is both the cache key and the data id of the execute; a hit builds no call; a miss passes on an exception from building the call |
| Engine.NetworkEngine.CallRepositoryIsGet | app/src/main/java/com/calicode/networkengine/EngineBuilder.kt:101-107 | in a valid engine, `callRepository` agrees with the repository's own `get` under `idForCall(params)` |

## Left out

- Retrofit, OkHttp and Jackson are left out. This covers the manager's `init`,
  `createApi` and the converter that `responseBodyConverter` builds
  (`NetworkManager.kt:33-53`, `EngineBuilder.kt:46`). Error-body conversion is
  the parameter `decode`: a partial function from an error class and a body to
  a payload.
- Engine.NetworkManagerBuilder.Build: fails only on an empty base URL. The
  manager's `init` hands the URL to `Retrofit.Builder().baseUrl`
  (`NetworkManager.kt:45-46`), which throws `IllegalArgumentException` for a
  non-empty URL it rejects; URL parsing is Retrofit's and is not modelled.
- Coordinator.NetworkManager.Complete: requires the operation not to be
  pending, in place of `waitForRun`'s polling loop (`NetworkManager.kt:147`):
  completion does not itself wait for admission.
- Coroutines and threads are left out. `execute` is cut into the atomic
  steps `Start`, `Finish` and `Complete`, which group its synchronized
  blocks as described above. The lemmas about `Run` cover any interleaving of
  whole steps, but not a caller slipping in between the blocks one step
  groups. So the model does not show these races:
  - The lost wake-up: a finishing caller pops an operation and clears its
    flag before `waitForRun` sets it (145), so it waits for good.
  - The gap between the lookup (62) and the insert (70-78), in which two
    callers can both create an operation for one id.
  - A finish between the size check (78) and the pending append (82): it
    pops nothing, so the new operation waits until a later finish.
  - `waitForRun`'s one-second polling loop is left out.
- When the job's exception is rethrown by `await`, or classification throws,
  the exception leaves `execute` before its finishing blocks. The operation
  stays in the running map and no pending operation is admitted; with limit 1
  every later operation then queues for good. `Complete` reproduces this by
  changing nothing on failure.
- Reflection is left out. A repository class is a descriptor: its name, the
  parameter lists of its constructors, and what its instance holds.
  `newInstance` is assumed to succeed.
- `removeData` and `clear` (`CacheProvider.kt:31-36`) and `cancelOperations`
  (`EngineBuilder.kt:109`) are left out: they are unimplemented stubs (`TODO`).
  `CacheProvider.kt` declares no `deallocate`; only its tests call one.
- The `ResultEditor` hook is left out. It declares two callbacks,
  `succeededResult` and `failedResult` (`NetworkManager.kt:180-184`), which
  nothing calls: editing the result is still a `TODO` (`NetworkManager.kt:108`).
- A class's canonical name is a string without `;` (`RepoKey`). The `null`
  name of local and anonymous classes is not modelled.
- An operation's repository class is a ghost field: the source's `Operation`
  does not keep it, but the operation id it runs under is built from it.
- `params` is `NoParams` or a string. `Data`'s untyped payload is a `Payload`
  value.
- Logging and timing are left out. The 32-bit width of the sizes and limits
  plays no part: the only arithmetic is comparing a list's size with its limit.
- Repositories.Repository.Get: the model returns the `execute` to perform
  rather than performing it and returning its `Data`. Performing it is `Start`
  followed by `Complete`, which the repository does not hold a reference for
  in the model.
- Engine.NetworkEngine.CallRepository: like `get`, it returns the `execute` to
  perform rather than performing it and returning its `Data`; performing it
  is `Start` then `Complete` on the engine's manager and cache.
