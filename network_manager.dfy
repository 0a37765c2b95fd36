/**
 * The execution coordinator of `NetworkManager`: how an execution chooses its
 * error converter, names its operation, joins, starts or queues it, turns the
 * response into a `Data`, and retires it. `execute`'s synchronized blocks
 * are grouped into atomic steps, one before the job is awaited (`Start`) and
 * one after (`Complete`, which runs `Finish`); the waiting in between is left
 * out.
 */
module Coordinator {
  import opened Wrappers
  import opened Caching

  /** A class an error body can be decoded into; `EmptyErrorClass` asks for the raw string instead. */
  datatype ErrorClass = EmptyErrorClass | ErrorType(name: string)

  /** What a deferred call resolves to (Retrofit's `Response`); either body may be null. */
  datatype Response = Response(isSuccessful: bool, body: Option<Payload>, errorBody: Option<string>)

  /**
   * The exceptions this core throws or passes on; `CallException` is one the
   * call itself raises (an I/O error, say), which `await` rethrows.
   */
  datatype Thrown = IllegalState(message: string) | NullPointer | IndexOutOfBounds | CallException(message: string)

  /** What awaiting a deferred call gives: its response, or the exception it completed with. */
  type Job = Result<Response, Thrown>

  const CouldNotConvertErrorBody: string := "Could not convert error body."

  /** An error-body converter applied to a body: `None` when it throws. */
  type Decoder = (ErrorClass, string) -> Option<Payload>

  /**
   * `createErrorConverterIfNeeded`: the class the error converter decodes
   * into, or `None` when error bodies stay raw strings. The repository's class
   * comes first, the manager's default second, and `EmptyErrorClass` on the
   * repository overrides both.
   */
  function CreateErrorConverterIfNeeded(repositoryErrorClass: Option<ErrorClass>, defaultErrorClass: Option<ErrorClass>)
    : (r: Option<ErrorClass>)
    ensures repositoryErrorClass == Some(EmptyErrorClass) ==> r == None
    ensures repositoryErrorClass.Some? && repositoryErrorClass != Some(EmptyErrorClass) ==> r == repositoryErrorClass
    ensures repositoryErrorClass.None? ==> r == defaultErrorClass
    ensures r.None? <==> repositoryErrorClass == Some(EmptyErrorClass) || (repositoryErrorClass.None? && defaultErrorClass.None?)
  {
    if repositoryErrorClass != Some(EmptyErrorClass) then
      if repositoryErrorClass.Some? then repositoryErrorClass else defaultErrorClass
    else None
  }

  /** The id under which an execution is coordinated: the repository's canonical name, `;`, then the data id. */
  function OperationId(repositoryClass: RepoKey, dataId: string): (r: string)
    ensures |r| == |repositoryClass| + 1 + |dataId|
    ensures r[..|repositoryClass|] == repositoryClass && r[|repositoryClass|] == ';'
    ensures r[|repositoryClass| + 1..] == dataId
  {
    repositoryClass + ";" + dataId
  }

  /** A canonical class name never holds `;`, so distinct (repository, data id) pairs get distinct operation ids. */
  lemma OperationIdInjective(repo1: RepoKey, dataId1: string, repo2: RepoKey, dataId2: string)
    requires OperationId(repo1, dataId1) == OperationId(repo2, dataId2)
    ensures repo1 == repo2 && dataId1 == dataId2
  {
  }

  /**
   * `Operation.handleResponse`: a success carries its body, an error carries
   * its body converted into the error class, or its raw text when there is no
   * converter. A failing conversion and a null body (`!!`) are exceptions.
   */
  function HandleResponse(dataId: string, response: Response, errorConverter: Option<ErrorClass>, decode: Decoder)
    : (r: Result<Data, Thrown>)
    ensures r.Success? ==> r.value.id == dataId && r.value.isError == !response.isSuccessful
    ensures r.Success? && response.isSuccessful ==> Some(r.value.payload) == response.body
    ensures r.Success? && !response.isSuccessful ==> (response.errorBody.Some? &&
      if errorConverter.Some? then decode(errorConverter.value, response.errorBody.value) == Some(r.value.payload)
      else r.value.payload == Text(response.errorBody.value))
    ensures r.Failure? <==>
      if response.isSuccessful then response.body.None?
      else response.errorBody.None? || (errorConverter.Some? && decode(errorConverter.value, response.errorBody.value).None?)
    ensures r.Failure? && !response.isSuccessful && response.errorBody.Some? ==> r.error == IllegalState(CouldNotConvertErrorBody)
  {
    if response.isSuccessful then
      if response.body.Some? then Success(Data(dataId, response.body.value, false)) else Failure(NullPointer)
    else if response.errorBody.None? then Failure(NullPointer)
    else if errorConverter.Some? then
      match decode(errorConverter.value, response.errorBody.value)
      case Some(converted) => Success(Data(dataId, converted, true))
      case None => Failure(IllegalState(CouldNotConvertErrorBody))
    else Success(Data(dataId, Text(response.errorBody.value), true))
  }

  /** With `EmptyErrorClass` on the repository an error body stays a raw string, whatever the manager's default. */
  lemma EmptyErrorClassKeepsRawBody(dataId: string, body: Option<Payload>, errorBody: string,
                                    defaultErrorClass: Option<ErrorClass>, decode: Decoder)
    ensures HandleResponse(dataId, Response(false, body, Some(errorBody)),
                           CreateErrorConverterIfNeeded(Some(EmptyErrorClass), defaultErrorClass), decode)
         == Success(Data(dataId, Text(errorBody), true))
  {
  }

  /** Without a class of its own, a repository's error bodies are decoded into the manager's default class. */
  lemma DefaultErrorClassDecodes(dataId: string, body: Option<Payload>, errorBody: string,
                                 defaultClass: ErrorClass, decode: Decoder)
    requires decode(defaultClass, errorBody).Some?
    ensures HandleResponse(dataId, Response(false, body, Some(errorBody)),
                           CreateErrorConverterIfNeeded(None, Some(defaultClass)), decode)
         == Success(Data(dataId, decode(defaultClass, errorBody).value, true))
  {
  }

  /** How an execution's first step placed it. */
  datatype Admission = Joined | Started | Queued

  /** The coordinator's bookkeeping as a value: running operations by id, and the pending list. */
  datatype Bookkeeping<Op> = Bookkeeping(running: map<string, Op>, pending: seq<Op>)

  /**
   * The first synchronized steps of `execute`: join the operation already
   * running under `opId`; else insert the new one unless the running map's
   * size equals the limit; else append it to the pending list.
   */
  function StartStep<Op>(b: Bookkeeping<Op>, limit: int, opId: string, created: Op): (Admission, Bookkeeping<Op>) {
    if opId in b.running then (Joined, b)
    else if |b.running| == limit then (Queued, b.(pending := b.pending + [created]))
    else (Started, b.(running := b.running[opId := created]))
  }

  /**
   * The last synchronized steps of `execute`: remove `opId` from the running
   * map, and admit the LAST pending operation, which is not put into the
   * running map. The source removes it by value, which drops the first equal
   * element; that is the last one because no operation is queued twice
   * (`NetworkManager.Valid`).
   */
  function FinishStep<Op>(b: Bookkeeping<Op>, opId: string): (Option<Op>, Bookkeeping<Op>) {
    var running := b.running - {opId};
    if |b.pending| > 0 then (Some(b.pending[|b.pending| - 1]), Bookkeeping(running, b.pending[..|b.pending| - 1]))
    else (None, Bookkeeping(running, b.pending))
  }

  /** One atomic step of some caller of `execute`. */
  datatype Step<Op> = Start(opId: string, created: Op) | Finish(opId: string)

  /** The bookkeeping after the given steps, first to last. */
  function Run<Op>(b: Bookkeeping<Op>, limit: int, steps: seq<Step<Op>>): Bookkeeping<Op>
    decreases |steps|
  {
    if steps == [] then b
    else
      var next := match steps[0]
        case Start(opId, created) => StartStep(b, limit, opId, created).1
        case Finish(opId) => FinishStep(b, opId).1;
      Run(next, limit, steps[1..])
  }

  /** With a non-negative limit, a start never grows the running map past the limit. */
  lemma StartKeepsLimit<Op>(b: Bookkeeping<Op>, limit: int, opId: string, created: Op)
    requires 0 <= limit && |b.running| <= limit
    ensures |StartStep(b, limit, opId, created).1.running| <= limit
  {
  }

  /** A finish never grows the running map. */
  lemma FinishShrinks<Op>(b: Bookkeeping<Op>, opId: string)
    ensures |FinishStep(b, opId).1.running| <= |b.running|
  {
    assert FinishStep(b, opId).1.running.Keys == b.running.Keys - {opId};
  }

  /** From a running map within a non-negative limit, no interleaving of starts and finishes exceeds the limit. */
  lemma {:induction false} RunKeepsLimit<Op>(b: Bookkeeping<Op>, limit: int, steps: seq<Step<Op>>)
    requires 0 <= limit && |b.running| <= limit
    ensures |Run(b, limit, steps).running| <= limit
    decreases |steps|
  {
    if steps != [] {
      match steps[0]
      case Start(opId, created) =>
        StartKeepsLimit(b, limit, opId, created);
        RunKeepsLimit(StartStep(b, limit, opId, created).1, limit, steps[1..]);
      case Finish(opId) =>
        FinishShrinks(b, opId);
        RunKeepsLimit(FinishStep(b, opId).1, limit, steps[1..]);
    }
  }

  /**
   * Admission is last in, first out: of two operations queued one after the
   * other, the next finish admits the later one and the finish after it the
   * earlier one; the rest of the pending list keeps its order.
   */
  lemma PendingIsLastInFirstOut<Op>(b: Bookkeeping<Op>, limit: int, id1: string, op1: Op, id2: string, op2: Op,
                                    done1: string, done2: string)
    requires |b.running| == limit && id1 !in b.running && id2 !in b.running
    ensures
      var (queued1, b1) := StartStep(b, limit, id1, op1);
      var (queued2, b2) := StartStep(b1, limit, id2, op2);
      var (admitted1, b3) := FinishStep(b2, done1);
      var (admitted2, b4) := FinishStep(b3, done2);
      && queued1 == Queued && queued2 == Queued
      && admitted1 == Some(op2) && admitted2 == Some(op1)
      && b4.pending == b.pending
  {
    var b2 := StartStep(StartStep(b, limit, id1, op1).1, limit, id2, op2).1;
    assert b2.pending == b.pending + [op1, op2];
    assert b2.pending[..|b2.pending| - 1] == b.pending + [op1];
  }

  /**
   * The limit bounds the running map, not the jobs in flight: with limit 1, an
   * operation admitted from the pending list is not in the map, so a new
   * operation is started beside it and two jobs run at once.
   */
  lemma AdmittedOperationIsNotCounted<Op>(a: string, opA: Op, b: string, opB: Op, c: string, opC: Op)
    requires a != b
    ensures
      var (started, s1) := StartStep(Bookkeeping(map[], []), 1, a, opA);
      var (queued, s2) := StartStep(s1, 1, b, opB);
      var (admitted, s3) := FinishStep(s2, a);
      var (startedAgain, s4) := StartStep(s3, 1, c, opC);
      && started == Started && queued == Queued && admitted == Some(opB)
      && startedAgain == Started && s4 == Bookkeeping(map[c := opC], [])
  {
    var s1 := StartStep(Bookkeeping(map[], []), 1, a, opA).1;
    assert s1.running == map[a := opA];
    var s3 := FinishStep(StartStep(s1, 1, b, opB).1, a).1;
    assert s3.running == map[];
  }

  /**
   * Every caller joined to an operation runs the finishing step too, so one
   * operation with a joined caller admits two pending operations.
   */
  lemma EveryJoinedCallerAdmits<Op>(a: string, opA: Op, opJoin: Op, b: string, opB: Op, c: string, opC: Op)
    requires a != b && a != c && b != c
    ensures
      var (started, s1) := StartStep(Bookkeeping(map[], []), 1, a, opA);
      var (joined, s2) := StartStep(s1, 1, a, opJoin);
      var (queuedB, s3) := StartStep(s2, 1, b, opB);
      var (queuedC, s4) := StartStep(s3, 1, c, opC);
      var (admitted1, s5) := FinishStep(s4, a);
      var (admitted2, s6) := FinishStep(s5, a);
      && started == Started && joined == Joined && queuedB == Queued && queuedC == Queued
      && admitted1 == Some(opC) && admitted2 == Some(opB) && s6 == Bookkeeping(map[], [])
  {
    var s1 := Bookkeeping(map[a := opA], []);
    assert StartStep(Bookkeeping(map[], []), 1, a, opA) == (Started, s1);
    assert StartStep(s1, 1, a, opJoin) == (Joined, s1);
    assert |s1.running| == 1;
    var s3 := Bookkeeping(map[a := opA], [opB]);
    assert b !in s1.running && c !in s1.running;
    assert s1.pending + [opB] == [opB] && s3.pending + [opC] == [opB, opC];
    assert StartStep(s1, 1, b, opB) == (Queued, s3);
    var s4 := Bookkeeping(map[a := opA], [opB, opC]);
    assert StartStep(s3, 1, c, opC) == (Queued, s4);
    var s5 := Bookkeeping(map[], [opB]);
    assert s4.running - {a} == map[];
    assert FinishStep(s4, a) == (Some(opC), s5);
    assert FinishStep(s5, a) == (Some(opB), Bookkeeping(map[], []));
  }

  /** One fetch being coordinated (`NetworkManager.Operation`): its data id, its job and its converter. */
  class Operation {
    const dataId: string
    /** What awaiting the job gives. */
    const job: Job
    const errorConverter: Option<ErrorClass>
    var isPending: bool
    /** The repository class the operation was created for. */
    ghost const repositoryClass: RepoKey

    constructor (dataId: string, job: Job, errorConverter: Option<ErrorClass>, ghost repositoryClass: RepoKey)
      ensures this.dataId == dataId && this.job == job && this.errorConverter == errorConverter && !isPending
      ensures this.repositoryClass == repositoryClass
    {
      this.dataId := dataId;
      this.job := job;
      this.errorConverter := errorConverter;
      this.repositoryClass := repositoryClass;
      isPending := false;
    }

    /** The id the operation is coordinated under. */
    ghost function Key(): string {
      OperationId(repositoryClass, dataId)
    }

    /**
     * What `await` and `waitForRun` return once the job has resolved: the
     * job's own exception is rethrown before any response is handled.
     */
    function Outcome(decode: Decoder): (r: Result<Data, Thrown>)
      ensures job.Failure? ==> r == Failure(job.error)
      ensures job.Success? ==> r == HandleResponse(dataId, job.value, errorConverter, decode)
      ensures r.Success? ==> job.Success? && r.value.id == dataId && r.value.isError == !job.value.isSuccessful
      ensures r.Success? && job.value.isSuccessful ==> Some(r.value.payload) == job.value.body
    {
      match job
      case Failure(e) => Failure(e)
      case Success(response) => HandleResponse(dataId, response, errorConverter, decode)
    }
  }

  /** The coordinator: running operations by id, and operations waiting for a free slot. */
  class NetworkManager {
    const baseUrl: string
    const runningOperationsLimit: int
    const defaultErrorClass: Option<ErrorClass>
    var runningOperations: map<string, Operation>
    var pendingOperations: seq<Operation>

    ghost function State(): Bookkeeping<Operation>
      reads this
    {
      Bookkeeping(runningOperations, pendingOperations)
    }

    /** The operation the next finish admits, as a set: the last pending one, if any. */
    ghost function NextAdmitted(): set<Operation>
      reads this
    {
      if |pendingOperations| > 0 then {pendingOperations[|pendingOperations| - 1]} else {}
    }

    /**
     * The running map stays within a non-negative limit, no operation is
     * queued twice, and every running operation is filed under its own id
     * and is not pending.
     */
    ghost predicate Valid()
      reads this, runningOperations.Values
    {
      && (0 <= runningOperationsLimit ==> |runningOperations| <= runningOperationsLimit)
      && (forall i, j :: 0 <= i < j < |pendingOperations| ==> pendingOperations[i] != pendingOperations[j])
      && (forall k :: k in runningOperations ==>
            runningOperations[k].Key() == k && !runningOperations[k].isPending)
    }

    constructor (baseUrl: string, runningOperationsLimit: int, defaultErrorClass: Option<ErrorClass>)
      ensures this.baseUrl == baseUrl && this.runningOperationsLimit == runningOperationsLimit
      ensures this.defaultErrorClass == defaultErrorClass
      ensures runningOperations == map[] && pendingOperations == [] && Valid()
    {
      this.baseUrl := baseUrl;
      this.runningOperationsLimit := runningOperationsLimit;
      this.defaultErrorClass := defaultErrorClass;
      runningOperations := map[];
      pendingOperations := [];
    }

    /**
     * The start of `execute`: join the operation running under the same id;
     * else create one and run it when the running map's size is not the
     * limit, or queue it as pending.
     */
    method Start(repositoryClass: RepoKey, dataId: string, call: Job, errorClass: Option<ErrorClass>)
      returns (operation: Operation, admission: Admission)
      requires Valid()
      modifies this
      ensures Valid()
      ensures (admission, State()) == StartStep(old(State()), runningOperationsLimit, OperationId(repositoryClass, dataId), operation)
      ensures admission == Joined ==> operation == old(runningOperations)[OperationId(repositoryClass, dataId)]
      ensures admission == Joined ==> !operation.isPending
      ensures operation.repositoryClass == repositoryClass && operation.dataId == dataId
      ensures admission != Joined ==> fresh(operation) && operation.dataId == dataId && operation.job == call
      ensures admission != Joined ==> operation.errorConverter == CreateErrorConverterIfNeeded(errorClass, defaultErrorClass)
      ensures admission != Joined ==> (operation.isPending <==> admission == Queued)
    {
      var operationId := OperationId(repositoryClass, dataId);
      var errorConverter := CreateErrorConverterIfNeeded(errorClass, defaultErrorClass);
      if operationId in runningOperations {
        operation := runningOperations[operationId];
        OperationIdInjective(operation.repositoryClass, operation.dataId, repositoryClass, dataId);
        admission := Joined;
      } else {
        operation := new Operation(dataId, call, errorConverter, repositoryClass);
        if |runningOperations| == runningOperationsLimit {
          pendingOperations := pendingOperations + [operation];
          operation.isPending := true;
          admission := Queued;
        } else {
          runningOperations := runningOperations[operationId := operation];
          admission := Started;
        }
      }
    }

    /**
     * The finishing synchronized blocks of `execute`: remove `operationId`
     * from the running map and admit the last pending operation.
     */
    method Finish(operationId: string)
      requires Valid()
      modifies this, NextAdmitted()
      ensures Valid()
      ensures State() == FinishStep(old(State()), operationId).1
      ensures |old(pendingOperations)| > 0 ==> !old(pendingOperations)[|old(pendingOperations)| - 1].isPending
    {
      runningOperations := runningOperations - {operationId};
      var pendingOperationsCount := |pendingOperations|;
      if pendingOperationsCount > 0 {
        var pendingOperation := pendingOperations[pendingOperationsCount - 1];
        pendingOperations := pendingOperations[..pendingOperationsCount - 1];
        pendingOperation.isPending := false;
      }
    }

    /**
     * The finishing blocks and the cache write of `execute`, once the result
     * is known: finish the operation id, then store the result.
     */
    method Retire(repositoryClass: RepoKey, dataId: string, data: Data, cacheProvider: CacheProvider)
      requires Valid() && cacheProvider.Valid()
      requires data.id == dataId
      modifies this, NextAdmitted()
      modifies if repositoryClass in cacheProvider.dataHolder then {cacheProvider.dataHolder[repositoryClass]} else {}
      ensures Valid() && cacheProvider.Valid()
      ensures State() == FinishStep(old(State()), OperationId(repositoryClass, dataId)).1
      ensures |old(pendingOperations)| > 0 ==> !old(pendingOperations)[|old(pendingOperations)| - 1].isPending
      ensures cacheProvider.Slots() == Put(old(cacheProvider.Slots()), repositoryClass, data)
    {
      Finish(OperationId(repositoryClass, dataId));
      label Finished:
      assert unchanged(cacheProvider) && unchanged(cacheProvider.dataHolder.Values);
      ghost var running := runningOperations.Values;
      ghost var written: set<object> :=
        if repositoryClass in cacheProvider.dataHolder then {cacheProvider.dataHolder[repositoryClass]} else {};
      assert this !in written && running !! written;
      cacheProvider.PutData(repositoryClass, data);
      assert unchanged@Finished(this) && unchanged@Finished(running);
    }

    /**
     * The end of `execute`, run by every caller once its operation's job has
     * resolved and, for a queued operation, once a finish has admitted it:
     * take the job's response and classify it; unless either throws, retire
     * the operation. A throw skips the finishing steps: nothing leaves the
     * running map and no pending operation is admitted.
     */
    method Complete(repositoryClass: RepoKey, dataId: string, operation: Operation, cacheProvider: CacheProvider,
                    decode: Decoder)
      returns (result: Result<Data, Thrown>)
      requires Valid() && cacheProvider.Valid()
      requires !operation.isPending && operation.repositoryClass == repositoryClass && operation.dataId == dataId
      modifies this, NextAdmitted()
      modifies if repositoryClass in cacheProvider.dataHolder then {cacheProvider.dataHolder[repositoryClass]} else {}
      ensures Valid() && cacheProvider.Valid()
      ensures result == operation.Outcome(decode)
      ensures result.Failure? ==> State() == old(State()) && cacheProvider.Slots() == old(cacheProvider.Slots())
      ensures result.Failure? ==> unchanged(NextAdmitted())
      ensures result.Success? ==> State() == FinishStep(old(State()), OperationId(repositoryClass, dataId)).1
      ensures result.Success? && |old(pendingOperations)| > 0 ==> !old(pendingOperations)[|old(pendingOperations)| - 1].isPending
      ensures result.Success? ==> cacheProvider.Slots() == Put(old(cacheProvider.Slots()), repositoryClass, result.value)
    {
      result := operation.Outcome(decode);
      if result.Success? {
        Retire(repositoryClass, dataId, result.value, cacheProvider);
      }
    }
  }
}
