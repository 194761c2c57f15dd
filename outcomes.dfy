/** The value types of the task library: a task's Result, its lifecycle State,
    and the factory helpers that build them. */
module Outcomes {

  datatype Option<T> = None | Some(value: T)

  /** `message ?? ""`: a missing message becomes the empty string. */
  function OrEmpty(message: Option<string>): (m: string)
    ensures message.Some? ==> m == message.value
    ensures message.None? ==> m == ""
  {
    match message
    case Some(text) => text
    case None => ""
  }

  /** A task's outcome: a status code, a message, an opaque payload (`Any?`,
      here any type `D`), and the members' results when a group joined.
      The defaults are those of the source's initializer. */
  datatype Result<D> = Result(code: int, message: string := "", data: Option<D> := None,
                              results: seq<Result<D>> := [])

  /** The lifecycle of an executor. */
  datatype State<D> =
    | Idle
    | Doing
    | Complete(result: Result<D>)
    | Error(result: Result<D>)
    | Cancel
    | CompleteAll(all: seq<Result<D>>)

  /** The single result a state carries, if any: only `complete` and `error` carry one. */
  function Reported<D>(s: State<D>): (r: Option<Result<D>>)
    ensures r.Some? <==> (s.Complete? || s.Error?)
    ensures r.Some? ==> r.value == s.result
  {
    match s
    case Complete(res) => Some(res)
    case Error(res) => Some(res)
    case _ => None
  }

  /** The states that start the successor of a chain node. */
  predicate IsSuccess<D>(s: State<D>) {
    s.Complete? || s.CompleteAll?
  }

  /** The states that cancel the successor of a chain node. */
  predicate IsFailure<D>(s: State<D>) {
    s.Error? || s.Cancel?
  }

  // ---------------------------------------------------------------------------
  // Factories (the `Result` and `State` extensions)

  /** `Result.success` */
  function Success<D>(): Result<D> {
    Result(200)
  }

  /** `Result.result(code, message, data)` */
  function Made<D>(code: int, message: Option<string>, data: Option<D> := None): Result<D> {
    Result(code, OrEmpty(message), data)
  }

  /** `Result.results(code, message, data, results)` */
  function Composite<D>(code: int, message: Option<string>, data: Option<D> := None,
                        results: seq<Result<D>> := []): Result<D> {
    Result(code, OrEmpty(message), data, results)
  }

  /** `Result.results(results, code, message)`: the composite a group reports when it joins. */
  function Joined<D>(results: seq<Result<D>>, code: int := 200, message: Option<string> := None): Result<D> {
    Result(code, OrEmpty(message), None, results)
  }

  /** `State.sucess(data)` */
  function Succeeded<D>(data: Option<D> := None): State<D> {
    Complete(Made(200, None, data))
  }

  /** `State.error(code, message, data)` */
  function Failed<D>(code: int, message: Option<string> := None, data: Option<D> := None): State<D> {
    Error(Made(code, message, data))
  }

  // ---------------------------------------------------------------------------
  // What the factories promise

  /** The initializer's defaults: `Result(code)` has an empty message, no data and no sub-results. */
  lemma InitializerDefaults<D>(code: int)
    ensures var r: Result<D> := Result(code); r.code == code && r.message == "" && r.data == None && r.results == []
  {
  }

  /** `Result.success` is the initializer with code 200 and nothing else. */
  lemma SuccessIsBare<D>()
    ensures Success<D>() == Made(200, None, None)
    ensures Success<D>().message == "" && Success<D>().data == None && Success<D>().results == []
  {
  }

  /** `Result.result` keeps a present message verbatim and turns a missing one into "". */
  lemma MadeMessage<D>(code: int, text: string, data: Option<D>)
    ensures Made(code, Some(text), data) == Result(code, text, data)
    ensures Made(code, None, data) == Result(code, "", data)
    ensures Made(code, Some(text), data).results == [] && Made(code, None, data).results == []
  {
  }

  /** `Result.results(code, ...)` keeps the sub-results unchanged, and the short
      form `results(list)` is the long form with code 200, no message and no data. */
  lemma CompositeKeepsResults<D>(code: int, message: Option<string>, data: Option<D>, results: seq<Result<D>>)
    ensures Composite(code, message, data, results).results == results
    ensures Joined(results) == Composite(200, None, None, results)
    ensures Joined(results).code == 200 && Joined(results).message == "" && Joined(results).data == None
  {
  }

  /** `State.sucess(d)` reports success with code 200, empty message and payload `d`;
      `State.error(c, m, d)` reports failure with that code, `m ?? ""` and `d`. */
  lemma StateFactories<D>(data: Option<D>, code: int, message: Option<string>)
    ensures Succeeded(data).Complete? && IsSuccess(Succeeded(data))
    ensures Reported(Succeeded(data)) == Some(Result(200, "", data))
    ensures Failed(code, message, data).Error? && IsFailure(Failed(code, message, data))
    ensures Reported(Failed(code, message, data)) == Some(Result(code, OrEmpty(message), data))
  {
  }
}
