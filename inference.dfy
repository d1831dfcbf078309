/**
 * The inference adapter: a module-level, lazily created inference session and
 * the single-shot `predictNumber` operation that validates its input, runs the
 * session once and reads the first element of the first output tensor.
 *
 * The inference runtime is a foreign library. A session is a value holding its
 * input and output names and its `run` function; creating a session is an
 * external, fallible step whose outcome is passed in as the parameter `created`
 * and is consulted only when no session exists yet.
 */
module Inference {
  import opened Wrappers

  /** The number of values the model takes, as the adapter checks it. */
  const InputLength: nat := 15

  /** Name of the model's single input, as the feeds object spells it. */
  const InputName: string := "input"

  /** A value thrown by JavaScript code: an `Error` object with its message, or anything else. */
  datatype Thrown = ErrorObject(message: string) | NonErrorValue

  const LoadError := ErrorObject("Failed to load the prediction model")
  const InputLengthError := ErrorObject("Input must be exactly 15 numbers")
  const NoOutputError := ErrorObject("No output tensor found")
  /** What reading `toFixed` of the missing first element of an empty output raises. */
  const EmptyOutputError := ErrorObject("Cannot read properties of undefined (reading 'toFixed')")

  /** A tensor: its shape and its elements in row-major order. */
  datatype Tensor = Tensor(dims: seq<nat>, data: seq<real>)

  type Feeds = map<string, Tensor>
  type Outputs = map<string, Tensor>

  /** A loaded inference session; `run` is one forward pass, which may throw. */
  datatype Session = Session(
    inputNames: seq<string>,
    outputNames: seq<string>,
    run: Feeds -> Result<Outputs, Thrown>)

  /** The names `getModelInfo` reports. */
  datatype ModelInfo = ModelInfo(inputNames: seq<string>, outputNames: seq<string>)

  /** The feeds given to the session: one `[1, 15]` tensor under the input name. */
  function Feed(numbers: seq<real>): (f: Feeds)
    requires |numbers| == InputLength
    ensures f.Keys == {InputName}
    ensures f[InputName].dims == [1, InputLength] && f[InputName].data == numbers
  {
    map[InputName := Tensor([1, InputLength], numbers)]
  }

  /**
   * The key under which the result is looked up: the first output name. An
   * empty list yields `undefined`, which JavaScript turns into the key "undefined".
   */
  function OutputKey(s: Session): (key: string)
    ensures |s.outputNames| > 0 ==> key == s.outputNames[0]
    ensures |s.outputNames| == 0 ==> key == "undefined"
  {
    if |s.outputNames| > 0 then s.outputNames[0] else "undefined"
  }

  /** The guarded body of `predictNumber` once a session exists. */
  function Infer(s: Session, numbers: seq<real>): (r: Result<real, Thrown>)
    // the length check comes before any use of the session
    ensures |numbers| != InputLength ==> r == Failure(InputLengthError)
    // a fault of the run itself is rethrown unchanged
    ensures |numbers| == InputLength && s.run(Feed(numbers)).Failure? ==>
              r == Failure(s.run(Feed(numbers)).error)
    // a result without a tensor under the first output name is an error
    ensures |numbers| == InputLength && s.run(Feed(numbers)).Success? &&
            OutputKey(s) !in s.run(Feed(numbers)).value ==>
              r == Failure(NoOutputError)
    // a prediction is the first element of that tensor, for a run on exactly these numbers
    ensures r.Success? <==>
              && |numbers| == InputLength
              && s.run(Feed(numbers)).Success?
              && OutputKey(s) in s.run(Feed(numbers)).value
              && |s.run(Feed(numbers)).value[OutputKey(s)].data| > 0
    ensures r.Success? ==> r.value == s.run(Feed(numbers)).value[OutputKey(s)].data[0]
  {
    if |numbers| != InputLength then Failure(InputLengthError)
    else
      var results :- s.run(Feed(numbers));
      var key := OutputKey(s);
      if key !in results then Failure(NoOutputError)
      else if |results[key].data| == 0 then Failure(EmptyOutputError)
      else Success(results[key].data[0])
  }

  /** The session cell after `initModel`, given what creating a session would yield. */
  function ModelAfter(model: Option<Session>, created: Result<Session, Thrown>): (r: Option<Session>)
    // an existing session is kept: no creation, no reassignment
    ensures model.Some? ==> r == model
    // a failed creation leaves no partial session behind
    ensures model.None? ==> (r.Some? <==> created.Success?)
    ensures model.None? && created.Success? ==> r.value == created.value
  {
    if model.Some? then model
    else if created.Success? then Some(created.value)
    else None
  }

  /** What `predictNumber` yields, from the session cell before the call. */
  function PredictOutcome(model: Option<Session>, created: Result<Session, Thrown>,
                          numbers: seq<real>): (r: Result<real, Thrown>)
    // initialisation comes first: its failure wins over every input check
    ensures model.None? && created.Failure? ==> r == Failure(LoadError)
    // an existing session is used as it is, whatever creation would yield
    ensures model.Some? ==> r == Infer(model.value, numbers)
    ensures model.None? && created.Success? ==> r == Infer(created.value, numbers)
  {
    match ModelAfter(model, created)
    case None => Failure(LoadError)
    case Some(s) => Infer(s, numbers)
  }

  /** The session cell after one `initModel` per creation outcome, in order. */
  function CellAfter(model: Option<Session>, outcomes: seq<Result<Session, Thrown>>): Option<Session>
    decreases |outcomes|
  {
    if outcomes == [] then model else CellAfter(ModelAfter(model, outcomes[0]), outcomes[1..])
  }

  /** The session of the first successful creation outcome, if any. */
  ghost function FirstCreated(outcomes: seq<Result<Session, Thrown>>): (r: Option<Session>)
    ensures r.None? <==> forall i :: 0 <= i < |outcomes| ==> outcomes[i].Failure?
    ensures r.Some? ==>
              exists i :: 0 <= i < |outcomes| && outcomes[i] == Success(r.value) &&
                          forall j :: 0 <= j < i ==> outcomes[j].Failure?
  {
    if outcomes == [] then None
    else if outcomes[0].Success? then Some(outcomes[0].value)
    else
      var r := FirstCreated(outcomes[1..]);
      assert forall i :: 1 <= i < |outcomes| ==> outcomes[i] == outcomes[1..][i - 1];
      if r.Some? then
        var k :| 0 <= k < |outcomes[1..]| && outcomes[1..][k] == Success(r.value) &&
                 forall j :: 0 <= j < k ==> outcomes[1..][j].Failure?;
        assert outcomes[k + 1] == Success(r.value);
        r
      else r
  }

  /** Once the cell holds a session, no later initialisation replaces it. */
  lemma {:induction false} SessionNeverReplaced(s: Session, outcomes: seq<Result<Session, Thrown>>)
    ensures CellAfter(Some(s), outcomes) == Some(s)
    decreases |outcomes|
  {
    if outcomes != [] {
      SessionNeverReplaced(s, outcomes[1..]);
    }
  }

  /**
   * Starting without a session, repeated initialisation keeps the session of
   * the first successful creation: failures leave nothing behind, so each
   * later call retries from scratch, and later creations are never attempted
   * to any effect.
   */
  lemma {:induction false} LazySession(outcomes: seq<Result<Session, Thrown>>)
    ensures CellAfter(None, outcomes) == FirstCreated(outcomes)
    decreases |outcomes|
  {
    if outcomes != [] {
      if outcomes[0].Success? {
        SessionNeverReplaced(outcomes[0].value, outcomes[1..]);
      } else {
        LazySession(outcomes[1..]);
      }
    }
  }

  /**
   * Once a session exists, a creation outcome seen by a later call does not
   * matter: the prediction outcome is the one obtained with the first.
   */
  lemma PredictionDeterministic(model: Option<Session>, first: Result<Session, Thrown>,
                                later: Result<Session, Thrown>, numbers: seq<real>)
    requires ModelAfter(model, first).Some?
    ensures PredictOutcome(ModelAfter(model, first), later, numbers)
            == PredictOutcome(model, first, numbers)
  {
  }

  /** The module-level state of the adapter: the `model` cell. */
  class Predictor {
    var model: Option<Session>
    /** How many times session creation has been attempted. */
    ghost var creations: nat
    /** Every input `predictNumber` has been called with, in order. */
    ghost var requests: seq<seq<real>>
    /** Every feeds object the session has been run on, in order. */
    ghost var runs: seq<Feeds>

    constructor ()
      ensures model.None? && creations == 0 && requests == [] && runs == []
    {
      model := None;
      creations := 0;
      requests := [];
      runs := [];
    }

    /** `initModel`: create the session only if absent; on failure keep none and throw. */
    method InitModel(created: Result<Session, Thrown>) returns (r: Outcome<Thrown>)
      modifies this
      ensures model == ModelAfter(old(model), created)
      ensures creations == old(creations) + (if old(model).None? then 1 else 0)
      ensures r.Fail? <==> old(model).None? && created.Failure?
      ensures r.Fail? ==> r.error == LoadError
      ensures requests == old(requests) && runs == old(runs)
    {
      r := Pass;
      if model.None? {
        creations := creations + 1;
        if created.Success? {
          model := Some(created.value);
        } else {
          r := Fail(LoadError);
        }
      }
    }

    /** `predictNumber`: initialise, check the length, run once, read the first output. */
    method PredictNumber(numbers: seq<real>, created: Result<Session, Thrown>)
      returns (r: Result<real, Thrown>)
      modifies this
      ensures r == PredictOutcome(old(model), created, numbers)
      ensures model == ModelAfter(old(model), created)
      ensures creations == old(creations) + (if old(model).None? then 1 else 0)
      ensures requests == old(requests) + [numbers]
      ensures runs == old(runs) +
                (if model.Some? && |numbers| == InputLength then [Feed(numbers)] else [])
    {
      requests := requests + [numbers];
      if model.None? {
        var init := InitModel(created);
        if init.Fail? {
          return Failure(init.error);
        }
      }
      if |numbers| != InputLength {
        return Failure(InputLengthError);
      }
      var session := model.value;
      var feeds := Feed(numbers);
      runs := runs + [feeds];
      var results := session.run(feeds);
      if results.Failure? {
        return Failure(results.error);
      }
      var outputName := OutputKey(session);
      if outputName !in results.value {
        return Failure(NoOutputError);
      }
      var outputData := results.value[outputName].data;
      if |outputData| == 0 {
        return Failure(EmptyOutputError);
      }
      r := Success(outputData[0]);
    }

    /** `getModelInfo`: initialise if needed, then report the session's names. */
    method GetModelInfo(created: Result<Session, Thrown>) returns (r: Result<ModelInfo, Thrown>)
      modifies this
      ensures model == ModelAfter(old(model), created)
      ensures creations == old(creations) + (if old(model).None? then 1 else 0)
      ensures r.Failure? <==> model.None?
      ensures r.Failure? ==> r.error == LoadError
      ensures r.Success? ==>
                r.value == ModelInfo(model.value.inputNames, model.value.outputNames)
      ensures requests == old(requests) && runs == old(runs)
    {
      if model.None? {
        var init := InitModel(created);
        if init.Fail? {
          return Failure(init.error);
        }
      }
      r := Success(ModelInfo(model.value.inputNames, model.value.outputNames));
    }
  }
}
