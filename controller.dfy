/**
 * The number predictor component as a state machine: the 15-slot window, the
 * current prediction, the staged actual value, the loading and shifting flags
 * and the notice dialog, with the handlers that change them.
 */
module NumberPredictor {
  import opened Wrappers
  import opened SlidingWindow
  import Inference

  const IncompleteNotice := "Predictions require all 15 numbers to be filled in."
  const MissingActualNotice := "Please enter the actual 16th number before shifting."
  const FallbackNotice := "Error making prediction. Please try again."

  /** The notice shown for a failed prediction: an `Error`'s message, else a fixed text. */
  function NoticeFor(t: Inference.Thrown): (notice: string)
    ensures t.ErrorObject? ==> notice == t.message
    ensures t.NonErrorValue? ==> notice == FallbackNotice
  {
    match t
    case ErrorObject(message) => message
    case NonErrorValue => FallbackNotice
  }

  class Controller {
    var numbers: Window
    var prediction: Option<real>
    var actualNumber: Option<real>
    var isShifting: bool
    var isModalOpen: bool
    var modalContent: string
    var isLoading: bool

    /** The window always has exactly fifteen slots. */
    ghost predicate Valid()
      reads this
    {
      |numbers| == WindowSize
    }

    /** The initial state: an empty window, no prediction, nothing staged. */
    constructor ()
      ensures Valid()
      ensures numbers == EmptyWindow()
      ensures prediction.None? && actualNumber.None?
      ensures !isShifting && !isLoading && !isModalOpen && modalContent == ""
    {
      numbers := EmptyWindow();
      prediction := None;
      actualNumber := None;
      isShifting := false;
      isModalOpen := false;
      modalContent := "";
      isLoading := false;
    }

    /** An edit of slot `index`: only that slot changes; a stale prediction survives. */
    method EditSlot(index: nat, value: real)
      requires Valid() && index < WindowSize
      modifies this
      ensures Valid()
      ensures numbers == Overwrite(old(numbers), index, value)
      ensures prediction == old(prediction) && actualNumber == old(actualNumber)
      ensures isShifting == old(isShifting) && isLoading == old(isLoading)
      ensures isModalOpen == old(isModalOpen) && modalContent == old(modalContent)
    {
      var newNumbers := numbers;
      newNumbers := newNumbers[index := Some(value)];
      numbers := newNumbers;
    }

    /** An edit of the actual-value input, which is shown only while a prediction exists. */
    method StageActual(value: real)
      requires Valid() && prediction.Some?
      modifies this
      ensures Valid()
      ensures actualNumber == Some(value)
      ensures numbers == old(numbers) && prediction == old(prediction)
      ensures isShifting == old(isShifting) && isLoading == old(isLoading)
      ensures isModalOpen == old(isModalOpen) && modalContent == old(modalContent)
    {
      actualNumber := Some(value);
    }

    /**
     * `handlePredict`, reachable while the predict button is enabled. The
     * predictor is consulted only when every slot is filled, and then exactly
     * once, with the window's numbers in slot order.
     */
    method HandlePredict(adapter: Inference.Predictor, created: Result<Inference.Session, Inference.Thrown>)
      requires Valid() && !isShifting && !isLoading
      modifies this, adapter
      ensures Valid()
      ensures numbers == old(numbers) && actualNumber == old(actualNumber)
      ensures !isLoading && !isShifting
      // an incomplete window never reaches the predictor
      ensures !AllFilled(old(numbers)) ==>
                && unchanged(adapter)
                && prediction == old(prediction)
                && isModalOpen && modalContent == IncompleteNotice
      ensures AllFilled(old(numbers)) ==>
                adapter.requests == old(adapter.requests) + [Values(old(numbers))]
      // at most one creation attempt, and at most one run, on exactly the window's numbers
      ensures AllFilled(old(numbers)) ==>
                adapter.creations == old(adapter.creations) + (if old(adapter.model).None? then 1 else 0)
      ensures AllFilled(old(numbers)) ==>
                adapter.runs == old(adapter.runs) +
                  (if adapter.model.Some? then [Inference.Feed(Values(old(numbers)))] else [])
      // success stores the prediction
      ensures AllFilled(old(numbers)) ==>
                var outcome := Inference.PredictOutcome(old(adapter.model), created, Values(old(numbers)));
                outcome.Success? ==>
                  && prediction == Some(outcome.value)
                  && isModalOpen == old(isModalOpen) && modalContent == old(modalContent)
      // failure keeps the old prediction and surfaces the error
      ensures AllFilled(old(numbers)) ==>
                var outcome := Inference.PredictOutcome(old(adapter.model), created, Values(old(numbers)));
                outcome.Failure? ==>
                  && prediction == old(prediction)
                  && isModalOpen && modalContent == NoticeFor(outcome.error)
      // the adapter never discards or replaces its session
      ensures adapter.model == if AllFilled(old(numbers))
                               then Inference.ModelAfter(old(adapter.model), created)
                               else old(adapter.model)
    {
      if AllFilled(numbers) {
        isLoading := true;
        var predicted := adapter.PredictNumber(Values(numbers), created);
        if predicted.Success? {
          prediction := Some(predicted.value);
        } else {
          modalContent := NoticeFor(predicted.error);
          isModalOpen := true;
        }
        isLoading := false;
      } else {
        modalContent := IncompleteNotice;
        isModalOpen := true;
      }
    }

    /**
     * `handleShift`, reachable only while a prediction is shown and no shift
     * is in progress; the shift happens as one step.
     */
    method HandleShift()
      requires Valid() && prediction.Some? && !isShifting
      modifies this
      ensures Valid()
      ensures !isShifting && isLoading == old(isLoading)
      // without a staged actual value nothing but the notice changes
      ensures old(actualNumber).None? ==>
                && numbers == old(numbers)
                && prediction == old(prediction) && actualNumber.None?
                && isModalOpen && modalContent == MissingActualNotice
      // with one, the window moves on by one and the prediction and staged value are cleared
      ensures old(actualNumber).Some? ==>
                && numbers == Shift(old(numbers), old(actualNumber).value)
                && prediction.None? && actualNumber.None?
                && isModalOpen == old(isModalOpen) && modalContent == old(modalContent)
    {
      if actualNumber.Some? {
        isShifting := true;
        numbers := Shift(numbers, actualNumber.value);
        prediction := None;
        actualNumber := None;
        isShifting := false;
      } else {
        modalContent := MissingActualNotice;
        isModalOpen := true;
      }
    }

    /** The dialog's close button. */
    method CloseNotice()
      requires Valid()
      modifies this
      ensures Valid()
      ensures !isModalOpen && modalContent == old(modalContent)
      ensures numbers == old(numbers) && prediction == old(prediction)
      ensures actualNumber == old(actualNumber)
      ensures isShifting == old(isShifting) && isLoading == old(isLoading)
    {
      isModalOpen := false;
    }
  }
}
