/**
 * Concrete runs of the component against a stand-in session, showing what
 * callers can derive from the contracts of the controller and the adapter.
 */
module Scenarios {
  import opened Wrappers
  import opened SlidingWindow
  import opened Inference
  import opened NumberPredictor

  /** A session whose single output always holds the given number. */
  function ConstantSession(answer: real): (s: Session)
    ensures OutputKey(s) == "output"
    ensures forall f :: s.run(f) == Success(map["output" := Tensor([1, 1], [answer])])
  {
    Session([InputName], ["output"], (f: Feeds) => Success(map["output" := Tensor([1, 1], [answer])]))
  }

  /** The numbers 1, 2, ..., 15. */
  function FirstFifteen(): (xs: seq<real>)
    ensures |xs| == WindowSize
    ensures forall i :: 0 <= i < |xs| ==> xs[i] == (i + 1) as real
  {
    seq(WindowSize, i => (i + 1) as real)
  }

  /** Fills every slot of a fresh controller, one edit per slot. */
  method FillAll(c: Controller, xs: seq<real>)
    requires c.Valid() && |xs| == WindowSize
    modifies c
    ensures c.Valid() && c.numbers == Fill(xs)
    ensures c.prediction == old(c.prediction) && c.actualNumber == old(c.actualNumber)
    ensures c.isShifting == old(c.isShifting) && c.isLoading == old(c.isLoading)
    ensures c.isModalOpen == old(c.isModalOpen) && c.modalContent == old(c.modalContent)
  {
    for i := 0 to WindowSize
      invariant c.Valid()
      invariant forall j :: 0 <= j < i ==> c.numbers[j] == Some(xs[j])
      invariant c.prediction == old(c.prediction) && c.actualNumber == old(c.actualNumber)
      invariant c.isShifting == old(c.isShifting) && c.isLoading == old(c.isLoading)
      invariant c.isModalOpen == old(c.isModalOpen) && c.modalContent == old(c.modalContent)
    {
      c.EditSlot(i, xs[i]);
    }
  }

  /**
   * Window 1..15 and a model answering 16: the prediction is 16; staging 16
   * and shifting gives the window 2..16 with no prediction left.
   */
  method PredictThenShift() returns (predicted: Option<real>, after: Window, cleared: Option<real>)
    ensures predicted == Some(16.0)
    ensures after == Fill(FirstFifteen()[1..] + [16.0])
    ensures cleared.None?
  {
    var adapter := new Predictor();
    var c := new Controller();
    FillAll(c, FirstFifteen());
    ValuesFill(FirstFifteen());
    c.HandlePredict(adapter, Success(ConstantSession(16.0)));
    predicted := c.prediction;
    c.StageActual(16.0);
    c.HandleShift();
    after, cleared := c.numbers, c.prediction;
    assert after == Fill(FirstFifteen()[1..] + [16.0]) by {
      ShiftValues(Fill(FirstFifteen()), 16.0);
      FillValues(after);
    }
  }

  /** Slot 5 left empty: the model is never consulted and the notice asks for all numbers. */
  method IncompleteWindow() returns (ghost requests: nat, notice: string, predicted: Option<real>)
    ensures requests == 0
    ensures notice == IncompleteNotice
    ensures predicted.None?
  {
    var c := new Controller();
    for i := 0 to WindowSize
      invariant c.Valid()
      invariant forall j :: 0 <= j < |c.numbers| ==> (c.numbers[j].Some? <==> j < i && j != 5)
      invariant c.prediction.None? && !c.isShifting && !c.isLoading
    {
      if i != 5 {
        c.EditSlot(i, FirstFifteen()[i]);
      }
    }
    assert c.numbers[5].None?;
    var adapter := new Predictor();
    c.HandlePredict(adapter, Success(ConstantSession(16.0)));
    requests := |adapter.requests|;
    notice, predicted := c.modalContent, c.prediction;
  }

  /** A failed load leaves no session; the next call creates one and predicts. */
  method RetryAfterLoadFailure() returns (first: Result<real, Thrown>, second: Result<real, Thrown>)
    ensures first == Failure(LoadError)
    ensures second == Success(16.0)
  {
    var adapter := new Predictor();
    first := adapter.PredictNumber(FirstFifteen(), Failure(NonErrorValue));
    second := adapter.PredictNumber(FirstFifteen(), Success(ConstantSession(16.0)));
  }

  /** Shifting with a prediction but no staged value changes no slot and asks for the value. */
  method ShiftWithoutActual() returns (before: Window, after: Window, notice: string)
    ensures before == after
    ensures notice == MissingActualNotice
  {
    var adapter := new Predictor();
    var c := new Controller();
    FillAll(c, FirstFifteen());
    ValuesFill(FirstFifteen());
    c.HandlePredict(adapter, Success(ConstantSession(16.0)));
    before := c.numbers;
    c.HandleShift();
    after, notice := c.numbers, c.modalContent;
  }
}
