/**
 * The 15-slot window of the number predictor as a value: the empty window,
 * the per-slot overwrite, the shift that drops the oldest entry, and the
 * conversion of a filled window into the numbers given to the predictor.
 */
module SlidingWindow {
  import opened Wrappers

  /** The number of slots the component keeps. */
  const WindowSize: nat := 15

  /** A slot: `None` is an empty input (the empty string), `Some(v)` a number. */
  type Window = seq<Option<real>>

  predicate AllFilled(w: Window)
  {
    forall i :: 0 <= i < |w| ==> w[i].Some?
  }

  /** The window as the component creates it. */
  function EmptyWindow(): (w: Window)
    ensures |w| == WindowSize
    ensures forall i :: 0 <= i < |w| ==> w[i].None?
    ensures !AllFilled(w)
  {
    var w := seq(WindowSize, _ => None);
    assert w[0].None?;
    w
  }

  /** A copy of the window with one slot overwritten. */
  function Overwrite(w: Window, index: nat, value: real): (r: Window)
    requires index < |w|
    ensures |r| == |w| && r[index] == Some(value)
    ensures forall j :: 0 <= j < |w| && j != index ==> r[j] == w[j]
    ensures AllFilled(w) ==> AllFilled(r)
  {
    w[index := Some(value)]
  }

  /** The window moved on by one: the oldest entry dropped, the actual value appended. */
  function Shift(w: Window, actual: real): (r: Window)
    requires |w| > 0
    ensures |r| == |w| && r[|w| - 1] == Some(actual)
    ensures forall j :: 0 <= j < |w| - 1 ==> r[j] == w[j + 1]
    ensures AllFilled(w) ==> AllFilled(r)
  {
    w[1..] + [Some(actual)]
  }

  /** The numbers held by a filled window, in slot order. */
  function Values(w: Window): (r: seq<real>)
    requires AllFilled(w)
    ensures |r| == |w|
    ensures forall i :: 0 <= i < |w| ==> w[i] == Some(r[i])
  {
    if w == [] then [] else [w[0].value] + Values(w[1..])
  }

  /** The filled window holding the given numbers. */
  function Fill(xs: seq<real>): (w: Window)
    ensures |w| == |xs| && AllFilled(w)
    ensures forall i :: 0 <= i < |xs| ==> w[i] == Some(xs[i])
  {
    seq(|xs|, i requires 0 <= i < |xs| => Some(xs[i]))
  }

  /** Reading the numbers out of a filled window and filling them back in is the identity. */
  lemma FillValues(w: Window)
    requires AllFilled(w)
    ensures Fill(Values(w)) == w
  {
  }

  /** Filling a window with numbers and reading them out gives the numbers back. */
  lemma ValuesFill(xs: seq<real>)
    ensures Values(Fill(xs)) == xs
  {
  }

  /** After a shift the predictor sees the old numbers moved on by one, then the actual value. */
  lemma ShiftValues(w: Window, actual: real)
    requires |w| > 0 && AllFilled(w)
    ensures AllFilled(Shift(w, actual))
    ensures Values(Shift(w, actual)) == Values(w)[1..] + [actual]
  {
    var shifted := Shift(w, actual);
    var before := Values(w);
    var expected := before[1..] + [actual];
    assert shifted == Fill(expected) by {
      forall i | 0 <= i < |w|
        ensures shifted[i] == Some(expected[i])
      {
        if i < |w| - 1 {
          assert shifted[i] == w[i + 1];
        }
      }
    }
    ValuesFill(expected);
  }

  /** The window after one shift per actual value, in order. */
  function ShiftAll(w: Window, actuals: seq<real>): (r: Window)
    requires |w| > 0
    ensures |r| == |w|
    decreases |actuals|
  {
    if actuals == [] then w else ShiftAll(Shift(w, actuals[0]), actuals[1..])
  }

  /** After k shifts the window holds its last entries followed by the k actual values. */
  lemma {:induction false} ShiftAllSlides(w: Window, actuals: seq<real>)
    requires 0 < |w| && |actuals| <= |w|
    ensures ShiftAll(w, actuals) == w[|actuals|..] + Fill(actuals)
    decreases |actuals|
  {
    if actuals != [] {
      var w' := Shift(w, actuals[0]);
      ShiftAllSlides(w', actuals[1..]);
      assert w'[|actuals| - 1..] == w[|actuals|..] + [Some(actuals[0])];
      assert Fill(actuals) == [Some(actuals[0])] + Fill(actuals[1..]);
    }
  }

  /** After as many shifts as there are slots the window holds exactly the actual values. */
  lemma {:induction false} FullTurnover(w: Window, actuals: seq<real>)
    requires 0 < |w| && |actuals| == |w|
    ensures ShiftAll(w, actuals) == Fill(actuals)
    ensures AllFilled(ShiftAll(w, actuals))
    ensures Values(ShiftAll(w, actuals)) == actuals
  {
    ShiftAllSlides(w, actuals);
    assert w[|actuals|..] == [];
    assert ShiftAll(w, actuals) == Fill(actuals);
    ValuesFill(actuals);
  }
}
