/** The first-run walkthrough: three pages, a row of progress dots and one button that either
    moves to the next page or, on the last page, reports completion to the shell. */
module Onboarding {
  import opened Types

  /** Welcome, what ppm means, and real-time alerts. */
  const StepCount := 3

  /** The progress dots: dot `i` is the wide, dark one iff it is the current page. */
  function Dots(step: nat): (r: seq<bool>)
    ensures |r| == StepCount
    ensures forall i :: 0 <= i < StepCount ==> (r[i] <==> i == step)
  {
    seq(StepCount, i => i == step)
  }

  /** The number of highlighted dots. */
  function HighlightedCount(dots: seq<bool>): nat
  {
    if dots == [] then 0 else (if dots[0] then 1 else 0) + HighlightedCount(dots[1..])
  }

  /** Dots with one highlighted position highlight exactly one. */
  lemma {:induction false} HighlightedOne(dots: seq<bool>, k: nat)
    requires k < |dots|
    requires forall i :: 0 <= i < |dots| ==> (dots[i] <==> i == k)
    ensures HighlightedCount(dots) == 1
  {
    if k == 0 {
      HighlightedNone(dots[1..]);
    } else {
      HighlightedOne(dots[1..], k - 1);
    }
  }

  lemma {:induction false} HighlightedNone(dots: seq<bool>)
    requires forall i :: 0 <= i < |dots| ==> !dots[i]
    ensures HighlightedCount(dots) == 0
  {
    if dots != [] {
      HighlightedNone(dots[1..]);
    }
  }

  /** On every page exactly one dot is highlighted, and it is the current one. */
  lemma OneDotPerPage(step: nat)
    requires step < StepCount
    ensures HighlightedCount(Dots(step)) == 1 && Dots(step)[step]
  {
    HighlightedOne(Dots(step), step);
  }

  /** The button reads "Next" until the last page, where it reads "Get Started". */
  function ButtonCaption(lang: Language, step: nat): (r: string)
    ensures r == "Get Started" <==> lang == EN && step == StepCount - 1
    ensures r == "सुरु गरौं" <==> lang == NP && step == StepCount - 1
    ensures r == "Next" <==> lang == EN && step != StepCount - 1
    ensures r == "अर्को" <==> lang == NP && step != StepCount - 1
  {
    match lang
    case EN => if step == StepCount - 1 then "Get Started" else "Next"
    case NP => if step == StepCount - 1 then "सुरु गरौं" else "अर्को"
  }

  class Wizard {
    var step: nat

    ghost predicate Valid()
      reads this
    {
      step < StepCount
    }

    /** The walkthrough opens on its first page. */
    constructor()
      ensures step == 0 && Valid()
    {
      step := 0;
    }

    /** The button: before the last page it advances one page; on the last page it stays
        there and reports completion. */
    method Press() returns (completes: bool)
      requires Valid()
      modifies this`step
      ensures Valid()
      ensures completes <==> old(step) == StepCount - 1
      ensures completes ==> step == old(step)
      ensures !completes ==> step == old(step) + 1
    {
      if step < StepCount - 1 {
        step := step + 1;
        completes := false;
      } else {
        completes := true;
      }
    }
  }

  /** Three presses walk the three pages: the first two advance and show "Next", the third
      is pressed under "Get Started" and completes. */
  method Walkthrough() returns (first: bool, second: bool, third: bool, captions: seq<string>)
    ensures !first && !second && third
    ensures captions == ["Next", "Next", "Get Started"]
  {
    var w := new Wizard();
    captions := [ButtonCaption(EN, w.step)];
    first := w.Press();
    captions := captions + [ButtonCaption(EN, w.step)];
    second := w.Press();
    captions := captions + [ButtonCaption(EN, w.step)];
    third := w.Press();
  }
}
