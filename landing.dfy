/** The landing page: the "how it works" carousel of four cards moved by a
    step counter, the FAQ accordion with at most one open item, and the
    statistics counters that count up to their targets. */
module Landing {
  import opened Wrappers

  const LastStep := 3

  /** The distance between two cards: card width plus gap, 320 + 16 on a
      phone, 384 + 32 otherwise (CSS pixels). */
  function CardWidth(isMobile: bool): (w: int)
    ensures w == if isMobile then 336 else 416
  {
    if isMobile then 320 + 16 else 384 + 32
  }

  /** `toggleAccordion(index)`: closing the open item, or opening another. */
  function Toggled(active: Option<int>, index: int): (r: Option<int>)
    ensures r == Some(index) <==> active != Some(index)
    ensures r.None? <==> active == Some(index)
  {
    if active == Some(index) then None else Some(index)
  }

  /** Toggling the same item twice leaves it open if it was open and closes
      everything otherwise; toggling never opens anything but that item. */
  lemma ToggleTwice(active: Option<int>, index: int)
    ensures Toggled(Toggled(active, index), index) == (if active == Some(index) then Some(index) else None)
    ensures Toggled(active, index).Some? ==> Toggled(active, index).value == index
  {
  }

  // ----- counters -----

  /** `Math.floor(target * Math.min(elapsed / duration, 1))` in exact
      arithmetic: `Math.floor` of a quotient by a positive number is
      Dafny's `/`. */
  function CounterValue(target: nat, elapsed: int, duration: int): (v: int)
    requires duration > 0
    ensures elapsed >= duration ==> v == target
    ensures 0 <= elapsed ==> 0 <= v <= target
    ensures elapsed < duration ==> v * duration <= target * elapsed < (v + 1) * duration
  {
    if elapsed >= duration then target
    else
      var v := (target * elapsed) / duration;
      assert 0 <= elapsed ==> v <= target by {
        if 0 <= elapsed {
          assert target * elapsed <= target * duration;
          DivBelow(target * elapsed, target, duration);
        }
      }
      v
  }

  /** `a / d <= t` whenever `a <= t * d` and `d > 0`. */
  lemma DivBelow(a: int, t: nat, d: int)
    requires d > 0 && a <= t * d
    ensures a / d <= t
  {
  }

  /** The shown value never goes down as time goes on. */
  lemma {:induction false} CounterMonotone(target: nat, e1: int, e2: int, duration: int)
    requires duration > 0 && e1 <= e2
    ensures CounterValue(target, e1, duration) <= CounterValue(target, e2, duration)
  {
    if e2 < duration {
      MulMonotone(target, e1, e2);
      DivMonotone(target * e1, target * e2, duration);
    } else if e1 < duration {
      MulMonotone(target, e1, duration);
      DivBelow(target * e1, target, duration);
    }
  }

  lemma DivMonotone(a: int, b: int, d: int)
    requires d > 0 && a <= b
    ensures a / d <= b / d
  {
    var qa, qb := a / d, b / d;
    assert qa * d <= a;
    assert b < qb * d + d;
    assert (qb + 1 - qa) * d > 0;
    PositiveFactor(qb + 1 - qa, d);
  }

  lemma PositiveFactor(x: int, d: int)
    requires d > 0 && x * d > 0
    ensures x > 0
  {
  }

  /** Scaling by a natural number keeps the order. */
  lemma MulMonotone(t: nat, a: int, b: int)
    requires a <= b
    ensures t * a <= t * b
  {
  }

  /** `animateCounter(target, setter, duration)` started at `start`, run over
      the clock readings `frames` of successive calls of `animate` (the
      first call, then one per animation frame). `values` are the values
      given to the setter; a frame is requested again only while progress
      is below 1, so the run stops at the first reading a full duration
      after the start. */
  method AnimateCounter(target: nat, duration: int, start: int, frames: seq<int>) returns (values: seq<int>)
    requires duration > 0
    ensures |values| <= |frames|
    ensures forall k | 0 <= k < |values| :: values[k] == CounterValue(target, frames[k] - start, duration)
    ensures forall k | 0 <= k < |values| - 1 :: frames[k] - start < duration
    ensures |values| < |frames| ==> |values| > 0 && frames[|values| - 1] - start >= duration
    ensures (exists k | 0 <= k < |frames| :: frames[k] - start >= duration) ==>
      |values| > 0 && values[|values| - 1] == target
  {
    values := [];
    var i := 0;
    while i < |frames|
      invariant 0 <= i <= |frames| && |values| == i
      invariant forall k | 0 <= k < i :: values[k] == CounterValue(target, frames[k] - start, duration)
      invariant forall k | 0 <= k < i :: frames[k] - start < duration
    {
      var v := CounterValue(target, frames[i] - start, duration);
      values := values + [v];
      if frames[i] - start >= duration {
        return;
      }
      i := i + 1;
    }
  }

  /** Readings in clock order, none before the start, give a count that
      stays between 0 and the target and never goes down; a first reading
      taken in the same millisecond as the start shows 0. */
  lemma CountUpIsMonotone(target: nat, duration: int, start: int, frames: seq<int>, values: seq<int>)
    requires duration > 0
    requires forall k | 0 <= k < |frames| :: frames[k] >= start
    requires forall j, k | 0 <= j < k < |frames| :: frames[j] <= frames[k]
    requires |values| <= |frames|
    requires forall k | 0 <= k < |values| :: values[k] == CounterValue(target, frames[k] - start, duration)
    ensures forall k | 0 <= k < |values| :: 0 <= values[k] <= target
    ensures forall j, k | 0 <= j < k < |values| :: values[j] <= values[k]
    ensures |values| > 0 && frames[0] == start ==> values[0] == 0
  {
    forall j, k | 0 <= j < k < |values| ensures values[j] <= values[k] {
      CounterMonotone(target, frames[j] - start, frames[k] - start, duration);
    }
  }

  /** A counter of the statistics section: its target and duration. */
  datatype Counter = Counter(target: nat, duration: int)

  /** People exposed, kidney damage, neurological effects. */
  const Counters := [Counter(100000, 2000), Counter(35000, 2500), Counter(25000, 2500)]

  /** The page state the handlers and effects touch. `translateX` is the
      offset written to the container's style, in pixels; `hasContainer`
      says whether the container ref is set. */
  class LandingPage {
    const hasContainer: bool
    var currentStep: int
    var translateX: int
    var activeAccordion: Option<int>
    var hasAnimated: bool
    /** The counter animations started, in order. */
    var started: seq<Counter>

    /** The carousel shows one of its four cards. */
    predicate StepInRange()
      reads this
    {
      0 <= currentStep <= LastStep
    }

    constructor (hasContainer: bool)
      ensures this.hasContainer == hasContainer
      ensures currentStep == 0 && translateX == 0 && activeAccordion == None
      ensures !hasAnimated && started == []
      ensures StepInRange()
    {
      this.hasContainer := hasContainer;
      currentStep := 0;
      translateX := 0;
      activeAccordion := None;
      hasAnimated := false;
      started := [];
    }

    /** `scrollToStep(step)`: move the strip and the step, or nothing when
        there is no container. */
    method ScrollToStep(step: int, isMobile: bool)
      modifies this
      ensures hasContainer ==> currentStep == step && translateX == -step * CardWidth(isMobile)
      ensures !hasContainer ==> currentStep == old(currentStep) && translateX == old(translateX)
      ensures activeAccordion == old(activeAccordion) && hasAnimated == old(hasAnimated) && started == old(started)
    {
      if hasContainer {
        translateX := -step * CardWidth(isMobile);
        currentStep := step;
      }
    }

    /** `scrollLeft()`: one card back, unless on the first. */
    method ScrollLeft(isMobile: bool)
      modifies this
      ensures hasContainer && old(currentStep) > 0 ==>
        currentStep == old(currentStep) - 1 && translateX == -currentStep * CardWidth(isMobile)
      ensures !(hasContainer && old(currentStep) > 0) ==>
        currentStep == old(currentStep) && translateX == old(translateX)
      ensures old(StepInRange()) ==> StepInRange()
      ensures activeAccordion == old(activeAccordion) && hasAnimated == old(hasAnimated) && started == old(started)
    {
      if currentStep > 0 {
        ScrollToStep(currentStep - 1, isMobile);
      }
    }

    /** `scrollRight()`: one card on, unless on the last. */
    method ScrollRight(isMobile: bool)
      modifies this
      ensures hasContainer && old(currentStep) < LastStep ==>
        currentStep == old(currentStep) + 1 && translateX == -currentStep * CardWidth(isMobile)
      ensures !(hasContainer && old(currentStep) < LastStep) ==>
        currentStep == old(currentStep) && translateX == old(translateX)
      ensures old(StepInRange()) ==> StepInRange()
      ensures activeAccordion == old(activeAccordion) && hasAnimated == old(hasAnimated) && started == old(started)
    {
      if currentStep < LastStep {
        ScrollToStep(currentStep + 1, isMobile);
      }
    }

    /** `toggleAccordion(index)` */
    method ToggleAccordion(index: int)
      modifies this
      ensures activeAccordion == Toggled(old(activeAccordion), index)
      ensures currentStep == old(currentStep) && translateX == old(translateX)
      ensures hasAnimated == old(hasAnimated) && started == old(started)
    {
      activeAccordion := Toggled(activeAccordion, index);
    }

    /** The counters effect: the three animations start once, the first time
        it runs, and the flag stops them from starting again. */
    method StartCounters()
      modifies this
      ensures hasAnimated
      ensures started == if old(hasAnimated) then old(started) else old(started) + Counters
      ensures currentStep == old(currentStep) && translateX == old(translateX)
      ensures activeAccordion == old(activeAccordion)
    {
      if !hasAnimated {
        started := started + Counters;
        hasAnimated := true;
      }
    }
  }
}
