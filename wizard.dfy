/**
 * The two-step wizard (`TwoStepProcess`): a step counter clamped to {1, 2}
 * and the list of locations handed over by the upload step. The counter and
 * the list are component state, so they are the fields of a class; what is
 * drawn from them (the active view, the progress bar and the two buttons)
 * is a pure function of those fields.
 */
module Wizard {
  import opened Common

  /** What `renderStepContent` returns. */
  datatype View = UploadView | MapStepView(locations: seq<Location>) | NoView

  /** `nextStep`: one step forward, but never past the last step. */
  function Advance(step: int): (r: int)
    ensures r <= 2 && r <= step + 1
    ensures r == 2 || r == step + 1
  {
    if step + 1 < 2 then step + 1 else 2
  }

  /** `prevStep`: one step back, but never before the first step. */
  function Retreat(step: int): (r: int)
    ensures r >= 1 && r >= step - 1
    ensures r == 1 || r == step - 1
  {
    if step - 1 > 1 then step - 1 else 1
  }

  /** `renderStepContent`: the upload view on step 1, the map over the stored locations on step 2. */
  function RenderStepContent(step: int, locations: seq<Location>): (v: View)
    ensures v == UploadView <==> step == 1
    ensures v == MapStepView(locations) <==> step == 2
    ensures v.MapStepView? ==> v.locations == locations
    ensures v == NoView <==> step != 1 && step != 2
  {
    match step
    case 1 => UploadView
    case 2 => MapStepView(locations)
    case _ => NoView
  }

  /** The progress bar's value, in percent. */
  function Progress(step: int): (p: real)
    ensures p == 50.0 * step as real
    ensures step == 1 ==> p == 50.0
    ensures step == 2 ==> p == 100.0
  {
    (step as real / 2.0) * 100.0
  }

  /** The "Previous" button's `disabled` flag: set exactly where going back would not move the step. */
  predicate PreviousDisabled(step: int): (d: bool)
    ensures d <==> Retreat(step) == step
  {
    step == 1
  }

  /** The "Next" button's `disabled` flag: set exactly where going forward would not move the step. */
  predicate NextDisabled(step: int): (d: bool)
    ensures d <==> Advance(step) == step
  {
    step == 2
  }

  /**
   * Each button is disabled exactly where pressing it would not move the
   * wizard; in particular Next on step 1 is enabled and reaches step 2
   * whether or not an upload has completed.
   */
  lemma ButtonsDisabledExactlyWhereInert(step: int)
    requires step == 1 || step == 2
    ensures PreviousDisabled(step) <==> Retreat(step) == step
    ensures NextDisabled(step) <==> Advance(step) == step
    ensures step == 1 ==> !NextDisabled(step) && Advance(step) == 2
  {
  }

  /** On a reachable step the wizard always shows one of its two views. */
  lemma ReachableStepShowsAView(step: int, locations: seq<Location>)
    requires step == 1 || step == 2
    ensures RenderStepContent(step, locations) != NoView
    ensures Progress(step) == 50.0 || Progress(step) == 100.0
  {
  }

  // ---------------------------------------------------------------------
  // Sequences of user actions, as a reference semantics for the class below

  /** The three ways the wizard's state is changed. */
  datatype Action = Next | Previous | Receive(list: seq<Location>)

  datatype State = State(step: int, locations: seq<Location>)

  /** One action: the Next button, the Previous button, or the upload step's `onNext` callback. */
  function Apply(s: State, a: Action): (r: State)
    ensures (s.step == 1 || s.step == 2) ==> (r.step == 1 || r.step == 2) && -1 <= r.step - s.step <= 1
    ensures a.Receive? ==> r.locations == a.list
    ensures !a.Receive? ==> r.locations == s.locations
  {
    match a
    case Next => s.(step := Advance(s.step))
    case Previous => s.(step := Retreat(s.step))
    case Receive(list) => State(Advance(s.step), list)
  }

  /** The states visited by a sequence of actions, starting with `s` itself. */
  function Trace(s: State, acts: seq<Action>): (t: seq<State>)
    ensures |t| == |acts| + 1 && t[0] == s
    decreases acts
  {
    if acts == [] then [s] else [s] + Trace(Apply(s, acts[0]), acts[1..])
  }

  /** The list stored by the most recent `Receive` among `acts`, or `initial` if there is none. */
  function LastReceived(acts: seq<Action>, initial: seq<Location>): seq<Location>
  {
    if acts == [] then initial
    else if acts[|acts| - 1].Receive? then acts[|acts| - 1].list
    else LastReceived(acts[..|acts| - 1], initial)
  }

  /** The state after a whole sequence of actions. */
  function Run(s: State, acts: seq<Action>): State
  {
    if acts == [] then s else Apply(Run(s, acts[..|acts| - 1]), acts[|acts| - 1])
  }

  /**
   * From a state on step 1 or 2, every state along any sequence of
   * actions is again on step 1 or 2, and each action moves the step
   * by at most one.
   */
  lemma {:induction false} TraceStaysOnSteps(s: State, acts: seq<Action>)
    requires s.step == 1 || s.step == 2
    ensures forall i :: 0 <= i < |Trace(s, acts)| ==> Trace(s, acts)[i].step in {1, 2}
    ensures forall i :: 0 <= i < |acts| ==>
      -1 <= Trace(s, acts)[i + 1].step - Trace(s, acts)[i].step <= 1
    decreases acts
  {
    if acts != [] {
      var s' := Apply(s, acts[0]);
      TraceStaysOnSteps(s', acts[1..]);
      assert Trace(s, acts) == [s] + Trace(s', acts[1..]);
    }
  }

  /**
   * The stored locations are replaced wholesale by `Receive` and by
   * nothing else: going back (or forward with Next) never resets them.
   */
  lemma {:induction false} RunKeepsLastReceived(s: State, acts: seq<Action>)
    ensures Run(s, acts).locations == LastReceived(acts, s.locations)
  {
    if acts != [] {
      RunKeepsLastReceived(s, acts[..|acts| - 1]);
    }
  }

  /** The wizard component; `step` and `locations` are its React state. */
  class TwoStepProcess {
    var step: int
    var locations: seq<Location>

    ghost predicate Valid()
      reads this
    {
      step == 1 || step == 2
    }

    /** The initial state: step 1, no locations. */
    constructor ()
      ensures Valid()
      ensures step == 1 && locations == []
    {
      step := 1;
      locations := [];
    }

    /** The Next button. */
    method NextStep()
      requires Valid()
      modifies this
      ensures Valid()
      ensures step == Advance(old(step)) && locations == old(locations)
      ensures State(step, locations) == Apply(old(State(step, locations)), Next)
    {
      step := Advance(step);
    }

    /** The Previous button: the stored locations survive going back. */
    method PrevStep()
      requires Valid()
      modifies this
      ensures Valid()
      ensures step == Retreat(old(step)) && locations == old(locations)
      ensures State(step, locations) == Apply(old(State(step, locations)), Previous)
    {
      step := Retreat(step);
    }

    /** `handleNextStep`, the upload step's completion callback: store the list, then advance. */
    method HandleNextStep(list: seq<Location>)
      requires Valid()
      modifies this
      ensures Valid()
      ensures locations == list && step == Advance(old(step))
      ensures State(step, locations) == Apply(old(State(step, locations)), Receive(list))
    {
      locations := list;
      NextStep();
    }
  }
}
