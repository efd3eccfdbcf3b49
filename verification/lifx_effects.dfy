/** The flag effects of `LIFXService` (`setGreenFlag`, `setRedFlag`,
    `setSafetyCarFlag`, `setCheckeredFlag`) as a table from flag to an ordered
    list of steps, and the run of such a list, which stops at the first step
    that fails. */
module LifxEffects {
  import opened Base
  import opened LifxTypes
  import opened LifxRetry

  datatype Effect = Green(initial: bool) | Red | SafetyCar | Checkered

  /** A steady `setState`, a retried pulse POST (sent without a timeout),
      or a pause. */
  datatype Step = Apply(state: LightState) | PulseEffect(pulse: Pulse) | Hold(ms: nat)

  const GREEN := Color(120, 1000, 3500)

  /** The pulse that opens a red, safety car or checkered flag. */
  function PulseOf(e: Effect): Pulse
    requires !e.Green?
  {
    match e
    case Red => Pulse(PulseColor(0, 1000, 1000, 3500), PulseColor(0, 1000, 300, 3500), 500, 6, true)
    case SafetyCar => Pulse(PulseColor(60, 1000, 1000, 3500), PulseColor(60, 1000, 300, 3500), 500, 6, true)
    case Checkered => Pulse(PulseColor(0, 0, 1000, 9000), PulseColor(0, 0, 0, 2500), 300, 10, true)
  }

  /** The steady state a red, safety car or checkered flag settles on, at full
      brightness and without a transition time. */
  function SteadyOf(e: Effect): LightState
    requires !e.Green?
  {
    match e
    case Red => LightState(true, Color(0, 1000, 3500), 1000, None)
    case SafetyCar => LightState(true, Color(60, 1000, 3500), 1000, None)
    case Checkered => LightState(true, GREEN, 1000, None)
  }

  /** The step table: every flag ends in a steady `setState`, and all but
      the later green hold for 3000 ms before it. */
  function Steps(e: Effect): (r: seq<Step>)
    ensures |r| > 0 && r[|r| - 1].Apply?
    ensures e != Green(false) ==> |r| == 3 && r[1] == Hold(SETTLE_DELAY)
    ensures e.Green? ==> forall i | 0 <= i < |r| :: !r[i].PulseEffect?
  {
    match e
    case Green(true) =>
      [Apply(LightState(true, GREEN, 1000, Some(100))), Hold(SETTLE_DELAY), Apply(LightState(true, GREEN, 500, Some(2000)))]
    case Green(false) =>
      [Apply(LightState(true, GREEN, 500, Some(1000)))]
    case Red | SafetyCar | Checkered =>
      [PulseEffect(PulseOf(e)), Hold(SETTLE_DELAY), Apply(SteadyOf(e))]
  }

  /** One step. A failed `setState` has already been classified; a failed
      pulse has not. */
  function RunStep(selector: string, step: Step, token: Option<string>, net: Net): (Outcome<Thrown>, Net)
  {
    match step
    case Apply(st) => SetStateSpec(selector, st, token, net)
    case PulseEffect(p) =>
      var (a, n1) := RetrySpec(PostPulse(selector, p), None, token, net);
      (if a.Rejected? then Fail(a.error) else Pass, n1)
    case Hold(ms) => (Pass, Pause(ms, net))
  }

  /** The steps in order; the first failure ends the run and is passed on. */
  function RunSteps(selector: string, steps: seq<Step>, token: Option<string>, net: Net): (Outcome<Thrown>, Net)
    decreases |steps|
  {
    if steps == [] then (Pass, net)
    else
      var (o, n1) := RunStep(selector, steps[0], token, net);
      if o.Fail? then (o, n1) else RunSteps(selector, steps[1..], token, n1)
  }

  /** Classifies the failure of an outcome. */
  function Classified(o: Outcome<Thrown>): Outcome<Thrown>
  {
    if o.Fail? then Fail(HandleError(o.error)) else Pass
  }

  /** A flag method: its steps inside a `try` whose `catch` classifies. */
  function EffectSpec(selector: string, e: Effect, token: Option<string>, net: Net): (Outcome<Thrown>, Net)
  {
    var (o, n) := RunSteps(selector, Steps(e), token, net);
    (Classified(o), n)
  }

  // ---------------------------------------------------------------------

  /** Running two lists one after the other is running their concatenation:
      the second list starts only if the first passed. */
  lemma {:induction false} RunStepsAppend(selector: string, a: seq<Step>, b: seq<Step>, token: Option<string>, net: Net)
    ensures RunSteps(selector, a + b, token, net)
      == var (o, n) := RunSteps(selector, a, token, net);
         if o.Fail? then (o, n) else RunSteps(selector, b, token, n)
    decreases |a|
  {
    if a == [] {
      assert a + b == b;
    } else {
      assert (a + b)[0] == a[0];
      assert (a + b)[1..] == a[1..] + b;
      var (o, n1) := RunStep(selector, a[0], token, net);
      if !o.Fail? {
        RunStepsAppend(selector, a[1..], b, token, n1);
      }
    }
  }

  /** Red, safety car and checkered: the pulse, then (only if it succeeded) a
      3000 ms hold, then the steady `setState`; a failed pulse is classified
      and nothing after it is sent. */
  lemma PulseThenHoldThenSteady(selector: string, e: Effect, token: Option<string>, net: Net)
    requires !e.Green?
    ensures var (a, n1) := RetrySpec(PostPulse(selector, PulseOf(e)), None, token, net);
      EffectSpec(selector, e, token, net)
        == if a.Rejected? then (Fail(HandleError(a.error)), n1)
           else var (o, n2) := SetStateSpec(selector, SteadyOf(e), token, Pause(SETTLE_DELAY, n1));
                (Classified(o), n2)
  {
    var pulse, hold, steady := PulseEffect(PulseOf(e)), Hold(SETTLE_DELAY), Apply(SteadyOf(e));
    assert Steps(e) == [pulse] + ([hold] + [steady]);
    RunStepsAppend(selector, [pulse], [hold] + [steady], token, net);
    var (a, n1) := RetrySpec(PostPulse(selector, PulseOf(e)), None, token, net);
    assert RunStep(selector, pulse, token, net) == (if a.Rejected? then Fail(a.error) else Pass, n1);
    assert RunSteps(selector, [pulse], token, net) == (if a.Rejected? then Fail(a.error) else Pass, n1);
    if !a.Rejected? {
      RunStepsAppend(selector, [hold], [steady], token, n1);
      assert RunSteps(selector, [hold], token, n1) == (Pass, Pause(SETTLE_DELAY, n1));
      var (o, n2) := SetStateSpec(selector, SteadyOf(e), token, Pause(SETTLE_DELAY, n1));
      assert RunSteps(selector, [steady], token, Pause(SETTLE_DELAY, n1)) == (o, n2);
      assert RunSteps(selector, Steps(e), token, net) == (o, n2);
    }
  }

  /** The initial green: a full-brightness green over 0.1 s, then (only if it
      succeeded) a 3000 ms hold, then half brightness over 2 s. */
  lemma InitialGreenSequence(selector: string, token: Option<string>, net: Net)
    ensures var (o1, n1) := SetStateSpec(selector, LightState(true, GREEN, 1000, Some(100)), token, net);
      EffectSpec(selector, Green(true), token, net)
        == if o1.Fail? then (o1, n1)
           else SetStateSpec(selector, LightState(true, GREEN, 500, Some(2000)), token, Pause(SETTLE_DELAY, n1))
  {
    var first := Apply(LightState(true, GREEN, 1000, Some(100)));
    var hold := Hold(SETTLE_DELAY);
    var last := Apply(LightState(true, GREEN, 500, Some(2000)));
    assert Steps(Green(true)) == [first] + ([hold] + [last]);
    RunStepsAppend(selector, [first], [hold] + [last], token, net);
    var (o1, n1) := SetStateSpec(selector, first.state, token, net);
    assert RunSteps(selector, [first], token, net) == (o1, n1);
    if !o1.Fail? {
      RunStepsAppend(selector, [hold], [last], token, n1);
      assert RunSteps(selector, [hold], token, n1) == (Pass, Pause(SETTLE_DELAY, n1));
      var (o2, n2) := SetStateSpec(selector, last.state, token, Pause(SETTLE_DELAY, n1));
      assert RunSteps(selector, [last], token, Pause(SETTLE_DELAY, n1)) == (o2, n2);
      assert RunSteps(selector, Steps(Green(true)), token, net) == (o2, n2);
      assert o2.Fail? ==> HandleError(o2.error) == o2.error;
    } else {
      assert HandleError(o1.error) == o1.error;
    }
  }

  /** A green that is not the initial one is a single half-brightness
      `setState` over 1 s. */
  lemma LaterGreenIsOneCommand(selector: string, token: Option<string>, net: Net)
    ensures EffectSpec(selector, Green(false), token, net)
      == SetStateSpec(selector, LightState(true, GREEN, 500, Some(1000)), token, net)
  {
    var (o, n) := SetStateSpec(selector, LightState(true, GREEN, 500, Some(1000)), token, net);
    assert RunSteps(selector, Steps(Green(false)), token, net) == (o, n);
    assert o.Fail? ==> HandleError(o.error) == o.error;
  }

  /** When the pulse fails nothing but pulse requests (each without a
      timeout) and retry pauses are recorded: the steady state is never sent. */
  lemma FailedPulseSendsNoSteadyState(selector: string, e: Effect, token: Option<string>, net: Net)
    requires !e.Green? && Present(token)
    requires RetrySpec(PostPulse(selector, PulseOf(e)), None, token, net).0.Rejected?
    ensures var n := EffectSpec(selector, e, token, net).1;
      && |net.trace| <= |n.trace|
      && n.trace[..|net.trace|] == net.trace
      && forall ev | ev in n.trace[|net.trace|..] ::
           ev.Waited? || (ev.Sent? && ev.req.call == PostPulse(selector, PulseOf(e)) && ev.req.timeoutMs == None)
  {
    PulseThenHoldThenSteady(selector, e, token, net);
    RetryFollowsSchedule(PostPulse(selector, PulseOf(e)), None, token, net);
    var n1 := RetrySpec(PostPulse(selector, PulseOf(e)), None, token, net).1;
    var req := Request(PostPulse(selector, PulseOf(e)), token.value, None);
    var k := n1.retryCount - net.retryCount;
    ScheduleSendsOnlyItsRequest(req, net.retryCount, k);
    assert n1.trace[|net.trace|..] == Schedule(req, net.retryCount, k);
  }

  /** The checkered flag ends on steady green, the "track clear" colour. */
  lemma CheckeredEndsGreen()
    ensures Steps(Checkered)[|Steps(Checkered)| - 1] == Apply(LightState(true, Color(120, 1000, 3500), 1000, None))
  {
  }
}
