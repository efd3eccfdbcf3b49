/** The stateful side of `LIFXService`: the credential, the connection
    monitor and the reconnect loop. The pure specifications come first; the
    class `LifxService` at the end changes its fields step by step and is
    proved to end in the state the specifications give. */
module LifxService {
  import opened Base
  import opened LifxTypes
  import opened LifxRetry
  import opened LifxEffects

  /** Everything the service holds. `stored` is the `lifx_token` entry of
      local storage. `timer` is the handle of the monitor interval the
      service remembers, `liveTimers` the intervals actually scheduled, and
      `nextTimer` the handle the next `setInterval` will return. */
  datatype Svc = Svc(
    token: Option<string>,
    stored: Option<string>,
    connectionAttempts: nat,
    isReconnecting: bool,
    timer: Option<nat>,
    liveTimers: set<nat>,
    nextTimer: nat,
    net: Net)

  /** `getToken`: the field when it is truthy, else the stored credential. */
  function TokenOf(s: Svc): (r: Option<string>)
    ensures Present(r) <==> Present(s.token) || Present(s.stored)
    ensures Present(s.token) ==> r == s.token
    ensures !Present(s.token) ==> r == s.stored
  {
    if Present(s.token) then s.token else s.stored
  }

  /** `stopConnectionMonitor`: clears the remembered interval, if any. */
  function StopMonitorSpec(s: Svc): Svc
  {
    if s.timer.Some? then s.(liveTimers := s.liveTimers - {s.timer.value}, timer := None)
    else s
  }

  /** `startConnectionMonitor`: stops the old interval, then schedules a new one. */
  function StartMonitorSpec(s: Svc): Svc
  {
    var s1 := StopMonitorSpec(s);
    s1.(timer := Some(s1.nextTimer), liveTimers := s1.liveTimers + {s1.nextTimer}, nextTimer := s1.nextTimer + 1)
  }

  /** `setToken`: resets both counters; a truthy credential is stored and
      starts the monitor, anything else is removed and stops it. */
  function SetTokenSpec(s: Svc, t: Option<string>): Svc
  {
    var s1 := s.(token := t, connectionAttempts := 0, net := s.net.(retryCount := 0));
    if Present(t) then StartMonitorSpec(s1.(stored := t))
    else StopMonitorSpec(s1.(stored := None))
  }

  /** `disconnect`: forgets the credential everywhere, stops the monitor and
      resets the reconnect counter. */
  function DisconnectSpec(s: Svc): Svc
  {
    StopMonitorSpec(s.(token := None, stored := None)).(connectionAttempts := 0)
  }

  /** `Math.min(5000 * 2^(n-1), 30000)`. */
  function Backoff(attempts: nat): (r: nat)
    requires attempts >= 1
    ensures r <= RECONNECT_DELAY_CAP
    ensures attempts == 1 ==> r == RECONNECT_DELAY
  {
    var d := RECONNECT_DELAY * Pow2(attempts - 1);
    if d < RECONNECT_DELAY_CAP then d else RECONNECT_DELAY_CAP
  }

  /** The outcome of a reconnect: the final state, how many `getLights`
      probes were made and the pauses taken between them. */
  datatype ReconnectRun = ReconnectRun(state: Svc, probes: nat, pauses: seq<nat>)

  /** The `while` loop of `attemptReconnect`, with `return` after `disconnect`. */
  function ReconnectLoop(s: Svc, backoff: nat): ReconnectRun
    decreases MAX_RECONNECT_ATTEMPTS - s.connectionAttempts
  {
    if s.connectionAttempts >= MAX_RECONNECT_ATTEMPTS then ReconnectRun(s, 0, [])
    else
      var (r, n) := GetLightsSpec(TokenOf(s), s.net);
      if r.Success? then
        ReconnectRun(s.(net := n, isReconnecting := false, connectionAttempts := 0), 1, [])
      else
        var s1 := s.(net := n, connectionAttempts := s.connectionAttempts + 1);
        if s1.connectionAttempts == MAX_RECONNECT_ATTEMPTS then
          ReconnectRun(DisconnectSpec(s1), 1, [])
        else
          var rest := ReconnectLoop(s1.(net := Pause(backoff, s1.net)), backoff);
          ReconnectRun(rest.state, rest.probes + 1, [backoff] + rest.pauses)
  }

  /** One pass of the loop, given the probe's result `r` and network `n`. */
  lemma ReconnectLoopStep(s: Svc, backoff: nat, r: Result<seq<Device>, Thrown>, n: Net)
    requires s.connectionAttempts < MAX_RECONNECT_ATTEMPTS
    requires (r, n) == GetLightsSpec(TokenOf(s), s.net)
    ensures r.Success? ==>
      ReconnectLoop(s, backoff).state == s.(net := n, isReconnecting := false, connectionAttempts := 0)
    ensures r.Failure? && s.connectionAttempts + 1 == MAX_RECONNECT_ATTEMPTS ==>
      ReconnectLoop(s, backoff).state == DisconnectSpec(s.(net := n, connectionAttempts := s.connectionAttempts + 1))
    ensures r.Failure? && s.connectionAttempts + 1 < MAX_RECONNECT_ATTEMPTS ==>
      ReconnectLoop(s, backoff).state
        == ReconnectLoop(s.(net := Pause(backoff, n), connectionAttempts := s.connectionAttempts + 1), backoff).state
  {
  }

  /** `attemptReconnect`: one more attempt is counted, the backoff is fixed
      from that count, then the loop runs. */
  function ReconnectSpec(s: Svc): ReconnectRun
  {
    var s1 := s.(connectionAttempts := s.connectionAttempts + 1);
    ReconnectLoop(s1, Backoff(s1.connectionAttempts))
  }

  /** One firing of the monitor interval: nothing without a truthy `token`
      field or while a reconnect is under way; otherwise a `getLights` whose
      failure starts a reconnect. */
  function TickSpec(s: Svc): Svc
  {
    if !Present(s.token) || s.isReconnecting then s
    else
      var (r, n) := GetLightsSpec(TokenOf(s), s.net);
      if r.Success? then s.(net := n, connectionAttempts := 0)
      else ReconnectSpec(s.(net := n, isReconnecting := true)).state
  }

  /** At most one monitor interval is live, and it is the remembered one. */
  predicate MonitorSound(s: Svc)
  {
    && s.liveTimers == (if s.timer.Some? then {s.timer.value} else {})
    && (s.timer.Some? ==> s.timer.value < s.nextTimer)
  }

  /** The state between calls: the monitor is sound and no reconnect count
      is pending. */
  predicate Consistent(s: Svc)
  {
    MonitorSound(s) && s.connectionAttempts == 0
  }

  // ---------------------------------------------------------------------
  // The loop as written

  /** The `while` loop of `attemptReconnect` exactly as written: after
      `disconnect` the loop test is evaluated again. `fuel` bounds the number
      of iterations looked at; the flag says whether the loop was left. As
      written the loop is never left by giving up: it ends only when a probe
      succeeds, or at once when entered at the limit. */
  function AsWrittenReconnectLoop(s: Svc, backoff: nat, fuel: nat): (r: (bool, Svc))
    ensures r.0 ==> (s.connectionAttempts >= MAX_RECONNECT_ATTEMPTS && r.1 == s)
                    || (!r.1.isReconnecting && r.1.connectionAttempts == 0)
    decreases fuel
  {
    if fuel == 0 then (false, s)
    else if s.connectionAttempts >= MAX_RECONNECT_ATTEMPTS then (true, s)
    else
      var (r, n) := GetLightsSpec(TokenOf(s), s.net);
      if r.Success? then (true, s.(net := n, isReconnecting := false, connectionAttempts := 0))
      else
        var s1 := s.(net := n, connectionAttempts := s.connectionAttempts + 1);
        if s1.connectionAttempts == MAX_RECONNECT_ATTEMPTS then
          AsWrittenReconnectLoop(DisconnectSpec(s1), backoff, fuel - 1)
        else
          AsWrittenReconnectLoop(s1.(net := Pause(backoff, s1.net)), backoff, fuel - 1)
  }

  /** Once the credential is gone and the counter is below the limit, the
      loop as written never leaves: every probe throws before sending,
      `disconnect` puts the counter back to 0 and the test passes again. */
  lemma {:induction false} CredentialLessLoopSpins(s: Svc, backoff: nat, fuel: nat)
    requires !Present(TokenOf(s)) && s.connectionAttempts < MAX_RECONNECT_ATTEMPTS
    ensures !AsWrittenReconnectLoop(s, backoff, fuel).0
    decreases fuel
  {
    if fuel > 0 {
      MissingTokenSendsNothing(ListLights, Some(REQUEST_TIMEOUT), TokenOf(s), s.net);
      var n := s.net;
      var s1 := s.(net := n, connectionAttempts := s.connectionAttempts + 1);
      if s1.connectionAttempts == MAX_RECONNECT_ATTEMPTS {
        CredentialLessLoopSpins(DisconnectSpec(s1), backoff, fuel - 1);
      } else {
        CredentialLessLoopSpins(s1.(net := Pause(backoff, s1.net)), backoff, fuel - 1);
      }
    }
  }

  /** A rejected 401 answer. */
  predicate Unauthorized(a: Answer)
  {
    a.Rejected? && a.error.AxiosErr? && a.error.responseStatus == Some(401)
  }

  /** A reconnect that meets only 401s, one per remaining attempt, never
      ends as written: after the last one `disconnect` runs and the loop
      goes on without a credential. */
  lemma {:induction false} AsWrittenReconnectNeverStops(s: Svc, backoff: nat, fuel: nat)
    requires Present(TokenOf(s)) && s.connectionAttempts < MAX_RECONNECT_ATTEMPTS
    requires MAX_RECONNECT_ATTEMPTS - s.connectionAttempts <= |s.net.answers|
    requires forall i | 0 <= i < MAX_RECONNECT_ATTEMPTS - s.connectionAttempts :: Unauthorized(s.net.answers[i])
    ensures !AsWrittenReconnectLoop(s, backoff, fuel).0
    decreases fuel
  {
    if fuel > 0 {
      var tok := TokenOf(s);
      assert Head(s.net.answers) == s.net.answers[0];
      NotRetriedUnlessTransient(ListLights, Some(REQUEST_TIMEOUT), tok, s.net);
      var (r, n) := GetLightsSpec(tok, s.net);
      assert r.Failure?;
      var s1 := s.(net := n, connectionAttempts := s.connectionAttempts + 1);
      if s1.connectionAttempts == MAX_RECONNECT_ATTEMPTS {
        CredentialLessLoopSpins(DisconnectSpec(s1), backoff, fuel - 1);
      } else {
        var s2 := s1.(net := Pause(backoff, s1.net));
        assert s2.net.answers == s.net.answers[1..];
        AsWrittenReconnectNeverStops(s2, backoff, fuel - 1);
      }
    }
  }

  /** The first monitor tick after a failed check, from a consistent state
      whose next five answers are 401s, enters `attemptReconnect` and, as
      written, never comes back. */
  lemma AsWrittenTickNeverReturns(s: Svc, fuel: nat)
    requires Consistent(s) && Present(s.token) && !s.isReconnecting
    requires |s.net.answers| >= 5 && forall i | 0 <= i < 5 :: Unauthorized(s.net.answers[i])
    ensures var (r, n) := GetLightsSpec(TokenOf(s), s.net);
      && r.Failure?
      && var s1 := s.(net := n, isReconnecting := true, connectionAttempts := 1);
         !AsWrittenReconnectLoop(s1, Backoff(1), fuel).0
  {
    var tok := TokenOf(s);
    assert Head(s.net.answers) == s.net.answers[0];
    NotRetriedUnlessTransient(ListLights, Some(REQUEST_TIMEOUT), tok, s.net);
    var (r, n) := GetLightsSpec(tok, s.net);
    var s1 := s.(net := n, isReconnecting := true, connectionAttempts := 1);
    assert s1.net.answers == s.net.answers[1..];
    AsWrittenReconnectNeverStops(s1, Backoff(1), fuel);
  }

  // ---------------------------------------------------------------------
  // The corrected loop

  /** The loop ends in one of two ways: a probe succeeds, which clears
      `isReconnecting` and the counter and keeps the credential and monitor;
      or the counter reaches 5, which disconnects and leaves `isReconnecting`
      as it was. A loop that starts at the limit changes nothing. */
  lemma {:induction false} ReconnectLoopEnds(s: Svc, backoff: nat)
    ensures var r := ReconnectLoop(s, backoff).state;
      || (s.connectionAttempts >= MAX_RECONNECT_ATTEMPTS && r == s)
      || (&& s.connectionAttempts < MAX_RECONNECT_ATTEMPTS
          && !r.isReconnecting && r.connectionAttempts == 0
          && r.token == s.token && r.stored == s.stored
          && r.timer == s.timer && r.liveTimers == s.liveTimers && r.nextTimer == s.nextTimer
          && r.net.retryCount == 0)
      || (&& s.connectionAttempts < MAX_RECONNECT_ATTEMPTS
          && r.isReconnecting == s.isReconnecting && r.connectionAttempts == 0
          && r.token == None && r.stored == None && r.timer == None
          && r.liveTimers == StopMonitorSpec(s).liveTimers && r.nextTimer == s.nextTimer)
    decreases MAX_RECONNECT_ATTEMPTS - s.connectionAttempts
  {
    if s.connectionAttempts < MAX_RECONNECT_ATTEMPTS {
      var (r, n) := GetLightsSpec(TokenOf(s), s.net);
      if !r.Success? {
        var s1 := s.(net := n, connectionAttempts := s.connectionAttempts + 1);
        if s1.connectionAttempts < MAX_RECONNECT_ATTEMPTS {
          ReconnectLoopEnds(s1.(net := Pause(backoff, s1.net)), backoff);
        }
      }
    }
  }

  /** The loop probes at most once per remaining attempt, pauses between
      consecutive probes and nowhere else, and every pause is the one
      backoff fixed before the loop. */
  lemma {:induction false} ReconnectLoopProbes(s: Svc, backoff: nat)
    ensures var run := ReconnectLoop(s, backoff);
      && (s.connectionAttempts < MAX_RECONNECT_ATTEMPTS ==>
            1 <= run.probes <= MAX_RECONNECT_ATTEMPTS - s.connectionAttempts)
      && (s.connectionAttempts >= MAX_RECONNECT_ATTEMPTS ==> run.probes == 0)
      && |run.pauses| + 1 >= run.probes && |run.pauses| <= run.probes
      && (run.probes > 0 ==> |run.pauses| + 1 == run.probes)
      && forall i | 0 <= i < |run.pauses| :: run.pauses[i] == backoff
    decreases MAX_RECONNECT_ATTEMPTS - s.connectionAttempts
  {
    if s.connectionAttempts < MAX_RECONNECT_ATTEMPTS {
      var (r, n) := GetLightsSpec(TokenOf(s), s.net);
      if !r.Success? {
        var s1 := s.(net := n, connectionAttempts := s.connectionAttempts + 1);
        if s1.connectionAttempts < MAX_RECONNECT_ATTEMPTS {
          ReconnectLoopProbes(s1.(net := Pause(backoff, s1.net)), backoff);
        }
      }
    }
  }

  /** A record extended by `e`, a wait and `rest`: its old part is a prefix
      and the new part is their concatenation. */
  lemma ExtendedRecord(p: seq<Event>, e: seq<Event>, w: Event, rest: seq<Event>)
    ensures var t := (p + e + [w]) + rest;
      |p| <= |t| && t[..|p|] == p && t[|p|..] == e + [w] + rest
  {
    var t := (p + e + [w]) + rest;
    assert t == p + (e + [w] + rest);
  }

  /** The loop unfolded once, for a loop entered below the limit. */
  lemma ReconnectLoopUnfold(s: Svc, backoff: nat)
    requires s.connectionAttempts < MAX_RECONNECT_ATTEMPTS
    ensures var (r, n) := GetLightsSpec(TokenOf(s), s.net);
      var s2 := s.(net := Pause(backoff, n), connectionAttempts := s.connectionAttempts + 1);
      var run := ReconnectLoop(s, backoff);
      if r.Failure? && s.connectionAttempts + 1 < MAX_RECONNECT_ATTEMPTS
      then run.state == ReconnectLoop(s2, backoff).state && run.pauses == [backoff] + ReconnectLoop(s2, backoff).pauses
      else run.state.net == n && run.pauses == []
  {
  }

  /** What the loop adds to the record: `getLights` requests, the retry
      pauses inside them, and waits of the one backoff fixed before the loop. */
  lemma {:induction false} ReconnectLoopTrace(s: Svc, backoff: nat)
    ensures var t := ReconnectLoop(s, backoff).state.net.trace;
      && |s.net.trace| <= |t| && t[..|s.net.trace|] == s.net.trace
      && forall ev | ev in t[|s.net.trace|..] ::
           (ev.Sent? && ev.req.call == ListLights) || ev == Waited(backoff) || RetryWait(ev)
    decreases MAX_RECONNECT_ATTEMPTS - s.connectionAttempts
  {
    var p := s.net.trace;
    if s.connectionAttempts >= MAX_RECONNECT_ATTEMPTS {
      assert ReconnectLoop(s, backoff).state.net.trace[|p|..] == [];
    } else {
      var (r, n) := GetLightsSpec(TokenOf(s), s.net);
      GetLightsEvents(TokenOf(s), s.net);
      ReconnectLoopUnfold(s, backoff);
      var e := n.trace[|p|..];
      assert n.trace == p + e;
      if r.Failure? && s.connectionAttempts + 1 < MAX_RECONNECT_ATTEMPTS {
        var s2 := s.(net := Pause(backoff, n), connectionAttempts := s.connectionAttempts + 1);
        ReconnectLoopTrace(s2, backoff);
        var rest := ReconnectLoop(s2, backoff).state.net.trace[|s2.net.trace|..];
        assert ReconnectLoop(s2, backoff).state.net.trace == (p + e + [Waited(backoff)]) + rest;
        ExtendedRecord(p, e, Waited(backoff), rest);
      }
    }
  }

  /** The waits of the backoff the loop adds are exactly its pauses between
      probes, when the backoff differs from every retry pause. */
  lemma {:induction false} ReconnectLoopWaits(s: Svc, backoff: nat)
    requires backoff != 2000 && backoff != 4000 && backoff != 8000
    ensures var t := ReconnectLoop(s, backoff).state.net.trace;
      |s.net.trace| <= |t| && Waits(t[|s.net.trace|..], backoff) == |ReconnectLoop(s, backoff).pauses|
    decreases MAX_RECONNECT_ATTEMPTS - s.connectionAttempts
  {
    var p := s.net.trace;
    ReconnectLoopTrace(s, backoff);
    if s.connectionAttempts >= MAX_RECONNECT_ATTEMPTS {
      assert ReconnectLoop(s, backoff).state.net.trace[|p|..] == [];
    } else {
      var (r, n) := GetLightsSpec(TokenOf(s), s.net);
      GetLightsEvents(TokenOf(s), s.net);
      ReconnectLoopUnfold(s, backoff);
      var e := n.trace[|p|..];
      assert n.trace == p + e;
      if r.Failure? && s.connectionAttempts + 1 < MAX_RECONNECT_ATTEMPTS {
        var s2 := s.(net := Pause(backoff, n), connectionAttempts := s.connectionAttempts + 1);
        ReconnectLoopTrace(s2, backoff);
        ReconnectLoopWaits(s2, backoff);
        var rest := ReconnectLoop(s2, backoff).state.net.trace[|s2.net.trace|..];
        assert ReconnectLoop(s2, backoff).state.net.trace == (p + e + [Waited(backoff)]) + rest;
        ExtendedRecord(p, e, Waited(backoff), rest);
        WaitsAppend(e, [Waited(backoff)], backoff);
        WaitsAppend(e + [Waited(backoff)], rest, backoff);
        assert Waits([Waited(backoff)], backoff) == 1 by {
          assert [Waited(backoff)][1..] == [];
        }
      }
    }
  }

  /** Started from a zero counter (as the monitor always does) a reconnect
      makes between one and four probes, with a pause of 5000 ms between
      consecutive ones, and ends either restored or disconnected. */
  lemma ReconnectFromZero(s: Svc)
    requires s.connectionAttempts == 0
    ensures var run := ReconnectSpec(s);
      && 1 <= run.probes <= 4
      && |run.pauses| + 1 == run.probes
      && (forall i | 0 <= i < |run.pauses| :: run.pauses[i] == RECONNECT_DELAY)
      && |s.net.trace| <= |run.state.net.trace| && run.state.net.trace[..|s.net.trace|] == s.net.trace
      && Waits(run.state.net.trace[|s.net.trace|..], RECONNECT_DELAY) == |run.pauses|
      && (forall ev | ev in run.state.net.trace[|s.net.trace|..] ::
            (ev.Sent? && ev.req.call == ListLights) || ev == Waited(RECONNECT_DELAY) || RetryWait(ev))
      && run.state.connectionAttempts == 0
      && (|| (!run.state.isReconnecting && run.state.token == s.token && run.state.timer == s.timer)
          || (run.state.isReconnecting == s.isReconnecting && run.state.token == None
              && run.state.stored == None && run.state.timer == None))
  {
    var s1 := s.(connectionAttempts := 1);
    ReconnectLoopProbes(s1, Backoff(1));
    ReconnectLoopEnds(s1, Backoff(1));
    ReconnectLoopTrace(s1, Backoff(1));
    ReconnectLoopWaits(s1, Backoff(1));
  }

  /** Every backoff is capped at 30 s. */
  lemma BackoffCapped(attempts: nat)
    requires attempts >= 1
    ensures Backoff(attempts) <= 30000
    ensures attempts <= 3 ==> Backoff(attempts) == 5000 * Pow2(attempts - 1)
    ensures attempts >= 4 ==> Backoff(attempts) == 30000
  {
    if attempts >= 4 {
      PowGrows(attempts - 1, 3);
    }
  }

  lemma {:induction false} PowGrows(n: nat, m: nat)
    requires m <= n
    ensures Pow2(m) <= Pow2(n)
    decreases n
  {
    if m < n {
      PowGrows(n - 1, m);
    }
  }

  // ---------------------------------------------------------------------
  // The monitor

  /** The tick is a no-op without a truthy `token` field or while a
      reconnect is under way. */
  lemma TickNoOp(s: Svc)
    requires !Present(s.token) || s.isReconnecting
    ensures TickSpec(s) == s
  {
  }

  /** Starting the monitor twice leaves exactly one interval live. */
  lemma StartMonitorKeepsOne(s: Svc)
    requires MonitorSound(s)
    ensures var s1 := StartMonitorSpec(s);
      MonitorSound(s1) && s1.timer.Some? && |s1.liveTimers| == 1
    ensures var s2 := StartMonitorSpec(StartMonitorSpec(s));
      MonitorSound(s2) && |s2.liveTimers| == 1 && StartMonitorSpec(s).timer.value !in s2.liveTimers
  {
  }

  /** `setToken` with a truthy credential stores it and runs the monitor;
      with anything else it clears the storage and stops the monitor. Both
      counters are zero afterwards and the monitor stays sound. */
  lemma SetTokenEffect(s: Svc, t: Option<string>)
    requires MonitorSound(s)
    ensures var r := SetTokenSpec(s, t);
      && r.token == t && r.connectionAttempts == 0 && r.net.retryCount == 0
      && MonitorSound(r)
      && (Present(t) ==> r.stored == t && r.timer.Some? && TokenOf(r) == t)
      && (!Present(t) ==> r.stored == None && r.timer == None && r.liveTimers == {} && !Present(TokenOf(r)))
      && r.isReconnecting == s.isReconnecting && r.net.answers == s.net.answers && r.net.trace == s.net.trace
  {
  }

  /** `disconnect` clears the credential everywhere and stops the monitor;
      it touches neither the network nor `isReconnecting`. */
  lemma DisconnectEffect(s: Svc)
    requires MonitorSound(s)
    ensures var r := DisconnectSpec(s);
      && r.token == None && r.stored == None && !Present(TokenOf(r))
      && r.timer == None && r.liveTimers == {} && r.connectionAttempts == 0
      && r.net == s.net && r.isReconnecting == s.isReconnecting
      && Consistent(r)
  {
  }

  /** A tick keeps a consistent state consistent. */
  lemma TickKeepsConsistent(s: Svc)
    requires Consistent(s)
    ensures Consistent(TickSpec(s))
  {
    if Present(s.token) && !s.isReconnecting {
      var (r, n) := GetLightsSpec(TokenOf(s), s.net);
      if !r.Success? {
        var s0 := s.(net := n, isReconnecting := true);
        ReconnectFromZero(s0);
        ReconnectLoopEnds(s0.(connectionAttempts := 1), Backoff(1));
      }
    }
  }

  /** The quirk of a reconnect that gives up: `isReconnecting` stays set, so
      after a later `setToken` the new monitor's ticks do nothing at all. */
  lemma ExhaustedReconnectSilencesMonitor(s: Svc, t: Option<string>)
    requires Consistent(s) && Present(s.token) && !s.isReconnecting
    requires TickSpec(s).token == None
    ensures TickSpec(s).isReconnecting
    ensures var s2 := SetTokenSpec(TickSpec(s), t);
      TickSpec(s2) == s2
  {
    var (r, n) := GetLightsSpec(TokenOf(s), s.net);
    var s0 := s.(net := n, isReconnecting := true);
    ReconnectLoopEnds(s0.(connectionAttempts := 1), Backoff(1));
  }

  // ---------------------------------------------------------------------
  // The service object

  /** `LIFXService` with its fields. The network is the script of answers
      still to come and the record of what was sent and waited. */
  class LifxService {
    var token: Option<string>
    var stored: Option<string>
    var retryCount: nat
    var connectionAttempts: nat
    var isReconnecting: bool
    var reconnectTimeout: Option<nat>
    var liveTimers: set<nat>
    var nextTimerId: nat
    var answers: seq<Answer>
    var trace: seq<Event>

    /** The part of the state a network exchange touches. */
    function Wire(): Net
      reads this
    {
      Net(retryCount, answers, trace)
    }

    function Snapshot(): Svc
      reads this
    {
      Svc(token, stored, connectionAttempts, isReconnecting, reconnectTimeout, liveTimers, nextTimerId, Wire())
    }

    /** A fresh service: no credential in the field, whatever local storage
        held, and no monitor running. */
    constructor (saved: Option<string>, script: seq<Answer>)
      ensures Snapshot() == Svc(None, saved, 0, false, None, {}, 0, Net(0, script, []))
      ensures Consistent(Snapshot())
    {
      token := None;
      stored := saved;
      retryCount := 0;
      connectionAttempts := 0;
      isReconnecting := false;
      reconnectTimeout := None;
      liveTimers := {};
      nextTimerId := 0;
      answers := script;
      trace := [];
    }

    method GetToken() returns (t: Option<string>)
      ensures t == TokenOf(Snapshot())
      ensures Present(t) <==> Present(token) || Present(stored)
    {
      t := if Present(token) then token else stored;
    }

    method SetToken(t: Option<string>)
      modifies this
      ensures Snapshot() == SetTokenSpec(old(Snapshot()), t)
    {
      token := t;
      retryCount := 0;
      connectionAttempts := 0;
      if Present(t) {
        stored := t;
        StartConnectionMonitor();
      } else {
        stored := None;
        StopConnectionMonitor();
      }
    }

    method Disconnect()
      modifies this
      ensures Snapshot() == DisconnectSpec(old(Snapshot()))
    {
      token := None;
      stored := None;
      StopConnectionMonitor();
      connectionAttempts := 0;
    }

    method StartConnectionMonitor()
      modifies this
      ensures Snapshot() == StartMonitorSpec(old(Snapshot()))
    {
      StopConnectionMonitor();
      reconnectTimeout := Some(nextTimerId);
      liveTimers := liveTimers + {nextTimerId};
      nextTimerId := nextTimerId + 1;
    }

    method StopConnectionMonitor()
      modifies this
      ensures Snapshot() == StopMonitorSpec(old(Snapshot()))
    {
      if reconnectTimeout.Some? {
        liveTimers := liveTimers - {reconnectTimeout.value};
        reconnectTimeout := None;
      }
    }

    /** Puts a request on the wire and takes the network's answer. */
    method Send(req: Request) returns (a: Answer)
      modifies this
      ensures (a, Wire()) == Exchange(req, old(Wire()))
      ensures Snapshot() == old(Snapshot()).(net := Wire())
    {
      a := if answers == [] then Reply([]) else answers[0];
      answers := if answers == [] then [] else answers[1..];
      trace := trace + [Sent(req)];
    }

    method Sleep(ms: nat)
      modifies this
      ensures Wire() == Pause(ms, old(Wire()))
      ensures Snapshot() == old(Snapshot()).(net := Wire())
    {
      trace := trace + [Waited(ms)];
    }

    /** One invocation of an operation, headers included. */
    method Attempt(call: Call, timeout: Option<nat>) returns (a: Answer)
      modifies this
      ensures (a, Wire()) == AttemptSpec(call, timeout, TokenOf(old(Snapshot())), old(Wire()))
      ensures Snapshot() == old(Snapshot()).(net := Wire())
    {
      var t := GetToken();
      if !Present(t) {
        return Rejected(ErrorObj(TOKEN_NOT_SET));
      }
      a := Send(Request(call, t.value, timeout));
    }

    /** `handleRetry`. */
    method HandleRetry(call: Call, timeout: Option<nat>) returns (a: Answer)
      modifies this
      ensures (a, Wire()) == RetrySpec(call, timeout, TokenOf(old(Snapshot())), old(Wire()))
      ensures Snapshot() == old(Snapshot()).(net := Wire())
      decreases MAX_RETRIES - retryCount
    {
      a := Attempt(call, timeout);
      if a.Rejected? && Retryable(a.error) && retryCount < MAX_RETRIES {
        retryCount := retryCount + 1;
        Sleep(RetryDelay(retryCount));
        a := HandleRetry(call, timeout);
      }
    }

    method GetLights() returns (r: Result<seq<Device>, Thrown>)
      modifies this
      ensures (r, Wire()) == GetLightsSpec(TokenOf(old(Snapshot())), old(Wire()))
      ensures Snapshot() == old(Snapshot()).(net := Wire())
    {
      var a := HandleRetry(ListLights, Some(REQUEST_TIMEOUT));
      if a.Reply? {
        retryCount := 0;
        r := Success(a.devices);
      } else {
        r := Failure(HandleError(a.error));
      }
    }

    method SetState(selector: string, state: LightState) returns (o: Outcome<Thrown>)
      modifies this
      ensures (o, Wire()) == SetStateSpec(selector, state, TokenOf(old(Snapshot())), old(Wire()))
      ensures Snapshot() == old(Snapshot()).(net := Wire())
    {
      var a := HandleRetry(PutState(selector, state), Some(REQUEST_TIMEOUT));
      if a.Reply? {
        retryCount := 0;
        o := Pass;
      } else {
        o := Fail(HandleError(a.error));
      }
    }

    /** One step of a flag effect. */
    method RunStepOn(selector: string, step: Step) returns (o: Outcome<Thrown>)
      modifies this
      ensures (o, Wire()) == RunStep(selector, step, TokenOf(old(Snapshot())), old(Wire()))
      ensures Snapshot() == old(Snapshot()).(net := Wire())
    {
      match step
      case Apply(st) =>
        o := SetState(selector, st);
      case PulseEffect(p) =>
        var a := HandleRetry(PostPulse(selector, p), None);
        o := if a.Rejected? then Fail(a.error) else Pass;
      case Hold(ms) =>
        Sleep(ms);
        o := Pass;
    }

    /** A flag method: its steps in order, the first failure classified and
        passed on, nothing after it run. */
    method RunEffect(selector: string, e: Effect) returns (o: Outcome<Thrown>)
      modifies this
      ensures (o, Wire()) == EffectSpec(selector, e, TokenOf(old(Snapshot())), old(Wire()))
      ensures Snapshot() == old(Snapshot()).(net := Wire())
    {
      var steps := Steps(e);
      ghost var tok := TokenOf(Snapshot());
      ghost var goal := RunSteps(selector, steps, tok, Wire());
      var i := 0;
      while i < |steps|
        invariant 0 <= i <= |steps|
        invariant Snapshot() == old(Snapshot()).(net := Wire())
        invariant TokenOf(Snapshot()) == tok
        invariant RunSteps(selector, steps[i..], tok, Wire()) == goal
        decreases |steps| - i
      {
        var r := RunStepOn(selector, steps[i]);
        assert steps[i..][0] == steps[i] && steps[i..][1..] == steps[i + 1..];
        if r.Fail? {
          assert goal == (r, Wire());
          return Classified(r);
        }
        i := i + 1;
      }
      o := Pass;
    }

    method SetGreenFlag(selector: string, isInitial: bool) returns (o: Outcome<Thrown>)
      modifies this
      ensures (o, Wire()) == EffectSpec(selector, Green(isInitial), TokenOf(old(Snapshot())), old(Wire()))
      ensures Snapshot() == old(Snapshot()).(net := Wire())
    {
      o := RunEffect(selector, Green(isInitial));
    }

    method SetRedFlag(selector: string) returns (o: Outcome<Thrown>)
      modifies this
      ensures (o, Wire()) == EffectSpec(selector, Red, TokenOf(old(Snapshot())), old(Wire()))
      ensures Snapshot() == old(Snapshot()).(net := Wire())
    {
      o := RunEffect(selector, Red);
    }

    method SetSafetyCarFlag(selector: string) returns (o: Outcome<Thrown>)
      modifies this
      ensures (o, Wire()) == EffectSpec(selector, SafetyCar, TokenOf(old(Snapshot())), old(Wire()))
      ensures Snapshot() == old(Snapshot()).(net := Wire())
    {
      o := RunEffect(selector, SafetyCar);
    }

    method SetCheckeredFlag(selector: string) returns (o: Outcome<Thrown>)
      modifies this
      ensures (o, Wire()) == EffectSpec(selector, Checkered, TokenOf(old(Snapshot())), old(Wire()))
      ensures Snapshot() == old(Snapshot()).(net := Wire())
    {
      o := RunEffect(selector, Checkered);
    }

    /** One pass of the `while` body: a probe, then either the return on
        success, the give-up with `disconnect`, or the pause before the next
        pass. */
    method ReconnectPass(backoff: nat) returns (done: bool)
      requires connectionAttempts < MAX_RECONNECT_ATTEMPTS
      modifies this
      ensures done ==> Snapshot() == ReconnectLoop(old(Snapshot()), backoff).state
      ensures !done ==> old(connectionAttempts) < connectionAttempts < MAX_RECONNECT_ATTEMPTS
      ensures !done ==> ReconnectLoop(Snapshot(), backoff).state == ReconnectLoop(old(Snapshot()), backoff).state
    {
      ghost var before := Snapshot();
      var r := GetLights();
      ReconnectLoopStep(before, backoff, r, Wire());
      if r.Success? {
        isReconnecting := false;
        connectionAttempts := 0;
        return true;
      }
      connectionAttempts := connectionAttempts + 1;
      if connectionAttempts == MAX_RECONNECT_ATTEMPTS {
        Disconnect();
        return true;
      }
      Sleep(backoff);
      return false;
    }

    /** `attemptReconnect`, leaving the loop once `disconnect` has run. */
    method AttemptReconnect()
      modifies this
      ensures Snapshot() == ReconnectSpec(old(Snapshot())).state
    {
      connectionAttempts := connectionAttempts + 1;
      var backoff := Backoff(connectionAttempts);
      ghost var goal := ReconnectLoop(Snapshot(), backoff).state;
      while connectionAttempts < MAX_RECONNECT_ATTEMPTS
        invariant ReconnectLoop(Snapshot(), backoff).state == goal
        decreases MAX_RECONNECT_ATTEMPTS - connectionAttempts
      {
        var done := ReconnectPass(backoff);
        if done {
          return;
        }
      }
    }

    /** One firing of the monitor interval. */
    method MonitorTick()
      modifies this
      ensures Snapshot() == TickSpec(old(Snapshot()))
    {
      if !Present(token) || isReconnecting {
        return;
      }
      var r := GetLights();
      if r.Success? {
        connectionAttempts := 0;
      } else {
        isReconnecting := true;
        AttemptReconnect();
      }
    }
  }
}
