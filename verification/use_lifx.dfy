/** The `useLIFX` hook: the session record a component sees (devices,
    loading flag, error text, connection flag, selected device ids) and the
    operations that drive the shared service from it. */
module UseLifx {
  import opened Base
  import opened LifxTypes
  import opened LifxRetry
  import opened LifxEffects
  import opened LifxService

  /** The hook's state. `selected` is the JavaScript `Set` of device ids,
      kept in insertion order. */
  datatype HookState = HookState(
    devices: seq<Device>,
    loading: bool,
    error: Option<string>,
    isConnected: bool,
    selected: seq<string>)

  predicate Distinct(xs: seq<string>)
  {
    forall i, j | 0 <= i < j < |xs| :: xs[i] != xs[j]
  }

  /** `Set.prototype.delete`. */
  function Remove(xs: seq<string>, x: string): (r: seq<string>)
    ensures forall y :: y in r <==> y in xs && y != x
    ensures Distinct(xs) ==> Distinct(r)
    ensures x !in xs ==> r == xs
    decreases |xs|
  {
    if xs == [] then []
    else if xs[0] == x then Remove(xs[1..], x)
    else
      var r := Remove(xs[1..], x);
      assert Distinct(xs) ==> xs[0] !in xs[1..];
      [xs[0]] + r
  }

  /** `toggleDevice`'s new set: the id is deleted when present and appended
      when absent. */
  function Toggle(selected: seq<string>, id: string): (r: seq<string>)
    ensures id in r <==> id !in selected
    ensures forall y | y != id :: y in r <==> y in selected
    ensures Distinct(selected) ==> Distinct(r)
  {
    if id in selected then Remove(selected, id) else selected + [id]
  }

  /** `new Set(ids)`: the ids in order of first occurrence. */
  function Dedup(xs: seq<string>): (r: seq<string>)
    ensures Distinct(r)
    ensures forall x :: x in r <==> x in xs
    decreases |xs|
  {
    if xs == [] then []
    else
      var r := Dedup(xs[..|xs| - 1]);
      var x := xs[|xs| - 1];
      assert xs == xs[..|xs| - 1] + [x];
      if x in r then r else r + [x]
  }

  /** `Array.from(set).join(',')`: the selector begins with the first id,
      followed by a comma when more ids follow; `Split` takes it apart. */
  function Join(xs: seq<string>): (r: string)
    ensures xs == [] ==> r == ""
    ensures xs != [] ==> |xs[0]| <= |r| && r[..|xs[0]|] == xs[0]
    ensures |xs| > 1 ==> |xs[0]| < |r| && r[|xs[0]|] == ','
  {
    if |xs| == 0 then ""
    else if |xs| == 1 then xs[0]
    else xs[0] + "," + Join(xs[1..])
  }

  /** `String.prototype.split(',')`, the partner of `Join`. */
  function Split(s: string): (r: seq<string>)
    ensures |r| >= 1
    decreases |s|
  {
    if s == [] then [""]
    else
      var rest := Split(s[1..]);
      if s[0] == ',' then [""] + rest
      else [[s[0]] + rest[0]] + rest[1..]
  }

  /** `getFlagColor`: a colour for every input, always at 3500 K. */
  function GetFlagColor(flag: string): (c: Color)
    ensures c.kelvin == 3500
    ensures flag == "green" ==> c == Color(120, 1000, 3500)
    ensures flag == "yellow" || flag == "safety" ==> c == Color(60, 1000, 3500)
    ensures flag == "red" ==> c == Color(0, 1000, 3500)
    ensures flag !in {"green", "yellow", "red", "safety"} ==> c.hue == 0 && c.saturation == 0
  {
    if flag == "green" then Color(120, 1000, 3500)
    else if flag == "yellow" then Color(60, 1000, 3500)
    else if flag == "red" then Color(0, 1000, 3500)
    else if flag == "safety" then Color(60, 1000, 3500)
    else if flag == "checkered" then Color(0, 0, 3500)
    else Color(0, 0, 3500)
  }

  /** `err instanceof Error ? err.message : fallback`: an Axios error and
      any other `Error` carry a message; the plain `ApiErr` object does not
      pass the test. */
  function ErrorMessage(e: Thrown, fallback: string): (m: string)
    ensures e.ApiErr? ==> m == fallback
    ensures !e.ApiErr? ==> m == e.msg
  {
    match e
    case ApiErr(_, _) => fallback
    case AxiosErr(_, _, msg) => msg
    case ErrorObj(msg) => msg
  }

  const FETCH_FALLBACK := "Failed to connect to LIFX"
  const SET_FLAG_FALLBACK := "Failed to set flag"

  /** The steady state a flag without an effect of its own is shown with:
      full brightness, a 0.1 s fade. */
  function PlainFlagState(flag: string): LightState
  {
    LightState(true, GetFlagColor(flag), 1000, Some(100))
  }

  /** The `switch` of `setFlag`. */
  function Dispatch(flag: string, isInitial: bool, selector: string, token: Option<string>, net: Net): (Outcome<Thrown>, Net)
  {
    if flag == "green" then EffectSpec(selector, Green(isInitial), token, net)
    else if flag == "red" then EffectSpec(selector, Red, token, net)
    else if flag == "safety" then EffectSpec(selector, SafetyCar, token, net)
    else if flag == "checkered" then EffectSpec(selector, Checkered, token, net)
    else SetStateSpec(selector, PlainFlagState(flag), token, net)
  }

  /** `fetchDevices`. */
  function FetchDevicesSpec(h: HookState, s: Svc): (HookState, Svc)
  {
    if !Present(TokenOf(s)) then (h.(loading := false, isConnected := false), s)
    else
      var (r, n) := GetLightsSpec(TokenOf(s), s.net);
      if r.Success? then
        (h.(devices := r.value, isConnected := true, error := None, loading := false), s.(net := n))
      else
        var msg := ErrorMessage(r.error, FETCH_FALLBACK);
        var h1 := h.(error := Some(msg), isConnected := false, devices := [], loading := false);
        if Contains(msg, MSG_INVALID_TOKEN) then (h1, DisconnectSpec(s.(net := n)))
        else (h1, s.(net := n))
  }

  /** `initialize`: the credential is handed to the service, then devices
      are fetched; `loading` is back to false at the end. */
  function InitializeSpec(h: HookState, s: Svc, t: string): (HookState, Svc)
  {
    var h1 := h.(loading := true, error := None);
    var (h2, s2) := FetchDevicesSpec(h1, SetTokenSpec(s, Some(t)));
    (h2.(loading := false), s2)
  }

  /** `setFlag`. */
  function SetFlagSpec(h: HookState, s: Svc, flag: string, isInitial: bool): (HookState, Svc)
  {
    if !h.isConnected || |h.selected| == 0 then (h, s)
    else
      var (o, n) := Dispatch(flag, isInitial, Join(h.selected), TokenOf(s), s.net);
      var h1 := h.(error := None);
      if o.Pass? then (h1, s.(net := n))
      else
        var msg := ErrorMessage(o.error, SET_FLAG_FALLBACK);
        if Contains(msg, MSG_INVALID_TOKEN) then
          (h1.(error := Some(msg), isConnected := false), DisconnectSpec(s.(net := n)))
        else (h1.(error := Some(msg)), s.(net := n))
  }

  /** `disconnect` of the hook. */
  function DisconnectHookSpec(h: HookState, s: Svc): (HookState, Svc)
  {
    (h.(isConnected := false, devices := [], selected := [], error := None), DisconnectSpec(s))
  }

  // ---------------------------------------------------------------------
  // Selection

  /** Toggling an id twice gives back the same set of ids, and the very same
      sequence when the id was not selected to begin with. */
  lemma ToggleTwice(selected: seq<string>, id: string)
    ensures forall y :: y in Toggle(Toggle(selected, id), id) <==> y in selected
    ensures id !in selected ==> Toggle(Toggle(selected, id), id) == selected
  {
    if id !in selected {
      RemoveLast(selected, id);
    }
  }

  lemma {:induction false} RemoveLast(xs: seq<string>, x: string)
    requires x !in xs
    ensures Remove(xs + [x], x) == xs
    decreases |xs|
  {
    if xs == [] {
      assert Remove([x][1..], x) == [];
    } else {
      assert (xs + [x])[1..] == xs[1..] + [x];
      RemoveLast(xs[1..], x);
    }
  }

  /** A comma-free id list survives being joined into a selector and split
      back. */
  lemma {:induction false} SplitJoin(xs: seq<string>)
    requires |xs| >= 1
    requires forall i | 0 <= i < |xs| :: ',' !in xs[i]
    ensures Split(Join(xs)) == xs
    decreases |xs|
  {
    if |xs| == 1 {
      SplitNoComma(xs[0]);
    } else {
      SplitJoin(xs[1..]);
      SplitAfter(xs[0], Join(xs[1..]));
    }
  }

  lemma {:induction false} SplitNoComma(s: string)
    requires ',' !in s
    ensures Split(s) == [s]
    decreases |s|
  {
    if s != [] {
      SplitNoComma(s[1..]);
      assert [s[0]] + s[1..] == s;
    }
  }

  lemma {:induction false} SplitAfter(a: string, b: string)
    requires ',' !in a
    ensures Split(a + "," + b) == [a] + Split(b)
    decreases |a|
  {
    if a == [] {
      assert a + "," + b == [','] + b;
      assert ([','] + b)[1..] == b;
    } else {
      assert (a + "," + b)[1..] == a[1..] + "," + b;
      SplitAfter(a[1..], b);
      assert [a[0]] + a[1..] == a;
    }
  }

  // ---------------------------------------------------------------------
  // setFlag

  /** Without a connection or a selection `setFlag` does nothing at all. */
  lemma SetFlagGuard(h: HookState, s: Svc, flag: string, isInitial: bool)
    requires !h.isConnected || |h.selected| == 0
    ensures SetFlagSpec(h, s, flag, isInitial) == (h, s)
  {
  }

  /** Otherwise the flag is dispatched to the comma-joined selection; the
      error is cleared on success and set on failure, and the service is
      disconnected exactly when the failure is an `Error` whose message
      mentions the invalid token. The hook keeps devices and selection. */
  lemma SetFlagOutcome(h: HookState, s: Svc, flag: string, isInitial: bool)
    requires h.isConnected && |h.selected| > 0
    ensures var (o, n) := Dispatch(flag, isInitial, Join(h.selected), TokenOf(s), s.net);
      var (h2, s2) := SetFlagSpec(h, s, flag, isInitial);
      && h2.devices == h.devices && h2.selected == h.selected && h2.loading == h.loading
      && (o.Pass? ==> h2.error == None && h2.isConnected && s2 == s.(net := n))
      && (o.Fail? ==> h2.error == Some(ErrorMessage(o.error, SET_FLAG_FALLBACK)))
      && ((o.Fail? && !o.error.ApiErr? && Contains(o.error.msg, MSG_INVALID_TOKEN))
            ==> !h2.isConnected && s2 == DisconnectSpec(s.(net := n)))
      && ((o.Fail? && (o.error.ApiErr? || !Contains(o.error.msg, MSG_INVALID_TOKEN)))
            ==> h2.isConnected && s2 == s.(net := n))
  {
    var (o, n) := Dispatch(flag, isInitial, Join(h.selected), TokenOf(s), s.net);
    if o.Fail? && o.error.ApiErr? {
      NoticeAbsent(SET_FLAG_FALLBACK);
    }
  }

  /** A string in which the first character of `sub` occurs at no place
      where a match could start does not contain `sub`. */
  lemma {:induction false} NoMatchStart(s: string, sub: string)
    requires |sub| > 0
    requires forall i | 0 <= i < |s| && i + |sub| <= |s| :: s[i] != sub[0]
    ensures !Contains(s, sub)
    decreases |s|
  {
    if |sub| <= |s| {
      assert s[..|sub|][0] == s[0];
    }
    if |s| > 0 {
      NoMatchStart(s[1..], sub);
    }
  }

  /** The fallback texts do not mention the invalid token. */
  lemma NoticeAbsent(fallback: string)
    requires fallback == SET_FLAG_FALLBACK || fallback == FETCH_FALLBACK
    ensures !Contains(fallback, MSG_INVALID_TOKEN)
  {
    NoMatchStart(fallback, MSG_INVALID_TOKEN);
  }

  /** Yellow and any other flag without an effect is one full-brightness
      `setState` over 0.1 s in the colour of `getFlagColor`. */
  lemma YellowIsOnePlainState(selector: string, token: Option<string>, net: Net)
    ensures Dispatch("yellow", false, selector, token, net)
      == SetStateSpec(selector, LightState(true, Color(60, 1000, 3500), 1000, Some(100)), token, net)
  {
  }

  /** Whatever the flag, a 401 on its first request ends the dispatch with
      the classified invalid-token failure: a 401 is not retried, and an
      effect stops at its first failure. */
  lemma DispatchUnauthorized(flag: string, isInitial: bool, selector: string, token: Option<string>, net: Net, msg: string, code: string)
    requires Present(token)
    requires net.answers != [] && net.answers[0] == Rejected(AxiosErr(Some(401), code, msg))
    ensures Dispatch(flag, isInitial, selector, token, net).0 == Fail(ApiErr(MSG_INVALID_TOKEN, 401))
  {
    assert HandleError(AxiosErr(Some(401), code, msg)) == ApiErr(MSG_INVALID_TOKEN, 401);
    if flag == "green" && isInitial {
      NotRetriedUnlessTransient(PutState(selector, LightState(true, GREEN, 1000, Some(100))), Some(REQUEST_TIMEOUT), token, net);
      InitialGreenSequence(selector, token, net);
    } else if flag == "green" {
      NotRetriedUnlessTransient(PutState(selector, LightState(true, GREEN, 500, Some(1000))), Some(REQUEST_TIMEOUT), token, net);
      LaterGreenIsOneCommand(selector, token, net);
    } else if flag == "red" || flag == "safety" || flag == "checkered" {
      var e := if flag == "red" then Red else if flag == "safety" then SafetyCar else Checkered;
      assert Dispatch(flag, isInitial, selector, token, net) == EffectSpec(selector, e, token, net);
      NotRetriedUnlessTransient(PostPulse(selector, PulseOf(e)), None, token, net);
      PulseThenHoldThenSteady(selector, e, token, net);
    } else {
      NotRetriedUnlessTransient(PutState(selector, PlainFlagState(flag)), Some(REQUEST_TIMEOUT), token, net);
    }
  }

  /** A 401 while setting any flag does not disconnect: `handleError` has
      turned it into a plain object, which fails the `instanceof Error` test,
      so only the fallback text is recorded and the hook stays connected. */
  lemma SetFlagUnauthorizedStaysConnected(h: HookState, s: Svc, flag: string, isInitial: bool, msg: string, code: string)
    requires h.isConnected && |h.selected| > 0 && Present(TokenOf(s))
    requires s.net.answers != [] && s.net.answers[0] == Rejected(AxiosErr(Some(401), code, msg))
    ensures var (h2, s2) := SetFlagSpec(h, s, flag, isInitial);
      && h2.error == Some(SET_FLAG_FALLBACK) && h2.isConnected
      && s2.token == s.token && s2.stored == s.stored && s2.timer == s.timer
  {
    DispatchUnauthorized(flag, isInitial, Join(h.selected), TokenOf(s), s.net, msg, code);
    SetFlagOutcome(h, s, flag, isInitial);
  }

  // ---------------------------------------------------------------------
  // fetchDevices, initialize, disconnect

  /** The three outcomes of `fetchDevices`. */
  lemma FetchDevicesOutcome(h: HookState, s: Svc)
    ensures var (h2, s2) := FetchDevicesSpec(h, s);
      && !h2.loading && h2.selected == h.selected
      && (!Present(TokenOf(s)) ==> s2 == s && !h2.isConnected && h2.devices == h.devices && h2.error == h.error)
      && (Present(TokenOf(s)) ==>
            var (r, n) := GetLightsSpec(TokenOf(s), s.net);
            && (r.Success? ==> h2.devices == r.value && h2.isConnected && h2.error == None && s2 == s.(net := n))
            && (r.Failure? ==> h2.devices == [] && !h2.isConnected && h2.error.Some?))
  {
  }

  /** A rejected credential does not disconnect the service from
      `fetchDevices` either: the classified 401 is a plain object, so the
      recorded text is the fallback and the credential stays. */
  lemma FetchUnauthorizedKeepsToken(h: HookState, s: Svc, msg: string, code: string)
    requires Present(TokenOf(s))
    requires s.net.answers != [] && s.net.answers[0] == Rejected(AxiosErr(Some(401), code, msg))
    ensures var (h2, s2) := FetchDevicesSpec(h, s);
      && h2.error == Some(FETCH_FALLBACK) && !h2.isConnected && h2.devices == []
      && s2.token == s.token && s2.stored == s.stored && s2.timer == s.timer
  {
    NotRetriedUnlessTransient(ListLights, Some(REQUEST_TIMEOUT), TokenOf(s), s.net);
    NoticeAbsent(FETCH_FALLBACK);
  }

  /** `fetchDevices` with a credential leaves the network exactly as
      `getLights` does. */
  lemma FetchNet(h: HookState, s: Svc)
    requires Present(TokenOf(s))
    ensures FetchDevicesSpec(h, s).1.net == GetLightsSpec(TokenOf(s), s.net).1
  {
  }

  /** `initialize` with a non-empty credential first sends the device listing
      with that credential, and ends with `loading` false. */
  lemma InitializeFetchesWithNewToken(h: HookState, s: Svc, t: string)
    requires t != "" && MonitorSound(s)
    ensures var (h2, s2) := InitializeSpec(h, s, t);
      && !h2.loading
      && |s.net.trace| < |s2.net.trace|
      && s2.net.trace[|s.net.trace|] == Sent(Request(ListLights, t, Some(REQUEST_TIMEOUT)))
  {
    var s1 := SetTokenSpec(s, Some(t));
    SetTokenEffect(s, Some(t));
    FetchNet(h.(loading := true, error := None), s1);
    RetryFollowsSchedule(ListLights, Some(REQUEST_TIMEOUT), Some(t), s1.net);
    var n := RetrySpec(ListLights, Some(REQUEST_TIMEOUT), Some(t), s1.net).1;
    var req := Request(ListLights, t, Some(REQUEST_TIMEOUT));
    var k := n.retryCount - s1.net.retryCount;
    assert Schedule(req, s1.net.retryCount, k)[0] == Sent(req);
    assert n.trace[|s.net.trace|] == Sent(req);
  }

  /** The hook's `disconnect` leaves everything empty and the service without
      a credential or monitor. */
  lemma DisconnectHookClears(h: HookState, s: Svc)
    requires MonitorSound(s)
    ensures var (h2, s2) := DisconnectHookSpec(h, s);
      && !h2.isConnected && h2.devices == [] && h2.selected == [] && h2.error == None
      && !Present(TokenOf(s2)) && s2.timer == None && s2.liveTimers == {}
      && s2.net == s.net
  {
    DisconnectEffect(s);
  }

  /** After the hook's `disconnect` no flag reaches the service. */
  lemma SetFlagAfterDisconnectDoesNothing(h: HookState, s: Svc, flag: string, isInitial: bool)
    ensures var (h2, s2) := DisconnectHookSpec(h, s);
      SetFlagSpec(h2, s2, flag, isInitial) == (h2, s2)
  {
  }

  // ---------------------------------------------------------------------
  // The hook object

  /** One `useLIFX` instance over the shared service. */
  class LifxSession {
    const svc: LifxService
    var devices: seq<Device>
    var loading: bool
    var error: Option<string>
    var isConnected: bool
    var selected: seq<string>

    function State(): HookState
      reads this
    {
      HookState(devices, loading, error, isConnected, selected)
    }

    function View(): (HookState, Svc)
      reads this, svc
    {
      (State(), svc.Snapshot())
    }

    /** A fresh hook; the selection starts from the ids saved earlier,
        duplicates dropped. */
    constructor (service: LifxService, saved: seq<string>)
      ensures svc == service
      ensures State() == HookState([], false, None, false, Dedup(saved))
      ensures Distinct(selected)
    {
      svc := service;
      devices := [];
      loading := false;
      error := None;
      isConnected := false;
      selected := Dedup(saved);
    }

    method FetchDevices()
      modifies this, svc
      ensures View() == FetchDevicesSpec(old(State()), old(svc.Snapshot()))
    {
      var t := svc.GetToken();
      if !Present(t) {
        loading := false;
        isConnected := false;
        return;
      }
      var r := svc.GetLights();
      if r.Success? {
        devices := r.value;
        isConnected := true;
        error := None;
      } else {
        var msg := ErrorMessage(r.error, FETCH_FALLBACK);
        error := Some(msg);
        isConnected := false;
        devices := [];
        if Contains(msg, MSG_INVALID_TOKEN) {
          svc.Disconnect();
        }
      }
      loading := false;
    }

    method Initialize(t: string)
      modifies this, svc
      ensures View() == InitializeSpec(old(State()), old(svc.Snapshot()), t)
    {
      loading := true;
      error := None;
      svc.SetToken(Some(t));
      FetchDevices();
      loading := false;
    }

    /** `toggleDevice`: a copy of the set with the id flipped replaces the old one. */
    method ToggleDevice(id: string)
      modifies this
      ensures selected == Toggle(old(selected), id)
      ensures State() == old(State()).(selected := selected)
    {
      var next := selected;
      if id in next {
        next := Remove(next, id);
      } else {
        next := next + [id];
      }
      selected := next;
    }

    method SetFlag(flag: string, isInitial: bool)
      modifies this, svc
      ensures View() == SetFlagSpec(old(State()), old(svc.Snapshot()), flag, isInitial)
    {
      if !isConnected || |selected| == 0 {
        return;
      }
      ghost var h0, s0 := State(), svc.Snapshot();
      var selector := Join(selected);
      error := None;
      var o := DispatchFlag(flag, isInitial, selector);
      ghost var n := svc.Wire();
      assert (o, n) == Dispatch(flag, isInitial, Join(h0.selected), TokenOf(s0), s0.net);
      assert svc.Snapshot() == s0.(net := n);
      if o.Fail? {
        var msg := ErrorMessage(o.error, SET_FLAG_FALLBACK);
        error := Some(msg);
        if Contains(msg, MSG_INVALID_TOKEN) {
          svc.Disconnect();
          isConnected := false;
        }
      }
    }

    /** The `switch` of `setFlag`. */
    method DispatchFlag(flag: string, isInitial: bool, selector: string) returns (o: Outcome<Thrown>)
      modifies svc
      ensures (o, svc.Wire()) == Dispatch(flag, isInitial, selector, TokenOf(old(svc.Snapshot())), old(svc.Wire()))
      ensures svc.Snapshot() == old(svc.Snapshot()).(net := svc.Wire())
    {
      if flag == "green" {
        o := svc.SetGreenFlag(selector, isInitial);
      } else if flag == "red" {
        o := svc.SetRedFlag(selector);
      } else if flag == "safety" {
        o := svc.SetSafetyCarFlag(selector);
      } else if flag == "checkered" {
        o := svc.SetCheckeredFlag(selector);
      } else {
        o := svc.SetState(selector, PlainFlagState(flag));
      }
    }

    method Disconnect()
      modifies this, svc
      ensures View() == DisconnectHookSpec(old(State()), old(svc.Snapshot()))
    {
      svc.Disconnect();
      isConnected := false;
      devices := [];
      selected := [];
      error := None;
    }
  }
}
