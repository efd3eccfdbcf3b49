/** The race control panel's session handlers: connecting the lights to a
    session, disconnecting, and manual flag clicks, which auto mode locks. */
module RaceControl {
  import opened Base
  import opened LifxTypes
  import opened LifxRetry
  import opened LifxEffects
  import opened LifxService
  import opened UseLifx

  /** Five minutes, in milliseconds. */
  const CONNECT_LEAD := 300000

  /** The next session as the schedule gives it: its date text and its start
      instant in milliseconds. */
  datatype NextSession = NextSession(date: string, startMs: int)

  /** `canConnect`: there is a next session with a date and the clock has
      reached five minutes before its start. */
  function CanConnect(next: Option<NextSession>, nowMs: int): (r: bool)
    ensures r ==> next.Some? && next.value.date != ""
    ensures next.Some? && nowMs < next.value.startMs - CONNECT_LEAD ==> !r
  {
    next.Some? && next.value.date != "" && nowMs >= next.value.startMs - CONNECT_LEAD
  }

  /** The panel's own state. */
  datatype Panel = Panel(isConnected: bool, autoMode: bool, activeFlag: string, showAutoModePrompt: bool)

  const INITIAL_PANEL := Panel(false, true, "green", false)

  /** `handleConnect`. */
  function ConnectSpec(p: Panel, h: HookState, s: Svc): (Panel, HookState, Svc)
  {
    if !h.isConnected || |h.selected| == 0 then (p, h, s)
    else
      var (h2, s2) := SetFlagSpec(h, s, "green", true);
      (p.(isConnected := true, showAutoModePrompt := true, autoMode := true), h2, s2)
  }

  /** `handleDisconnect`: only the panel is reset; the lights stay as they are. */
  function DisconnectPanelSpec(p: Panel): Panel
  {
    p.(isConnected := false, autoMode := false, activeFlag := "green", showAutoModePrompt := false)
  }

  /** `handleFlagClick`. */
  function FlagClickSpec(p: Panel, h: HookState, s: Svc, flag: string): (Panel, HookState, Svc)
  {
    if p.autoMode && p.isConnected then (p, h, s)
    else
      var p1 := p.(activeFlag := flag);
      if |h.selected| > 0 then
        var (h2, s2) := SetFlagSpec(h, s, flag, false);
        (p1, h2, s2)
      else (p1, h, s)
  }

  // ---------------------------------------------------------------------

  /** The connect window: closed without a dated session, and otherwise open
      from five minutes before the start on, and not a millisecond earlier. */
  lemma ConnectWindow(next: Option<NextSession>, nowMs: int)
    ensures next.None? ==> !CanConnect(next, nowMs)
    ensures next.Some? && next.value.date == "" ==> !CanConnect(next, nowMs)
    ensures next.Some? && next.value.date != "" ==>
      CanConnect(next, next.value.startMs - CONNECT_LEAD)
      && !CanConnect(next, next.value.startMs - CONNECT_LEAD - 1)
      && (CanConnect(next, nowMs) <==> next.value.startMs - nowMs <= 300000)
  {
  }

  /** Once open the window stays open as time passes. */
  lemma ConnectWindowStaysOpen(next: Option<NextSession>, nowMs: int, laterMs: int)
    requires nowMs <= laterMs && CanConnect(next, nowMs)
    ensures CanConnect(next, laterMs)
  {
  }

  /** In auto mode, while connected, a manual click changes nothing at all. */
  lemma ManualClickLockedOut(p: Panel, h: HookState, s: Svc, flag: string)
    requires p.autoMode && p.isConnected
    ensures FlagClickSpec(p, h, s, flag) == (p, h, s)
  {
  }

  /** Otherwise the clicked flag becomes the active one even without devices,
      and the lights are asked only when something is selected. */
  lemma ManualClickOutcome(p: Panel, h: HookState, s: Svc, flag: string)
    requires !(p.autoMode && p.isConnected)
    ensures var (p2, h2, s2) := FlagClickSpec(p, h, s, flag);
      && p2 == p.(activeFlag := flag)
      && (|h.selected| == 0 ==> h2 == h && s2 == s)
      && (|h.selected| > 0 ==> (h2, s2) == SetFlagSpec(h, s, flag, false))
  {
  }

  /** Connecting needs connected lights and a selection; with them the panel
      is connected in auto mode with the prompt shown, the initial green is
      requested, and from then on manual clicks are locked out. */
  lemma ConnectOutcome(p: Panel, h: HookState, s: Svc, flag: string)
    ensures !h.isConnected || |h.selected| == 0 ==> ConnectSpec(p, h, s) == (p, h, s)
    ensures h.isConnected && |h.selected| > 0 ==>
      var (p2, h2, s2) := ConnectSpec(p, h, s);
      && p2.isConnected && p2.autoMode && p2.showAutoModePrompt && p2.activeFlag == p.activeFlag
      && (h2, s2) == SetFlagSpec(h, s, "green", true)
      && FlagClickSpec(p2, h2, s2, flag) == (p2, h2, s2)
  {
  }

  /** The initial green of a connect is the two-step green sequence sent to
      the whole selection. */
  lemma ConnectSendsInitialGreen(p: Panel, h: HookState, s: Svc)
    requires h.isConnected && |h.selected| > 0
    ensures ConnectSpec(p, h, s).2.net == EffectSpec(Join(h.selected), Green(true), TokenOf(s), s.net).1
  {
  }

  /** Disconnecting resets the panel to manual mode on green, after which a
      click is taken again. */
  lemma DisconnectUnlocks(p: Panel, h: HookState, s: Svc, flag: string)
    ensures var p2 := DisconnectPanelSpec(p);
      && !p2.isConnected && !p2.autoMode && p2.activeFlag == "green" && !p2.showAutoModePrompt
      && FlagClickSpec(p2, h, s, flag).0.activeFlag == flag
  {
  }

  // ---------------------------------------------------------------------

  /** The panel component over its own `useLIFX` instance. */
  class RaceControlPanel {
    const lights: LifxSession
    var isConnected: bool
    var autoMode: bool
    var activeFlag: string
    var showAutoModePrompt: bool

    function State(): Panel
      reads this
    {
      Panel(isConnected, autoMode, activeFlag, showAutoModePrompt)
    }

    function View(): (Panel, HookState, Svc)
      reads this, lights, lights.svc
    {
      (State(), lights.State(), lights.svc.Snapshot())
    }

    constructor (session: LifxSession)
      ensures lights == session
      ensures State() == INITIAL_PANEL
    {
      lights := session;
      isConnected := false;
      autoMode := true;
      activeFlag := "green";
      showAutoModePrompt := false;
    }

    method HandleConnect()
      modifies this, lights, lights.svc
      ensures View() == ConnectSpec(old(State()), old(lights.State()), old(lights.svc.Snapshot()))
    {
      if !lights.isConnected || |lights.selected| == 0 {
        return;
      }
      isConnected := true;
      showAutoModePrompt := true;
      autoMode := true;
      lights.SetFlag("green", true);
    }

    method HandleDisconnect()
      modifies this
      ensures State() == DisconnectPanelSpec(old(State()))
    {
      isConnected := false;
      autoMode := false;
      activeFlag := "green";
      showAutoModePrompt := false;
    }

    method HandleFlagClick(flag: string)
      modifies this, lights, lights.svc
      ensures View() == FlagClickSpec(old(State()), old(lights.State()), old(lights.svc.Snapshot()), flag)
    {
      if autoMode && isConnected {
        return;
      }
      activeFlag := flag;
      if |lights.selected| > 0 {
        lights.SetFlag(flag, false);
      }
    }
  }
}
