/** The developer test panel's flag buttons: a race-control flag name is
    looked up in a fixed table, a test message is published for the feed,
    and the mapped lights flag is set. */
module TestApiControls {
  import opened Base
  import opened LifxTypes
  import opened LifxRetry
  import opened LifxEffects
  import opened LifxService
  import opened UseLifx

  /** `flagMapping[flagType]`: absent for a name not in the table. */
  function FlagMapping(flagType: string): (r: Option<string>)
    ensures r.Some? <==> flagType in {"GREEN", "YELLOW", "RED", "SAFETY_CAR", "VIRTUAL_SC", "CHECKERED", "CLEAR"}
    ensures r.Some? ==> r.value in {"green", "yellow", "red", "safety", "checkered"}
  {
    if flagType == "GREEN" then Some("green")
    else if flagType == "YELLOW" then Some("yellow")
    else if flagType == "RED" then Some("red")
    else if flagType == "SAFETY_CAR" then Some("safety")
    else if flagType == "VIRTUAL_SC" then Some("safety")
    else if flagType == "CHECKERED" then Some("checkered")
    else if flagType == "CLEAR" then Some("green")
    else None
  }

  /** The race-control message handed to the feed. Its timestamp and its
      always-null sector, lap and driver fields are not modelled. */
  datatype TestMessage = TestMessage(
    sessionKey: int,
    meetingKey: int,
    category: string,
    flag: string,
    message: string,
    scope: string)

  /** The message names the flag, reads `<name> FLAG`, and is filed as a
      safety car exactly for the two safety car names. */
  function BuildTestMessage(flagType: string): (m: TestMessage)
    ensures m.flag == flagType
    ensures |m.message| == |flagType| + 5 && m.message[..|flagType|] == flagType && m.message[|flagType|..] == " FLAG"
    ensures m.category == "SafetyCar" <==> flagType in {"SAFETY_CAR", "VIRTUAL_SC"}
    ensures m.category != "SafetyCar" ==> m.category == "Flag"
    ensures m.sessionKey == 9999 && m.meetingKey == 9999 && m.scope == "Track"
  {
    TestMessage(9999, 9999,
      if flagType == "SAFETY_CAR" || flagType == "VIRTUAL_SC" then "SafetyCar" else "Flag",
      flagType, flagType + " FLAG", "Track")
  }

  /** What a click does, in order. */
  datatype Action = Publish(msg: TestMessage) | CallSetFlag(flag: string, isInitial: bool)

  /** `handleFlagClick`: nothing without a connection and a selection or for
      a name outside the table; otherwise publish, then set the mapped flag
      with the default `isInitial = false`. */
  function HandleFlagClick(h: HookState, flagType: string): (r: seq<Action>)
    ensures r != [] <==> h.isConnected && |h.selected| > 0 && FlagMapping(flagType).Some?
    ensures r != [] ==> |r| == 2 && r[0] == Publish(BuildTestMessage(flagType))
                        && r[1].CallSetFlag? && r[1].flag in {"green", "yellow", "red", "safety", "checkered"}
                        && !r[1].isInitial
  {
    if !h.isConnected || |h.selected| == 0 then []
    else
      match FlagMapping(flagType)
      case None => []
      case Some(lifxFlag) => [Publish(BuildTestMessage(flagType)), CallSetFlag(lifxFlag, false)]
  }

  /** Carries out a click's actions on the hook and the service, collecting
      the published messages. */
  function Perform(actions: seq<Action>, h: HookState, s: Svc): (seq<TestMessage>, HookState, Svc)
    decreases |actions|
  {
    if actions == [] then ([], h, s)
    else
      var next := if actions[0].CallSetFlag? then SetFlagSpec(h, s, actions[0].flag, actions[0].isInitial) else (h, s);
      var rest := Perform(actions[1..], next.0, next.1);
      (if actions[0].Publish? then [actions[0].msg] + rest.0 else rest.0, rest.1, rest.2)
  }

  // ---------------------------------------------------------------------

  /** The two feed names that the lights do not know by the same name. */
  lemma MappingAliases()
    ensures FlagMapping("VIRTUAL_SC") == FlagMapping("SAFETY_CAR") == Some("safety")
    ensures FlagMapping("CLEAR") == FlagMapping("GREEN") == Some("green")
  {
  }

  /** A click without a connection or selection, or on an unknown name, neither
      publishes nor touches the lights. */
  lemma ClickGuards(h: HookState, s: Svc, flagType: string)
    requires !h.isConnected || |h.selected| == 0 || FlagMapping(flagType).None?
    ensures HandleFlagClick(h, flagType) == []
    ensures Perform(HandleFlagClick(h, flagType), h, s) == ([], h, s)
  {
  }

  /** Publishing and then setting a flag: the one message, and the hook and
      service as `setFlag` leaves them. */
  lemma PerformPublishThenSet(m: TestMessage, flag: string, isInitial: bool, h: HookState, s: Svc)
    ensures Perform([Publish(m), CallSetFlag(flag, isInitial)], h, s)
      == ([m], SetFlagSpec(h, s, flag, isInitial).0, SetFlagSpec(h, s, flag, isInitial).1)
  {
    var acts := [Publish(m), CallSetFlag(flag, isInitial)];
    var r := SetFlagSpec(h, s, flag, isInitial);
    assert acts[1..] == [CallSetFlag(flag, isInitial)];
    assert acts[1..][1..] == [];
    assert Perform(acts[1..][1..], r.0, r.1) == ([], r.0, r.1);
    assert Perform(acts[1..], h, s) == ([], r.0, r.1);
    assert [m] + [] == [m];
  }

  /** A click on a known name publishes exactly its message, and only then
      sets the mapped flag as a non-initial one. */
  lemma ClickPublishesThenSets(h: HookState, s: Svc, flagType: string)
    requires h.isConnected && |h.selected| > 0 && FlagMapping(flagType).Some?
    ensures var acts := HandleFlagClick(h, flagType);
      && |acts| == 2 && acts[0].Publish? && acts[1] == CallSetFlag(FlagMapping(flagType).value, false)
    ensures Perform(HandleFlagClick(h, flagType), h, s)
      == ([BuildTestMessage(flagType)], SetFlagSpec(h, s, FlagMapping(flagType).value, false).0,
          SetFlagSpec(h, s, FlagMapping(flagType).value, false).1)
  {
    assert HandleFlagClick(h, flagType) == [Publish(BuildTestMessage(flagType)), CallSetFlag(FlagMapping(flagType).value, false)];
    PerformPublishThenSet(BuildTestMessage(flagType), FlagMapping(flagType).value, false, h, s);
  }

  /** A CLEAR click on a connected session is the later-green command: one
      half-brightness green over 1 s to the selection. */
  lemma ClearIsLaterGreen(h: HookState, s: Svc)
    requires h.isConnected && |h.selected| > 0
    ensures var (o, n) := SetStateSpec(Join(h.selected), LightState(true, GREEN, 500, Some(1000)), TokenOf(s), s.net);
      Perform(HandleFlagClick(h, "CLEAR"), h, s).2.net == n
  {
    ClickPublishesThenSets(h, s, "CLEAR");
    LaterGreenIsOneCommand(Join(h.selected), TokenOf(s), s.net);
  }
}
