/** The single "System Power" switch. */
module Switch {
  import opened Wrappers
  import opened Json
  import opened Api
  import opened Calls
  import opened Coordinator
  import opened Commands
  import Climate

  const SwitchUniqueId := "messana_system_power"
  const SwitchName := "System Power"

  /** `is_on`: the system status is non-zero. */
  function IsOn(snap: Snapshot): (on: bool)
    ensures on <==> snap.system.status != 0
  {
    snap.system.status != 0
  }

  /** The switch and the climate entities agree on power: the switch is off exactly when every climate entity shows "off". */
  lemma PowerMatchesClimateMode(snap: Snapshot)
    ensures IsOn(snap) <==> Climate.HvacModeView(snap) != Climate.Off
  {
  }

  /** `async_turn_on` / `async_turn_off`: write the system status, then refresh. */
  function Turn(on: bool): (plan: seq<Action>)
    ensures |plan| == 2 && plan[0] == Invoke(WriteSystemStatus(on)) && plan[1] == RequestRefresh
    ensures LastStatusWrite(plan) == Some(on)
  {
    ThenRefresh([WriteSystemStatus(on)])
  }

  /**
   * Once the device holds the status the switch wrote, the switch reads back the
   * state it was turned to: the body's value, read by the status normaliser, is
   * non-zero exactly for "on".
   */
  lemma TurnRoundTrip(p: Parsers, on: bool, snap: Snapshot)
    requires snap.system.status == IntField(p, SystemStatusBody(LastStatusWrite(Turn(on)).value), "value", 0).value
    ensures IsOn(snap) == on
  {
    SetterBodiesReadBack(p, on, 0, 0, 0.0);
  }

  datatype PowerSwitch = PowerSwitch(uniqueId: string, name: string)

  /** `async_setup_entry`: exactly one switch. */
  function Setup(): (es: seq<PowerSwitch>)
    ensures |es| == 1 && es[0].uniqueId == SwitchUniqueId
  {
    [PowerSwitch(SwitchUniqueId, SwitchName)]
  }
}
