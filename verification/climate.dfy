/** The per-zone climate entity: its views over the snapshot and its two command handlers. */
module Climate {
  import opened Wrappers
  import opened Json
  import opened Api
  import opened Calls
  import opened Coordinator
  import opened Commands
  import opened Entities

  /** Home Assistant's HVAC modes. */
  datatype HvacMode = Off | Heat | Cool | HeatCool | Auto | Dry | FanOnly

  /** The modes the entity advertises. */
  const HvacModes: seq<HvacMode> := [Off, Heat, Cool, HeatCool]

  /** The H/C mode value a mode is written as: 0 heat, 1 cool, 2 heat/cool; none for the others. */
  function ModeValue(m: HvacMode): Option<int> {
    match m
    case Heat => Some(0)
    case Cool => Some(1)
    case HeatCool => Some(2)
    case _ => None
  }

  /**
   * `_hvac_mode_from_hc`: off whenever the system is off; otherwise the mode whose
   * value is `mode`, with every value other than 0 and 1 read as heat/cool.
   */
  function HvacModeFromHc(mode: int, systemOn: bool): (m: HvacMode)
    ensures m in HvacModes
    ensures m == Off <==> !systemOn
    ensures systemOn ==> ModeValue(m) == Some(if mode == 0 || mode == 1 then mode else 2)
  {
    if !systemOn then Off
    else if mode == 0 then Heat
    else if mode == 1 then Cool
    else HeatCool
  }

  /** Writing a mode's value with the system on and reading it back gives the mode again. */
  lemma HvacModeRoundTrip(m: HvacMode)
    requires ModeValue(m).Some?
    ensures HvacModeFromHc(ModeValue(m).value, true) == m
  {
  }

  /**
   * `async_set_hvac_mode`: off writes only the system status; any other mode switches
   * the system on and, for heat, cool and heat/cool, writes group 0's mode; a refresh
   * follows.
   */
  function SetHvacMode(m: HvacMode): (plan: seq<Action>)
    ensures m == Off ==> plan == ThenRefresh([WriteSystemStatus(false)])
    ensures m != Off && ModeValue(m).Some? ==>
              plan == ThenRefresh([WriteSystemStatus(true), WriteHcMode(0, ModeValue(m).value)])
    ensures m != Off && ModeValue(m).None? ==> plan == ThenRefresh([WriteSystemStatus(true)])
    ensures LastStatusWrite(plan) == Some(m != Off)
    ensures LastModeWrite(plan, 0) == (if m == Off then None else ModeValue(m))
  {
    if m == Off then ThenRefresh([WriteSystemStatus(false)])
    else match ModeValue(m)
      case Some(v) =>
        var plan := ThenRefresh([WriteSystemStatus(true), WriteHcMode(0, v)]);
        assert plan == [Invoke(WriteSystemStatus(true)), Invoke(WriteHcMode(0, v)), RequestRefresh];
        assert plan[..2][..1] == plan[..1];
        assert LastStatusWrite(plan[..2]) == LastStatusWrite(plan[..1]) == Some(true);
        plan
      case None => ThenRefresh([WriteSystemStatus(true)])
  }

  /**
   * For every advertised mode, once the device holds what the handler wrote, the
   * entity reads the requested mode back, whatever group 0's mode was before.
   */
  lemma SetHvacModeRoundTrip(m: HvacMode, previousMode: int)
    requires m in HvacModes
    ensures var plan := SetHvacMode(m);
      HvacModeFromHc(LastModeWrite(plan, 0).GetOr(previousMode), LastStatusWrite(plan).value) == m
  {
  }

  /** `async_set_temperature`: no temperature means no call and no refresh; otherwise the setpoint, then a refresh. */
  function SetTemperature(zid: int, temperature: Option<real>): (plan: seq<Action>)
    ensures temperature.None? ==> plan == []
    ensures temperature.Some? ==> plan == ThenRefresh([WriteZoneSetpoint(zid, temperature.value)])
  {
    match temperature
    case None => []
    case Some(t) => ThenRefresh([WriteZoneSetpoint(zid, t)])
  }

  /**
   * Without a temperature the handler does nothing at all; with one, the body it
   * sends reads back, through the setpoint normaliser, as that temperature.
   */
  lemma SetTemperatureEffect(b: Backend, p: Parsers, zid: int, t: real)
    ensures Run(b, SetTemperature(zid, None)) == Outcome([], None)
    ensures var call := SetTemperature(zid, Some(t))[0].call;
      call.WriteZoneSetpoint? && call.zid == zid && ReadingOf(p, SetpointBody(call.zid, call.temperature)) == Some(t)
  {
    SetterBodiesReadBack(p, true, zid, 0, t);
  }

  // -------- views --------

  /** `hvac_mode`: the system status (non-zero is on) and group 0's mode, 2 when the group is missing. */
  function HvacModeView(snap: Snapshot): (m: HvacMode)
    ensures m == Off <==> snap.system.status == 0
    ensures m != Off ==> ModeValue(m) == Some(if GroupModeOr(snap, 0) in {0, 1} then GroupModeOr(snap, 0) else 2)
    ensures 0 !in snap.hcGroups && snap.system.status != 0 ==> m == HeatCool
  {
    HvacModeFromHc(GroupModeOr(snap, 0), snap.system.status != 0)
  }

  /** `available`: the last refresh succeeded and the zone is in the snapshot. */
  function Available(lastUpdateSuccess: bool, snap: Snapshot, zid: int): (a: bool)
    ensures a <==> lastUpdateSuccess && zid in snap.zones
  {
    lastUpdateSuccess && zid in snap.zones
  }

  /** `temperature_unit`: the system's unit through the starts-with-"f" rule. */
  function TemperatureUnitView(snap: Snapshot): (u: TemperatureUnit)
    ensures u == Fahrenheit <==>
              |snap.system.tempUnit| > 0 && (snap.system.tempUnit[0] == 'f' || snap.system.tempUnit[0] == 'F')
  {
    HaTempUnit(snap.system.tempUnit)
  }

  /** `current_temperature`: the zone's temperature; a missing zone raises `KeyError`. */
  function CurrentTemperature(snap: Snapshot, zid: int): (r: Result<Option<real>, ViewError>)
    ensures r.Success? <==> zid in snap.zones
    ensures r.Success? ==> r.value == snap.zones[zid].temperature
    ensures r.Failure? ==> r.error == KeyError(zid)
  {
    if zid in snap.zones then Success(snap.zones[zid].temperature) else Failure(KeyError(zid))
  }

  /** `target_temperature`: the zone's setpoint; a missing zone raises `KeyError`. */
  function TargetTemperature(snap: Snapshot, zid: int): (r: Result<Option<real>, ViewError>)
    ensures r.Success? <==> zid in snap.zones
    ensures r.Success? ==> r.value == snap.zones[zid].setpoint
    ensures r.Failure? ==> r.error == KeyError(zid)
  {
    if zid in snap.zones then Success(snap.zones[zid].setpoint) else Failure(KeyError(zid))
  }

  // -------- setup --------

  datatype ClimateEntity = ClimateEntity(zoneId: int, uniqueId: string)

  /** `async_setup_entry`: one climate entity per zone id, in ascending order. */
  function Setup(snap: Snapshot): (es: seq<ClimateEntity>)
    ensures |es| == Max0(snap.system.effectiveZoneCount)
    ensures forall k :: 0 <= k < |es| ==> es[k].zoneId == k && es[k].uniqueId == ZoneUniqueId(k, "climate")
  {
    var ids := ZoneIds(snap);
    seq(|ids|, k requires 0 <= k < |ids| => ClimateEntity(ids[k], ZoneUniqueId(ids[k], "climate")))
  }

  /** No two climate entities share a unique id. */
  lemma SetupUniqueIdsDistinct(snap: Snapshot)
    ensures var es := Setup(snap);
      forall i, j :: 0 <= i < |es| && 0 <= j < |es| && es[i].uniqueId == es[j].uniqueId ==> i == j
  {
    var es := Setup(snap);
    forall i, j | 0 <= i < |es| && 0 <= j < |es| && es[i].uniqueId == es[j].uniqueId ensures i == j {
      ZoneUniqueIdInjective(i, "climate", j, "climate");
    }
  }

  /**
   * For a snapshot a cycle published (dense zone keys, each zone holding what the client
   * returned for it; see `Coordinator.Collect`), every climate entity is available, and
   * its current and target temperatures are what the client returned for its zone.
   */
  lemma SetupEntitiesAvailable(b: Backend, snap: Snapshot)
    requires ZonesDense(snap)
    requires forall zid :: zid in snap.zones ==> ZoneFetchedFrom(b, zid, snap.zones[zid])
    ensures forall e :: e in Setup(snap) ==>
      && Available(true, snap, e.zoneId)
      && b.zoneTemperature(e.zoneId).Success?
      && CurrentTemperature(snap, e.zoneId) == Success(b.zoneTemperature(e.zoneId).value)
      && b.zoneSetpoint(e.zoneId).Success?
      && TargetTemperature(snap, e.zoneId) == Success(b.zoneSetpoint(e.zoneId).value)
  {
  }

  /** A zone missing from the snapshot makes the entity unavailable and both temperature views raise `KeyError`. */
  lemma MissingZoneViews(lastUpdateSuccess: bool, snap: Snapshot, zid: int)
    requires zid !in snap.zones
    ensures !Available(lastUpdateSuccess, snap, zid)
    ensures CurrentTemperature(snap, zid) == Failure(KeyError(zid))
    ensures TargetTemperature(snap, zid) == Failure(KeyError(zid))
  {
  }
}
