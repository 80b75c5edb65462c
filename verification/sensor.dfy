/** Zone humidity and dew point sensors, and the debug snapshot sensor set up with them. */
module Sensor {
  import opened Wrappers
  import opened Text
  import opened Api
  import opened Coordinator
  import opened Entities
  import Climate

  /** The two zone sensor definitions: humidity in percent, dew point in the system's temperature unit. */
  datatype ZoneSensorDef = HumidityDef | DewpointDef

  const ZoneSensors: seq<ZoneSensorDef> := [HumidityDef, DewpointDef]

  function Key(d: ZoneSensorDef): string {
    match d
    case HumidityDef => "humidity"
    case DewpointDef => "dewpoint"
  }

  function Suffix(d: ZoneSensorDef): string {
    match d
    case HumidityDef => "Humidity"
    case DewpointDef => "Dew Point"
  }

  datatype Unit = Percentage | Temperature(unit: TemperatureUnit)

  datatype SensorEntity = ZoneSensor(zoneId: int, def: ZoneSensorDef) | DebugSnapshot(entryId: string)

  /** The sensors' unique ids: `messana_zone_{id}_{key}`, and `messana_{entry_id}_debug_snapshot`. */
  function UniqueId(e: SensorEntity): string {
    match e
    case ZoneSensor(zid, d) => ZoneUniqueId(zid, Key(d))
    case DebugSnapshot(entryId) => "messana_" + entryId + "_debug_snapshot"
  }

  /** Zone sensor ids never collide, within one zone or across zones. */
  lemma ZoneSensorIdsDistinct(i: int, d1: ZoneSensorDef, j: int, d2: ZoneSensorDef)
    requires UniqueId(ZoneSensor(i, d1)) == UniqueId(ZoneSensor(j, d2))
    ensures i == j && d1 == d2
  {
    ZoneUniqueIdInjective(i, Key(d1), j, Key(d2));
  }

  /** The zone sensors for zones `0..n-1`: humidity then dew point for each zone, zones ascending. */
  function ZoneSensorEntities(n: nat): (es: seq<SensorEntity>)
    ensures |es| == 2 * n
    ensures forall k :: 0 <= k < |es| ==> es[k] == ZoneSensor(k / 2, ZoneSensors[k % 2])
  {
    if n == 0 then []
    else
      var earlier := ZoneSensorEntities(n - 1);
      var es := earlier + [ZoneSensor(n - 1, HumidityDef), ZoneSensor(n - 1, DewpointDef)];
      assert forall k :: 2 * (n - 1) <= k < 2 * n ==> k / 2 == n - 1 && k % 2 == k - 2 * (n - 1);
      es
  }

  datatype SetupError = TypeError(message: string)

  /** `MessanaRawSampleSensor(coordinator, entry_id)`: the constructor takes exactly one argument after the coordinator. */
  function NewDebugSensor(args: seq<string>): (r: Result<SensorEntity, SetupError>)
    ensures r.Success? <==> |args| == 1
    ensures r.Success? ==> r.value == DebugSnapshot(args[0])
  {
    if |args| == 1 then Success(DebugSnapshot(args[0]))
    else Failure(TypeError("MessanaRawSampleSensor.__init__() takes exactly one argument after the coordinator"))
  }

  /**
   * `async_setup_entry`, building the debug sensor from `debugArgs`: the zone sensors,
   * then the debug sensor; the list reaches `async_add_entities` only when the
   * constructor does not raise.
   */
  function SetupWith(snap: Snapshot, debugArgs: seq<string>): (r: Result<seq<SensorEntity>, SetupError>)
    ensures r.Success? <==> |debugArgs| == 1
    ensures r.Success? ==>
      && |r.value| == 2 * Max0(snap.system.effectiveZoneCount) + 1
      && (forall k :: 0 <= k < |r.value| - 1 ==> r.value[k] == ZoneSensor(k / 2, ZoneSensors[k % 2]))
      && r.value[|r.value| - 1] == DebugSnapshot(debugArgs[0])
  {
    var debug :- NewDebugSensor(debugArgs);
    Success(ZoneSensorEntities(Max0(snap.system.effectiveZoneCount)) + [debug])
  }

  /** Setup as written passes no entry id, so it always raises `TypeError` and adds no sensor, not even the zone sensors. */
  lemma SetupAsWrittenAddsNothing(snap: Snapshot)
    ensures SetupWith(snap, []).Failure?
    ensures SetupWith(snap, []).error.TypeError?
  {
  }

  /**
   * With the entry id passed, setup adds 2n+1 sensors for n zones: humidity and dew
   * point per zone, then the debug sensor last, all with distinct unique ids.
   */
  lemma SetupWithEntryId(snap: Snapshot, entryId: string)
    ensures var r := SetupWith(snap, [entryId]);
      && r.Success?
      && |r.value| == 2 * Max0(snap.system.effectiveZoneCount) + 1
      && r.value[|r.value| - 1] == DebugSnapshot(entryId)
      && forall i, j :: 0 <= i < j < |r.value| - 1 ==> UniqueId(r.value[i]) != UniqueId(r.value[j])
  {
    var es := SetupWith(snap, [entryId]).value;
    forall i, j | 0 <= i < j < |es| - 1 ensures UniqueId(es[i]) != UniqueId(es[j]) {
      if UniqueId(es[i]) == UniqueId(es[j]) {
        ZoneSensorIdsDistinct(i / 2, ZoneSensors[i % 2], j / 2, ZoneSensors[j % 2]);
      }
    }
  }

  /** `name`: "{zone name} {suffix}", the zone name falling back to "Zone {id}" when the zone is missing. */
  function Name(snap: Snapshot, zid: int, d: ZoneSensorDef): (name: string)
    ensures zid !in snap.zones ==> name == DefaultZoneName(zid) + " " + Suffix(d)
    ensures zid in snap.zones ==> name == snap.zones[zid].name + " " + Suffix(d)
  {
    ZoneNameOr(snap, zid) + " " + Suffix(d)
  }

  /** `native_unit_of_measurement`: the dew point follows the system's unit, humidity stays a percentage. */
  function NativeUnit(snap: Snapshot, d: ZoneSensorDef): (u: Unit)
    ensures d == HumidityDef ==> u == Percentage
    ensures d == DewpointDef ==> u.Temperature? && (u.unit == Fahrenheit <==>
              |snap.system.tempUnit| > 0 && (snap.system.tempUnit[0] == 'f' || snap.system.tempUnit[0] == 'F'))
  {
    match d
    case HumidityDef => Percentage
    case DewpointDef => Temperature(HaTempUnit(snap.system.tempUnit))
  }

  /** `native_value`: the zone's field for the sensor's key; nothing when the zone is missing. */
  function NativeValue(snap: Snapshot, zid: int, d: ZoneSensorDef): (v: Option<real>)
    ensures zid !in snap.zones ==> v.None?
    ensures zid in snap.zones && d == HumidityDef ==> v == snap.zones[zid].humidity
    ensures zid in snap.zones && d == DewpointDef ==> v == snap.zones[zid].dewpoint
  {
    if zid !in snap.zones then None
    else match d
      case HumidityDef => snap.zones[zid].humidity
      case DewpointDef => snap.zones[zid].dewpoint
  }

  /** The dew point sensors and the climate entities show temperatures in the same unit. */
  lemma DewpointUnitMatchesClimate(snap: Snapshot)
    ensures NativeUnit(snap, DewpointDef) == Temperature(Climate.TemperatureUnitView(snap))
  {
  }
}
