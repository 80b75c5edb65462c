/**
 * The client as the coordinator and the entities use it: one typed operation per
 * client method. `Connect` binds the REST client of `Api` to a device; the zone
 * methods the coordinator and the button call but the client does not define are
 * supplied separately and taken as given.
 */
module Calls {
  import opened Wrappers
  import opened Json
  import opened Api

  /** `get_zone_thermal_status`, `get_zone_schedule_on`, `get_zone_schedule_status`, `set_zone_schedule_on`. */
  datatype ZoneExtras = ZoneExtras(
    thermalStatus: int -> Result<Option<int>, Error>,
    scheduleOn: int -> Result<Option<int>, Error>,
    scheduleStatus: int -> Result<Option<int>, Error>,
    setScheduleOn: (int, bool) -> Result<(), Error>)

  /** What each client method returns (or raises) during one cycle or command. */
  datatype Backend = Backend(
    systemStatus: Result<int, Error>,
    tempUnit: Result<string, Error>,
    zoneCount: Result<int, Error>,
    hcGroupCount: Result<int, Error>,
    hcMode: int -> Result<int, Error>,
    hcSeason: int -> Result<int, Error>,
    zoneName: int -> Result<string, Error>,
    zoneTemperature: int -> Result<Option<real>, Error>,
    zoneHumidity: int -> Result<Option<real>, Error>,
    zoneDewpoint: int -> Result<Option<real>, Error>,
    zoneSetpoint: int -> Result<Option<real>, Error>,
    zoneStatus: int -> Result<int, Error>,
    thermalStatus: int -> Result<Option<int>, Error>,
    scheduleOn: int -> Result<Option<int>, Error>,
    scheduleStatus: int -> Result<Option<int>, Error>,
    setSystemStatus: bool -> Result<(), Error>,
    setHcMode: (int, int) -> Result<(), Error>,
    setZoneSetpoint: (int, real) -> Result<(), Error>,
    setZoneStatus: (int, bool) -> Result<(), Error>,
    setZoneScheduleOn: (int, bool) -> Result<(), Error>)

  /** The REST client `c`, talking to `d`, together with the zone methods it lacks. */
  function Connect(c: Client, d: Device, p: Parsers, extras: ZoneExtras): Backend {
    Backend(
      GetSystemStatus(c, d, p),
      GetTempUnit(c, d, p),
      GetZoneCount(c, d, p),
      GetHcGroupCount(c, d, p),
      gid => GetHcMode(c, d, p, gid),
      gid => GetHcExecutiveSeason(c, d, p, gid),
      zid => GetZoneName(c, d, p, zid),
      zid => GetZoneTemperature(c, d, p, zid),
      zid => GetZoneHumidity(c, d, p, zid),
      zid => GetZoneDewpoint(c, d, p, zid),
      zid => GetZoneSetpoint(c, d, p, zid),
      zid => GetZoneStatus(c, d, p, zid),
      extras.thermalStatus,
      extras.scheduleOn,
      extras.scheduleStatus,
      on => SetSystemStatus(c, d, on),
      (gid, mode) => SetHcMode(c, d, gid, mode),
      (zid, t) => SetZoneSetpoint(c, d, zid, t),
      (zid, on) => SetZoneStatus(c, d, zid, on),
      extras.setScheduleOn)
  }

  /** Every client method the integration calls, with its arguments. */
  datatype Call =
    | ReadSystemStatus
    | ReadTempUnit
    | ReadZoneCount
    | ReadHcGroupCount
    | ReadHcMode(gid: int)
    | ReadHcSeason(gid: int)
    | ReadZoneName(zid: int)
    | ReadZoneTemperature(zid: int)
    | ReadZoneHumidity(zid: int)
    | ReadZoneDewpoint(zid: int)
    | ReadZoneSetpoint(zid: int)
    | ReadZoneStatus(zid: int)
    | ReadZoneThermalStatus(zid: int)
    | ReadZoneScheduleOn(zid: int)
    | ReadZoneScheduleStatus(zid: int)
    | WriteSystemStatus(on: bool)
    | WriteHcMode(gid: int, mode: int)
    | WriteZoneSetpoint(zid: int, temperature: real)
    | WriteZoneStatus(zid: int, on: bool)
    | WriteZoneScheduleOn(zid: int, on: bool)

  function FailureOf<T>(r: Result<T, Error>): Option<Error> {
    if r.Failure? then Some(r.error) else None
  }

  /** The exception a call raises, if any. */
  function Failed(b: Backend, call: Call): Option<Error> {
    match call
    case ReadSystemStatus => FailureOf(b.systemStatus)
    case ReadTempUnit => FailureOf(b.tempUnit)
    case ReadZoneCount => FailureOf(b.zoneCount)
    case ReadHcGroupCount => FailureOf(b.hcGroupCount)
    case ReadHcMode(g) => FailureOf(b.hcMode(g))
    case ReadHcSeason(g) => FailureOf(b.hcSeason(g))
    case ReadZoneName(z) => FailureOf(b.zoneName(z))
    case ReadZoneTemperature(z) => FailureOf(b.zoneTemperature(z))
    case ReadZoneHumidity(z) => FailureOf(b.zoneHumidity(z))
    case ReadZoneDewpoint(z) => FailureOf(b.zoneDewpoint(z))
    case ReadZoneSetpoint(z) => FailureOf(b.zoneSetpoint(z))
    case ReadZoneStatus(z) => FailureOf(b.zoneStatus(z))
    case ReadZoneThermalStatus(z) => FailureOf(b.thermalStatus(z))
    case ReadZoneScheduleOn(z) => FailureOf(b.scheduleOn(z))
    case ReadZoneScheduleStatus(z) => FailureOf(b.scheduleStatus(z))
    case WriteSystemStatus(on) => FailureOf(b.setSystemStatus(on))
    case WriteHcMode(g, m) => FailureOf(b.setHcMode(g, m))
    case WriteZoneSetpoint(z, t) => FailureOf(b.setZoneSetpoint(z, t))
    case WriteZoneStatus(z, on) => FailureOf(b.setZoneStatus(z, on))
    case WriteZoneScheduleOn(z, on) => FailureOf(b.setZoneScheduleOn(z, on))
  }

  /**
   * `calls` were made one after another and the run stopped at the first failure:
   * every call before the last succeeded, and the last one failed with `failure`
   * when there is one (when there is none, all of them succeeded).
   */
  ghost predicate SequentialRun(b: Backend, calls: seq<Call>, failure: Option<Error>) {
    && (forall k :: 0 <= k < |calls| && (failure.None? || k < |calls| - 1) ==> Failed(b, calls[k]).None?)
    && (failure.Some? ==> |calls| > 0 && Failed(b, calls[|calls| - 1]) == failure)
  }

  /** A fully successful run followed by any run is one run. */
  lemma SequentialRunAppend(b: Backend, first: seq<Call>, rest: seq<Call>, failure: Option<Error>)
    requires SequentialRun(b, first, None)
    requires SequentialRun(b, rest, failure)
    ensures SequentialRun(b, first + rest, failure)
  {
    var all := first + rest;
    forall k | 0 <= k < |all| && (failure.None? || k < |all| - 1)
      ensures Failed(b, all[k]).None?
    {
      if k >= |first| {
        assert all[k] == rest[k - |first|];
      }
    }
    if failure.Some? {
      assert all[|all| - 1] == rest[|rest| - 1];
    }
  }

  /** In a sequential run, a call that raises is the last call made, and its error is the run's. */
  lemma FailingCallIsLast(b: Backend, calls: seq<Call>, failure: Option<Error>, k: int)
    requires SequentialRun(b, calls, failure)
    requires 0 <= k < |calls| && Failed(b, calls[k]).Some?
    ensures k == |calls| - 1 && failure == Failed(b, calls[k])
  {
  }

  /**
   * A run over a prefix of `plan` that either failed or finished the plan stops exactly
   * at the plan's first failing call, and fails with that call's error.
   */
  lemma FirstFailureEndsRun(b: Backend, plan: seq<Call>, calls: seq<Call>, failure: Option<Error>, i: int)
    requires calls <= plan && SequentialRun(b, calls, failure) && (failure.Some? || calls == plan)
    requires 0 <= i < |plan| && Failed(b, plan[i]).Some?
    requires forall k :: 0 <= k < i ==> Failed(b, plan[k]).None?
    ensures calls == plan[..i + 1] && failure == Failed(b, plan[i])
  {
  }

  /** The zone methods `api.py` does not define: each raises `AttributeError`. */
  function MissingZoneExtras(): (x: ZoneExtras)
    ensures forall z :: x.thermalStatus(z) == Failure(MissingMethod("get_zone_thermal_status"))
    ensures forall z :: x.scheduleOn(z) == Failure(MissingMethod("get_zone_schedule_on"))
    ensures forall z :: x.scheduleStatus(z) == Failure(MissingMethod("get_zone_schedule_status"))
    ensures forall z, on :: x.setScheduleOn(z, on) == Failure(MissingMethod("set_zone_schedule_on"))
  {
    ZoneExtras(
      z => Failure(MissingMethod("get_zone_thermal_status")),
      z => Failure(MissingMethod("get_zone_schedule_on")),
      z => Failure(MissingMethod("get_zone_schedule_status")),
      (z, on) => Failure(MissingMethod("set_zone_schedule_on")))
  }

  /** The client exactly as `api.py` defines it, bound to a device. */
  function AsWrittenBackend(c: Client, dev: Device, p: Parsers): (b: Backend)
    ensures forall z :: b.thermalStatus(z) == Failure(MissingMethod("get_zone_thermal_status"))
    ensures forall z :: b.scheduleOn(z) == Failure(MissingMethod("get_zone_schedule_on"))
    ensures forall z :: b.scheduleStatus(z) == Failure(MissingMethod("get_zone_schedule_status"))
    ensures forall z, on :: b.setZoneScheduleOn(z, on) == Failure(MissingMethod("set_zone_schedule_on"))
  {
    Connect(c, dev, p, MissingZoneExtras())
  }
}
