/**
 * One refresh cycle of the coordinator: a strictly sequential fold over client calls
 * that yields either a complete snapshot or the first error, never a partial snapshot.
 */
module Coordinator {
  import opened Wrappers
  import opened Json
  import opened Api
  import opened Calls

  datatype SystemInfo = SystemInfo(status: int, tempUnit: string, apiZoneCount: int, effectiveZoneCount: int)

  datatype HcGroup = HcGroup(mode: int, executiveSeason: int)

  datatype Zone = Zone(
    id: int,
    name: string,
    temperature: Option<real>,
    humidity: Option<real>,
    dewpoint: Option<real>,
    setpoint: Option<real>,
    status: int,
    thermalStatus: Option<int>,
    scheduleOn: Option<int>,
    scheduleStatus: Option<int>)

  /** The published data: system block plus index-keyed H/C groups and zones. */
  datatype Snapshot = Snapshot(system: SystemInfo, hcGroups: map<int, HcGroup>, zones: map<int, Zone>)

  /** The zone map is keyed by exactly `0..effective_zone_count-1`, as in every snapshot a cycle publishes. */
  predicate ZonesDense(snap: Snapshot) {
    snap.zones.Keys == Indices(Max0(snap.system.effectiveZoneCount))
  }

  /** A coordinator's configuration. The override is never negative. */
  datatype Settings = Settings(scanIntervalSeconds: int, zoneCountOverride: nat)

  /** How a cycle ends unsuccessfully: `UpdateFailed`, or another exception passing through. */
  datatype CycleError = UpdateFailed(message: string) | Raised(error: Error)

  /** The calls a fold made, and what it produced. */
  datatype Fetched<T> = Fetched(calls: seq<Call>, result: Result<T, Error>)

  datatype CycleOutcome = CycleOutcome(calls: seq<Call>, result: Result<Snapshot, CycleError>)

  function Max0(n: int): nat {
    if n > 0 then n else 0
  }

  /** The dense key set `{0, ..., n-1}`. */
  function Indices(n: nat): (r: set<int>)
    ensures forall i :: i in r <==> 0 <= i < n
  {
    if n == 0 then {} else Indices(n - 1) + {n - 1}
  }

  // -------- configuration --------

  /** `max(int(zone_count_override or 0), 0)`: missing, zero and negative overrides all mean "none". */
  function ClampOverride(o: Option<int>): (r: nat)
    ensures r > 0 <==> o.Some? && o.value > 0
    ensures r > 0 ==> r == o.value
  {
    if o.Some? && o.value > 0 then o.value else 0
  }

  function NewSettings(scanIntervalSeconds: int, zoneCountOverride: Option<int>): (s: Settings)
    ensures s.scanIntervalSeconds == scanIntervalSeconds
    ensures s.zoneCountOverride == ClampOverride(zoneCountOverride)
  {
    Settings(scanIntervalSeconds, ClampOverride(zoneCountOverride))
  }

  /** `zone_count_override or api_zone_count`: a positive override wins, otherwise the device's count. */
  function EffectiveZoneCount(zoneCountOverride: nat, apiZoneCount: int): (n: int)
    ensures zoneCountOverride > 0 ==> n == zoneCountOverride
    ensures zoneCountOverride == 0 ==> n == apiZoneCount
  {
    if zoneCountOverride != 0 then zoneCountOverride else apiZoneCount
  }

  // -------- the call plan --------

  const Prelude: seq<Call> := [ReadSystemStatus, ReadTempUnit, ReadZoneCount, ReadHcGroupCount]

  function GroupCalls(gid: int): seq<Call> {
    [ReadHcMode(gid), ReadHcSeason(gid)]
  }

  function ReadingCalls(zid: int): seq<Call> {
    [ReadZoneName(zid), ReadZoneTemperature(zid), ReadZoneHumidity(zid), ReadZoneDewpoint(zid), ReadZoneSetpoint(zid)]
  }

  function StateCalls(zid: int): seq<Call> {
    [ReadZoneStatus(zid), ReadZoneThermalStatus(zid), ReadZoneScheduleOn(zid), ReadZoneScheduleStatus(zid)]
  }

  /** The nine reads of a zone: name, the four readings, status, thermal status, the two schedule fields. */
  function ZoneCalls(zid: int): seq<Call> {
    ReadingCalls(zid) + StateCalls(zid)
  }

  /** The calls for groups `0..n-1`, group by group in ascending order. */
  function GroupPlan(n: nat): (r: seq<Call>)
    ensures |r| == 2 * n
  {
    if n == 0 then [] else GroupPlan(n - 1) + GroupCalls(n - 1)
  }

  /** The calls for zones `0..n-1`, zone by zone in ascending order. */
  function ZonePlan(n: nat): (r: seq<Call>)
    ensures |r| == 9 * n
  {
    if n == 0 then [] else ZonePlan(n - 1) + ZoneCalls(n - 1)
  }

  /** The whole call sequence of a cycle, given the reported H/C group count and the effective zone count. */
  function CyclePlan(hcCount: int, zoneCount: int): seq<Call> {
    Prelude + GroupPlan(Max0(hcCount)) + ZonePlan(Max0(zoneCount))
  }

  /** Position `k` of the group calls is call `k % 2` of group `k / 2`: strictly interleaved, mode before season. */
  lemma {:induction false} GroupPlanIndex(n: nat, k: int)
    requires 0 <= k < 2 * n
    ensures GroupPlan(n)[k] == GroupCalls(k / 2)[k % 2]
  {
    if k < 2 * (n - 1) {
      GroupPlanIndex(n - 1, k);
    } else {
      var j := k - 2 * (n - 1);
      assert k / 2 == n - 1 && k % 2 == j;
    }
  }

  /** Position `k` of the zone calls is call `k % 9` of zone `k / 9`: each zone's nine reads together, zones ascending. */
  lemma {:induction false} ZonePlanIndex(n: nat, k: int)
    requires 0 <= k < 9 * n
    ensures ZonePlan(n)[k] == ZoneCalls(k / 9)[k % 9]
  {
    if k < 9 * (n - 1) {
      ZonePlanIndex(n - 1, k);
    } else {
      var j := k - 9 * (n - 1);
      assert k == 9 * (n - 1) + j;
      assert k / 9 == n - 1 && k % 9 == j;
    }
  }

  // -------- provenance of snapshot entries --------

  /** Group entry `g` holds exactly what the mode and season calls for `gid` returned. */
  ghost predicate GroupFetchedFrom(b: Backend, gid: int, g: HcGroup) {
    && b.hcMode(gid) == Success(g.mode)
    && b.hcSeason(gid) == Success(g.executiveSeason)
  }

  /** What the first five zone reads return. */
  datatype ZoneReadings = ZoneReadings(name: string, temperature: Option<real>, humidity: Option<real>,
                                       dewpoint: Option<real>, setpoint: Option<real>)

  /** What the last four zone reads return. */
  datatype ZoneStates = ZoneStates(status: int, thermalStatus: Option<int>, scheduleOn: Option<int>,
                                   scheduleStatus: Option<int>)

  ghost predicate ReadingsFetchedFrom(b: Backend, zid: int, r: ZoneReadings) {
    && b.zoneName(zid) == Success(r.name)
    && b.zoneTemperature(zid) == Success(r.temperature)
    && b.zoneHumidity(zid) == Success(r.humidity)
    && b.zoneDewpoint(zid) == Success(r.dewpoint)
    && b.zoneSetpoint(zid) == Success(r.setpoint)
  }

  ghost predicate StatesFetchedFrom(b: Backend, zid: int, t: ZoneStates) {
    && b.zoneStatus(zid) == Success(t.status)
    && b.thermalStatus(zid) == Success(t.thermalStatus)
    && b.scheduleOn(zid) == Success(t.scheduleOn)
    && b.scheduleStatus(zid) == Success(t.scheduleStatus)
  }

  /** Zone entry `z` carries id `zid` and, field by field, what the calls for `zid` returned. */
  ghost predicate ZoneFetchedFrom(b: Backend, zid: int, z: Zone) {
    && z.id == zid
    && b.zoneName(zid) == Success(z.name)
    && b.zoneTemperature(zid) == Success(z.temperature)
    && b.zoneHumidity(zid) == Success(z.humidity)
    && b.zoneDewpoint(zid) == Success(z.dewpoint)
    && b.zoneSetpoint(zid) == Success(z.setpoint)
    && b.zoneStatus(zid) == Success(z.status)
    && b.thermalStatus(zid) == Success(z.thermalStatus)
    && b.scheduleOn(zid) == Success(z.scheduleOn)
    && b.scheduleStatus(zid) == Success(z.scheduleStatus)
  }

  // -------- the fold --------

  /** Mode, then executive season, of one H/C group. */
  function FetchGroup(b: Backend, gid: int): (o: Fetched<HcGroup>)
    ensures o.calls <= GroupCalls(gid)
    ensures SequentialRun(b, o.calls, FailureOf(o.result))
    ensures o.result.Success? ==> o.calls == GroupCalls(gid) && GroupFetchedFrom(b, gid, o.result.value)
  {
    var mode := b.hcMode(gid);
    if mode.Failure? then Fetched([ReadHcMode(gid)], Failure(mode.error)) else
    var season := b.hcSeason(gid);
    if season.Failure? then Fetched(GroupCalls(gid), Failure(season.error)) else
    Fetched(GroupCalls(gid), Success(HcGroup(mode.value, season.value)))
  }

  /** Groups `0..n-1` in ascending order, stopping at the first error. */
  function FetchGroups(b: Backend, n: nat): (o: Fetched<map<int, HcGroup>>)
    ensures o.calls <= GroupPlan(n)
    ensures SequentialRun(b, o.calls, FailureOf(o.result))
    ensures o.result.Success? ==> o.calls == GroupPlan(n) && o.result.value.Keys == Indices(n)
    ensures o.result.Success? ==> forall gid :: 0 <= gid < n ==> GroupFetchedFrom(b, gid, o.result.value[gid])
    decreases n
  {
    if n == 0 then Fetched([], Success(map[])) else
    var earlier := FetchGroups(b, n - 1);
    if earlier.result.Failure? then
      earlier
    else
      var last := FetchGroup(b, n - 1);
      SequentialRunAppend(b, earlier.calls, last.calls, FailureOf(last.result));
      assert Indices(n) == Indices(n - 1) + {n - 1};
      Fetched(earlier.calls + last.calls,
              if last.result.Failure? then Failure(last.result.error)
              else Success(earlier.result.value[n - 1 := last.result.value]))
  }

  /** The five reads of a zone's name and readings, in the order `_async_update_data` makes them. */
  function FetchZoneReadings(b: Backend, zid: int): (o: Fetched<ZoneReadings>)
    ensures o.calls <= ReadingCalls(zid)
    ensures SequentialRun(b, o.calls, FailureOf(o.result))
    ensures o.result.Success? ==> o.calls == ReadingCalls(zid) && ReadingsFetchedFrom(b, zid, o.result.value)
  {
    var calls := ReadingCalls(zid);
    var name := b.zoneName(zid);
    if name.Failure? then Fetched([ReadZoneName(zid)], Failure(name.error)) else
    var temp := b.zoneTemperature(zid);
    if temp.Failure? then Fetched([ReadZoneName(zid), ReadZoneTemperature(zid)], Failure(temp.error)) else
    var rh := b.zoneHumidity(zid);
    if rh.Failure? then
      Fetched([ReadZoneName(zid), ReadZoneTemperature(zid), ReadZoneHumidity(zid)], Failure(rh.error))
    else
    var dp := b.zoneDewpoint(zid);
    if dp.Failure? then
      Fetched([ReadZoneName(zid), ReadZoneTemperature(zid), ReadZoneHumidity(zid), ReadZoneDewpoint(zid)],
              Failure(dp.error))
    else
    var sp := b.zoneSetpoint(zid);
    if sp.Failure? then Fetched(calls, Failure(sp.error)) else
    Fetched(calls, Success(ZoneReadings(name.value, temp.value, rh.value, dp.value, sp.value)))
  }

  /** The four reads of a zone's on/off status, thermal status and schedule, in the order `_async_update_data` makes them. */
  function FetchZoneStates(b: Backend, zid: int): (o: Fetched<ZoneStates>)
    ensures o.calls <= StateCalls(zid)
    ensures SequentialRun(b, o.calls, FailureOf(o.result))
    ensures o.result.Success? ==> o.calls == StateCalls(zid) && StatesFetchedFrom(b, zid, o.result.value)
  {
    var calls := StateCalls(zid);
    var on := b.zoneStatus(zid);
    if on.Failure? then Fetched([ReadZoneStatus(zid)], Failure(on.error)) else
    var thermal := b.thermalStatus(zid);
    if thermal.Failure? then Fetched([ReadZoneStatus(zid), ReadZoneThermalStatus(zid)], Failure(thermal.error)) else
    var schedOn := b.scheduleOn(zid);
    if schedOn.Failure? then
      Fetched([ReadZoneStatus(zid), ReadZoneThermalStatus(zid), ReadZoneScheduleOn(zid)], Failure(schedOn.error))
    else
    var schedStatus := b.scheduleStatus(zid);
    if schedStatus.Failure? then Fetched(calls, Failure(schedStatus.error)) else
    Fetched(calls, Success(ZoneStates(on.value, thermal.value, schedOn.value, schedStatus.value)))
  }

  /** The nine reads of one zone, in the order `_async_update_data` makes them, assembled into its record. */
  function FetchZone(b: Backend, zid: int): (o: Fetched<Zone>)
    ensures o.calls <= ZoneCalls(zid)
    ensures SequentialRun(b, o.calls, FailureOf(o.result))
    ensures o.result.Success? ==> o.calls == ZoneCalls(zid) && ZoneFetchedFrom(b, zid, o.result.value)
  {
    var readings := FetchZoneReadings(b, zid);
    if readings.result.Failure? then Fetched(readings.calls, Failure(readings.result.error)) else
    var states := FetchZoneStates(b, zid);
    SequentialRunAppend(b, readings.calls, states.calls, FailureOf(states.result));
    var r := readings.result.value;
    if states.result.Failure? then Fetched(readings.calls + states.calls, Failure(states.result.error)) else
    var t := states.result.value;
    Fetched(ZoneCalls(zid), Success(Zone(zid, r.name, r.temperature, r.humidity, r.dewpoint, r.setpoint,
                                         t.status, t.thermalStatus, t.scheduleOn, t.scheduleStatus)))
  }

  /** Zones `0..n-1` in ascending order, stopping at the first error. */
  function FetchZones(b: Backend, n: nat): (o: Fetched<map<int, Zone>>)
    ensures o.calls <= ZonePlan(n)
    ensures SequentialRun(b, o.calls, FailureOf(o.result))
    ensures o.result.Success? ==> o.calls == ZonePlan(n) && o.result.value.Keys == Indices(n)
    ensures o.result.Success? ==> forall zid :: 0 <= zid < n ==> ZoneFetchedFrom(b, zid, o.result.value[zid])
    decreases n
  {
    if n == 0 then Fetched([], Success(map[])) else
    var earlier := FetchZones(b, n - 1);
    if earlier.result.Failure? then
      earlier
    else
      var last := FetchZone(b, n - 1);
      SequentialRunAppend(b, earlier.calls, last.calls, FailureOf(last.result));
      assert Indices(n) == Indices(n - 1) + {n - 1};
      Fetched(earlier.calls + last.calls,
              if last.result.Failure? then Failure(last.result.error)
              else Success(earlier.result.value[n - 1 := last.result.value]))
  }

  /** The H/C group count the device reports (0 when the call fails; it is only consulted after success). */
  function ReportedHcCount(b: Backend): int {
    if b.hcGroupCount.Success? then b.hcGroupCount.value else 0
  }

  /** The calls a cycle is meant to make: the four system reads, then, if all four succeed, the loops they bound. */
  function PlannedCalls(b: Backend, s: Settings): seq<Call> {
    if b.systemStatus.Success? && b.tempUnit.Success? && b.zoneCount.Success? && b.hcGroupCount.Success? then
      CyclePlan(ReportedHcCount(b), EffectiveZoneCount(s.zoneCountOverride, b.zoneCount.value))
    else Prelude
  }

  /** The system block holds the four fetched values and the effective zone count computed from them. */
  ghost predicate SystemFetchedFrom(b: Backend, s: Settings, sys: SystemInfo) {
    && b.systemStatus == Success(sys.status)
    && b.tempUnit == Success(sys.tempUnit)
    && b.zoneCount == Success(sys.apiZoneCount)
    && sys.effectiveZoneCount == EffectiveZoneCount(s.zoneCountOverride, sys.apiZoneCount)
  }

  /** What the four system-level reads return. */
  datatype SystemReads = SystemReads(status: int, tempUnit: string, apiZoneCount: int, hcGroupCount: int)

  /** System status, temperature unit, zone count, H/C group count: the reads every cycle starts with. */
  function FetchSystem(b: Backend): (o: Fetched<SystemReads>)
    ensures o.calls <= Prelude
    ensures SequentialRun(b, o.calls, FailureOf(o.result))
    ensures o.result.Success? ==>
      && o.calls == Prelude
      && b.systemStatus == Success(o.result.value.status)
      && b.tempUnit == Success(o.result.value.tempUnit)
      && b.zoneCount == Success(o.result.value.apiZoneCount)
      && b.hcGroupCount == Success(o.result.value.hcGroupCount)
  {
    var status := b.systemStatus;
    if status.Failure? then Fetched([ReadSystemStatus], Failure(status.error)) else
    var unit := b.tempUnit;
    if unit.Failure? then Fetched([ReadSystemStatus, ReadTempUnit], Failure(unit.error)) else
    var apiZoneCount := b.zoneCount;
    if apiZoneCount.Failure? then
      Fetched([ReadSystemStatus, ReadTempUnit, ReadZoneCount], Failure(apiZoneCount.error))
    else
    var hcCount := b.hcGroupCount;
    if hcCount.Failure? then Fetched(Prelude, Failure(hcCount.error)) else
    Fetched(Prelude, Success(SystemReads(status.value, unit.value, apiZoneCount.value, hcCount.value)))
  }

  /** The body of `_async_update_data`'s `try` block: fetch everything, build the snapshot. */
  function Collect(b: Backend, s: Settings): (o: Fetched<Snapshot>)
    ensures o.calls <= PlannedCalls(b, s)
    ensures SequentialRun(b, o.calls, FailureOf(o.result))
    ensures o.result.Success? ==>
      var snap := o.result.value;
      && SystemFetchedFrom(b, s, snap.system)
      && o.calls == CyclePlan(ReportedHcCount(b), snap.system.effectiveZoneCount)
      && |o.calls| == 4 + 2 * Max0(ReportedHcCount(b)) + 9 * Max0(snap.system.effectiveZoneCount)
      && snap.hcGroups.Keys == Indices(Max0(ReportedHcCount(b)))
      && (forall gid :: gid in snap.hcGroups ==> GroupFetchedFrom(b, gid, snap.hcGroups[gid]))
      && ZonesDense(snap)
      && (forall zid :: zid in snap.zones ==> ZoneFetchedFrom(b, zid, snap.zones[zid]))
  {
    var head := FetchSystem(b);
    if head.result.Failure? then Fetched(head.calls, Failure(head.result.error)) else
    var sys := head.result.value;
    var zoneCount := EffectiveZoneCount(s.zoneCountOverride, sys.apiZoneCount);
    var groups := FetchGroups(b, Max0(sys.hcGroupCount));
    SequentialRunAppend(b, Prelude, groups.calls, FailureOf(groups.result));
    if groups.result.Failure? then Fetched(Prelude + groups.calls, Failure(groups.result.error)) else
    var zones := FetchZones(b, Max0(zoneCount));
    SequentialRunAppend(b, Prelude + groups.calls, zones.calls, FailureOf(zones.result));
    var calls := Prelude + groups.calls + zones.calls;
    if zones.result.Failure? then Fetched(calls, Failure(zones.result.error)) else
    Fetched(calls, Success(Snapshot(
      SystemInfo(sys.status, sys.tempUnit, sys.apiZoneCount, zoneCount),
      groups.result.value,
      zones.result.value)))
  }

  /**
   * `_async_update_data`: a `MessanaApiError` anywhere aborts the cycle as `UpdateFailed`
   * with the same message; any other exception passes through unchanged.
   */
  function UpdateData(b: Backend, s: Settings): (o: CycleOutcome)
    ensures o.calls == Collect(b, s).calls
    ensures o.result.Success? <==> Collect(b, s).result.Success?
    ensures o.result.Success? ==> o.result.value == Collect(b, s).result.value
    ensures o.result.Failure? ==> SequentialRun(b, o.calls, Some(Collect(b, s).result.error))
    ensures o.result.Failure? && Collect(b, s).result.error.ApiError? ==>
              o.result.error == UpdateFailed(Collect(b, s).result.error.message)
    ensures o.result.Failure? && !Collect(b, s).result.error.ApiError? ==>
              o.result.error == Raised(Collect(b, s).result.error)
  {
    var run := Collect(b, s);
    match run.result
    case Success(snap) => CycleOutcome(run.calls, Success(snap))
    case Failure(ApiError(m)) => CycleOutcome(run.calls, Failure(UpdateFailed(m)))
    case Failure(e) => CycleOutcome(run.calls, Failure(Raised(e)))
  }

  /**
   * The zone count is always fetched, third, once the first two reads succeed, whatever
   * the override says.
   */
  lemma ZoneCountAlwaysFetched(b: Backend, s: Settings)
    requires b.systemStatus.Success? && b.tempUnit.Success?
    ensures |UpdateData(b, s).calls| >= 3 && UpdateData(b, s).calls[2] == ReadZoneCount
  {
  }

  /**
   * A non-positive count gives an empty map, while the system block keeps the
   * unclamped effective zone count.
   */
  lemma NonPositiveCountsGiveEmptyMaps(b: Backend, s: Settings)
    requires UpdateData(b, s).result.Success?
    ensures var snap := UpdateData(b, s).result.value;
      && (snap.system.effectiveZoneCount <= 0 ==> snap.zones == map[])
      && (b.hcGroupCount.value <= 0 ==> snap.hcGroups == map[])
      && (s.zoneCountOverride == 0 ==> snap.system.effectiveZoneCount == b.zoneCount.value)
  {
  }

  /** A cycle runs a prefix of its plan and stops at the first failure; if nothing failed, it ran the whole plan. */
  lemma CollectFollowsPlan(b: Backend, s: Settings)
    ensures var o := Collect(b, s);
      && o.calls <= PlannedCalls(b, s)
      && SequentialRun(b, o.calls, FailureOf(o.result))
      && (o.result.Success? ==> o.calls == PlannedCalls(b, s))
  {
    var o := Collect(b, s);
    if o.result.Success? {
      assert o.calls[3] == ReadHcGroupCount;
      assert Failed(b, o.calls[3]).None?;
    }
  }

  /**
   * The abort-on-error policy in one statement: a cycle publishes a snapshot exactly
   * when every call it plans succeeds.
   */
  lemma CycleSucceedsIffPlannedCallsSucceed(b: Backend, s: Settings)
    ensures var plan := PlannedCalls(b, s);
      UpdateData(b, s).result.Success? <==> forall k :: 0 <= k < |plan| ==> Failed(b, plan[k]).None?
  {
    var plan := PlannedCalls(b, s);
    var o := Collect(b, s);
    CollectFollowsPlan(b, s);
    if o.result.Failure? {
      var last := |o.calls| - 1;
      assert plan[last] == o.calls[last];
    }
  }

  /** All four system reads succeed. */
  ghost predicate SystemReadsSucceed(b: Backend) {
    b.systemStatus.Success? && b.tempUnit.Success? && b.zoneCount.Success? && b.hcGroupCount.Success?
  }

  /** Both reads of H/C group `gid` succeed. */
  ghost predicate GroupReadsSucceed(b: Backend, gid: int) {
    b.hcMode(gid).Success? && b.hcSeason(gid).Success?
  }

  /** The reads of zone `zid` before its thermal status succeed: name, the four readings, status. */
  ghost predicate ZoneReadsBeforeThermalSucceed(b: Backend, zid: int) {
    && b.zoneName(zid).Success? && b.zoneTemperature(zid).Success? && b.zoneHumidity(zid).Success?
    && b.zoneDewpoint(zid).Success? && b.zoneSetpoint(zid).Success? && b.zoneStatus(zid).Success?
  }

  /** All nine reads of zone `zid` succeed. */
  ghost predicate ZoneReadsSucceed(b: Backend, zid: int) {
    && ZoneReadsBeforeThermalSucceed(b, zid)
    && b.thermalStatus(zid).Success? && b.scheduleOn(zid).Success? && b.scheduleStatus(zid).Success?
  }

  /** The number of calls a cycle plans before its zone loop. */
  function ZonesStart(b: Backend): nat {
    4 + 2 * Max0(ReportedHcCount(b))
  }

  /** When the system and group reads succeed, so does every planned call before the zone loop. */
  lemma PlannedCallBeforeZonesSucceeds(b: Backend, s: Settings, k: int)
    requires SystemReadsSucceed(b)
    requires forall gid :: 0 <= gid < b.hcGroupCount.value ==> GroupReadsSucceed(b, gid)
    requires 0 <= k < ZonesStart(b)
    ensures Failed(b, PlannedCalls(b, s)[k]).None?
  {
    var h := Max0(b.hcGroupCount.value);
    var plan := PlannedCalls(b, s);
    if k >= 4 {
      GroupPlanIndex(h, k - 4);
      assert plan[k] == GroupPlan(h)[k - 4];
      assert GroupReadsSucceed(b, (k - 4) / 2);
    }
  }

  /** Planned call `k` of the zone loop is read `j % 9` of zone `j / 9`, where `j` counts from the loop's start. */
  lemma PlannedZoneCall(b: Backend, s: Settings, k: int)
    requires SystemReadsSucceed(b)
    requires ZonesStart(b) <= k < |PlannedCalls(b, s)|
    ensures var j := k - ZonesStart(b);
      0 <= j / 9 < EffectiveZoneCount(s.zoneCountOverride, b.zoneCount.value)
      && PlannedCalls(b, s)[k] == ZoneCalls(j / 9)[j % 9]
  {
    var z := Max0(EffectiveZoneCount(s.zoneCountOverride, b.zoneCount.value));
    var j := k - ZonesStart(b);
    ZonePlanIndex(z, j);
    assert PlannedCalls(b, s)[k] == ZonePlan(z)[j];
  }

  /**
   * When the system reads, the group reads and zone 0's first six reads succeed, every
   * planned call before zone 0's thermal-status read succeeds, and that read comes next.
   */
  lemma PlannedCallsBeforeThermalSucceed(b: Backend, s: Settings)
    requires SystemReadsSucceed(b)
    requires forall gid :: 0 <= gid < b.hcGroupCount.value ==> GroupReadsSucceed(b, gid)
    requires EffectiveZoneCount(s.zoneCountOverride, b.zoneCount.value) >= 1
    requires ZoneReadsBeforeThermalSucceed(b, 0)
    ensures ZonesStart(b) + 6 < |PlannedCalls(b, s)|
    ensures PlannedCalls(b, s)[ZonesStart(b) + 6] == ReadZoneThermalStatus(0)
    ensures forall k :: 0 <= k < ZonesStart(b) + 6 ==> Failed(b, PlannedCalls(b, s)[k]).None?
  {
    var plan := PlannedCalls(b, s);
    forall k | 0 <= k < ZonesStart(b) + 6 ensures Failed(b, plan[k]).None? {
      if k < ZonesStart(b) {
        PlannedCallBeforeZonesSucceeds(b, s, k);
      } else {
        PlannedZoneCall(b, s, k);
      }
    }
    PlannedZoneCall(b, s, ZonesStart(b) + 6);
  }

  /**
   * A cycle that gets as far as zone 0's thermal status, and finds it raising, ends
   * there: it has made the planned calls up to and including that read, and fails with
   * that read's error.
   */
  lemma ThermalStatusFailureEndsCycle(b: Backend, s: Settings)
    requires SystemReadsSucceed(b)
    requires forall gid :: 0 <= gid < b.hcGroupCount.value ==> GroupReadsSucceed(b, gid)
    requires EffectiveZoneCount(s.zoneCountOverride, b.zoneCount.value) >= 1
    requires ZoneReadsBeforeThermalSucceed(b, 0) && b.thermalStatus(0).Failure?
    ensures Collect(b, s).calls == PlannedCalls(b, s)[..ZonesStart(b) + 7]
    ensures Collect(b, s).calls[ZonesStart(b) + 6] == ReadZoneThermalStatus(0)
    ensures Collect(b, s).result == Failure(b.thermalStatus(0).error)
  {
    PlannedCallsBeforeThermalSucceed(b, s);
    CollectFollowsPlan(b, s);
    var o := Collect(b, s);
    FirstFailureEndsRun(b, PlannedCalls(b, s), o.calls, FailureOf(o.result), ZonesStart(b) + 6);
  }

  /**
   * With a client that lacks the zone thermal-status method, a cycle can only succeed
   * when there is no zone to read. A cycle that reaches a thermal-status read ends on it
   * with `AttributeError`, which is not a `MessanaApiError` and so is not turned into
   * `UpdateFailed`.
   */
  lemma MissingThermalStatusLeavesNoZones(b: Backend, s: Settings)
    requires forall z :: b.thermalStatus(z) == Failure(MissingMethod("get_zone_thermal_status"))
    ensures var o := UpdateData(b, s);
      && (o.result.Success? ==> o.result.value.zones == map[] && o.result.value.system.effectiveZoneCount <= 0)
      && (forall k :: 0 <= k < |o.calls| && o.calls[k].ReadZoneThermalStatus? ==>
            k == |o.calls| - 1 && o.result == Failure(Raised(MissingMethod("get_zone_thermal_status"))))
  {
    CollectFollowsPlan(b, s);
    ThermalReadEndsRun(b, Collect(b, s).calls, FailureOf(Collect(b, s).result), MissingMethod("get_zone_thermal_status"));
  }

  /** The client as defined is such a client: its cycles publish no zone. */
  lemma AsWrittenCycleHasNoZones(c: Client, dev: Device, p: Parsers, s: Settings)
    ensures var o := UpdateData(AsWrittenBackend(c, dev, p), s);
      && (o.result.Success? ==> o.result.value.zones == map[] && o.result.value.system.effectiveZoneCount <= 0)
      && (forall k :: 0 <= k < |o.calls| && o.calls[k].ReadZoneThermalStatus? ==>
            k == |o.calls| - 1 && o.result == Failure(Raised(MissingMethod("get_zone_thermal_status"))))
  {
    MissingThermalStatusLeavesNoZones(AsWrittenBackend(c, dev, p), s);
  }

  /** When every thermal-status read raises `e`, a sequential run that makes one stops right there, failing with `e`. */
  lemma ThermalReadEndsRun(b: Backend, calls: seq<Call>, failure: Option<Error>, e: Error)
    requires forall z :: b.thermalStatus(z) == Failure(e)
    requires SequentialRun(b, calls, failure)
    ensures forall k :: 0 <= k < |calls| && calls[k].ReadZoneThermalStatus? ==> k == |calls| - 1 && failure == Some(e)
  {
    forall k | 0 <= k < |calls| && calls[k].ReadZoneThermalStatus? ensures k == |calls| - 1 && failure == Some(e) {
      FailingCallIsLast(b, calls, failure, k);
    }
  }

  /**
   * The case a client without the thermal-status method meets on every device with a
   * zone: when the system reads, the group reads and zone 0's first six reads succeed,
   * the cycle ends on `get_zone_thermal_status` with `AttributeError`, and no snapshot
   * is published.
   */
  lemma MissingThermalStatusRaises(b: Backend, s: Settings)
    requires forall z :: b.thermalStatus(z) == Failure(MissingMethod("get_zone_thermal_status"))
    requires SystemReadsSucceed(b)
    requires forall gid :: 0 <= gid < b.hcGroupCount.value ==> GroupReadsSucceed(b, gid)
    requires EffectiveZoneCount(s.zoneCountOverride, b.zoneCount.value) >= 1
    requires ZoneReadsBeforeThermalSucceed(b, 0)
    ensures UpdateData(b, s).result == Failure(Raised(MissingMethod("get_zone_thermal_status")))
  {
    ThermalStatusFailureEndsCycle(b, s);
  }

  /** The client as defined meets that case on every device whose reads before zone 0's thermal status succeed. */
  lemma AsWrittenZoneCycleRaises(c: Client, dev: Device, p: Parsers, s: Settings)
    requires var b := AsWrittenBackend(c, dev, p);
      && SystemReadsSucceed(b)
      && (forall gid :: 0 <= gid < b.hcGroupCount.value ==> GroupReadsSucceed(b, gid))
      && EffectiveZoneCount(s.zoneCountOverride, b.zoneCount.value) >= 1
      && ZoneReadsBeforeThermalSucceed(b, 0)
    ensures UpdateData(AsWrittenBackend(c, dev, p), s).result == Failure(Raised(MissingMethod("get_zone_thermal_status")))
  {
    MissingThermalStatusRaises(AsWrittenBackend(c, dev, p), s);
  }

  /**
   * With a client that does provide the zone methods and whose reads all succeed, the
   * cycle publishes a snapshot holding every H/C group and every zone up to the
   * effective count, each zone with the thermal status the client returned.
   */
  lemma CompleteClientCycleHasAllZones(b: Backend, s: Settings)
    requires SystemReadsSucceed(b)
    requires forall gid :: 0 <= gid < b.hcGroupCount.value ==> GroupReadsSucceed(b, gid)
    requires forall zid :: 0 <= zid < EffectiveZoneCount(s.zoneCountOverride, b.zoneCount.value) ==> ZoneReadsSucceed(b, zid)
    ensures UpdateData(b, s).result.Success?
    ensures var snap := UpdateData(b, s).result.value;
      && snap.system.effectiveZoneCount == EffectiveZoneCount(s.zoneCountOverride, b.zoneCount.value)
      && snap.hcGroups.Keys == Indices(Max0(b.hcGroupCount.value))
      && snap.zones.Keys == Indices(Max0(snap.system.effectiveZoneCount))
      && forall zid :: zid in snap.zones ==> snap.zones[zid].thermalStatus == b.thermalStatus(zid).value
  {
    AllPlannedCallsSucceed(b, s);
    CycleSucceedsIffPlannedCallsSucceed(b, s);
  }

  /** When the system reads, every group's reads and every zone's reads succeed, so does every planned call. */
  lemma AllPlannedCallsSucceed(b: Backend, s: Settings)
    requires SystemReadsSucceed(b)
    requires forall gid :: 0 <= gid < b.hcGroupCount.value ==> GroupReadsSucceed(b, gid)
    requires forall zid :: 0 <= zid < EffectiveZoneCount(s.zoneCountOverride, b.zoneCount.value) ==> ZoneReadsSucceed(b, zid)
    ensures forall k :: 0 <= k < |PlannedCalls(b, s)| ==> Failed(b, PlannedCalls(b, s)[k]).None?
  {
    var plan := PlannedCalls(b, s);
    forall k | 0 <= k < |plan| ensures Failed(b, plan[k]).None? {
      if k < ZonesStart(b) {
        PlannedCallBeforeZonesSucceeds(b, s, k);
      } else {
        PlannedZoneCall(b, s, k);
        assert ZoneReadsSucceed(b, (k - ZonesStart(b)) / 9);
      }
    }
  }
}
