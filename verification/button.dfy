/** The per-zone "Detach schedule" button. */
module Button {
  import opened Wrappers
  import opened Api
  import opened Calls
  import opened Coordinator
  import opened Commands
  import opened Entities

  const ButtonName := "Detach schedule"

  /** `available`: the zone's schedule is on, that is `schedule_on` is 1; a missing zone or value is unavailable. */
  function Available(snap: Snapshot, zid: int): (a: bool)
    ensures a <==> zid in snap.zones && snap.zones[zid].scheduleOn == Some(1)
  {
    var scheduleOn := if zid in snap.zones then snap.zones[zid].scheduleOn else None;
    scheduleOn.GetOr(0) == 1
  }

  /** `async_press`: detach the zone from its schedule, then refresh. */
  function Press(zid: int): (plan: seq<Action>)
    ensures plan == [Invoke(WriteZoneScheduleOn(zid, false)), RequestRefresh]
  {
    ThenRefresh([WriteZoneScheduleOn(zid, false)])
  }

  /**
   * A press first detaches the zone's schedule and then requests the refresh; the
   * refresh happens exactly when the client's `set_zone_schedule_on` succeeds.
   */
  lemma PressRefreshesIffWriteSucceeds(b: Backend, zid: int)
    ensures var o := Run(b, Press(zid));
      && (RequestRefresh in o.performed <==> b.setZoneScheduleOn(zid, false).Success?)
      && (o.error.None? <==> b.setZoneScheduleOn(zid, false).Success?)
      && (o.error.None? ==> o.performed == [Invoke(WriteZoneScheduleOn(zid, false)), RequestRefresh])
      && (o.error.Some? ==> o.performed == [Invoke(WriteZoneScheduleOn(zid, false))])
  {
    RefreshIffAllCallsSucceed(b, [WriteZoneScheduleOn(zid, false)]);
  }

  /** A press against a client whose `set_zone_schedule_on` raises `e` ends with `e`, after that one call. */
  lemma PressFailsWith(b: Backend, zid: int, e: Error)
    requires b.setZoneScheduleOn(zid, false) == Failure(e)
    ensures Run(b, Press(zid)) == Outcome([Invoke(WriteZoneScheduleOn(zid, false))], Some(e))
  {
    PressRefreshesIffWriteSucceeds(b, zid);
  }

  /** With the client as defined, which has no `set_zone_schedule_on`, every press raises `AttributeError` and nothing is refreshed. */
  lemma PressAsWrittenFails(c: Client, dev: Device, p: Json.Parsers, zid: int)
    ensures Run(AsWrittenBackend(c, dev, p), Press(zid)) ==
              Outcome([Invoke(WriteZoneScheduleOn(zid, false))], Some(MissingMethod("set_zone_schedule_on")))
  {
    PressFailsWith(AsWrittenBackend(c, dev, p), zid, MissingMethod("set_zone_schedule_on"));
  }

  datatype DetachButton = DetachButton(zoneId: int, uniqueId: string, name: string)

  /** `async_setup_entry`: one button per zone id, with unique id `messana_zone_{id}_detach_schedule`. */
  function Setup(snap: Snapshot): (es: seq<DetachButton>)
    ensures |es| == Max0(snap.system.effectiveZoneCount)
    ensures forall k :: 0 <= k < |es| ==> es[k] == DetachButton(k, ZoneUniqueId(k, "detach_schedule"), ButtonName)
  {
    var ids := ZoneIds(snap);
    seq(|ids|, k requires 0 <= k < |ids| => DetachButton(ids[k], ZoneUniqueId(ids[k], "detach_schedule"), ButtonName))
  }
}
