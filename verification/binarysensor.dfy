/** The per-zone "active" binary sensor. */
module BinarySensor {
  import opened Wrappers
  import opened Api
  import opened Coordinator
  import opened Entities

  /** `is_on`: the zone's thermal status is a non-zero number; a missing zone or a missing status reads as off. */
  function IsOn(snap: Snapshot, zid: int): (on: bool)
    ensures on <==> zid in snap.zones && snap.zones[zid].thermalStatus.Some? && snap.zones[zid].thermalStatus.value != 0
  {
    var status := if zid in snap.zones then snap.zones[zid].thermalStatus else None;
    status.GetOr(0) != 0
  }

  /** `name`: "{zone name} Active", where a missing or empty zone name falls back to "Zone {id}". */
  function Name(snap: Snapshot, zid: int): (name: string)
    ensures zid in snap.zones && snap.zones[zid].name != "" ==> name == snap.zones[zid].name + " Active"
    ensures (zid !in snap.zones || snap.zones[zid].name == "") ==> name == DefaultZoneName(zid) + " Active"
  {
    var stored := if zid in snap.zones then snap.zones[zid].name else "";
    (if stored != "" then stored else DefaultZoneName(zid)) + " Active"
  }

  /** Where the zone's name is not empty, the sensor's name is the climate entity's name followed by " Active". */
  lemma NameExtendsZoneName(snap: Snapshot, zid: int)
    requires ZoneNameOr(snap, zid) != ""
    ensures Name(snap, zid) == ZoneNameOr(snap, zid) + " Active"
  {
  }

  datatype ActiveSensor = ActiveSensor(zoneId: int, uniqueId: string)

  /** `async_setup_entry`: one sensor per zone id, with unique id `messana_zone_{id}_active`. */
  function Setup(snap: Snapshot): (es: seq<ActiveSensor>)
    ensures |es| == Max0(snap.system.effectiveZoneCount)
    ensures forall k :: 0 <= k < |es| ==> es[k] == ActiveSensor(k, ZoneUniqueId(k, "active"))
  {
    var ids := ZoneIds(snap);
    seq(|ids|, k requires 0 <= k < |ids| => ActiveSensor(ids[k], ZoneUniqueId(ids[k], "active")))
  }
}
