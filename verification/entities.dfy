/**
 * What the entity platforms share: the temperature-unit rule, the zone-name fallback,
 * the per-zone unique ids, the zone ids setup iterates over, and how a view reads
 * H/C group 0's mode.
 */
module Entities {
  import opened Wrappers
  import opened Text
  import opened Api
  import opened Calls
  import opened Coordinator

  datatype TemperatureUnit = Celsius | Fahrenheit

  /** ASCII case folding, which is all that decides whether a unit name starts with "f". */
  function LowerAscii(c: char): char {
    if 'A' <= c <= 'Z' then (c as int + 32) as char else c
  }

  /** `_ha_temp_unit`: Fahrenheit iff the lower-cased unit name starts with "f", Celsius otherwise. */
  function HaTempUnit(unit: string): (u: TemperatureUnit)
    ensures u == Fahrenheit <==> |unit| > 0 && (unit[0] == 'f' || unit[0] == 'F')
  {
    if |unit| > 0 && LowerAscii(unit[0]) == 'f' then Fahrenheit else Celsius
  }

  /** The device's two spellings map as expected; anything not starting with "f", even "°F" or "", is Celsius. */
  lemma HaTempUnitCases()
    ensures HaTempUnit("Fahrenheit") == Fahrenheit && HaTempUnit("fahrenheit") == Fahrenheit
    ensures HaTempUnit("Celsius") == Celsius && HaTempUnit("") == Celsius
    ensures HaTempUnit("°F") == Celsius
  {
  }

  /** A view's reason for raising: a `KeyError` on a missing zone. */
  datatype ViewError = KeyError(key: int)

  /** `zones.get(zid, {}).get("name", f"Zone {zid}")`: the stored name, even an empty one, else the fallback. */
  function ZoneNameOr(snap: Snapshot, zid: int): (name: string)
    ensures zid in snap.zones ==> name == snap.zones[zid].name
    ensures zid !in snap.zones ==> name == DefaultZoneName(zid)
  {
    if zid in snap.zones then snap.zones[zid].name else DefaultZoneName(zid)
  }

  /** `hc_groups.get(gid, {}).get("mode", 2)`: a missing group reads as mode 2. */
  function GroupModeOr(snap: Snapshot, gid: int): (mode: int)
    ensures gid in snap.hcGroups ==> mode == snap.hcGroups[gid].mode
    ensures gid !in snap.hcGroups ==> mode == 2
  {
    if gid in snap.hcGroups then snap.hcGroups[gid].mode else 2
  }

  /** `messana_zone_{zid}_{key}`. */
  function ZoneUniqueId(zid: int, key: string): string {
    "messana_zone_" + IntToString(zid) + "_" + key
  }

  /** Per-zone unique ids never collide: equal ids have the same zone and the same key. */
  lemma ZoneUniqueIdInjective(i: int, k1: string, j: int, k2: string)
    requires ZoneUniqueId(i, k1) == ZoneUniqueId(j, k2)
    ensures i == j && k1 == k2
  {
    var prefix := "messana_zone_";
    var a, b := IntToString(i), IntToString(j);
    assert '_' !in a && '_' !in b;
    assert prefix + a + "_" + k1 == prefix + (a + "_" + k1);
    assert prefix + b + "_" + k2 == prefix + (b + "_" + k2);
    assert a + "_" + k1 == (prefix + a + "_" + k1)[|prefix|..];
    assert b + "_" + k2 == (prefix + b + "_" + k2)[|prefix|..];
    SplitAtSeparator(a, k1, b, k2, '_');
    IntToStringInjective(i, j);
  }

  /**
   * `range(int(effective_zone_count))`: the zone ids the per-zone platforms create
   * entities for, taken from the system block rather than from the zone map.
   */
  function ZoneIds(snap: Snapshot): (ids: seq<int>)
    ensures |ids| == Max0(snap.system.effectiveZoneCount)
    ensures forall k :: 0 <= k < |ids| ==> ids[k] == k
  {
    seq(Max0(snap.system.effectiveZoneCount), k => k)
  }

  /**
   * For a snapshot whose zone map is dense, as every published one is (see
   * `Coordinator.Collect`), the ids setup iterates over are exactly the zone map's keys,
   * so every per-zone entity finds its zone.
   */
  lemma ZoneIdsAreZoneKeys(snap: Snapshot)
    requires ZonesDense(snap)
    ensures forall zid :: zid in snap.zones <==> zid in ZoneIds(snap)
  {
    var ids := ZoneIds(snap);
    forall zid ensures zid in snap.zones <==> zid in ids {
      if zid in snap.zones {
        assert ids[zid] == zid;
      }
    }
  }
}
