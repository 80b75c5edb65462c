/** The per-group H/C mode select entity. */
module ModeSelect {
  import opened Wrappers
  import opened Text
  import opened Api
  import opened Calls
  import opened Coordinator
  import opened Commands
  import opened Entities
  import Climate

  const Options: seq<string> := ["Heating", "Cooling", "Auto"]

  /** `OPTION_TO_VALUE[option]`; `None` where the lookup raises `KeyError`. */
  function OptionToValue(option: string): Option<int> {
    if option == "Heating" then Some(0)
    else if option == "Cooling" then Some(1)
    else if option == "Auto" then Some(2)
    else None
  }

  /** `VALUE_TO_OPTION.get(value)`. */
  function ValueToOption(value: int): Option<string> {
    if value == 0 then Some("Heating")
    else if value == 1 then Some("Cooling")
    else if value == 2 then Some("Auto")
    else None
  }

  /** The two tables are mutually inverse bijections between the options and the mode values 0, 1, 2. */
  lemma OptionTablesInverse(option: string, value: int)
    ensures OptionToValue(option).Some? <==> option in Options
    ensures ValueToOption(value).Some? <==> 0 <= value <= 2
    ensures OptionToValue(option).Some? ==> ValueToOption(OptionToValue(option).value) == Some(option)
    ensures ValueToOption(value).Some? ==> OptionToValue(ValueToOption(value).value) == Some(value)
  {
  }

  /** `current_option`: the group's mode (2 when the group is missing) through the table, "Auto" for any other value. */
  function CurrentOption(snap: Snapshot, gid: int): (option: string)
    ensures option in Options
    ensures option == "Heating" <==> GroupModeOr(snap, gid) == 0
    ensures option == "Cooling" <==> GroupModeOr(snap, gid) == 1
    ensures gid !in snap.hcGroups ==> option == "Auto"
  {
    ValueToOption(GroupModeOr(snap, gid)).GetOr("Auto")
  }

  datatype SelectError = OptionKeyError(option: string)

  /** `async_select_option`: an unknown option raises `KeyError` before any call; otherwise the mode write, then a refresh. */
  function SelectOption(gid: int, option: string): (r: Result<seq<Action>, SelectError>)
    ensures r.Failure? <==> option !in Options
    ensures r.Failure? ==> r.error == OptionKeyError(option)
    ensures r.Success? ==> r.value == ThenRefresh([WriteHcMode(gid, OptionToValue(option).value)])
  {
    match OptionToValue(option)
    case None => Failure(OptionKeyError(option))
    case Some(v) => Success(ThenRefresh([WriteHcMode(gid, v)]))
  }

  /** Once the snapshot holds the mode the handler wrote for the group, the select shows the chosen option. */
  lemma SelectRoundTrip(snap: Snapshot, gid: int, option: string)
    requires option in Options
    requires gid in snap.hcGroups
    requires snap.hcGroups[gid].mode == SelectOption(gid, option).value[0].call.mode
    ensures CurrentOption(snap, gid) == option
  {
  }

  // -------- setup --------

  /** A set of integers with an element `w` has a least element. */
  lemma {:induction false} MinExists(s: set<int>, w: int)
    requires w in s
    ensures exists m :: m in s && forall x :: x in s ==> m <= x
    decreases |s|
  {
    var rest := s - {w};
    if z :| z in rest {
      MinExists(rest, z);
      var m :| m in rest && forall x :: x in rest ==> m <= x;
      var least := if w < m then w else m;
      forall x | x in s ensures least <= x {
        if x != w {
          assert x in rest;
        }
      }
    } else {
      assert forall x :: x in s ==> x == w || x in rest;
    }
  }

  /** `sorted(keys)`: the elements of `s` in strictly ascending order, by repeatedly taking the least. */
  method SortedKeys(s: set<int>) returns (ids: seq<int>)
    ensures |ids| == |s|
    ensures forall x :: x in ids <==> x in s
    ensures forall i, j :: 0 <= i < j < |ids| ==> ids[i] < ids[j]
  {
    var rest := s;
    ids := [];
    while exists w :: w in rest
      invariant rest <= s
      invariant |ids| + |rest| == |s|
      invariant forall x :: x in s <==> x in ids || x in rest
      invariant forall i, j :: 0 <= i < j < |ids| ==> ids[i] < ids[j]
      invariant forall i, x :: 0 <= i < |ids| && x in rest ==> ids[i] < x
      decreases |rest|
    {
      var w :| w in rest;
      MinExists(rest, w);
      var m :| m in rest && forall x :: x in rest ==> m <= x;
      ids := ids + [m];
      rest := rest - {m};
    }
    assert rest == {};
  }

  datatype SelectEntity = SelectEntity(groupId: int, uniqueId: string, name: string)

  function GroupUniqueId(gid: int): string {
    "messana_hc_group_" + IntToString(gid) + "_mode"
  }

  function GroupEntityName(gid: int): string {
    "H/C Group " + IntToString(gid) + " Mode"
  }

  /** `async_setup_entry`: one select per H/C group in the snapshot, in ascending group order. */
  method Setup(snap: Snapshot) returns (es: seq<SelectEntity>)
    ensures |es| == |snap.hcGroups.Keys|
    ensures forall gid :: gid in snap.hcGroups <==> exists k :: 0 <= k < |es| && es[k].groupId == gid
    ensures forall i, j :: 0 <= i < j < |es| ==> es[i].groupId < es[j].groupId
    ensures forall k :: 0 <= k < |es| ==>
              es[k].uniqueId == GroupUniqueId(es[k].groupId) && es[k].name == GroupEntityName(es[k].groupId)
  {
    var ids := SortedKeys(snap.hcGroups.Keys);
    es := seq(|ids|, k requires 0 <= k < |ids| => SelectEntity(ids[k], GroupUniqueId(ids[k]), GroupEntityName(ids[k])));
    forall gid | gid in snap.hcGroups ensures exists k :: 0 <= k < |es| && es[k].groupId == gid {
      var k :| 0 <= k < |ids| && ids[k] == gid;
      assert es[k].groupId == gid;
    }
  }

  /**
   * With the system on, the climate entities and group 0's select show the same
   * mode: heat is "Heating", cool is "Cooling", and heat/cool is "Auto", including
   * for out-of-range mode values and a missing group.
   */
  lemma ClimateAndSelectAgree(snap: Snapshot)
    requires snap.system.status != 0
    ensures Climate.HvacModeView(snap) == Climate.Heat <==> CurrentOption(snap, 0) == "Heating"
    ensures Climate.HvacModeView(snap) == Climate.Cool <==> CurrentOption(snap, 0) == "Cooling"
    ensures Climate.HvacModeView(snap) == Climate.HeatCool <==> CurrentOption(snap, 0) == "Auto"
  {
  }
}
