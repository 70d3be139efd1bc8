/** Names that the API accepts for alert levels and VLE types, and the ids
    they stand for. */
module Levels {
  import opened Wrappers
  import opened Text

  /** The alert levels: 0 Info, 1 Warning, 2 Alert, 3 Error. */
  const ALERT_LEVEL: seq<(int, string)> := [(0, "Info"), (1, "Warning"), (2, "Alert"), (3, "Error")]

  /** get_alert_from_value: the level of a name, in any letter case. */
  function AlertFromValue(value: string): (r: Option<int>)
    ensures r == Some(0) <==> Upper(value) == "INFO"
    ensures r == Some(1) <==> Upper(value) == "WARNING"
    ensures r == Some(2) <==> Upper(value) == "ALERT"
    ensures r == Some(3) <==> Upper(value) == "ERROR"
    ensures r.None? <==> Upper(value) !in {"INFO", "WARNING", "ALERT", "ERROR"}
    ensures r.Some? ==> exists k :: 0 <= k < |ALERT_LEVEL| && ALERT_LEVEL[k].0 == r.value
  {
    assert ALERT_LEVEL[0].0 == 0 && ALERT_LEVEL[1].0 == 1 && ALERT_LEVEL[2].0 == 2 && ALERT_LEVEL[3].0 == 3;
    var u := Upper(value);
    if u == "INFO" then Some(0)
    else if u == "WARNING" then Some(1)
    else if u == "ALERT" then Some(2)
    else if u == "ERROR" then Some(3)
    else None
  }

  /** Names that differ once upper-cased never give the same level. */
  lemma AlertFromValueInjective(a: string, b: string)
    requires AlertFromValue(a).Some? && AlertFromValue(a) == AlertFromValue(b)
    ensures Upper(a) == Upper(b)
  {
  }

  /** The display name of every level reads back as that level. */
  lemma AlertNamesRoundTrip(k: int)
    requires 0 <= k < |ALERT_LEVEL|
    ensures AlertFromValue(ALERT_LEVEL[k].1) == Some(ALERT_LEVEL[k].0)
  {
    var name := ALERT_LEVEL[k].1;
    var upper := ["INFO", "WARNING", "ALERT", "ERROR"][k];
    assert Upper(name) == upper by {
      assert |Upper(name)| == |upper|;
      forall i | 0 <= i < |name| ensures Upper(name)[i] == upper[i] {
        assert Upper(name)[i] == UpperChar(name[i]);
      }
    }
  }

  /** The VLE types: 0 MOODLE. */
  const VLE_TYPE: seq<(int, string)> := [(0, "MOODLE")]

  /** The id of the first type whose name matches, in any letter case. */
  function FindType(types: seq<(int, string)>, name: string): (r: Option<int>)
    ensures r.None? <==> forall k :: 0 <= k < |types| ==> Upper(types[k].1) != Upper(name)
    ensures r.Some? ==> exists k :: 0 <= k < |types| && types[k].0 == r.value && Upper(types[k].1) == Upper(name) &&
                                    forall j :: 0 <= j < k ==> Upper(types[j].1) != Upper(name)
  {
    if types == [] then None
    else if Upper(types[0].1) == Upper(name) then Some(types[0].0)
    else
      var r := FindType(types[1..], name);
      assert forall k :: 1 <= k < |types| ==> types[k] == types[1..][k - 1];
      if r.Some? then
        assert exists k :: 1 <= k < |types| && types[k].0 == r.value && Upper(types[k].1) == Upper(name) &&
                           forall j :: 0 <= j < k ==> Upper(types[j].1) != Upper(name) by {
          var k :| 0 <= k < |types[1..]| && types[1..][k].0 == r.value && Upper(types[1..][k].1) == Upper(name) &&
                   forall j :: 0 <= j < k ==> Upper(types[1..][j].1) != Upper(name);
          assert types[k + 1] == types[1..][k];
        }
        r
      else r
  }

  /** get_type_id. */
  function GetTypeId(name: string): (r: Option<int>)
    ensures r.Some? ==> exists k :: 0 <= k < |VLE_TYPE| && VLE_TYPE[k].0 == r.value
    ensures r == Some(0) <==> Upper(name) == "MOODLE"
    ensures r.None? <==> Upper(name) != "MOODLE"
  {
    assert Upper("MOODLE") == "MOODLE";
    FindType(VLE_TYPE, name)
  }
}
