/** The `oids` transform of the DTC SNMP monitor module
    (plugins/modules/nios_dtc_monitor_snmp.py). */
module DtcMonitorSnmp {
  import opened Outcomes
  import opened PyValues

  datatype OidError = OidRequired   // an OID struct without `oid`

  /** `oids`: every OID struct loses its None entries, and one without `oid`
      fails. */
  function Oids(items: seq<Dict>): (r: Result<seq<Dict>, OidError>)
    ensures r.Ok? <==> forall j | 0 <= j < |items| :: "oid" in DropNone(items[j])
    ensures r.Ok? ==> |r.value| == |items| && forall j | 0 <= j < |items| :: r.value[j] == DropNone(items[j])
  {
    if items == [] then Ok([])
    else
      var oid := DropNone(items[0]);
      if "oid" !in oid then Fail(OidRequired)
      else
        var rest := Oids(items[1..]);
        assert forall j | 1 <= j < |items| :: items[1..][j - 1] == items[j];
        if rest.Fail? then Fail(rest.error) else Ok([oid] + rest.value)
  }

  /** An item whose `oid` is unset or None makes the whole transform fail. */
  lemma {:induction false} UnsetOidFails(items: seq<Dict>, j: nat)
    requires j < |items| && ("oid" !in items[j] || items[j]["oid"] == VNone)
    ensures Oids(items) == Fail(OidRequired)
  {
    assert "oid" !in DropNone(items[j]);
    var r := Oids(items);
    assert !r.Ok?;
    assert r.error == OidRequired;
    assert r == Fail(r.error);
  }

  /** Each struct sent to WAPI has exactly the set entries of its input, with
      their values unchanged, and always an `oid`. */
  lemma OidsOnlyDropNone(items: seq<Dict>, j: nat, k: string)
    requires Oids(items).Ok? && j < |items|
    ensures k in Oids(items).value[j] <==> k in items[j] && items[j][k] != VNone
    ensures k in Oids(items).value[j] ==> Oids(items).value[j][k] == items[j][k]
    ensures "oid" in Oids(items).value[j] && Oids(items).value[j]["oid"] != VNone
  {
  }
}
