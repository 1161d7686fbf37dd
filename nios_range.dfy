/** The parameter handling of the DHCP range module (plugins/modules/nios_range.py):
    the `options` transform, the scrubbing of `use_option` from vendor-specific
    DHCP options, and the choices of `server_association_type`. */
module NiosRange {
  import opened Outcomes
  import opened PyValues
  import DtcLbdn

  // ---------------------------------------------------------------------
  // options
  // ---------------------------------------------------------------------

  datatype OptionError = NameOrNumRequired   // an option with neither name nor number

  predicate HasNameOrNum(opt: Dict)
  {
    "name" in opt || "num" in opt
  }

  /** `options`: every DHCP option loses its None entries, and one without
      `name` and `num` fails. */
  function Options(items: seq<Dict>): (r: Result<seq<Dict>, OptionError>)
    ensures r.Ok? <==> forall j | 0 <= j < |items| :: HasNameOrNum(DropNone(items[j]))
    ensures r.Ok? ==> |r.value| == |items| && forall j | 0 <= j < |items| :: r.value[j] == DropNone(items[j])
  {
    if items == [] then Ok([])
    else
      var opt := DropNone(items[0]);
      if !HasNameOrNum(opt) then Fail(NameOrNumRequired)
      else
        var rest := Options(items[1..]);
        assert forall j | 1 <= j < |items| :: items[1..][j - 1] == items[j];
        if rest.Fail? then Fail(rest.error) else Ok([opt] + rest.value)
  }

  /** Each option sent to WAPI is its input dict with exactly the None entries
      removed: no key is added and no surviving value changes. */
  lemma OptionsOnlyDropNone(items: seq<Dict>, j: nat, k: string)
    requires Options(items).Ok? && j < |items|
    ensures k in Options(items).value[j] <==> k in items[j] && items[j][k] != VNone
    ensures k in Options(items).value[j] ==> Options(items).value[j][k] == items[j][k]
  {
  }

  /** The options transform is idempotent on its own output. */
  lemma {:induction false} OptionsIdempotent(items: seq<Dict>)
    requires Options(items).Ok?
    ensures Options(Options(items).value) == Options(items)
  {
    var out := Options(items).value;
    forall j | 0 <= j < |out|
      ensures DropNone(out[j]) == out[j]
    {
      KeepIdempotent(items[j], {});
    }
    assert forall j | 0 <= j < |out| :: HasNameOrNum(DropNone(out[j]));
    var again := Options(out).value;
    assert |again| == |out|;
    assert forall j | 0 <= j < |out| :: again[j] == out[j];
    assert again == out;
  }

  // ---------------------------------------------------------------------
  // check_vendor_specific_dhcp_option
  // ---------------------------------------------------------------------

  /** DHCP options 43, 60, 67, 124 and 125 are vendor-specific: WAPI refuses
      `use_option` on them. */
  const VendorSpecificNums: set<int> := {43, 124, 125, 67, 60}

  predicate IsVendorSpecific(item: Dict)
  {
    "num" in item && item["num"].VInt? && item["num"].i in VendorSpecificNums
  }

  /** Every list-valued parameter holds dicts (`elements='dict'`). */
  predicate ListsHoldDicts(params: Dict)
  {
    forall k | k in params && params[k].VList? :: forall v | v in params[k].items :: v.VDict?
  }

  /** The item without its `use_option` entry when it is vendor-specific. */
  function Scrubbed(item: Value): Value
    requires item.VDict?
  {
    if IsVendorSpecific(item.entries) then VDict(item.entries - {"use_option"}) else item
  }

  /** The `del` raises a KeyError on a vendor-specific item without `use_option`. */
  predicate Raises(item: Value)
    requires item.VDict?
  {
    IsVendorSpecific(item.entries) && "use_option" !in item.entries
  }

  /** The inner loop over one list: whether it completes, and the list it leaves
      (on a KeyError the items before the failing one are already scrubbed). */
  function ScrubList(items: seq<Value>): (bool, seq<Value>)
    requires forall v | v in items :: v.VDict?
  {
    if items == [] then (true, [])
    else if Raises(items[0]) then (false, items)
    else
      var (ok, rest) := ScrubList(items[1..]);
      (ok, [Scrubbed(items[0])] + rest)
  }

  /** The outer loop over the keys of `ib_spec`, on the current parameters. */
  function ScrubParams(params: Dict, keys: seq<string>): (bool, Dict)
    requires forall k | k in keys :: k in params
    requires ListsHoldDicts(params)
  {
    if keys == [] then (true, params)
    else
      var k := keys[0];
      if !params[k].VList? then ScrubParams(params, keys[1..])
      else
        var (ok, items) := ScrubList(params[k].items);
        ScrubListHoldsDicts(params[k].items);
        if !ok then (false, params[k := VList(items)])
        else ScrubParams(params[k := VList(items)], keys[1..])
  }

  lemma {:induction false} ScrubListHoldsDicts(items: seq<Value>)
    requires forall v | v in items :: v.VDict?
    ensures |ScrubList(items).1| == |items|
    ensures forall v | v in ScrubList(items).1 :: v.VDict?
  {
    if items != [] && !Raises(items[0]) {
      ScrubListHoldsDicts(items[1..]);
    }
  }

  /** `module.params`, whose list-valued entries the check edits in place. */
  class RangeModule {
    var params: Dict

    constructor (params: Dict)
      ensures this.params == params
    {
      this.params := params;
    }
  }

  datatype ScrubError = UseOptionMissing   // a vendor-specific item has no `use_option` to delete

  /** The inner loop of the check: walks one list, deleting `use_option` from
      each vendor-specific item in place, and stops at the first KeyError. */
  method ScrubItems(items: seq<Value>) returns (ok: bool, current: seq<Value>)
    requires forall v | v in items :: v.VDict?
    ensures (ok, current) == ScrubList(items)
  {
    current := items;
    var j := 0;
    ghost var done: seq<Value> := [];
    assert current == done + items[j..] && items[j..] == items;
    assert done + ScrubList(items).1 == ScrubList(items).1;
    while j < |items|
      invariant 0 <= j <= |items| && |done| == j
      invariant current == done + items[j..]
      invariant ScrubList(items) == (ScrubList(items[j..]).0, done + ScrubList(items[j..]).1)
    {
      var tempDict := current[j].entries;
      assert current[j] == items[j];
      ScrubListStep(items, j);
      if IsVendorSpecific(tempDict) {
        if "use_option" !in tempDict {
          return false, current;
        }
        current := current[j := VDict(tempDict - {"use_option"})];
      }
      ghost var scrubbed := Scrubbed(items[j]);
      DtcLbdn.SpliceAt(done, items, j, scrubbed);
      DtcLbdn.AppendAssoc(done, [scrubbed], ScrubList(items[j + 1..]).1);
      done := done + [scrubbed];
      j := j + 1;
    }
    assert items[j..] == [];
    return true, current;
  }


  /** `check_vendor_specific_dhcp_option`: removes `use_option` from every
      vendor-specific option of every list-valued parameter and hands `ib_spec`
      back unchanged. */
  method CheckVendorSpecificDhcpOption(m: RangeModule, ibSpec: seq<string>) returns (r: Result<seq<string>, ScrubError>)
    requires forall k | k in ibSpec :: k in m.params
    requires ListsHoldDicts(m.params)
    modifies m
    ensures r.Ok? <==> ScrubParams(old(m.params), ibSpec).0
    ensures r.Ok? ==> r.value == ibSpec
    ensures m.params == ScrubParams(old(m.params), ibSpec).1
  {
    ghost var total := ScrubParams(m.params, ibSpec);
    var i := 0;
    while i < |ibSpec|
      invariant 0 <= i <= |ibSpec|
      invariant forall k | k in ibSpec :: k in m.params
      invariant ListsHoldDicts(m.params)
      invariant total == ScrubParams(m.params, ibSpec[i..])
    {
      var key := ibSpec[i];
      assert ibSpec[i..][0] == key && ibSpec[i..][1..] == ibSpec[i + 1..];
      if m.params[key].VList? {
        ghost var before := m.params;
        var ok, current := ScrubItems(m.params[key].items);
        m.params := m.params[key := VList(current)];
        if !ok {
          ScrubParamsFails(before, ibSpec[i..], before[key].items);
          return Fail(UseOptionMissing);
        }
        ScrubListListsHoldDicts(before, key, before[key].items);
      }
      i := i + 1;
    }
    assert ibSpec[i..] == [];
    return Ok(ibSpec);
  }

  /** The first j items of `items`, each scrubbed. */
  function ScrubbedUpTo(items: seq<Value>, j: nat): (s: seq<Value>)
    requires j <= |items| && forall v | v in items :: v.VDict?
    ensures |s| == j
  {
    seq(j, n requires 0 <= n < j => Scrubbed(items[n]))
  }

  /** One step of the inner loop, unfolded at index j. */
  lemma ScrubListStep(items: seq<Value>, j: nat)
    requires j < |items| && forall v | v in items :: v.VDict?
    ensures Raises(items[j]) ==> ScrubList(items[j..]) == (false, items[j..])
    ensures !Raises(items[j]) ==> ScrubList(items[j..]) == (ScrubList(items[j + 1..]).0, [Scrubbed(items[j])] + ScrubList(items[j + 1..]).1)
  {
    assert items[j..][0] == items[j] && items[j..][1..] == items[j + 1..];
  }

  lemma ScrubParamsFails(params: Dict, keys: seq<string>, items: seq<Value>)
    requires keys != [] && forall k | k in keys :: k in params
    requires ListsHoldDicts(params)
    requires params[keys[0]] == VList(items) && !ScrubList(items).0
    ensures ScrubParams(params, keys) == (false, params[keys[0] := VList(ScrubList(items).1)])
  {
  }

  lemma ScrubListListsHoldDicts(params: Dict, key: string, items: seq<Value>)
    requires ListsHoldDicts(params) && key in params && params[key] == VList(items)
    ensures ListsHoldDicts(params[key := VList(ScrubList(items).1)])
  {
    ScrubListHoldsDicts(items);
  }

  /** The inner loop completes exactly when no vendor-specific item lacks
      `use_option`; then item j is scrubbed and the list keeps its length and
      order. */
  lemma {:induction false} ScrubListEffect(items: seq<Value>)
    requires forall v | v in items :: v.VDict?
    ensures ScrubList(items).0 <==> forall j | 0 <= j < |items| :: !Raises(items[j])
    ensures ScrubList(items).0 ==> ScrubList(items).1 == ScrubbedUpTo(items, |items|)
  {
    if items != [] {
      var tail := items[1..];
      ScrubListEffect(tail);
      assert forall j | 1 <= j < |items| :: tail[j - 1] == items[j];
      if ScrubList(items).0 {
        assert ScrubList(items).1 == [Scrubbed(items[0])] + ScrubbedUpTo(tail, |tail|);
      }
    }
  }

  /** A scrubbed item has no `use_option` exactly when it is vendor-specific or
      had none; every other entry and every non-vendor item is untouched. */
  lemma ScrubbedItem(item: Value)
    requires item.VDict?
    ensures Scrubbed(item).VDict?
    ensures IsVendorSpecific(item.entries) ==> "use_option" !in Scrubbed(item).entries
    ensures forall k | k in item.entries && k != "use_option" :: k in Scrubbed(item).entries && Scrubbed(item).entries[k] == item.entries[k]
    ensures !IsVendorSpecific(item.entries) ==> Scrubbed(item) == item
  {
  }

  /** When the keys are distinct and the check completes, every list parameter
      named in `ib_spec` has its items scrubbed and every other parameter is
      unchanged. */
  lemma {:induction false} ScrubParamsEffect(params: Dict, keys: seq<string>)
    requires forall k | k in keys :: k in params
    requires ListsHoldDicts(params)
    requires forall a, b | 0 <= a < b < |keys| :: keys[a] != keys[b]
    requires ScrubParams(params, keys).0
    ensures ScrubParams(params, keys).1.Keys == params.Keys
    ensures forall k | k in params && (k !in keys || !params[k].VList?) :: ScrubParams(params, keys).1[k] == params[k]
    ensures forall k | k in keys && params[k].VList? ::
      ScrubParams(params, keys).1[k] == VList(ScrubbedUpTo(params[k].items, |params[k].items|))
  {
    if keys != [] {
      var k := keys[0];
      var tail := keys[1..];
      assert forall a, b | 0 <= a < b < |tail| :: tail[a] != tail[b] by {
        forall a, b | 0 <= a < b < |tail| ensures tail[a] != tail[b] {
          assert tail[a] == keys[a + 1] && tail[b] == keys[b + 1];
        }
      }
      assert forall k' | k' in tail :: k' != k;
      if !params[k].VList? {
        ScrubParamsEffect(params, tail);
      } else {
        var items := params[k].items;
        ScrubListEffect(items);
        ScrubListListsHoldDicts(params, k, items);
        ScrubParamsEffect(params[k := VList(ScrubList(items).1)], tail);
      }
    }
  }

  // ---------------------------------------------------------------------
  // server_association_type
  // ---------------------------------------------------------------------

  /** The choices the argument spec accepts for `server_association_type`. */
  const ServerAssociationTypes: seq<string> := ["NONE", "FAILOVER", "MEMBER", "MS_FAILOVER", "MS_SERVER"]

  datatype ChoiceError = NotAChoice(value: string)

  /** The value Ansible hands the module for `server_association_type`: the
      default NONE when it is not given, the given value when it is a choice. */
  function ServerAssociationType(given: Option<string>): (r: Result<string, ChoiceError>)
    ensures given.None? ==> r == Ok("NONE")
    ensures given.Some? ==> (r.Ok? <==> given.value in ServerAssociationTypes)
    ensures r.Ok? ==> r.value in ServerAssociationTypes && (given.Some? ==> r.value == given.value)
  {
    if given.None? then Ok("NONE")
    else if given.value in ServerAssociationTypes then Ok(given.value)
    else Fail(NotAChoice(given.value))
  }

  /** The documented spelling FAILOVER_MS is refused; the code accepts MS_FAILOVER. */
  lemma FailoverMsRefused()
    ensures ServerAssociationType(Some("FAILOVER_MS")) == Fail(NotAChoice("FAILOVER_MS"))
    ensures ServerAssociationType(Some("MS_FAILOVER")) == Ok("MS_FAILOVER")
  {
    assert "FAILOVER_MS" != "NONE" && "FAILOVER_MS" != "FAILOVER" && "FAILOVER_MS" != "MEMBER";
    assert "FAILOVER_MS" != "MS_FAILOVER" && "FAILOVER_MS" != "MS_SERVER";
  }
}
