/** The address transforms of the host record module
    (ansible_collection/infoblox/nios_modules/plugins/modules/nios_host_record.py):
    each IPv4 or IPv6 address struct loses its None entries and the keys that
    are only aliases of the playbook. */
module HostRecord {
  import opened Outcomes
  import opened PyValues

  /** The keys to filter out: none when the list is absent. */
  function FilteredKeys(filteredKeys: Option<seq<string>>): (r: set<string>)
    ensures filteredKeys.None? ==> r == {}
    ensures filteredKeys.Some? ==> forall k :: k in r <==> k in filteredKeys.value
  {
    if filteredKeys.None? then {} else set k | k in filteredKeys.value
  }

  /** `ipaddr`: one struct per item of `module.params[key]`, in order, each the
      item filtered by `Keep`. */
  function IpAddr(items: seq<Dict>, filteredKeys: Option<seq<string>>): (r: seq<Dict>)
    ensures |r| == |items|
    ensures forall j | 0 <= j < |items| :: r[j] == Keep(items[j], FilteredKeys(filteredKeys))
  {
    if items == [] then []
    else
      var rest := IpAddr(items[1..], filteredKeys);
      assert forall j | 1 <= j < |items| :: items[1..][j - 1] == items[j];
      [Keep(items[0], FilteredKeys(filteredKeys))] + rest
  }

  /** Struct j keeps exactly the entries of item j that are set and not
      filtered out, with their values unchanged. */
  lemma IpAddrEntries(items: seq<Dict>, filteredKeys: Option<seq<string>>, j: nat, k: string)
    requires j < |items|
    ensures k in IpAddr(items, filteredKeys)[j] <==>
      k in items[j] && items[j][k] != VNone && (filteredKeys.None? || k !in filteredKeys.value)
    ensures k in IpAddr(items, filteredKeys)[j] ==> IpAddr(items, filteredKeys)[j][k] == items[j][k]
  {
  }

  /** The keys `ipv4addrs` and `ipv6addrs` filter: the aliases `address` and `dhcp`. */
  const AliasKeys: seq<string> := ["address", "dhcp"]

  /** `ipv4addrs`: `ipaddr` over `module.params['ipv4addrs']` without the alias keys. */
  function Ipv4Addrs(params: map<string, seq<Dict>>): (r: seq<Dict>)
    requires "ipv4addrs" in params
    ensures |r| == |params["ipv4addrs"]|
    ensures forall j | 0 <= j < |r| :: "address" !in r[j] && "dhcp" !in r[j]
  {
    assert "address" in AliasKeys && "dhcp" in AliasKeys;
    IpAddr(params["ipv4addrs"], Some(AliasKeys))
  }

  /** `ipv6addrs`: `ipaddr` over `module.params['ipv6addrs']` without the alias keys. */
  function Ipv6Addrs(params: map<string, seq<Dict>>): (r: seq<Dict>)
    requires "ipv6addrs" in params
    ensures |r| == |params["ipv6addrs"]|
    ensures forall j | 0 <= j < |r| :: "address" !in r[j] && "dhcp" !in r[j]
  {
    assert "address" in AliasKeys && "dhcp" in AliasKeys;
    IpAddr(params["ipv6addrs"], Some(AliasKeys))
  }

  /** A missing `filtered_keys` and an empty one filter the same way: only the
      None entries go. */
  lemma NoFilteredKeys(items: seq<Dict>)
    ensures IpAddr(items, None) == IpAddr(items, Some([]))
    ensures forall j | 0 <= j < |items| :: IpAddr(items, None)[j] == DropNone(items[j])
  {
    var a, b := IpAddr(items, None), IpAddr(items, Some([]));
    assert forall j | 0 <= j < |items| :: a[j] == b[j];
  }

  /** Applying the transform to its own output changes nothing. */
  lemma {:induction false} IpAddrIdempotent(items: seq<Dict>, filteredKeys: Option<seq<string>>)
    ensures IpAddr(IpAddr(items, filteredKeys), filteredKeys) == IpAddr(items, filteredKeys)
  {
    var once := IpAddr(items, filteredKeys);
    var twice := IpAddr(once, filteredKeys);
    forall j | 0 <= j < |items|
      ensures twice[j] == once[j]
    {
      KeepIdempotent(items[j], FilteredKeys(filteredKeys));
    }
    assert twice == once;
  }

  /** Both address kinds go through the same filter. */
  lemma Ipv4AndIpv6Alike(params: map<string, seq<Dict>>)
    requires "ipv4addrs" in params && "ipv6addrs" in params
    requires params["ipv4addrs"] == params["ipv6addrs"]
    ensures Ipv4Addrs(params) == Ipv6Addrs(params)
  {
  }
}
