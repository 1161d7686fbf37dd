# Infoblox NIOS Ansible parameter transforms in Dafny

The Infoblox NIOS Ansible collection turns playbook parameters into WAPI
payloads before handing them to its shared reconcile logic. This project
models the part of that work that is self-contained: the parameter
transforms, validators and decision rules of the modules and lookup
plugins, stated over Python values and proved against their specifications.

- `py_values.dfy`: the shared vocabulary.
  - `Outcomes`: `Option` and `Result`. `Fail` stands for `fail_json`, an
    `AnsibleError` or an uncaught Python exception.
  - `PyValues`: Python values, truthiness, `dict.get`, `or`, and the
    None-dropping dict filter every transform shares.
  - `Wapi`: the WAPI client as an oracle. `get_object` and `call_func` are
    function parameters, so every result holds for any remote answer.
  - `IpAddress`: `ipaddress.ip_network` as an oracle.
- `dtc_lbdn.dfy` (`DtcLbdn`): the auth-zone, pool and topology transforms
  of the LBDN module. The auth-zone loops and the pool loop, which writes
  the default ratio into the parameters in place, are methods with loop
  invariants, proved against recursive specification functions.
- `nios_range.dfy` (`NiosRange`): the `options` filter, the in-place
  scrubbing of `use_option` from vendor-specific DHCP options (a method on
  a class that holds `module.params`), and the `server_association_type`
  choices.
- `host_record.dfy` (`HostRecord`), `dtc_monitor_snmp.dfy`
  (`DtcMonitorSnmp`), `dtc_topology.dfy` (`DtcTopology`), `vlan.dfy`
  (`NiosVlan`), `adminuser.dfy` (`AdminUser`): the pure filters and
  resolvers of those modules.
- `infoblox_network.dfy` (`InfobloxNetwork`): the legacy network module.
  - the field comparison and the extensible-attribute builder;
  - the provider merge, a loop over the provider that updates
    `module.params` in place;
  - the connector options;
  - the get/present/absent decision table.
- `next_network.dfy`, `next_ip.dfy`, `next_vlan_id.dfy`: the three
  "next available" lookup plugins.
- `legacy_dtc.dfy`: the ratio-defaulting loop of the older collection copy,
  stated once in `LegacyDtc`. It is used by the LBDN module's
  `pools_transform` (`LegacyDtcLbdn`) and the pool module's
  `servers_transform` (`LegacyDtcPool`).

## Model

| member | source | states |
|---|---|---|
| PyValues.Keep | ansible_collection/infoblox/nios_modules/plugins/modules/nios_host_record.py:259 | a key survives exactly when it is in the input, its value is not None and it is not filtered out; surviving values are unchanged |
| PyValues.KeepIdempotent | ansible_collection/infoblox/nios_modules/plugins/modules/nios_host_record.py:259 | filtering a filtered dict again with the same keys changes nothing |
| PyValues.KeepIsSubDict | plugins/modules/nios_range.py:244 | the filtered dict is a sub-dict of the input with no None value |
| Wapi.PreferredRef | plugins/modules/nios_vlan.py:197-202 | the first match of the preferred reply wins; the fallback is used only when the preferred reply is empty; None exactly when neither matches |
| DtcLbdn.AuthZonesTransform | plugins/modules/nios_dtc_lbdn.py:197-254 | the two loops of `auth_zones_transform` compute exactly `AuthZones`, the specification the lemmas below describe |
| DtcLbdn.CountFqdns | plugins/modules/nios_dtc_lbdn.py:204-209 | the counting loop fails at the first zone with no or an empty FQDN, naming it; otherwise its counter maps every FQDN to its number of occurrences and holds no other key |
| DtcLbdn.ResolveZones | plugins/modules/nios_dtc_lbdn.py:212-254 | the resolving loop returns exactly the second-pass specification `ResolveAll` |
| DtcLbdn.CountPositive | plugins/modules/nios_dtc_lbdn.py:209 | every zone that has an FQDN is counted at least once |
| DtcLbdn.ZoneQuery | plugins/modules/nios_dtc_lbdn.py:227-238 | the zone query asks `zone_auth` for the FQDN and carries `view` exactly when a view is given |
| DtcLbdn.FirstMissing | plugins/modules/nios_dtc_lbdn.py:205-208 | the index of the first zone without an FQDN: every zone before it has one, and the zone at it has none |
| DtcLbdn.AuthZonesUnset | plugins/modules/nios_dtc_lbdn.py:199-201 | a missing or empty `auth_zones` gives the empty list |
| DtcLbdn.MissingFqdnFailsBeforeLookup | plugins/modules/nios_dtc_lbdn.py:204-208 | any zone without an FQDN makes the transform fail on a zone without an FQDN, with the same outcome whatever WAPI answers |
| DtcLbdn.ResolveAllOk | plugins/modules/nios_dtc_lbdn.py:212-254 | the second pass succeeds iff every zone resolves, and then returns one ref per zone, in order |
| DtcLbdn.ResolveAllFirstFailure | plugins/modules/nios_dtc_lbdn.py:212-254 | the second pass fails with the error of the first zone that fails |
| DtcLbdn.AuthZonesSucceeds | plugins/modules/nios_dtc_lbdn.py:243-254 | with every FQDN present, success iff every zone resolves; then ref j is the first match of zone j's query, in input order |
| DtcLbdn.DuplicateDictZoneNeedsView | plugins/modules/nios_dtc_lbdn.py:222-225 | a dict zone whose FQDN occurs more than once and that has no view makes the transform fail |
| DtcLbdn.DuplicateStringZoneFails | plugins/modules/nios_dtc_lbdn.py:235-241 | a string zone whose FQDN occurs more than once makes the transform fail, whatever views the other occurrences carry |
| DtcLbdn.AuthZonesFirstFailure | plugins/modules/nios_dtc_lbdn.py:227-247 | the first failing zone decides the error; a zone not found is reported as `fqdn:view` with a view and `fqdn` without |
| DtcLbdn.WithRatio | plugins/modules/nios_dtc_lbdn.py:262-263 | the pool gains `ratio = 1` when it has none; an existing ratio and every other entry are kept |
| DtcLbdn.PoolsTransform | plugins/modules/nios_dtc_lbdn.py:256-269 | unset or empty pools give the empty list and leave the parameters alone; otherwise the result and the pool dicts left in `module.params` are those of the specification `Pools` |
| DtcLbdn.PoolsOk | plugins/modules/nios_dtc_lbdn.py:259-268 | the pools transform succeeds iff every pool has a `pool` key and is found |
| DtcLbdn.PoolsOkResult | plugins/modules/nios_dtc_lbdn.py:264-266 | on success, entry j is exactly `{pool: first ref, ratio}` for pool j, one entry per pool |
| DtcLbdn.PoolsOkRatios | plugins/modules/nios_dtc_lbdn.py:262-263 | on success, every pool dict in the parameters has its ratio defaulted and nothing else changed |
| DtcLbdn.PoolsOnlyAddRatio | plugins/modules/nios_dtc_lbdn.py:259-268 | whatever the outcome, the parameters keep one dict per pool, each either unchanged or given the default ratio |
| DtcLbdn.TopologyTransform | plugins/modules/nios_dtc_lbdn.py:271-279 | an unset topology gives nothing; a found one gives the first match's ref; otherwise the transform fails naming the topology |
| NiosRange.Options | plugins/modules/nios_range.py:226-248 | succeeds iff every option keeps `name` or `num` after dropping None entries; then option j is input j without its None entries, same length and order |
| NiosRange.OptionsOnlyDropNone | plugins/modules/nios_range.py:244 | an output option holds exactly the set entries of its input, with unchanged values |
| NiosRange.OptionsIdempotent | plugins/modules/nios_range.py:242-248 | running `options` on its own output gives the same output |
| NiosRange.ScrubItems | plugins/modules/nios_range.py:257-260 | the inner loop edits the list exactly as the specification `ScrubList` says, stopping at the first vendor-specific item without `use_option` |
| NiosRange.CheckVendorSpecificDhcpOption | plugins/modules/nios_range.py:251-261 | succeeds iff no list item raises, returns `ib_spec` unchanged, and leaves `module.params` as `ScrubParams` says, including the partial edit before a KeyError |
| NiosRange.ScrubListHoldsDicts | plugins/modules/nios_range.py:257-260 | the scrubbed list keeps its length and holds only dicts |
| NiosRange.ScrubbedUpTo | plugins/modules/nios_range.py:257-260 | the list of the first j items, each scrubbed, has length j |
| NiosRange.ScrubListEffect | plugins/modules/nios_range.py:257-260 | the inner loop completes iff no vendor-specific item lacks `use_option`; then item j is item j scrubbed, in order |
| NiosRange.ScrubbedItem | plugins/modules/nios_range.py:258-260 | a vendor-specific item loses `use_option`; every other entry and every other item is untouched |
| NiosRange.ScrubParamsEffect | plugins/modules/nios_range.py:255-260 | with distinct keys and no failure, every list parameter named in `ib_spec` is scrubbed item by item and every other parameter is unchanged |
| NiosRange.ScrubParamsFails | plugins/modules/nios_range.py:255-260 | a list that raises ends the outer loop, leaving the partially scrubbed list in place |
| NiosRange.ServerAssociationType | plugins/modules/nios_range.py:292 | the default is NONE; a given value is accepted iff it is one of NONE, FAILOVER, MEMBER, MS_FAILOVER, MS_SERVER |
| NiosRange.FailoverMsRefused | plugins/modules/nios_range.py:292 | the documented spelling FAILOVER_MS is refused and MS_FAILOVER is accepted |
| HostRecord.FilteredKeys | ansible_collection/infoblox/nios_modules/plugins/modules/nios_host_record.py:256 | a missing key list filters nothing; a given one filters exactly its keys |
| HostRecord.IpAddr | ansible_collection/infoblox/nios_modules/plugins/modules/nios_host_record.py:245-260 | one struct per item, same length and order, each the item filtered by `Keep` |
| HostRecord.IpAddrEntries | ansible_collection/infoblox/nios_modules/plugins/modules/nios_host_record.py:259 | struct j keeps exactly the entries of item j that are not None and not filtered, with unchanged values |
| HostRecord.Ipv4Addrs | ansible_collection/infoblox/nios_modules/plugins/modules/nios_host_record.py:263-264 | one struct per IPv4 address item, none holding `address` or `dhcp` |
| HostRecord.Ipv6Addrs | ansible_collection/infoblox/nios_modules/plugins/modules/nios_host_record.py:267-268 | one struct per IPv6 address item, none holding `address` or `dhcp` |
| HostRecord.NoFilteredKeys | ansible_collection/infoblox/nios_modules/plugins/modules/nios_host_record.py:256 | a missing key list filters like an empty one: only the None entries go |
| HostRecord.IpAddrIdempotent | ansible_collection/infoblox/nios_modules/plugins/modules/nios_host_record.py:259 | applying the transform to its own output changes nothing |
| HostRecord.Ipv4AndIpv6Alike | ansible_collection/infoblox/nios_modules/plugins/modules/nios_host_record.py:263-268 | records that the source defines the IPv4 and IPv6 transforms identically: both address kinds go through the same filter |
| DtcMonitorSnmp.Oids | plugins/modules/nios_dtc_monitor_snmp.py:220-226 | succeeds iff every item keeps `oid` after dropping None entries; then struct j is item j without its None entries, same length and order |
| DtcMonitorSnmp.UnsetOidFails | plugins/modules/nios_dtc_monitor_snmp.py:222-224 | an item whose `oid` is missing or None makes the transform fail |
| DtcMonitorSnmp.OidsOnlyDropNone | plugins/modules/nios_dtc_monitor_snmp.py:222 | no key is added and no value changed; every struct carries a set `oid` |
| DtcTopology.SourcesTransform | plugins/modules/nios_dtc_topology.py:177-184 | succeeds iff every source keeps `source_type` and `source_value` after dropping None entries; then source j is input j without None entries |
| DtcTopology.DestQuery | plugins/modules/nios_dtc_topology.py:194-197 | a POOL destination is looked up among `dtc:pool`, any other among `dtc:server`, by name |
| DtcTopology.ResolveRuleCases | plugins/modules/nios_dtc_topology.py:194-210 | a missing destination fails only under REGULAR and otherwise gives no link; a found one gives the first ref; the rule keeps its types and carries `sources` exactly when it has some |
| DtcTopology.ResolveRules | plugins/modules/nios_dtc_topology.py:193-211 | succeeds iff every rule resolves; then one output rule per input rule, in order |
| DtcTopology.RulesTransform | plugins/modules/nios_dtc_topology.py:186-191 | missing or empty rules give the empty list |
| DtcTopology.FirstFailingRule | plugins/modules/nios_dtc_topology.py:193-211 | on failure, returns the index of a rule that fails with the reported error while every earlier rule resolves |
| DtcTopology.ResolveRulesFirstFailure | plugins/modules/nios_dtc_topology.py:193-211 | on failure, the error is that of the first rule that fails |
| DtcTopology.MissingDestinationTolerated | plugins/modules/nios_dtc_topology.py:198-205 | a missing destination under a non-REGULAR return type gives a rule with no destination link |
| NiosVlan.ParentLookups | plugins/modules/nios_vlan.py:193-196 | with a parent, both the view and the range are looked up by name; without one, nothing is |
| NiosVlan.ParentTransform | plugins/modules/nios_vlan.py:192-203 | no parent gives the empty string; otherwise the range match wins, then the view match, else failure |
| NiosVlan.ParentDependsOnLookupsOnly | plugins/modules/nios_vlan.py:192-203 | the outcome depends only on WAPI's answers to the two lookups |
| AdminUser.CacertQuery | plugins/modules/nios_adminuser.py:256-261 | the query asks `cacertificate` for exactly the issuer and serial of the parameters |
| AdminUser.CacertTransform | plugins/modules/nios_adminuser.py:250-269 | no serial fails; otherwise success iff a certificate is found, giving its first ref, else a failure naming the issuer |
| AdminUser.SerialCheckedBeforeLookup | plugins/modules/nios_adminuser.py:252-254 | without a serial the outcome is the same whatever WAPI answers |
| InfobloxNetwork.CompareFrom | library/infoblox_network.py:141-146 | the early-exit loop is true iff each remaining field is unset in the parameters or equal to the object's |
| InfobloxNetwork.CompareFields | library/infoblox_network.py:138-146 | true iff each of `dhcp_options`, `members`, `extattrs`, `comment` is None in the parameters or equal to the object's |
| InfobloxNetwork.CompareFieldsIgnoresOtherKeys | library/infoblox_network.py:139 | parameters and objects that agree on the four fields compare alike |
| InfobloxNetwork.NothingToCompare | library/infoblox_network.py:141-143 | parameters setting none of the four fields match every object |
| InfobloxNetwork.BuildExtattrs | library/infoblox_network.py:149-161 | None stays None; a dict succeeds iff all its values are strings, giving the same keys each mapped to `{value: v}`; a non-dict fails |
| InfobloxNetwork.BuildExtattrsRoundTrip | library/infoblox_network.py:153-160 | reading `value` back out of every built struct gives the input dict |
| InfobloxNetwork.MergePrecedence | library/infoblox_network.py:194-197 | only valid provider keys are added; a truthy parameter wins; an unset or falsy one takes the provider's value; other parameters are unchanged |
| InfobloxNetwork.MergeIdempotent | library/infoblox_network.py:194-197 | merging a merged dict with the same provider changes nothing |
| InfobloxNetwork.MergeProvider | library/infoblox_network.py:194-197 | the loop over the provider leaves `module.params` exactly as `Merged` describes, whatever order it visits the keys in |
| InfobloxNetwork.ConnectorOptsAsWritten | library/infoblox_network.py:221-222 | the options as written: the version value itself is a key of the options |
| InfobloxNetwork.AsWrittenMovesVersionKey | library/infoblox_network.py:221-222 | the options as written are exactly the corrected ones with the `wapi_version` entry moved under the version string, so they lack `wapi_version` whenever the version is not that string |
| InfobloxNetwork.WapiVersionNotPassed | library/infoblox_network.py:221-222 | with the default version 2.2 the options hold no `wapi_version` key, only a `2.2` key |
| InfobloxNetwork.ConnectorOpts | library/infoblox_network.py:221-222 | the corrected options, not what the lines compute (see Findings): they hold exactly host, username, password, ssl_verify, silent_ssl_warnings (true iff validate_certs is False) and wapi_version |
| InfobloxNetwork.Decide | library/infoblox_network.py:227-261 | states other than get, present and absent end without an exit; an unchanged exit takes no action; a changed one is a create in `present` (update-if-exists iff the network was found, with the view, network and built attributes) or the delete of the network in `absent`; `absent` always exits, changed iff the search finds the network; `get` fails iff a network is named and not found; `present` is unchanged iff a network was found equal to the parameters |
| InfobloxNetwork.RunModule | library/infoblox_network.py:186-261 | `main` ends with the outcome and connector options of the specification `Main`, and leaves the parameters merged once the password check passes; the options handed over are the corrected ones (see Left out) |
| InfobloxNetwork.RequiredParamMissingFails | library/infoblox_network.py:199-202 | once the password check passes, a host, username or password still unset after the merge fails before any connector options are built |
| InfobloxNetwork.MissingPasswordFails | library/infoblox_network.py:186-192 | a provider without a password fails, whatever the parameters say |
| InfobloxNetwork.MembersFail | library/infoblox_network.py:218-219 | a set `members` fails |
| InfobloxNetwork.PresentDiffering | library/infoblox_network.py:238-247 | present, existing and differing: create with update-if-exists, changed |
| InfobloxNetwork.PresentEqual | library/infoblox_network.py:240-249 | present, existing and equal: unchanged, no action |
| InfobloxNetwork.PresentMissing | library/infoblox_network.py:250-255 | present and missing: create without update, changed |
| InfobloxNetwork.AbsentDeletesFound | library/infoblox_network.py:256-261 | absent: delete exactly when the search finds the network, and `changed` says whether it did |
| InfobloxNetwork.ChangedOnlyWhenPresentOrAbsent | library/infoblox_network.py:227-261 | only the present and absent states report a change |
| InfobloxNetwork.ConnectorGetsVersion | library/infoblox_network.py:207-222 | every run that reaches the connector passes the requested version, 2.2 by default, under `wapi_version` |
| NextNetwork.ViewRefs | plugins/lookup/nios_next_network.py:147 | fails iff an object lacks `network_view`; otherwise the refs of the objects in the view, empty iff none is, the first being the first such object's |
| NextNetwork.Run | plugins/lookup/nios_next_network.py:96-155 | fails with a missing network iff no term is given; with a given term, fails as invalid iff strict parsing rejects it; with a parsed term, fails as not comparable iff `cidr` is not an integer; a success is a one-element list |
| NextNetwork.RunOkCidr | plugins/lookup/nios_next_network.py:97-129 | a success had a parseable term and an integer cidr (24 by default), longer than the parent prefix and within 1..31 (IPv4) or 1..127 (IPv6) |
| NextNetwork.RunOkResult | plugins/lookup/nios_next_network.py:116-153 | a success queried the container of the term's IP version and wraps the networks returned for the first ref in the view in a one-element list |
| NextNetwork.FullLengthPrefixRefused | plugins/lookup/nios_next_network.py:118-123 | cidr 32 under IPv4 and 128 under IPv6 fail |
| NextNetwork.ShortCidrFailsBeforeLookup | plugins/lookup/nios_next_network.py:109-110 | a cidr not longer than the parent prefix fails before any lookup, whatever WAPI answers |
| NextIp.ObjectType | plugins/lookup/nios_next_ip.py:108-111 | IPv6 searches `ipv6range` or `ipv6network`, otherwise `range` or `network`, by `use_range` |
| NextIp.ViewRefs | plugins/lookup/nios_next_ip.py:121 | fails iff an object lacks `network_view`; otherwise every ref is of an object in the view, and the list is empty iff none is |
| NextIp.ViewRefsInOrder | plugins/lookup/nios_next_ip.py:121 | the refs are exactly those of the objects in the view, in WAPI's order: ref k is that of object idx[k], the positions idx ascend strictly, and every object in the view has its position in idx |
| NextIp.FirstEnough | plugins/lookup/nios_next_ip.py:125-131 | finds addresses iff some ref offers at least `num`; then they are the answer of such a ref, every ref before it having raised or offered fewer |
| NextIp.Run | plugins/lookup/nios_next_ip.py:98-133 | fails with a missing network iff no term is given; with a given term, fails as invalid iff strict parsing rejects it; a success is a one-element list |
| NextIp.RunOkFound | plugins/lookup/nios_next_ip.py:98-131 | a success parsed the term strictly and found objects of the term's type, some of them in the view |
| NextIp.RunOkResult | plugins/lookup/nios_next_ip.py:121-131 | a success returns exactly `[FirstEnough(refs)]`: the addresses of the first ref in the view that offered enough |
| NextIp.RunOk | plugins/lookup/nios_next_ip.py:98-129 | a success returns a one-element list of at least `num` addresses (at least one by default) |
| NextIp.NoneEnoughFails | plugins/lookup/nios_next_ip.py:125-133 | when no ref in the view offers enough addresses the lookup fails |
| NextVlanId.NextVlanIdCall | plugins/lookup/nios_next_vlan_id.py:75-89 | the call passes `num` (1 by default) and `exclude` (empty by default) to `next_available_vlan_id` on the parent's ref |
| NextVlanId.Run | plugins/lookup/nios_next_vlan_id.py:71-93 | a range match wins over a view match; neither fails naming the parent; the ids come back wrapped |
| NextVlanId.Wrap | plugins/lookup/nios_next_vlan_id.py:89-93 | a failed call is an error; otherwise the ids wrapped in a one-element list |
| NextVlanId.RangeWinsOverView | plugins/lookup/nios_next_vlan_id.py:80-83 | a range match decides the result whatever the view lookup answers |
| LegacyDtc.LinksTransform | ansible_collections/infoblox/nios_modules/plugins/modules/nios_dtc_lbdn.py:127-138 | unset or empty items give the empty list; otherwise the result and the item dicts left in the parameters are those of the specification `Links` |
| LegacyDtc.LinksOk | ansible_collections/infoblox/nios_modules/plugins/modules/nios_dtc_lbdn.py:130-137 | the loop succeeds iff every item has its name key and no lookup answers an empty list |
| LegacyDtc.LinksOkRatios | ansible_collections/infoblox/nios_modules/plugins/modules/nios_dtc_lbdn.py:133-134 | on success every item dict has its ratio defaulted and nothing else changed |
| LegacyDtc.Entries | ansible_collections/infoblox/nios_modules/plugins/modules/nios_dtc_lbdn.py:135-137 | the reference list of entries of the found items is never longer than the input |
| LegacyDtc.LinksEntries | ansible_collections/infoblox/nios_modules/plugins/modules/nios_dtc_lbdn.py:135-137 | on success the output is the entries of the found items, in input order |
| LegacyDtc.EntriesAllFound | ansible_collections/infoblox/nios_modules/plugins/modules/nios_dtc_lbdn.py:135-137 | when every item is found, entry j is `{key: first ref, ratio}` for item j |
| LegacyDtc.EntriesFromFound | ansible_collections/infoblox/nios_modules/plugins/modules/nios_dtc_lbdn.py:135-137 | every entry comes from an item that was found |
| LegacyDtc.AllMissingSkipped | ansible_collections/infoblox/nios_modules/plugins/modules/nios_dtc_lbdn.py:135 | items WAPI answers None for are skipped: all None gives an empty success |
| LegacyDtcLbdn.PoolsTransform | ansible_collections/infoblox/nios_modules/plugins/modules/nios_dtc_lbdn.py:127-138 | the legacy pools loop is `Links` over the `pool` key among `dtc:pool` |
| LegacyDtcPool.ServersTransform | ansible_collections/infoblox/nios_modules/plugins/modules/nios_dtc_pool.py:135-146 | the servers loop is `Links` over the `server` key among `dtc:server` |

## Left out

- Remote calls (`get_object`, `call_func`, `objects.Network.create/search`, `find_network.delete()`) are oracle parameters. Their effects on the appliance, and the network traffic, are not modelled.
- Creating `connector.Connector` is not modelled; the model keeps only the options it is given.
- Exceptions raised inside `get_object` itself are not modelled. Examples: the `except Exception` of `auth_zones_transform` at plugins/modules/nios_dtc_lbdn.py:251-252, and a reply without `_ref`.
- A raising `call_func` and a reply missing its result key are not told apart; both are one `None` answer.
- Python's `ipaddress.ip_network` is an oracle that gives a version, a prefix length and the `with_prefixlen` text. CIDR parsing itself is not modelled.
- `module.fail_json` and `AnsibleError` are modelled as a `Fail` result. The process exit and the message text are not.
- Dict key order is not modelled. The order in which `check_vendor_specific_dhcp_option` visits `ib_spec` is modelled as a given sequence of keys.
- Python's `True == 1` is not modelled, and there are no floats. A `num` of `True` or `43.0` is therefore not treated as an option number, and a bool `cidr` is not treated as an int.
- Ansible's argument validation is not modelled: types, suboption defaults (for example `ratio` or `use_option` filled in as None), aliases and `check_mode`. The transforms accept any dict.
- NiosRange.CheckVendorSpecificDhcpOption: requires that every list-valued parameter holds dicts, as `elements='dict'` guarantees. A non-dict element, which would raise a TypeError, is not modelled.
- NiosRange.Options: a `module.params['options']` of None, which raises a TypeError in the source, is not modelled; the function takes a list.
- DtcMonitorSnmp.Oids: a `module.params['oids']` of None is not modelled; the function takes a list.
- HostRecord.Ipv4Addrs: requires the parameter key to be present and to hold a list. A None value, which raises a TypeError, is not modelled; the same holds for HostRecord.Ipv6Addrs.
- LegacyDtc.LinksTransform: a lookup answering an empty list makes the source read index 0 of it and raise an IndexError. This is modelled as a `NoMatch` failure, after the ratio has been written, rather than as a precondition.
- NextNetwork.Run: the second prefix check at plugins/lookup/nios_next_network.py:128-129 is modelled, but it can never fire once the first one at 109-110 has passed.
- NiosRange.ServerAssociationType: the module documentation at plugins/modules/nios_range.py:140 lists FAILOVER_MS, while the code accepts MS_FAILOVER. The model follows the code.
- InfobloxNetwork.RunModule: the connector options it returns are the corrected ones (version under `wapi_version`), not the as-written dict of library/infoblox_network.py:221-222; InfobloxNetwork.AsWrittenMovesVersionKey states exactly how the two differ (see Findings).
- InfobloxNetwork.Decide: the `results` returned by `get` and `present` (the refetched objects, stringified) are not modelled, nor the `filters` branch of `get`, which fetches and discards.
- `WapiModule.run` and the normalisers of `module_utils/api.py` are not part of this model; neither are the modules that only declare an argument spec, nor the inventory plugin.

## Findings

| source | as written | input that shows it | evidently intended | confidence | as-written member | corrected member |
|---|---|---|---|---|---|---|
| library/infoblox_network.py:221-222 | the connector options use the value of `wapi_version` as the dict key of the version entry | default version "2.2": the options get a key "2.2" mapped to "2.2" and no `wapi_version` key, so the requested version never reaches the connector | the key `'wapi_version'` mapped to the requested version | not executed | InfobloxNetwork.WapiVersionNotPassed | InfobloxNetwork.ConnectorGetsVersion |
