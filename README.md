# IOS-XE Terraform provider: mapping layer and CRUD, in Dafny

This project models the core of a Terraform provider for Cisco IOS-XE devices:
- the per-resource **mapping layer**;
- the **CRUD callbacks** around it.

In the mapping layer, *expand* (`getCreateUpdate*Object`, `expand*`) turns the flat record a user declares into the nested object the device's configuration API takes. *Flatten* (`resourceSet*`, `flatten*`) writes the device's object back into the record.

The CRUD callbacks do the following:
- Create and Update expand the record, write it to the device, set the resource ID and read back.
- Read flattens the device's answer into the record.
- Delete removes the object and clears the ID.
- A failed call returns an error before the ID is touched.

## How it is modelled

- **The Terraform record** (`schema.ResourceData`) is the class `Schema.ResourceData`, with:
  - a map `attrs` from attribute name to `Value`;
  - the resource `id`;
  - the mutators `Set` and `SetId`.

  `GetOk` is "present and not the zero value". The Go idioms `v.(string)`, `v.(int)` and `v.(bool)` after `GetOk` are `OkString`, `OkInt` and `OkTrue`. Schema typing and validators (`IntBetween`, `StringInSlice`, `IsCIDR`, `Required`) become `WellFormed*` predicates on the declared record.
- **The device API** (`client.Create*`, `Read*`, `Update*`, `Delete*`) is the class `RemoteStore.Store<K, V>`:
  - a map of objects by path key;
  - a set `refused` of keys on which the device answers with an error.

  Every call can therefore fail, and each CRUD method states its outcome on both paths.
- **The device's models** (`models.Interface`, `models.VRF`, `models.BgpNeighbor`, ...) are datatypes. Optional pointer fields are `Option`s. Presence markers (`ExplicitNull`, `CiscoEnabled`, `&struct{}{}`) are `Option<Marker>` or `Option<()>`.
- **Each Go function is a method and a function.**
  - The method follows the Go code step by step: field-by-field updates, append loops with their invariants, one `d.Set` after another.
  - The method's `ensures` equates it with a specification function (`Expand*`, `Flatten*`).
  - The lemmas are stated about that function.
- **The central property is "no drift".** Take a record the schema accepts, expand it, and flatten the object back into it. The result must read, under `GetOk`, as the record declared. Where the code loses information, the lemma states exactly what comes back instead:
  - VRF route-targets come back in export-then-import order;
  - address families come back as the set of versions 4 and 6;
  - timers keep only the first block.
- **Go panics** (a nil dereference in a read, a failed type assertion in an expand) are modelled in one of two ways:
  - as a `Readable*` predicate with a `Panic` result from the CRUD method;
  - as the `Expanded.Panicked` result of the as-written BGP neighbor expansion.
- **`SetNetmask`/`SetCIDR`**, whose code is not part of this model, are given the contiguous prefix-mask relation of section 3.1 of RFC 4632 (`Netmask`).

Files:
- `common.dfy`, `strconv.dfy`, `strings.dfy`, `netmask.dfy`, `schema.dfy`, `remote_store.dfy` are the base modules.
- `interfaces.dfy` holds the shared `models.Interface` and the secondary-IP lists.
- There is one module per resource file: `l2_vlan.dfy`, `bgp_router.dfy`, `bgp_neighbor_prefix_list.dfy`, `svi.dfy`, `interface_vlan.dfy`, `port_channel.dfy`, `port_channel_subinterface.dfy`, `vrf.dfy`, `bgp_neighbor.dfy`, `data_source_vlan.dfy`.

## Model

| member | source | states |
|---|---|---|
| Schema.ResourceData.Set | internal/provider/resource_l2_vlan.go:118-120 | `d.Set` replaces exactly one attribute and leaves every other attribute and the ID as they were |
| Schema.ResourceData.SetId | internal/provider/resource_l2_vlan.go:113 | `d.SetId` replaces the ID and leaves the attributes as they were |
| Schema.GetOk | internal/provider/resource_l2_vlan.go:123 | `d.GetOk` reports a value exactly when the attribute is present and not its kind's zero value, and then reports the stored value |
| Schema.OkString | internal/provider/resource_l2_vlan.go:123-127 | the GetOk-then-`v.(string)` idiom yields a string exactly when the attribute holds a non-empty string, and then that string |
| Schema.OkInt | internal/provider/resource_bgp_neighbor.go:376-380 | the GetOk-then-`v.(int)` idiom yields an integer exactly when the attribute holds a non-zero integer, and then that integer |
| Schema.OkTrue | internal/provider/resource_bgp_router.go:123-127 | the GetOk-then-`v.(bool)` idiom fires exactly when the attribute holds true; a declared false is indistinguishable from an absent attribute |
| Schema.GetOkAfterSet | internal/provider/resource_l2_vlan.go:118-127 | after `d.Set(key, v)`, GetOk reports `v` for that key unless `v` is a zero value, and every other key as before |
| RemoteStore.Store.Create | internal/provider/resource_l2_vlan.go:49-53 | a create succeeds exactly when the device does not refuse the key; on success the object is stored under the key, on failure nothing changes |
| RemoteStore.Store.Update | internal/provider/resource_l2_vlan.go:89-93 | an update succeeds exactly when the key is not refused and then replaces the whole object; on failure nothing changes |
| RemoteStore.Store.Read | internal/provider/resource_l2_vlan.go:67-71 | a read returns an object exactly when the device serves the key, and then it is the stored object |
| RemoteStore.Store.Delete | internal/provider/resource_l2_vlan.go:107-111 | a delete succeeds exactly when the key is served, and then removes it; on failure nothing changes |
| Strconv.Itoa | internal/provider/resource_l2_vlan.go:55 | `strconv.Itoa` gives a non-empty text of digits, preceded by a minus sign exactly for a negative number |
| Strconv.NatToString | internal/provider/resource_l2_vlan.go:55 | the decimal text of a natural number is non-empty, all digits, and has no leading zero |
| Strconv.ParseNatToString | internal/provider/resource_interface_vlan.go:167 | parsing the decimal text of a natural number gives the number back |
| Strconv.AtoiItoa | internal/provider/resource_interface_vlan.go:167 | `strconv.Atoi(strconv.Itoa(i))` is `i` without error, for every integer |
| Strconv.ItoaInjective | internal/provider/resource_l2_vlan.go:55 | two different integers never get the same decimal ID |
| Strconv.DigitChar | internal/provider/resource_l2_vlan.go:55 | the digit character of a value below 10 is a digit whose value is that number |
| Strconv.Atoi | internal/provider/resource_interface_vlan.go:167 | `strconv.Atoi` accepts exactly an optional sign followed by one or more digits; a leading minus gives a value of at most 0, otherwise at least 0 |
| Strconv.AtoiOrZero | internal/provider/resource_interface_vlan.go:167-171 | the vlanid written after the `[WARN]` branch is 0 on a syntax error, and any non-zero value written is the parsed number |
| Strings.Split | internal/provider/resource_interface_vlan.go:205 | splitting gives at least one part, and no part contains the separator |
| Strings.JoinSplit | internal/provider/resource_interface_vlan.go:205 | joining the parts of a split with the separator gives the original text |
| Strings.SplitJoin | internal/provider/resource_interface_vlan.go:158 | splitting a join of separator-free parts gives the parts back |
| Strings.SplitWithoutSep | internal/provider/resource_interface_vlan.go:205 | a text without the separator splits into itself alone |
| Strings.SplitAfterPart | internal/provider/resource_interface_vlan.go:205 | a separator-free part followed by the separator splits off as the first part |
| Netmask.OctetOnes | internal/provider/resource_interface_vlan.go:205 | each octet of a prefix mask holds between 0 and 8 one bits |
| Netmask.OnesOfOctet | internal/provider/resource_interface_vlan.go:158 | an octet is accepted only if it is a contiguous-mask octet, and then with its number of one bits |
| Netmask.MaskToPrefix | internal/provider/resource_interface_vlan.go:158 | a dotted mask converts to a prefix length of at most 32 |
| Netmask.MaskOfOnes | internal/provider/resource_interface_vlan.go:158 | four octet counts make a prefix length of at most 32 |
| Netmask.OnesOfMaskOctet | internal/provider/resource_interface_vlan.go:158 | the decimal text of each mask octet value converts back to its number of one bits |
| Netmask.OctetOnesContiguous | internal/provider/resource_interface_vlan.go:205 | a prefix mask's one bits are contiguous from the left and add up to the prefix length |
| Netmask.MaskRoundTrip | internal/provider/resource_interface_vlan.go:205 | the dotted mask of every prefix length from 0 to 32 converts back to that length |
| Netmask.CidrRoundTrip | internal/provider/resource_interface_vlan.go:154-229 | a declared CIDR survives `SetNetmask` on expand and `SetCIDR` on read unchanged |
| Netmask.Mask24 | internal/provider/resource_interface_vlan.go:205 | the mask of /24 is 255.255.255.0 |
| Netmask.ExampleSlash24 | internal/provider/resource_interface_vlan.go:154-229 | 10.1.1.1/24 becomes address 10.1.1.1 with mask 255.255.255.0, and back |
| Netmask.SetNetmask | internal/provider/resource_interface_vlan.go:205 | `SetNetmask` keeps the CIDR; for `a/n` with `n` at most 32 it sets the address to `a` and a mask that converts back to exactly `n`; any other text leaves the value unchanged |
| Netmask.SetCidr | internal/provider/resource_interface_vlan.go:158 | `SetCIDR` keeps address and mask; an invalid mask leaves the value unchanged; a valid one gives a CIDR the validator accepts, which splits back into the address and the prefix length |
| Netmask.CidrTextSplits | internal/provider/resource_interface_vlan.go:158 | `address/n` splits at its one slash into the address and the canonical decimal `n`, and is accepted exactly when `n` is at most 32 |
| Netmask.MaskCidrRoundTrip | internal/provider/resource_interface_vlan.go:158-205 | the other direction: a device address with a prefix mask survives `SetCIDR` on read and `SetNetmask` on the next expand |
| Interfaces.SecondaryIPs | internal/provider/resource_interface_vlan.go:231-248 | an empty `secondary_ip` list expands to nil; otherwise the i-th entry carries the i-th declared CIDR and the marker |
| Interfaces.ExpandSecondaryIPs | internal/provider/resource_interface_vlan.go:231-248 | the append loop computes exactly `SecondaryIPs` |
| Interfaces.SecondaryIPBlocks | internal/provider/resource_interface_vlan.go:177-188 | flattening gives one block per remote entry, none for nil |
| Interfaces.FlattenSecondaryIPs | internal/provider/resource_interface_vlan.go:177-188 | the append loop computes exactly `SecondaryIPBlocks` |
| Interfaces.SecondaryIPsRoundTrip | internal/provider/resource_interface_vlan.go:177-248 | a non-empty declared secondary list comes back as the same list in the same order |
| Interfaces.SecondaryAttrRoundTrip | internal/provider/resource_interface_vlan.go:161-248 | the `secondary_ip` attribute reads back under GetOk as declared, whether set or not |
| Interfaces.PrimaryAttr | internal/provider/resource_interface_vlan.go:196-207 | the primary address is present exactly when `ip` is set, and then carries the declared CIDR |
| Interfaces.ExpandInterface | internal/provider/resource_interface_vlan.go:190-229 | the IP/Address container is always allocated and Primary is present iff `ip` is set; description and vrf are copied only when set; `shutdown = true` gives the CiscoEnabled marker, otherwise the field is left alone |
| Interfaces.GetCreateUpdateInterfaceObject | internal/provider/resource_interface_vlan.go:190-229 | the field-by-field updates compute exactly `ExpandInterface` |
| Interfaces.PresenceRoundTrip | internal/provider/resource_interface_vlan.go:162-166 | a marker present exactly when the boolean was true reads back as that boolean under GetOk |
| Interfaces.Presence | internal/provider/resource_interface_vlan.go:162-166 | a read writes true exactly for a present marker, and the zero value false for a nil one |
| Interfaces.ForwardingText | internal/provider/resource_interface_vlan.go:172-174 | `d.Set("vrf", resp.Vrf.Forwarding)` writes the forwarding name, or the zero string (which GetOk treats as unset) for a nil pointer |
| L2Vlan.ExpandL2Vlan | internal/provider/resource_l2_vlan.go:122-129 | `name` is copied into the object only when set; the id is untouched |
| L2Vlan.GetCreateUpdateL2VlanObject | internal/provider/resource_l2_vlan.go:122-129 | the method computes exactly `ExpandL2Vlan` |
| L2Vlan.L2VlanObject | internal/provider/resource_l2_vlan.go:42-47 | the object sent carries `VlanList.ID = vlanid` |
| L2Vlan.FlattenL2Vlan | internal/provider/resource_l2_vlan.go:118-120 | a read always overwrites `name` from the device and touches nothing else |
| L2Vlan.ResourceSetL2Vlan | internal/provider/resource_l2_vlan.go:118-120 | the method computes exactly `FlattenL2Vlan` and leaves the ID |
| L2Vlan.Read | internal/provider/resource_l2_vlan.go:60-78 | on a failed read, an error and nothing changed; otherwise the record is flattened from the stored object and the ID is the decimal vlanid |
| L2Vlan.Create | internal/provider/resource_l2_vlan.go:40-58 | a refused create returns an error with record, ID and device unchanged; otherwise the device holds the expanded object, the ID is the decimal vlanid and the record is read back |
| L2Vlan.Update | internal/provider/resource_l2_vlan.go:80-98 | the same as Create, through the update call |
| L2Vlan.Delete | internal/provider/resource_l2_vlan.go:100-116 | the ID is cleared and the object removed exactly when the device served it; otherwise an error and nothing changed |
| L2Vlan.L2VlanRoundTrip | internal/provider/resource_l2_vlan.go:29-129 | no drift: `name` reads back under GetOk as declared, `vlanid` is untouched and the ID parses back to it |
| BgpRouter.ExpandBgpRouter | internal/provider/resource_bgp_router.go:122-129 | `log_neighbor_changes` is copied only when GetOk reports it, so only a true is ever sent |
| BgpRouter.GetCreateUpdateBgpRouterObject | internal/provider/resource_bgp_router.go:122-129 | the method computes exactly `ExpandBgpRouter` |
| BgpRouter.BgpRouterObject | internal/provider/resource_bgp_router.go:41-47 | the object sent carries `Bgp.ID = as` |
| BgpRouter.FlattenBgpRouter | internal/provider/resource_bgp_router.go:117-120 | a read overwrites `as` and `log_neighbor_changes` from the device and nothing else |
| BgpRouter.ResourceSetBgpRouter | internal/provider/resource_bgp_router.go:117-120 | the method computes exactly `FlattenBgpRouter` |
| BgpRouter.Read | internal/provider/resource_bgp_router.go:59-77 | an error and no change on a failed read; otherwise flattened, with the ID the decimal AS |
| BgpRouter.Create | internal/provider/resource_bgp_router.go:39-57 | an error and no change when refused; otherwise stored, ID the decimal AS, read back |
| BgpRouter.Update | internal/provider/resource_bgp_router.go:79-97 | the same as Create, through the update call |
| BgpRouter.Delete | internal/provider/resource_bgp_router.go:99-115 | the ID is cleared only when the delete succeeds |
| BgpRouter.BgpRouterRoundTrip | internal/provider/resource_bgp_router.go:117-129 | no drift: `as` reads back as declared and the switch reads back as GetOk saw it |
| BgpNeighborPrefixList.ExpandPrefixList | internal/provider/resource_bgp_neighbor_prefix_list.go:159-166 | `direction` is copied into Inout only when set |
| BgpNeighborPrefixList.GetCreateUpdatePrefixListObject | internal/provider/resource_bgp_neighbor_prefix_list.go:159-166 | the method computes exactly `ExpandPrefixList` |
| BgpNeighborPrefixList.PrefixListObject | internal/provider/resource_bgp_neighbor_prefix_list.go:54-57 | the object sent has PrefixListName equal to `name` |
| BgpNeighborPrefixList.FlattenPrefixList | internal/provider/resource_bgp_neighbor_prefix_list.go:154-157 | a read sets direction and name from Inout and PrefixListName and nothing else |
| BgpNeighborPrefixList.ResourceSetPrefixList | internal/provider/resource_bgp_neighbor_prefix_list.go:154-157 | the method computes exactly `FlattenPrefixList` |
| BgpNeighborPrefixList.Read | internal/provider/resource_bgp_neighbor_prefix_list.go:78-102 | the object is addressed by (routing_instance, neighbor_ip, name); an error and no change on failure, otherwise flattened with the ID the list name |
| BgpNeighborPrefixList.Create | internal/provider/resource_bgp_neighbor_prefix_list.go:52-76 | an error and no change when refused; otherwise stored at the triple, ID the list name, read back |
| BgpNeighborPrefixList.Update | internal/provider/resource_bgp_neighbor_prefix_list.go:104-128 | the same as Create, through the update call |
| BgpNeighborPrefixList.Delete | internal/provider/resource_bgp_neighbor_prefix_list.go:130-152 | the ID is cleared only when the delete at the triple succeeds |
| BgpNeighborPrefixList.PrefixListRoundTrip | internal/provider/resource_bgp_neighbor_prefix_list.go:52-166 | no drift: direction and name read back as declared and the record still addresses the same triple |
| Svi.ExpandSvi | internal/provider/resource_svi.go:182-207 | the CIDR is written into the existing primary address only when `ip` is set; description only when set; `shutdown = true` gives an explicit null |
| Svi.GetCreateUpdateSviObject | internal/provider/resource_svi.go:182-207 | the method computes exactly `ExpandSvi` |
| Svi.SviObject | internal/provider/resource_svi.go:76-79 | the remote name is the integer vlanid |
| Svi.FlattenSvi | internal/provider/resource_svi.go:152-167 | a read writes name as the SVIName prefix and the decimal remote name, vlanid as the remote name, shutdown as marker presence, description only when present |
| Svi.ResourceSetSvi | internal/provider/resource_svi.go:152-180 | the method computes exactly `FlattenSvi` |
| Svi.Read | internal/provider/resource_svi.go:94-112 | an error and no change on failure; otherwise flattened with the ID the decimal vlanid |
| Svi.Create | internal/provider/resource_svi.go:74-92 | an error and no change when refused; otherwise stored, ID the decimal vlanid, read back |
| Svi.Update | internal/provider/resource_svi.go:114-132 | the same as Create, through the update call |
| Svi.Delete | internal/provider/resource_svi.go:134-150 | the ID is cleared only when the delete succeeds |
| Svi.SviRoundTrip | internal/provider/resource_svi.go:152-227 | no drift: description, ip, secondary_ip and shutdown read back under GetOk as declared, vlanid unchanged, name the prefix and decimal vlanid |
| InterfaceVlan.VlanObject | internal/provider/resource_interface_vlan.go:81-84 | the remote name is the decimal vlanid; the read-back after a create dereferences no nil pointer (`ReadableVlan`) exactly when `ip` is declared, as the schema requires |
| InterfaceVlan.FlattenVlan | internal/provider/resource_interface_vlan.go:154-175 | description and vrf are written only when present on the device; vlanid is the parsed remote name, or 0 when it does not parse; shutdown is marker presence |
| InterfaceVlan.ResourceSetVlan | internal/provider/resource_interface_vlan.go:154-188 | the method computes exactly `FlattenVlan` |
| InterfaceVlan.Read | internal/provider/resource_interface_vlan.go:99-116 | an error and no change on failure; a panic and no change when the device's object lacks `IP`, `IP.Address` or `IP.Address.Primary`; otherwise flattened with the ID the decimal vlanid |
| InterfaceVlan.Create | internal/provider/resource_interface_vlan.go:79-97 | an error and no change when refused; otherwise the expanded object is stored under the decimal vlanid, which becomes the ID, and read back |
| InterfaceVlan.Update | internal/provider/resource_interface_vlan.go:118-135 | the same as Create, through the update call |
| InterfaceVlan.Delete | internal/provider/resource_interface_vlan.go:137-152 | the ID is cleared only when the delete succeeds |
| InterfaceVlan.VlanRoundTrip | internal/provider/resource_interface_vlan.go:154-229 | no drift: description, ip, secondary_ip, shutdown, vlanid and vrf read back under GetOk as declared; name is the VlanName prefix and the decimal vlanid |
| InterfaceVlan.VlanAddressRoundTrip | internal/provider/resource_interface_vlan.go:158-207 | the primary CIDR survives the mask conversion and back; the secondary list reads back as declared |
| InterfaceVlan.VlanSettingsRoundTrip | internal/provider/resource_interface_vlan.go:191-227 | description and vrf read back under GetOk as declared |
| InterfaceVlan.VlanShutdownRoundTrip | internal/provider/resource_interface_vlan.go:162-219 | shutdown reads back under GetOk as declared |
| InterfaceVlan.VlanIdRoundTrip | internal/provider/resource_interface_vlan.go:160-171 | vlanid comes back unchanged through the decimal remote name |
| InterfaceVlan.FlattenVlanIdempotent | internal/provider/resource_interface_vlan.go:154-175 | reading the same remote object twice leaves the record as one read did |
| PortChannel.PortChannelObject | internal/provider/resource_interface_port_channel.go:72-75 | the remote name is the declared `name`; the object always satisfies `ReadablePortChannel`, so the read-back after a create never panics |
| PortChannel.FlattenPortChannel | internal/provider/resource_interface_port_channel.go:145-162 | vrf is never touched; ip only when IP and Primary are present, secondary_ip only when IP is present; name and shutdown always |
| PortChannel.ResourceSetPortChannel | internal/provider/resource_interface_port_channel.go:145-175 | the method computes exactly `FlattenPortChannel` |
| PortChannel.Read | internal/provider/resource_interface_port_channel.go:90-107 | an error and no change on failure; a panic when the object lacks the address under a present IP; otherwise flattened with the ID the name |
| PortChannel.Create | internal/provider/resource_interface_port_channel.go:70-88 | an error and no change when refused; otherwise stored under the name, which becomes the ID, and read back |
| PortChannel.Update | internal/provider/resource_interface_port_channel.go:109-126 | the same as Create, through the update call |
| PortChannel.Delete | internal/provider/resource_interface_port_channel.go:128-143 | the ID is cleared only when the delete succeeds |
| PortChannel.PortChannelRoundTrip | internal/provider/resource_interface_port_channel.go:145-235 | no drift: description, ip, secondary_ip, shutdown and vrf read back under GetOk as declared and name is unchanged |
| PortChannel.PortChannelAddressRoundTrip | internal/provider/resource_interface_port_channel.go:149-194 | ip and secondary_ip read back under GetOk as declared |
| PortChannel.PortChannelSettingsRoundTrip | internal/provider/resource_interface_port_channel.go:145-214 | description and vrf read back under GetOk as declared and name is unchanged |
| PortChannel.PortChannelShutdownRoundTrip | internal/provider/resource_interface_port_channel.go:157-206 | shutdown reads back under GetOk as declared |
| PortChannelSubinterface.ExpandSubinterface | internal/provider/resource_interface_port_channel_subinterface.go:184-233 | the shared interface expansion plus a dot1q encapsulation carrying vlanid when set |
| PortChannelSubinterface.GetCreateUpdateSubinterfaceObject | internal/provider/resource_interface_port_channel_subinterface.go:184-233 | the method computes exactly `ExpandSubinterface` |
| PortChannelSubinterface.SubinterfaceObject | internal/provider/resource_interface_port_channel_subinterface.go:79-82 | the remote name is the declared `name`; the read-back after a create dereferences no nil pointer (`ReadableSubinterface`) exactly when `ip` and `vlanid` are both declared |
| PortChannelSubinterface.VlanIdValue | internal/provider/resource_interface_port_channel_subinterface.go:165 | `d.Set("vlanid", ...Dot1Q.VlanID)` writes the VLAN id, or the zero value for a nil pointer |
| PortChannelSubinterface.FlattenSubinterface | internal/provider/resource_interface_port_channel_subinterface.go:152-169 | ip, secondary_ip, name, shutdown and vlanid (from Dot1Q) always written; description and vrf only when present |
| PortChannelSubinterface.ResourceSetSubinterface | internal/provider/resource_interface_port_channel_subinterface.go:152-182 | the method computes exactly `FlattenSubinterface` |
| PortChannelSubinterface.Read | internal/provider/resource_interface_port_channel_subinterface.go:97-114 | an error and no change on failure; a panic when Primary or Dot1Q is missing; otherwise flattened with the ID the name |
| PortChannelSubinterface.Create | internal/provider/resource_interface_port_channel_subinterface.go:77-95 | an error and no change when refused; otherwise stored under the name, which becomes the ID, and read back |
| PortChannelSubinterface.Update | internal/provider/resource_interface_port_channel_subinterface.go:116-133 | the same as Create, through the update call |
| PortChannelSubinterface.Delete | internal/provider/resource_interface_port_channel_subinterface.go:135-150 | the ID is cleared only when the delete succeeds |
| PortChannelSubinterface.SubinterfaceRoundTrip | internal/provider/resource_interface_port_channel_subinterface.go:152-252 | no drift: description, ip, secondary_ip, shutdown and vrf read back under GetOk as declared; name and vlanid unchanged |
| PortChannelSubinterface.SubinterfaceAddressRoundTrip | internal/provider/resource_interface_port_channel_subinterface.go:156-201 | ip and secondary_ip read back under GetOk as declared |
| PortChannelSubinterface.SubinterfaceSettingsRoundTrip | internal/provider/resource_interface_port_channel_subinterface.go:214-221 | description and vrf read back under GetOk as declared |
| PortChannelSubinterface.SubinterfaceIdRoundTrip | internal/provider/resource_interface_port_channel_subinterface.go:222-231 | vlanid comes back through Dot1Q unchanged and name is unchanged |
| PortChannelSubinterface.SubinterfaceShutdownRoundTrip | internal/provider/resource_interface_port_channel_subinterface.go:206-213 | shutdown reads back under GetOk as declared |
| Vrf.RtsOf | internal/provider/resource_vrf.go:263-295 | the route-targets kept for one community are at most the declared entries, all with a value |
| Vrf.ExpandRouteTarget | internal/provider/resource_vrf.go:263-295 | an empty `route_target` expands to nil |
| Vrf.ExpandVrfRouteTarget | internal/provider/resource_vrf.go:263-295 | the loop appending to the import and export lists computes exactly `ExpandRouteTarget` |
| Vrf.RtBlocks | internal/provider/resource_vrf.go:195-212 | one block per route-target |
| Vrf.FlattenRouteTarget | internal/provider/resource_vrf.go:195-212 | nil flattens to the empty list; otherwise one block per export and per import |
| Vrf.FlattenVrfRouteTarget | internal/provider/resource_vrf.go:195-212 | the two append loops compute exactly `FlattenRouteTarget` |
| Vrf.Community | internal/provider/resource_vrf.go:263-295 | the declared entries of one community, in order, are at most all the entries |
| Vrf.SelectsOne | internal/provider/resource_vrf.go:263-295 | a valid block belongs to exactly one of the two communities |
| Vrf.RtBlocksOfRts | internal/provider/resource_vrf.go:195-295 | expanding then flattening one community gives back its declared entries in order |
| Vrf.RouteTargetRoundTrip | internal/provider/resource_vrf.go:195-295 | a declared list comes back as its exports followed by its imports |
| Vrf.CommunitiesPermutation | internal/provider/resource_vrf.go:195-295 | the list read back is a permutation of the declared one |
| Vrf.NoneSelected | internal/provider/resource_vrf.go:263-295 | a list with no entry of a community contributes nothing to it |
| Vrf.ExportsFirstRoundTrip | internal/provider/resource_vrf.go:195-295 | a declared list whose exports all come first reads back unchanged |
| Vrf.InitValid | internal/provider/resource_vrf.go:263-295 | dropping the last entry keeps a list valid and exports-first |
| Vrf.NoImportBeforeExport | internal/provider/resource_vrf.go:263-295 | in an exports-first list ending in an export, no earlier entry is an import |
| Vrf.InterleavingLost | internal/provider/resource_vrf.go:195-295 | an import declared before an export reads back after it |
| Vrf.CommunityOfPair | internal/provider/resource_vrf.go:263-295 | the entries of one community in a two-element list, in order |
| Vrf.ExpandAddressFamily | internal/provider/resource_vrf.go:241-261 | an empty list expands to nil; otherwise Ipv4 is present iff some entry is version 4 and Ipv6 iff some entry is version 6 |
| Vrf.ExpandVrfAddressFamily | internal/provider/resource_vrf.go:241-261 | the loop setting the two flags computes exactly `ExpandAddressFamily` |
| Vrf.FlattenAddressFamily | internal/provider/resource_vrf.go:178-193 | at most two entries, with version 4 before version 6 |
| Vrf.FlattenVrfAddressFamily | internal/provider/resource_vrf.go:178-193 | the method computes exactly `FlattenAddressFamily` |
| Vrf.AddressFamilyRoundTrip | internal/provider/resource_vrf.go:178-261 | the versions read back are the declared versions restricted to 4 and 6 |
| Vrf.ExpandVrf | internal/provider/resource_vrf.go:214-239 | description and rd are placed in the object only when set; empty route-target and address-family lists leave those fields nil |
| Vrf.GetCreateUpdateVrfObject | internal/provider/resource_vrf.go:214-239 | the method computes exactly `ExpandVrf` |
| Vrf.VrfObject | internal/provider/resource_vrf.go:92-95 | the object Create sends is named `name`, carries description and rd only when set and route-targets exactly when the list is non-empty; every route-target has a value, so the read-back never panics (`ReadableVrf`) |
| Vrf.FlattenVrf | internal/provider/resource_vrf.go:166-176 | description and rd are overwritten only when present on the device; name, address_family and route_target always |
| Vrf.ResourceSetVrf | internal/provider/resource_vrf.go:166-212 | the method computes exactly `FlattenVrf` |
| Vrf.Read | internal/provider/resource_vrf.go:108-126 | an error and no change on failure; a panic when a remote route-target has no value; otherwise flattened with the ID the name |
| Vrf.Create | internal/provider/resource_vrf.go:88-106 | an error and no change when refused; otherwise stored under the name, which becomes the ID, and read back |
| Vrf.Update | internal/provider/resource_vrf.go:128-146 | the same as Create, through the update call |
| Vrf.Delete | internal/provider/resource_vrf.go:148-164 | the ID is cleared only when the delete succeeds |
| Vrf.VrfObjectFields | internal/provider/resource_vrf.go:214-239 | the object sent for a well-formed record, field by field |
| Vrf.FlattenVrfFields | internal/provider/resource_vrf.go:166-176 | what a read writes, attribute by attribute |
| Vrf.VrfRoundTrip | internal/provider/resource_vrf.go:166-295 | description, name and rd read back as declared; route_target comes back as exports then imports, and exactly as declared when exports came first; address families come back as their versions in {4, 6} |
| BgpNeighbor.ExpandTimers | internal/provider/resource_bgp_neighbor.go:462-479 | an empty list gives nil; otherwise the first block's three values, read with the schema's keys |
| BgpNeighbor.ExpandBgpNeighborTimers | internal/provider/resource_bgp_neighbor.go:462-479 | the loop, then taking element 0, computes exactly `ExpandTimers` |
| BgpNeighbor.FlattenTimers | internal/provider/resource_bgp_neighbor.go:330-342 | nil flattens to no block and a value to exactly one block, written with the schema's keys |
| BgpNeighbor.FlattenBgpNeighborTimers | internal/provider/resource_bgp_neighbor.go:330-342 | the loop over the one-element slice computes exactly `FlattenTimers` |
| BgpNeighbor.TimersRoundTrip | internal/provider/resource_bgp_neighbor.go:330-342 | timers come back as the first declared block alone, and unchanged when at most one was declared |
| BgpNeighbor.ExpandTimersAsWritten | internal/provider/resource_bgp_neighbor.go:462-479 | the expansion as written reads the hyphenated key, and a block it accepts gives a value |
| BgpNeighbor.MinimumHoldKeyOutsideSchema | internal/provider/resource_bgp_neighbor.go:474 | the key read at this line is none of the schema's three timer keys |
| BgpNeighbor.TimersAsWrittenPanics | internal/provider/resource_bgp_neighbor.go:462-479 | every non-empty timers list the schema accepts makes the as-written expansion panic |
| BgpNeighbor.FlattenTimersAsWritten | internal/provider/resource_bgp_neighbor.go:330-342 | the as-written flatten gives one block per value |
| BgpNeighbor.FlattenedTimersOutsideSchema | internal/provider/resource_bgp_neighbor.go:335-337 | the block written with hyphenated keys is not a block the schema defines |
| BgpNeighbor.ExpandPrefixLists | internal/provider/resource_bgp_neighbor.go:442-460 | an empty list gives nil; otherwise one entry per block in order, with direction as Inout and name as PrefixListName |
| BgpNeighbor.ExpandBgpNeighborConfigPrefixList | internal/provider/resource_bgp_neighbor.go:442-460 | the append loop computes exactly `ExpandPrefixLists` |
| BgpNeighbor.FlattenPrefixLists | internal/provider/resource_bgp_neighbor.go:344-355 | one schema block per entry |
| BgpNeighbor.FlattenBgpNeighborConfigPrefixList | internal/provider/resource_bgp_neighbor.go:344-355 | the append loop computes exactly `FlattenPrefixLists` |
| BgpNeighbor.PrefixListsRoundTrip | internal/provider/resource_bgp_neighbor.go:344-460 | a non-empty declared list comes back unchanged, in order |
| BgpNeighbor.PrefixListsInverse | internal/provider/resource_bgp_neighbor.go:344-460 | a non-empty remote list survives flatten then expand unchanged |
| BgpNeighbor.ExpandNeighbor | internal/provider/resource_bgp_neighbor.go:357-408 | the corrected expansion: true toggles give explicit nulls; ebgp_multihop and local_as allocate their containers when set; description and timers only when set |
| BgpNeighbor.GetCreateUpdateBgpNeighborObject | internal/provider/resource_bgp_neighbor.go:357-408 | the method computes exactly `ExpandNeighbor` |
| BgpNeighbor.NeighborObject | internal/provider/resource_bgp_neighbor.go:162-165 | the corrected neighbor object (Findings rows 3–4), as Create would send it: it has the ip as ID and remote_as as declared; each toggle, container and the timers are present exactly when declared |
| BgpNeighbor.ExpandNeighborAsWritten | internal/provider/resource_bgp_neighbor.go:357-408 | the expansion as written keeps the neighbor's id when it completes |
| BgpNeighbor.NeighborAsWrittenPanics | internal/provider/resource_bgp_neighbor.go:376-385 | the as-written expansion panics exactly when ebgp_multihop, local_as or timers is set; otherwise it equals the corrected one |
| BgpNeighbor.ExpandNeighborConfig | internal/provider/resource_bgp_neighbor.go:410-440 | true toggles give empty-struct presence; local_as, soft_reconfiguration and prefix_list are copied only when set |
| BgpNeighbor.GetCreateUpdateBgpNeighborConfigObject | internal/provider/resource_bgp_neighbor.go:410-440 | the method computes exactly `ExpandNeighborConfig` |
| BgpNeighbor.NeighborConfigObject | internal/provider/resource_bgp_neighbor.go:174-176 | the config Create sends has the ip as ID and local_as as declared (0 when unset); its toggles are present exactly when declared true; soft_reconfiguration is copied when set; the prefix-lists are empty when none are declared |
| BgpNeighbor.FlattenNeighbor | internal/provider/resource_bgp_neighbor.go:284-310 | the corrected flatten (Findings row 2): toggles are always written as marker presence, remote_as always, and timers always, under the schema's keys; description, ebgp_multihop and local_as only when present |
| BgpNeighbor.ResourceSetBgpNeighbor | internal/provider/resource_bgp_neighbor.go:284-310 | the method computes exactly the corrected `FlattenNeighbor` (Findings row 2) |
| BgpNeighbor.IntOrZero | internal/provider/resource_bgp_neighbor.go:294-299 | `d.Set` of a `*int` writes the value, or the zero value for a nil pointer |
| BgpNeighbor.FlattenNeighborConfig | internal/provider/resource_bgp_neighbor.go:312-328 | the two toggles and prefix_list always; soft_reconfiguration only when present |
| BgpNeighbor.ResourceSetBgpNeighborConfig | internal/provider/resource_bgp_neighbor.go:312-328 | the method computes exactly `FlattenNeighborConfig` |
| BgpNeighbor.Read | internal/provider/resource_bgp_neighbor.go:190-226 | over the corrected flatten (Findings row 2): a failed neighbor read changes nothing; a failed config read returns an error with the neighbor already written and the ID untouched; otherwise both are written and the ID is the ip |
| BgpNeighbor.Create | internal/provider/resource_bgp_neighbor.go:156-188 | over the corrected expansion (Findings rows 1, 3 and 4), which never panics: the neighbor is written first; when it is refused nothing changes; when the config is refused the neighbor stays written and record and ID are untouched; otherwise both are stored, the ID is the ip and both are read back |
| BgpNeighbor.Update | internal/provider/resource_bgp_neighbor.go:228-261 | over the corrected expansion (Findings rows 1, 3 and 4): the same as Create, through the create calls the source reuses |
| BgpNeighbor.Delete | internal/provider/resource_bgp_neighbor.go:263-282 | only the neighbor is deleted; the ID is cleared only when that succeeds |
| BgpNeighbor.NeighborTimersRoundTrip | internal/provider/resource_bgp_neighbor.go:330-342 | timers read back under GetOk as declared (a schema that allows at most one block) |
| BgpNeighbor.NeighborScalarsRoundTrip | internal/provider/resource_bgp_neighbor.go:284-310 | description and remote_as read back under GetOk as declared |
| BgpNeighbor.NeighborContainersRoundTrip | internal/provider/resource_bgp_neighbor.go:295-300 | ebgp_multihop and local_as read back under GetOk as declared |
| BgpNeighbor.NeighborTogglesRoundTrip | internal/provider/resource_bgp_neighbor.go:289-293 | disable_connected_check and shutdown read back under GetOk as declared |
| BgpNeighbor.NeighborRoundTrip | internal/provider/resource_bgp_neighbor.go:284-408 | no drift: every neighbor attribute reads back under GetOk as declared |
| BgpNeighbor.NeighborKeysByKey | internal/provider/resource_bgp_neighbor.go:284-310 | agreement on each neighbor attribute is agreement on all of them |
| BgpNeighbor.NeighborConfigRoundTrip | internal/provider/resource_bgp_neighbor.go:312-440 | no drift: every config attribute reads back under GetOk as declared |
| BgpNeighbor.KeySetsDisjoint | internal/provider/resource_bgp_neighbor.go:284-328 | the two reads write disjoint attributes and neither writes `as` or `ip` |
| BgpNeighbor.WriteFrame | internal/provider/resource_bgp_neighbor.go:284-328 | a write confined to some attributes leaves every other attribute as it was |
| BgpNeighbor.ReadAfterCreate | internal/provider/resource_bgp_neighbor.go:156-226 | after the two writes and the two-step read, every mapped attribute reads back as declared and the (as, ip) key is unchanged |
| BgpNeighbor.ReadsAcrossTwoWrites | internal/provider/resource_bgp_neighbor.go:190-226 | the second read keeps what the first wrote and both keep the (as, ip) path, so GetOk after both reads answers as declared on everything either read writes |
| DataSourceVlan.JoinedPrimary | internal/provider/data_source_vlan.go:85-97 | an `ip` text exists exactly when both the address and the mask are non-empty |
| DataSourceVlan.FlattenPrimaryIP | internal/provider/data_source_vlan.go:85-97 | `ip` is overwritten with the join when it exists and left alone otherwise; nothing else changes |
| DataSourceVlan.DataSetL3VlanPrimaryIP | internal/provider/data_source_vlan.go:85-97 | the method computes exactly `FlattenPrimaryIP` |
| DataSourceVlan.FlattenL3Vlan | internal/provider/data_source_vlan.go:71-83 | description, name (decimal), vlanid and shutdown are always written, then ip when complete |
| DataSourceVlan.DataSetL3Vlan | internal/provider/data_source_vlan.go:71-83 | the method computes exactly `FlattenL3Vlan` |
| DataSourceVlan.Read | internal/provider/data_source_vlan.go:51-69 | an error with nothing changed on a failed read; otherwise flattened with the ID the decimal requested vlanid |
| DataSourceVlan.L3VlanIdRoundTrip | internal/provider/data_source_vlan.go:53-78 | when the device answers for the requested VLAN, vlanid reads back as declared and name equals the ID and parses back to it |
| DataSourceVlan.JoinedPrimarySplits | internal/provider/data_source_vlan.go:95 | the `ip` text splits back at its slash into the address and the mask |
| DataSourceVlan.FlattenL3VlanIdempotent | internal/provider/data_source_vlan.go:71-97 | reading the same answer twice leaves the record as one read did |
| DataSourceVlan.DataSourceShowsDottedMask | internal/provider/data_source_vlan.go:95 | for every prefix length, the text shown differs from the `address/n` the interface VLAN resource reads back |

## Left out

- `internal/provider/provider.go`: the provider schema, environment defaults and client construction. This is configuration around the foreign SDK.
- The `*_test.go` files: they need a live device and exercise the resources end to end rather than the mapping.
- `internal/provider/data_source_svi.go`: it is entirely commented out.
- `internal/provider/resource_vlan.go` declares `resourceVlan` and its callbacks a second time, beside `resource_interface_vlan.go:15`, so the package cannot build with both files. It describes itself as an L2 VLAN over `models.VlanList`, which is what `resource_l2_vlan.go` now covers. The interface VLAN of `resource_interface_vlan.go` is the one that fits the `iosxe_interface_vlan` name under which `provider.go:60` registers `resourceVlan()`, so it is the version modelled.
- `internal/provider/resource_bgp_neighbor_config.go` redeclares `resourceSetBgpNeighborConfig` and `getCreateUpdateBgpNeighborConfigObject`, which `resource_bgp_neighbor.go` also defines and uses. Its own resource is not registered.
- The `meta` type assertion. `configure` returns an `*apiClient` (`provider.go:99-103`), so only the callbacks that assert `meta.(*apiClient).Client` reach their second line. Those are the interface VLAN, L2 VLAN, VRF, port-channel and port-channel subinterface callbacks. Every callback that asserts `meta.(*client.Client)` panics on its first line:
  - `resource_bgp_router.go:40,60,80,100`;
  - `resource_bgp_neighbor.go:157,191,229,264`;
  - `resource_svi.go:75,95,115,135`;
  - `resource_bgp_neighbor_prefix_list.go:53,79,105,131`;
  - `data_source_vlan.go:52`.

  The model passes the store in directly. `BgpRouter.Read`, `BgpRouter.Create`, `BgpRouter.Update`, `BgpRouter.Delete`, `BgpNeighbor.Read`, `BgpNeighbor.Create`, `BgpNeighbor.Update`, `BgpNeighbor.Delete`, the `Svi` and `BgpNeighborPrefixList` callbacks and `DataSourceVlan.Read` therefore model each callback from its second line on, as it would run with a `*client.Client` meta; the BGP neighbor callbacks do so only over the corrected program, as the line below says. They do not capture the panic of the first line, which the registered `iosxe_bgp_router` and `iosxe_bgp_neighbor` resources hit on every call.
- The SDK's constants `models.VlanName` and `models.SVIName` are not visible. The model fixes them to `"Vlan"`; no property depends on their text.
- The SDK's `SetNetmask`/`SetCIDR` are not visible either. They are modelled as the RFC 4632 contiguous prefix-mask relation, for IPv4 only.
- `strconv.Atoi`'s range limit (an out-of-range error) is not modelled: integers are unbounded.
- The text of `diag.Errorf` messages: only the step and the object named are modelled. The VRF callbacks name the object "Vlan", as the source does.
- Terraform SDK internals: ForceNew, diff planning, state upgrade, and how `d.Set` converts values. A nil `*int` passed to `d.Set` is modelled as setting 0.
- `d.Set` errors: a value of a type other than the schema's is silently refused by `d.Set`. The data source's `shutdown` is modelled as the string its schema declares, because the SDK's field type is not visible.
- Panics are modelled as results without the partial writes that preceded them.
- Concurrency, contexts and cancellation; logging (`log.Printf`).
- 404 handling: the source leaves it as a todo, so a missing object is an ordinary read error.
- The SVI's remote name arrives from JSON as a float64 and is truncated. VLAN ids are small integers, so the model keeps an `int` throughout.
- The SVI and neighbor prefix-list resources are not registered with the provider. Neither is the VLAN data source: `DataSourcesMap` is empty (`provider.go:54-56`). All three are modelled anyway, as files of the core.
- The no-drift lemmas for `ip` and `secondary_ip` (`Netmask.CidrRoundTrip` and the round trips built on it) cover CIDR text whose prefix is written canonically, as `IsCidr` states. The `IsCIDR` validator also accepts a prefix written with leading zeros, such as `10.1.1.1/024`. `SetNetmask` followed by `SetCidr` reads that back as `10.1.1.1/24`, which is a drift the model does not rule out.
- `Svi.ExpandSvi` assumes that `models.L3Interface` holds `IP.Address.Primary` by value. The SDK's type definitions are not part of this model. `resource_svi.go:190-191` writes through that path without allocating, so if any container on it is a pointer, the write panics, like the two BGP neighbor findings below.
- `BgpNeighbor.NeighborObject`, `BgpNeighbor.FlattenNeighbor`, `BgpNeighbor.ResourceSetBgpNeighbor`, `BgpNeighbor.Read`, `BgpNeighbor.Create` and `BgpNeighbor.Update` model the corrected program of Findings rows 1–4, not the source as written. From its second line on, the source's create and update panic whenever `ebgp_multihop`, `local_as` or a `timers` block is declared (`resource_bgp_neighbor.go:378`, `:383`, `:474`), and its read hands `d.Set` the hyphenated timers block of `:335-337`. That as-written behaviour is captured only by `BgpNeighbor.ExpandNeighborAsWritten`, `BgpNeighbor.ExpandTimersAsWritten` and `BgpNeighbor.FlattenTimersAsWritten`, with the lemmas of the Findings rows.
- `DataSourceVlan.DataSetL3VlanPrimaryIP` and `DataSourceVlan.FlattenPrimaryIP` assume that the data source's `models.Vlan` holds `IP.Address.Primary` by value, so that the `&resp.IP.Address.Primary.Address != nil` guards of `data_source_vlan.go:88` and `:91` always hold. The SDK's type definitions are not part of this model. In the `models.Interface` the interface VLAN uses, `IP` and `Address` are pointers (`resource_interface_vlan.go:196-197`); if the data source's type is laid out the same way, those guards panic on a VLAN without an address, which the model does not capture.
- `InterfaceVlan.FlattenVlan`: the `[WARN]` log line for a remote name that is not numeric is not modelled. Only the resulting vlanid of 0 is.

## Findings

| source | as written | input that shows it | evidently intended | confidence | as-written member | corrected member |
|---|---|---|---|---|---|---|
| internal/provider/resource_bgp_neighbor.go:474 | the timers expansion reads `m["minimum-neighbor-hold"].(int)`, but the schema key is `minimum_neighbor_hold`, so the lookup yields nil and the type assertion panics | any `timers` block, e.g. `{keepalive_interval: 10, holdtime: 30, minimum_neighbor_hold: 3}` | read `minimum_neighbor_hold` | high (not executed) | BgpNeighbor.TimersAsWrittenPanics | BgpNeighbor.TimersRoundTrip |
| internal/provider/resource_bgp_neighbor.go:335-337 | the timers flatten writes the keys `keepalive-interval` and `minimum-neighbor-hold`, which the schema does not define, so the block written back is not a valid timers block | any remote Timers value | write the schema's underscore keys | high (not executed) | BgpNeighbor.FlattenedTimersOutsideSchema | BgpNeighbor.TimersRoundTrip |
| internal/provider/resource_bgp_neighbor.go:378 | `m.Neighbor.EbgpMultihop.MaxHop = &i` writes through the `EbgpMultihop` pointer of a fresh neighbor, which is nil | `ebgp_multihop = 2` | allocate the container before setting MaxHop | high (not executed) | BgpNeighbor.NeighborAsWrittenPanics | BgpNeighbor.NeighborContainersRoundTrip |
| internal/provider/resource_bgp_neighbor.go:383 | `m.Neighbor.LocalAs.AsNo = &i` writes through the nil `LocalAs` pointer the same way | `local_as = 65001` | allocate the container before setting AsNo | high (not executed) | BgpNeighbor.NeighborAsWrittenPanics | BgpNeighbor.NeighborContainersRoundTrip |
