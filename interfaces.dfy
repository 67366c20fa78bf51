/**
 * `models.Interface`, the remote shape shared by the interface VLAN, port-channel and
 * port-channel subinterface resources, and the mapping pieces they share: the
 * secondary-IP block list and the expansion of the common interface attributes
 * (`getCreateUpdateVlanObject` and `getCreateUpdatePortChannelObject` are the same code
 * over two wrapper structs).
 */
module Interfaces {
  import opened Common
  import opened Schema
  import opened Netmask

  datatype SecondaryIPAddress = SecondaryIPAddress(ip: IPAddress, secondary: Option<Marker>)
  datatype Address = Address(primary: Option<IPAddress>, secondary: Option<seq<SecondaryIPAddress>>)
  datatype InterfaceIP = InterfaceIP(address: Option<Address>)
  datatype InterfaceVrf = InterfaceVrf(forwarding: Option<string>)
  datatype Dot1Q = Dot1Q(vlanId: Option<int>)
  datatype Encapsulation = Encapsulation(dot1q: Option<Dot1Q>)

  datatype Interface = Interface(
    name: string,
    description: Option<string>,
    ip: Option<InterfaceIP>,
    shutdown: Option<Marker>,
    vrf: Option<InterfaceVrf>,
    encapsulation: Option<Encapsulation>)

  /** A zero-valued interface whose only field set is its name (`params.X.Name = id`). */
  function NewInterface(name: string): Interface {
    Interface(name, None, None, None, None, None)
  }

  /** A `secondary_ip` block as the schema delivers it: one string attribute `ip`. */
  predicate SecondaryBlock(b: Block) {
    b.Keys == {"ip"} && b["ip"].Str?
  }

  predicate SecondaryBlocks(items: seq<Block>) {
    forall i :: 0 <= i < |items| ==> SecondaryBlock(items[i])
  }

  /** Blocks whose `ip` passed the `IsCIDR` validator. */
  predicate ValidSecondaryBlocks(items: seq<Block>) {
    SecondaryBlocks(items) && forall i :: 0 <= i < |items| ==> IsCidr(items[i]["ip"].s)
  }

  /** One expanded entry: the CIDR copied, address and mask filled in, the marker set. */
  function SecondaryIP(b: Block, marker: Marker): SecondaryIPAddress
    requires SecondaryBlock(b)
  {
    SecondaryIPAddress(SetNetmask(IPAddress(b["ip"].s, "", "")), Some(marker))
  }

  /** The expansion of a `secondary_ip` list: nil when empty, else one entry per block, in order. */
  function SecondaryIPs(items: seq<Block>, marker: Marker): (r: Option<seq<SecondaryIPAddress>>)
    requires SecondaryBlocks(items)
    ensures r.None? <==> |items| == 0
    ensures r.Some? ==> |r.value| == |items|
    ensures r.Some? ==> forall i :: 0 <= i < |items| ==>
      r.value[i].ip.cidr == items[i]["ip"].s && r.value[i].secondary == Some(marker)
  {
    if |items| == 0 then None
    else Some(seq(|items|, i requires 0 <= i < |items| => SecondaryIP(items[i], marker)))
  }

  /** `expand*SecondaryIPs`: the loop that appends one entry per block. */
  method ExpandSecondaryIPs(items: seq<Block>, marker: Marker) returns (r: Option<seq<SecondaryIPAddress>>)
    requires SecondaryBlocks(items)
    ensures r == SecondaryIPs(items, marker)
  {
    if |items| == 0 {
      return None;
    }
    var acc: seq<SecondaryIPAddress> := [];
    var i := 0;
    while i < |items|
      invariant 0 <= i <= |items|
      invariant |acc| == i
      invariant forall j :: 0 <= j < i ==> acc[j] == SecondaryIP(items[j], marker)
    {
      var temp := SecondaryIPAddress(IPAddress(items[i]["ip"].s, "", ""), None);
      temp := temp.(ip := SetNetmask(temp.ip));
      temp := temp.(secondary := Some(marker));
      assert temp == SecondaryIP(items[i], marker);
      acc := acc + [temp];
      i := i + 1;
    }
    assert acc == seq(|items|, i requires 0 <= i < |items| => SecondaryIP(items[i], marker));
    r := Some(acc);
  }

  /** One flattened block: the CIDR rebuilt from the device's address and mask. */
  function SecondaryIPBlock(v: SecondaryIPAddress): Block {
    map["ip" := Str(SetCidr(v.ip).cidr)]
  }

  /** The flattening of the remote list: empty for nil, else one block per entry, in order. */
  function SecondaryIPBlocks(input: Option<seq<SecondaryIPAddress>>): (r: seq<Block>)
    ensures input.None? ==> r == []
    ensures input.Some? ==> |r| == |input.value|
  {
    match input
    case None => []
    case Some(vs) => seq(|vs|, i requires 0 <= i < |vs| => SecondaryIPBlock(vs[i]))
  }

  /** `flatten*SecondaryIPs`: the loop that appends one block per remote entry. */
  method FlattenSecondaryIPs(input: Option<seq<SecondaryIPAddress>>) returns (results: seq<Block>)
    ensures results == SecondaryIPBlocks(input)
  {
    results := [];
    if input.None? {
      return;
    }
    var vs := input.value;
    var i := 0;
    while i < |vs|
      invariant 0 <= i <= |vs|
      invariant |results| == i
      invariant forall j :: 0 <= j < i ==> results[j] == SecondaryIPBlock(vs[j])
    {
      var v := vs[i];
      v := v.(ip := SetCidr(v.ip));
      results := results + [map["ip" := Str(v.ip.cidr)]];
      i := i + 1;
    }
  }

  /** A non-empty `secondary_ip` list reads back exactly as declared, in the same order. */
  lemma SecondaryIPsRoundTrip(items: seq<Block>, marker: Marker)
    requires ValidSecondaryBlocks(items) && |items| > 0
    ensures SecondaryIPBlocks(SecondaryIPs(items, marker)) == items
  {
    var back := SecondaryIPBlocks(SecondaryIPs(items, marker));
    forall i | 0 <= i < |items|
      ensures back[i] == items[i]
    {
      CidrRoundTrip(IPAddress(items[i]["ip"].s, "", ""));
      assert back[i] == map["ip" := items[i]["ip"]];
      assert back[i].Keys == items[i].Keys;
    }
  }

  /**
   * `v` is what a read writes for `key`, and GetOk on it answers as it did on the
   * declared record: same value when set, a zero value when not.
   */
  predicate ReadsBackAs(v: Value, rec: Record, key: string) {
    if GetOk(rec, key).Some? then v == rec[key] else IsZero(v)
  }

  lemma ReadsBackGetOk(v: Value, rec: Record, key: string, back: Record)
    requires ReadsBackAs(v, rec, key) && key in back && back[key] == v
    ensures GetOk(back, key) == GetOk(rec, key)
  {
  }

  /** The expanded secondary list of a record, as `getCreateUpdate*Object` stores it. */
  function SecondaryAttr(rec: Record, marker: Marker): Option<seq<SecondaryIPAddress>>
    requires ListAttr(rec, "secondary_ip") && SecondaryBlocks(GetList(rec, "secondary_ip"))
  {
    if GetOk(rec, "secondary_ip").Some? then SecondaryIPs(GetList(rec, "secondary_ip"), marker) else None
  }

  /** The `secondary_ip` attribute survives expand then flatten, under GetOk. */
  lemma SecondaryAttrRoundTrip(rec: Record, marker: Marker)
    requires ListAttr(rec, "secondary_ip") && ValidSecondaryBlocks(GetList(rec, "secondary_ip"))
    ensures ReadsBackAs(List(SecondaryIPBlocks(SecondaryAttr(rec, marker))), rec, "secondary_ip")
  {
    if GetOk(rec, "secondary_ip").Some? {
      SecondaryIPsRoundTrip(GetList(rec, "secondary_ip"), marker);
    }
  }

  /** A CIDR-valued attribute: a string, and a valid CIDR whenever it is set. */
  predicate CidrAttr(rec: Record, key: string) {
    StrAttr(rec, key) && (GetOk(rec, key).Some? ==> IsCidr(rec[key].s))
  }

  /** Schema typing of the attributes every interface resource shares. */
  predicate InterfaceAttrs(rec: Record) {
    && StrAttr(rec, "description")
    && CidrAttr(rec, "ip")
    && ListAttr(rec, "secondary_ip")
    && ValidSecondaryBlocks(GetList(rec, "secondary_ip"))
    && BoolAttr(rec, "shutdown")
    && StrAttr(rec, "vrf")
  }

  /** The primary address: present only when `ip` is set, with address and mask filled in. */
  function PrimaryAttr(rec: Record): (r: Option<IPAddress>)
    ensures r.Some? <==> OkString(rec, "ip").Some?
    ensures r.Some? ==> r.value.cidr == OkString(rec, "ip").value
  {
    match OkString(rec, "ip")
    case Some(s) => Some(SetNetmask(IPAddress(s, "", "")))
    case None => None
  }

  /**
   * The expansion shared by the interface VLAN and the port-channel: optional
   * description and vrf copied only when set, a freshly allocated IP/Address container
   * holding the primary (when `ip` is set) and the secondary list, and the shutdown
   * marker only for `shutdown = true`.
   */
  function ExpandInterface(rec: Record, m: Interface): (r: Interface)
    requires InterfaceAttrs(rec)
    ensures r.name == m.name && r.encapsulation == m.encapsulation
    ensures r.ip.Some? && r.ip.value.address.Some?
    ensures r.ip.value.address.value.primary.Some? <==> OkString(rec, "ip").Some?
    ensures r.shutdown == if OkTrue(rec, "shutdown") then Some(CiscoEnabled) else m.shutdown
    ensures r.description == OkString(rec, "description").Or(m.description)
    ensures OkString(rec, "vrf").Some? ==> r.vrf == Some(InterfaceVrf(OkString(rec, "vrf")))
    ensures OkString(rec, "vrf").None? ==> r.vrf == m.vrf
  {
    var address := Address(PrimaryAttr(rec), SecondaryAttr(rec, CiscoEnabled));
    m.(description := OkString(rec, "description").Or(m.description),
       ip := Some(InterfaceIP(Some(address))),
       shutdown := if OkTrue(rec, "shutdown") then Some(CiscoEnabled) else m.shutdown,
       vrf := if OkString(rec, "vrf").Some? then Some(InterfaceVrf(OkString(rec, "vrf"))) else m.vrf)
  }

  /**
   * `getCreateUpdateVlanObject` / `getCreateUpdatePortChannelObject`: the same field
   * by field updates of the passed interface.
   */
  method GetCreateUpdateInterfaceObject(d: ResourceData, m: Interface) returns (r: Interface)
    requires InterfaceAttrs(d.attrs)
    ensures r == ExpandInterface(d.attrs, m)
  {
    r := m;
    var description := OkString(d.attrs, "description");
    if description.Some? {
      r := r.(description := Some(description.value));
    }
    var address := Address(None, None);
    var ip := OkString(d.attrs, "ip");
    if ip.Some? {
      var primary := IPAddress(ip.value, "", "");
      address := address.(primary := Some(SetNetmask(primary)));
    }
    if GetOk(d.attrs, "secondary_ip").Some? {
      var o := ExpandSecondaryIPs(GetList(d.attrs, "secondary_ip"), CiscoEnabled);
      address := address.(secondary := o);
    }
    r := r.(ip := Some(InterfaceIP(Some(address))));
    if OkTrue(d.attrs, "shutdown") {
      r := r.(shutdown := Some(CiscoEnabled));
    }
    var vrf := OkString(d.attrs, "vrf");
    if vrf.Some? {
      r := r.(vrf := Some(InterfaceVrf(Some(vrf.value))));
    }
  }

  /** `d.Set("vrf", resp.Vrf.Forwarding)`: a nil forwarding pointer sets the zero string. */
  function ForwardingText(v: InterfaceVrf): (s: string)
    ensures v.forwarding.Some? ==> s == v.forwarding.value
    ensures v.forwarding.None? ==> IsZero(Str(s))
  {
    if v.forwarding.Some? then v.forwarding.value else ""
  }

  /** What a read writes for a presence-encoded toggle: present is true, absent is false. */
  function Presence<T>(o: Option<T>): (v: Value)
    ensures v == Bool(true) <==> o.Some?
    ensures IsZero(v) <==> o.None?
  {
    Bool(o.Some?)
  }

  /** A toggle declared true is stored as a present field and reads back true; otherwise false. */
  lemma PresenceRoundTrip<T>(rec: Record, key: string, o: Option<T>)
    requires BoolAttr(rec, key)
    requires o.Some? <==> OkTrue(rec, key)
    ensures ReadsBackAs(Presence(o), rec, key)
  {
  }
}
