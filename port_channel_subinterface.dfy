/**
 * The `iosxe_interface_port_channel_subinterface` resource: a port-channel subinterface
 * named by its declared `name`, carrying its VLAN as a dot1q encapsulation. Its read
 * dereferences the IP container and the encapsulation without nil checks.
 */
module PortChannelSubinterface {
  import opened Common
  import opened Schema
  import opened Netmask
  import opened Interfaces
  import opened RemoteStore

  /** The attributes a read of this resource writes (`description` and `vrf` only when present). */
  const ReadKeys: set<string> := {"description", "ip", "name", "secondary_ip", "shutdown", "vlanid", "vrf"}

  /** A declared record the schema accepts: required `ip`, `name` and `vlanid` in 1..4096. */
  predicate WellFormedSubinterface(rec: Record) {
    && InterfaceAttrs(rec)
    && GetOk(rec, "ip").Some?
    && "name" in rec && rec["name"].Str? && rec["name"].s != ""
    && "vlanid" in rec && rec["vlanid"].Int? && 1 <= rec["vlanid"].i <= 4096
  }

  /** Schema typing the expansion relies on: the shared attributes and an integer `vlanid`. */
  predicate SubinterfaceAttrs(rec: Record) {
    InterfaceAttrs(rec) && IntAttr(rec, "vlanid")
  }

  /**
   * `getCreateUpdatePortChannelSubinterfaceObject`: the shared interface expansion, plus
   * the dot1q encapsulation carrying `vlanid` when it is set.
   */
  function ExpandSubinterface(rec: Record, m: Interface): (r: Interface)
    requires SubinterfaceAttrs(rec)
    ensures r.name == m.name
    ensures OkInt(rec, "vlanid").Some? ==> r.encapsulation == Some(Encapsulation(Some(Dot1Q(OkInt(rec, "vlanid")))))
    ensures OkInt(rec, "vlanid").None? ==> r.encapsulation == m.encapsulation
  {
    var base := ExpandInterface(rec, m);
    match OkInt(rec, "vlanid")
    case Some(i) => base.(encapsulation := Some(Encapsulation(Some(Dot1Q(Some(i))))))
    case None => base
  }

  method GetCreateUpdateSubinterfaceObject(d: ResourceData, m: Interface) returns (r: Interface)
    requires SubinterfaceAttrs(d.attrs)
    ensures r == ExpandSubinterface(d.attrs, m)
  {
    r := GetCreateUpdateInterfaceObject(d, m);
    var vlanid := OkInt(d.attrs, "vlanid");
    if vlanid.Some? {
      var i2 := vlanid.value;
      r := r.(encapsulation := Some(Encapsulation(Some(Dot1Q(Some(i2))))));
    }
  }

  /** The object Create and Update send: the expansion over an interface named `name`. */
  function SubinterfaceObject(rec: Record): (m: Interface)
    requires SubinterfaceAttrs(rec)
    ensures m.name == GetString(rec, "name")
    ensures ReadableSubinterface(m) <==> OkString(rec, "ip").Some? && OkInt(rec, "vlanid").Some?
  {
    ExpandSubinterface(rec, NewInterface(GetString(rec, "name")))
  }

  /** `resourceSetPortChannelSubinterface` dereferences `IP.Address.Primary` and `Encapsulation.Dot1Q`. */
  predicate ReadableSubinterface(resp: Interface) {
    && resp.ip.Some? && resp.ip.value.address.Some? && resp.ip.value.address.value.primary.Some?
    && resp.encapsulation.Some? && resp.encapsulation.value.dot1q.Some?
  }

  /** `d.Set("vlanid", resp.Encapsulation.Dot1Q.VlanID)`: a nil pointer sets the zero value. */
  function VlanIdValue(q: Dot1Q): (r: int)
    ensures q.vlanId.Some? ==> r == q.vlanId.value
    ensures q.vlanId.None? ==> IsZero(Int(r))
  {
    if q.vlanId.Some? then q.vlanId.value else 0
  }

  /**
   * The record after `resourceSetPortChannelSubinterface`: description and vrf only
   * when the remote value is present, everything else overwritten from the remote
   * interface, vlanid from the dot1q encapsulation.
   */
  function FlattenSubinterface(rec: Record, resp: Interface): (r: Record)
    requires ReadableSubinterface(resp)
    ensures KeepsOutside(rec, r, ReadKeys)
    ensures resp.description.None? ==> ("description" in r <==> "description" in rec) && ("description" in rec ==> r["description"] == rec["description"])
    ensures resp.vrf.None? ==> ("vrf" in r <==> "vrf" in rec) && ("vrf" in rec ==> r["vrf"] == rec["vrf"])
    ensures resp.description.Some? ==> "description" in r && r["description"] == Str(resp.description.value)
    ensures resp.vrf.Some? ==> "vrf" in r && r["vrf"] == Str(ForwardingText(resp.vrf.value))
    ensures "ip" in r && r["ip"] == Str(SetCidr(resp.ip.value.address.value.primary.value).cidr)
    ensures "secondary_ip" in r && r["secondary_ip"] == List(SecondaryIPBlocks(resp.ip.value.address.value.secondary))
    ensures "name" in r && r["name"] == Str(resp.name)
    ensures "vlanid" in r && r["vlanid"] == Int(VlanIdValue(resp.encapsulation.value.dot1q.value))
    ensures "shutdown" in r && r["shutdown"] == Bool(resp.shutdown.Some?)
  {
    var address := resp.ip.value.address.value;
    var r1 := if resp.description.Some? then rec["description" := Str(resp.description.value)] else rec;
    var r2 := r1["ip" := Str(SetCidr(address.primary.value).cidr)]
                ["name" := Str(resp.name)]
                ["secondary_ip" := List(SecondaryIPBlocks(address.secondary))]
                ["shutdown" := Presence(resp.shutdown)]
                ["vlanid" := Int(VlanIdValue(resp.encapsulation.value.dot1q.value))];
    if resp.vrf.Some? then r2["vrf" := Str(ForwardingText(resp.vrf.value))] else r2
  }

  /** `resourceSetPortChannelSubinterface`, one `d.Set` after another. */
  method ResourceSetSubinterface(d: ResourceData, resp: Interface)
    requires ReadableSubinterface(resp)
    modifies d
    ensures d.attrs == FlattenSubinterface(old(d.attrs), resp) && d.id == old(d.id)
  {
    if resp.description.Some? {
      d.Set("description", Str(resp.description.value));
    }
    var primary := SetCidr(resp.ip.value.address.value.primary.value);
    d.Set("ip", Str(primary.cidr));
    d.Set("name", Str(resp.name));
    var secondary := FlattenSecondaryIPs(resp.ip.value.address.value.secondary);
    d.Set("secondary_ip", List(secondary));
    if resp.shutdown.Some? {
      d.Set("shutdown", Bool(true));
    } else {
      d.Set("shutdown", Bool(false));
    }
    d.Set("vlanid", Int(VlanIdValue(resp.encapsulation.value.dot1q.value)));
    if resp.vrf.Some? {
      d.Set("vrf", Str(ForwardingText(resp.vrf.value)));
    }
  }

  /** `resourcePortChannelSubinterfaceRead`. */
  method Read(d: ResourceData, store: Store<string, Interface>) returns (diags: Diagnostics)
    modifies d
    ensures var key := GetString(old(d.attrs), "name");
      if !store.Serves(key) then
        diags == Errorf(Retrieving, "PortChannelSubinterface") && d.attrs == old(d.attrs) && d.id == old(d.id)
      else if !ReadableSubinterface(store.objects[key]) then
        diags.Panic? && d.attrs == old(d.attrs) && d.id == old(d.id)
      else
        diags == NoError && d.attrs == FlattenSubinterface(old(d.attrs), store.objects[key]) && d.id == key
  {
    var id := GetString(d.attrs, "name");
    var resp := store.Read(id);
    if resp.None? {
      return Errorf(Retrieving, "PortChannelSubinterface");
    }
    if !ReadableSubinterface(resp.value) {
      return Panic("nil pointer dereference");
    }
    ResourceSetSubinterface(d, resp.value);
    d.SetId(id);
    diags := NoError;
  }

  /** `resourcePortChannelSubinterfaceCreate`: expand, create, then set the ID and read back. */
  method Create(d: ResourceData, store: Store<string, Interface>) returns (diags: Diagnostics)
    requires SubinterfaceAttrs(d.attrs)
    modifies d, store
    ensures store.refused == old(store.refused)
    ensures var key := GetString(old(d.attrs), "name");
      if key in old(store.refused) then
        && diags == Errorf(Creating, "PortChannelSubinterface")
        && store.objects == old(store.objects) && d.attrs == old(d.attrs) && d.id == old(d.id)
      else
        && store.objects == old(store.objects)[key := SubinterfaceObject(old(d.attrs))]
        && d.id == key
        && (ReadableSubinterface(SubinterfaceObject(old(d.attrs))) ==>
              diags == NoError && d.attrs == FlattenSubinterface(old(d.attrs), SubinterfaceObject(old(d.attrs))))
        && (!ReadableSubinterface(SubinterfaceObject(old(d.attrs))) ==> diags.Panic? && d.attrs == old(d.attrs))
  {
    var id := GetString(d.attrs, "name");
    var params := NewInterface(id);
    params := GetCreateUpdateSubinterfaceObject(d, params);
    var ok := store.Create(id, params);
    if !ok {
      return Errorf(Creating, "PortChannelSubinterface");
    }
    d.SetId(id);
    diags := Read(d, store);
  }

  /** `resourcePortChannelSubinterfaceUpdate`: the same as Create, through the update call. */
  method Update(d: ResourceData, store: Store<string, Interface>) returns (diags: Diagnostics)
    requires SubinterfaceAttrs(d.attrs)
    modifies d, store
    ensures store.refused == old(store.refused)
    ensures var key := GetString(old(d.attrs), "name");
      if key in old(store.refused) then
        && diags == Errorf(Updating, "PortChannelSubinterface")
        && store.objects == old(store.objects) && d.attrs == old(d.attrs) && d.id == old(d.id)
      else
        && store.objects == old(store.objects)[key := SubinterfaceObject(old(d.attrs))]
        && d.id == key
        && (ReadableSubinterface(SubinterfaceObject(old(d.attrs))) ==>
              diags == NoError && d.attrs == FlattenSubinterface(old(d.attrs), SubinterfaceObject(old(d.attrs))))
        && (!ReadableSubinterface(SubinterfaceObject(old(d.attrs))) ==> diags.Panic? && d.attrs == old(d.attrs))
  {
    var id := GetString(d.attrs, "name");
    var params := NewInterface(id);
    params := GetCreateUpdateSubinterfaceObject(d, params);
    var ok := store.Update(id, params);
    if !ok {
      return Errorf(Updating, "PortChannelSubinterface");
    }
    d.SetId(id);
    diags := Read(d, store);
  }

  /** `resourcePortChannelSubinterfaceDelete`: the ID is cleared only when the delete succeeds. */
  method Delete(d: ResourceData, store: Store<string, Interface>) returns (diags: Diagnostics)
    modifies d, store
    ensures store.refused == old(store.refused)
    ensures d.attrs == old(d.attrs)
    ensures var key := GetString(old(d.attrs), "name");
      if old(store.Serves(key)) then
        diags == NoError && store.objects == old(store.objects) - {key} && d.id == ""
      else
        diags == Errorf(Deleting, "PortChannelSubinterface") && store.objects == old(store.objects) && d.id == old(d.id)
  {
    var id := GetString(d.attrs, "name");
    var ok := store.Delete(id);
    if !ok {
      return Errorf(Deleting, "PortChannelSubinterface");
    }
    d.SetId("");
    diags := NoError;
  }

  /**
   * No drift: what Create sends for a record the schema accepts can be read back, and
   * reads back, under GetOk, as every declared attribute the resource maps.
   */
  lemma SubinterfaceRoundTrip(rec: Record)
    requires WellFormedSubinterface(rec)
    ensures ReadableSubinterface(SubinterfaceObject(rec))
    ensures var back := FlattenSubinterface(rec, SubinterfaceObject(rec));
      && GetOk(back, "description") == GetOk(rec, "description")
      && GetOk(back, "ip") == GetOk(rec, "ip")
      && GetOk(back, "secondary_ip") == GetOk(rec, "secondary_ip")
      && GetOk(back, "shutdown") == GetOk(rec, "shutdown")
      && back["vlanid"] == rec["vlanid"]
      && back["name"] == rec["name"]
      && GetOk(back, "vrf") == GetOk(rec, "vrf")
  {
    SubinterfaceAddressRoundTrip(rec);
    SubinterfaceSettingsRoundTrip(rec);
    SubinterfaceIdRoundTrip(rec);
    SubinterfaceShutdownRoundTrip(rec);
  }

  /** The primary CIDR survives the netmask conversion and back; the secondary list keeps its order. */
  lemma SubinterfaceAddressRoundTrip(rec: Record)
    requires WellFormedSubinterface(rec)
    ensures ReadableSubinterface(SubinterfaceObject(rec))
    ensures var back := FlattenSubinterface(rec, SubinterfaceObject(rec));
      && GetOk(back, "ip") == GetOk(rec, "ip")
      && GetOk(back, "secondary_ip") == GetOk(rec, "secondary_ip")
  {
    var m := SubinterfaceObject(rec);
    var back := FlattenSubinterface(rec, m);
    CidrRoundTrip(IPAddress(rec["ip"].s, "", ""));
    assert back["ip"] == rec["ip"];
    SecondaryAttrRoundTrip(rec, CiscoEnabled);
    ReadsBackGetOk(back["secondary_ip"], rec, "secondary_ip", back);
  }

  /** Description and vrf are sent only when set and overwrite the record only when the device reports them. */
  lemma SubinterfaceSettingsRoundTrip(rec: Record)
    requires WellFormedSubinterface(rec)
    ensures ReadableSubinterface(SubinterfaceObject(rec))
    ensures var back := FlattenSubinterface(rec, SubinterfaceObject(rec));
      && GetOk(back, "description") == GetOk(rec, "description")
      && GetOk(back, "vrf") == GetOk(rec, "vrf")
  {
  }

  /** The name and the dot1q vlanid come back unchanged. */
  lemma SubinterfaceIdRoundTrip(rec: Record)
    requires WellFormedSubinterface(rec)
    ensures ReadableSubinterface(SubinterfaceObject(rec))
    ensures var back := FlattenSubinterface(rec, SubinterfaceObject(rec));
      && back["vlanid"] == rec["vlanid"]
      && back["name"] == rec["name"]
  {
    assert OkInt(rec, "vlanid") == Some(rec["vlanid"].i);
  }

  /** `shutdown = true` is sent as a marker and reads back true; anything else reads back false. */
  lemma SubinterfaceShutdownRoundTrip(rec: Record)
    requires WellFormedSubinterface(rec)
    ensures ReadableSubinterface(SubinterfaceObject(rec))
    ensures GetOk(FlattenSubinterface(rec, SubinterfaceObject(rec)), "shutdown") == GetOk(rec, "shutdown")
  {
    var m := SubinterfaceObject(rec);
    var back := FlattenSubinterface(rec, m);
    PresenceRoundTrip(rec, "shutdown", m.shutdown);
    ReadsBackGetOk(back["shutdown"], rec, "shutdown", back);
  }
}
