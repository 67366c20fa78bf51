/**
 * The `iosxe_interface_vlan` resource: a layer-3 VLAN interface whose remote name is
 * the decimal VLAN id. Create and Update expand the declared record into a
 * `models.Interface`, write it and read it back; Read flattens the remote interface
 * into the record; Delete removes it and clears the ID.
 */
module InterfaceVlan {
  import opened Common
  import opened Strconv
  import opened Schema
  import opened Netmask
  import opened Interfaces
  import opened RemoteStore

  /** The SDK's `models.VlanName` prefix of the interface name (its exact text is the SDK's). */
  const VlanName: string := "Vlan"

  /** The attributes a read of this resource writes (besides `description` and `vrf`). */
  const ReadKeys: set<string> := {"description", "ip", "name", "secondary_ip", "shutdown", "vlanid", "vrf"}

  /** A declared record the schema accepts: required `ip` (a CIDR) and `vlanid` in 1..4096. */
  predicate WellFormedVlan(rec: Record) {
    && InterfaceAttrs(rec)
    && GetOk(rec, "ip").Some?
    && "vlanid" in rec && rec["vlanid"].Int? && 1 <= rec["vlanid"].i <= 4096
  }

  /** The remote name and the ID: the decimal vlanid (`strconv.Itoa(d.Get("vlanid").(int))`). */
  function VlanKey(rec: Record): string {
    Itoa(GetInt(rec, "vlanid"))
  }

  /** The object Create and Update send: the expansion over an interface named by the key. */
  function VlanObject(rec: Record): (m: Interface)
    requires InterfaceAttrs(rec)
    ensures m.name == VlanKey(rec)
    ensures ReadableVlan(m) <==> OkString(rec, "ip").Some?
  {
    ExpandInterface(rec, NewInterface(VlanKey(rec)))
  }

  /** `resourceSetVlan` dereferences `IP.Address.Primary` without a nil check. */
  predicate ReadableVlan(resp: Interface) {
    resp.ip.Some? && resp.ip.value.address.Some? && resp.ip.value.address.value.primary.Some?
  }

  /**
   * The record after `resourceSetVlan`: description and vrf only when the remote value
   * is present, the CIDR rebuilt from address and mask, the name prefixed, the toggle as
   * presence, and vlanid parsed back from the remote name (0 when it is not a number).
   */
  function FlattenVlan(rec: Record, resp: Interface): (r: Record)
    requires ReadableVlan(resp)
    ensures KeepsOutside(rec, r, ReadKeys)
    ensures resp.description.None? ==> ("description" in r <==> "description" in rec)
    ensures resp.description.None? && "description" in rec ==> r["description"] == rec["description"]
    ensures resp.vrf.None? ==> ("vrf" in r <==> "vrf" in rec)
    ensures resp.vrf.None? && "vrf" in rec ==> r["vrf"] == rec["vrf"]
    ensures "vlanid" in r && (Atoi(resp.name).Some? ==> r["vlanid"] == Int(Atoi(resp.name).value))
    ensures "vlanid" in r && (Atoi(resp.name).None? ==> r["vlanid"] == Int(0))
    ensures "shutdown" in r && r["shutdown"] == Bool(resp.shutdown.Some?)
  {
    var address := resp.ip.value.address.value;
    var r1 := if resp.description.Some? then rec["description" := Str(resp.description.value)] else rec;
    var r2 := r1["ip" := Str(SetCidr(address.primary.value).cidr)]
                ["name" := Str(VlanName + resp.name)]
                ["secondary_ip" := List(SecondaryIPBlocks(address.secondary))]
                ["shutdown" := Presence(resp.shutdown)]
                ["vlanid" := Int(AtoiOrZero(resp.name))];
    if resp.vrf.Some? then r2["vrf" := Str(ForwardingText(resp.vrf.value))] else r2
  }

  /** `resourceSetVlan`, one `d.Set` after another. */
  method ResourceSetVlan(d: ResourceData, resp: Interface)
    requires ReadableVlan(resp)
    modifies d
    ensures d.attrs == FlattenVlan(old(d.attrs), resp) && d.id == old(d.id)
  {
    if resp.description.Some? {
      d.Set("description", Str(resp.description.value));
    }
    var primary := SetCidr(resp.ip.value.address.value.primary.value);
    d.Set("ip", Str(primary.cidr));
    d.Set("name", Str(VlanName + resp.name));
    var secondary := FlattenSecondaryIPs(resp.ip.value.address.value.secondary);
    d.Set("secondary_ip", List(secondary));
    if resp.shutdown.Some? {
      d.Set("shutdown", Bool(true));
    } else {
      d.Set("shutdown", Bool(false));
    }
    var id := 0;
    var parsed := Atoi(resp.name);
    if parsed.Some? {
      id := parsed.value;
    }
    d.Set("vlanid", Int(id));
    if resp.vrf.Some? {
      d.Set("vrf", Str(ForwardingText(resp.vrf.value)));
    }
  }

  /** `resourceVlanRead`. */
  method Read(d: ResourceData, store: Store<string, Interface>) returns (diags: Diagnostics)
    modifies d
    ensures var key := VlanKey(old(d.attrs));
      if !store.Serves(key) then
        diags == Errorf(Retrieving, "Vlan") && d.attrs == old(d.attrs) && d.id == old(d.id)
      else if !ReadableVlan(store.objects[key]) then
        diags.Panic? && d.attrs == old(d.attrs) && d.id == old(d.id)
      else
        diags == NoError && d.attrs == FlattenVlan(old(d.attrs), store.objects[key]) && d.id == key
  {
    var id := GetInt(d.attrs, "vlanid");
    var resp := store.Read(Itoa(id));
    if resp.None? {
      return Errorf(Retrieving, "Vlan");
    }
    if !ReadableVlan(resp.value) {
      return Panic("nil pointer dereference");
    }
    ResourceSetVlan(d, resp.value);
    d.SetId(Itoa(id));
    diags := NoError;
  }

  /** `resourceVlanCreate`: expand, create, then set the ID and read back. */
  method Create(d: ResourceData, store: Store<string, Interface>) returns (diags: Diagnostics)
    requires InterfaceAttrs(d.attrs)
    modifies d, store
    ensures store.refused == old(store.refused)
    ensures var key := VlanKey(old(d.attrs));
      if key in old(store.refused) then
        && diags == Errorf(Creating, "Vlan")
        && store.objects == old(store.objects) && d.attrs == old(d.attrs) && d.id == old(d.id)
      else
        && store.objects == old(store.objects)[key := VlanObject(old(d.attrs))]
        && d.id == key
        && (ReadableVlan(VlanObject(old(d.attrs))) ==>
              diags == NoError && d.attrs == FlattenVlan(old(d.attrs), VlanObject(old(d.attrs))))
        && (!ReadableVlan(VlanObject(old(d.attrs))) ==> diags.Panic? && d.attrs == old(d.attrs))
  {
    var id := GetInt(d.attrs, "vlanid");
    var params := NewInterface(Itoa(id));
    params := GetCreateUpdateInterfaceObject(d, params);
    var ok := store.Create(Itoa(id), params);
    if !ok {
      return Errorf(Creating, "Vlan");
    }
    d.SetId(Itoa(id));
    diags := Read(d, store);
  }

  /** `resourceVlanUpdate`: the same as Create, through the update call. */
  method Update(d: ResourceData, store: Store<string, Interface>) returns (diags: Diagnostics)
    requires InterfaceAttrs(d.attrs)
    modifies d, store
    ensures store.refused == old(store.refused)
    ensures var key := VlanKey(old(d.attrs));
      if key in old(store.refused) then
        && diags == Errorf(Updating, "Vlan")
        && store.objects == old(store.objects) && d.attrs == old(d.attrs) && d.id == old(d.id)
      else
        && store.objects == old(store.objects)[key := VlanObject(old(d.attrs))]
        && d.id == key
        && (ReadableVlan(VlanObject(old(d.attrs))) ==>
              diags == NoError && d.attrs == FlattenVlan(old(d.attrs), VlanObject(old(d.attrs))))
        && (!ReadableVlan(VlanObject(old(d.attrs))) ==> diags.Panic? && d.attrs == old(d.attrs))
  {
    var id := GetInt(d.attrs, "vlanid");
    var params := NewInterface(Itoa(id));
    params := GetCreateUpdateInterfaceObject(d, params);
    var ok := store.Update(Itoa(id), params);
    if !ok {
      return Errorf(Updating, "Vlan");
    }
    d.SetId(Itoa(id));
    diags := Read(d, store);
  }

  /** `resourceVlanDelete`: the ID is cleared only when the remote delete succeeds. */
  method Delete(d: ResourceData, store: Store<string, Interface>) returns (diags: Diagnostics)
    modifies d, store
    ensures store.refused == old(store.refused)
    ensures d.attrs == old(d.attrs)
    ensures var key := VlanKey(old(d.attrs));
      if old(store.Serves(key)) then
        diags == NoError && store.objects == old(store.objects) - {key} && d.id == ""
      else
        diags == Errorf(Deleting, "Vlan") && store.objects == old(store.objects) && d.id == old(d.id)
  {
    var id := GetInt(d.attrs, "vlanid");
    var ok := store.Delete(Itoa(id));
    if !ok {
      return Errorf(Deleting, "Vlan");
    }
    d.SetId("");
    diags := NoError;
  }

  /**
   * No drift: what Create sends reads back, under GetOk, as every declared attribute
   * the resource maps, and the name is the prefix followed by the decimal vlanid.
   */
  lemma VlanRoundTrip(rec: Record)
    requires WellFormedVlan(rec)
    ensures ReadableVlan(VlanObject(rec))
    ensures var back := FlattenVlan(rec, VlanObject(rec));
      && GetOk(back, "description") == GetOk(rec, "description")
      && GetOk(back, "ip") == GetOk(rec, "ip")
      && GetOk(back, "secondary_ip") == GetOk(rec, "secondary_ip")
      && GetOk(back, "shutdown") == GetOk(rec, "shutdown")
      && GetOk(back, "vlanid") == GetOk(rec, "vlanid")
      && GetOk(back, "vrf") == GetOk(rec, "vrf")
      && back["name"] == Str(VlanName + Itoa(rec["vlanid"].i))
  {
    VlanAddressRoundTrip(rec);
    VlanSettingsRoundTrip(rec);
    VlanShutdownRoundTrip(rec);
    VlanIdRoundTrip(rec);
  }

  /** The primary CIDR survives the netmask conversion and back; the secondary list keeps its order. */
  lemma VlanAddressRoundTrip(rec: Record)
    requires WellFormedVlan(rec)
    ensures ReadableVlan(VlanObject(rec))
    ensures var back := FlattenVlan(rec, VlanObject(rec));
      && GetOk(back, "ip") == GetOk(rec, "ip")
      && GetOk(back, "secondary_ip") == GetOk(rec, "secondary_ip")
  {
    var m := VlanObject(rec);
    var back := FlattenVlan(rec, m);
    CidrRoundTrip(IPAddress(rec["ip"].s, "", ""));
    assert back["ip"] == rec["ip"];
    SecondaryAttrRoundTrip(rec, CiscoEnabled);
    ReadsBackGetOk(back["secondary_ip"], rec, "secondary_ip", back);
  }

  /** Description and vrf are sent only when set and overwrite the record only when the device reports them. */
  lemma VlanSettingsRoundTrip(rec: Record)
    requires WellFormedVlan(rec)
    ensures ReadableVlan(VlanObject(rec))
    ensures var back := FlattenVlan(rec, VlanObject(rec));
      && GetOk(back, "description") == GetOk(rec, "description")
      && GetOk(back, "vrf") == GetOk(rec, "vrf")
  {
  }

  /** `shutdown = true` is sent as a marker and reads back true; anything else reads back false. */
  lemma VlanShutdownRoundTrip(rec: Record)
    requires WellFormedVlan(rec)
    ensures ReadableVlan(VlanObject(rec))
    ensures GetOk(FlattenVlan(rec, VlanObject(rec)), "shutdown") == GetOk(rec, "shutdown")
  {
    var m := VlanObject(rec);
    var back := FlattenVlan(rec, m);
    PresenceRoundTrip(rec, "shutdown", m.shutdown);
    ReadsBackGetOk(back["shutdown"], rec, "shutdown", back);
  }

  /** The vlanid travels as the decimal interface name and parses back to itself. */
  lemma VlanIdRoundTrip(rec: Record)
    requires WellFormedVlan(rec)
    ensures ReadableVlan(VlanObject(rec))
    ensures var back := FlattenVlan(rec, VlanObject(rec));
      && back["vlanid"] == rec["vlanid"]
      && back["name"] == Str(VlanName + Itoa(rec["vlanid"].i))
  {
    AtoiItoa(rec["vlanid"].i);
  }

  /** Reading the same remote object twice gives the same record as reading it once. */
  lemma FlattenVlanIdempotent(rec: Record, resp: Interface)
    requires ReadableVlan(resp)
    ensures FlattenVlan(FlattenVlan(rec, resp), resp) == FlattenVlan(rec, resp)
  {
  }
}
