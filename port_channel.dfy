/**
 * The `iosxe_interface_port_channel` resource: a port-channel interface named by its
 * declared `name`, with an optional primary IP. Its read is nil-guarded around the IP
 * container and never reads `vrf` back.
 */
module PortChannel {
  import opened Common
  import opened Schema
  import opened Netmask
  import opened Interfaces
  import opened RemoteStore

  /** The attributes a read of this resource may write; `vrf` is not among them. */
  const ReadKeys: set<string> := {"description", "ip", "secondary_ip", "name", "shutdown"}

  /** A declared record the schema accepts: a required, non-empty `name`; `ip` optional. */
  predicate WellFormedPortChannel(rec: Record) {
    && InterfaceAttrs(rec)
    && "name" in rec && rec["name"].Str? && rec["name"].s != ""
  }

  /** The object Create and Update send: the expansion over an interface named `name`. */
  function PortChannelObject(rec: Record): (m: Interface)
    requires InterfaceAttrs(rec)
    ensures m.name == GetString(rec, "name")
    ensures ReadablePortChannel(m)
  {
    ExpandInterface(rec, NewInterface(GetString(rec, "name")))
  }

  /** `resourceSetPortChannel` checks `IP` and `Primary` for nil, but not `IP.Address`. */
  predicate ReadablePortChannel(resp: Interface) {
    resp.ip.Some? ==> resp.ip.value.address.Some?
  }

  /**
   * The record after `resourceSetPortChannel`: `ip` only when IP and Primary are both
   * present, `secondary_ip` only when IP is present, description only when present,
   * name and the shutdown toggle always; nothing else is touched.
   */
  function FlattenPortChannel(rec: Record, resp: Interface): (r: Record)
    requires ReadablePortChannel(resp)
    ensures KeepsOutside(rec, r, ReadKeys)
    ensures "vrf" in rec ==> "vrf" in r && r["vrf"] == rec["vrf"]
    ensures resp.ip.None? ==> ("ip" in r <==> "ip" in rec) && ("secondary_ip" in r <==> "secondary_ip" in rec)
    ensures resp.ip.Some? && resp.ip.value.address.value.primary.None? ==> ("ip" in r <==> "ip" in rec)
    ensures "name" in r && r["name"] == Str(resp.name)
    ensures "shutdown" in r && r["shutdown"] == Bool(resp.shutdown.Some?)
  {
    var r1 := if resp.description.Some? then rec["description" := Str(resp.description.value)] else rec;
    var r2 :=
      if resp.ip.None? then r1
      else
        var address := resp.ip.value.address.value;
        var withIp := if address.primary.Some? then r1["ip" := Str(SetCidr(address.primary.value).cidr)] else r1;
        withIp["secondary_ip" := List(SecondaryIPBlocks(address.secondary))];
    r2["name" := Str(resp.name)]["shutdown" := Presence(resp.shutdown)]
  }

  /** `resourceSetPortChannel`, one `d.Set` after another. */
  method ResourceSetPortChannel(d: ResourceData, resp: Interface)
    requires ReadablePortChannel(resp)
    modifies d
    ensures d.attrs == FlattenPortChannel(old(d.attrs), resp) && d.id == old(d.id)
  {
    if resp.description.Some? {
      d.Set("description", Str(resp.description.value));
    }
    if resp.ip.Some? {
      var address := resp.ip.value.address.value;
      if address.primary.Some? {
        var primary := SetCidr(address.primary.value);
        d.Set("ip", Str(primary.cidr));
      }
      var secondary := FlattenSecondaryIPs(address.secondary);
      d.Set("secondary_ip", List(secondary));
    }
    d.Set("name", Str(resp.name));
    if resp.shutdown.Some? {
      d.Set("shutdown", Bool(true));
    } else {
      d.Set("shutdown", Bool(false));
    }
  }

  /** `resourcePortChannelRead`. */
  method Read(d: ResourceData, store: Store<string, Interface>) returns (diags: Diagnostics)
    modifies d
    ensures var key := GetString(old(d.attrs), "name");
      if !store.Serves(key) then
        diags == Errorf(Retrieving, "PortChannel") && d.attrs == old(d.attrs) && d.id == old(d.id)
      else if !ReadablePortChannel(store.objects[key]) then
        diags.Panic? && d.attrs == old(d.attrs) && d.id == old(d.id)
      else
        diags == NoError && d.attrs == FlattenPortChannel(old(d.attrs), store.objects[key]) && d.id == key
  {
    var id := GetString(d.attrs, "name");
    var resp := store.Read(id);
    if resp.None? {
      return Errorf(Retrieving, "PortChannel");
    }
    if !ReadablePortChannel(resp.value) {
      return Panic("nil pointer dereference");
    }
    ResourceSetPortChannel(d, resp.value);
    d.SetId(id);
    diags := NoError;
  }

  /** `resourcePortChannelCreate`: expand, create, then set the ID and read back. */
  method Create(d: ResourceData, store: Store<string, Interface>) returns (diags: Diagnostics)
    requires InterfaceAttrs(d.attrs)
    modifies d, store
    ensures store.refused == old(store.refused)
    ensures var key := GetString(old(d.attrs), "name");
      if key in old(store.refused) then
        && diags == Errorf(Creating, "PortChannel")
        && store.objects == old(store.objects) && d.attrs == old(d.attrs) && d.id == old(d.id)
      else
        && store.objects == old(store.objects)[key := PortChannelObject(old(d.attrs))]
        && d.id == key
        && diags == NoError
        && d.attrs == FlattenPortChannel(old(d.attrs), PortChannelObject(old(d.attrs)))
  {
    var id := GetString(d.attrs, "name");
    var params := NewInterface(id);
    params := GetCreateUpdateInterfaceObject(d, params);
    var ok := store.Create(id, params);
    if !ok {
      return Errorf(Creating, "PortChannel");
    }
    d.SetId(id);
    diags := Read(d, store);
  }

  /** `resourcePortChannelUpdate`: the same as Create, through the update call. */
  method Update(d: ResourceData, store: Store<string, Interface>) returns (diags: Diagnostics)
    requires InterfaceAttrs(d.attrs)
    modifies d, store
    ensures store.refused == old(store.refused)
    ensures var key := GetString(old(d.attrs), "name");
      if key in old(store.refused) then
        && diags == Errorf(Updating, "PortChannel")
        && store.objects == old(store.objects) && d.attrs == old(d.attrs) && d.id == old(d.id)
      else
        && store.objects == old(store.objects)[key := PortChannelObject(old(d.attrs))]
        && d.id == key
        && diags == NoError
        && d.attrs == FlattenPortChannel(old(d.attrs), PortChannelObject(old(d.attrs)))
  {
    var id := GetString(d.attrs, "name");
    var params := NewInterface(id);
    params := GetCreateUpdateInterfaceObject(d, params);
    var ok := store.Update(id, params);
    if !ok {
      return Errorf(Updating, "PortChannel");
    }
    d.SetId(id);
    diags := Read(d, store);
  }

  /** `resourcePortChannelDelete`: the ID is cleared only when the remote delete succeeds. */
  method Delete(d: ResourceData, store: Store<string, Interface>) returns (diags: Diagnostics)
    modifies d, store
    ensures store.refused == old(store.refused)
    ensures d.attrs == old(d.attrs)
    ensures var key := GetString(old(d.attrs), "name");
      if old(store.Serves(key)) then
        diags == NoError && store.objects == old(store.objects) - {key} && d.id == ""
      else
        diags == Errorf(Deleting, "PortChannel") && store.objects == old(store.objects) && d.id == old(d.id)
  {
    var id := GetString(d.attrs, "name");
    var ok := store.Delete(id);
    if !ok {
      return Errorf(Deleting, "PortChannel");
    }
    d.SetId("");
    diags := NoError;
  }

  /**
   * No drift: what Create sends reads back, under GetOk, as every declared attribute
   * the resource maps, with or without the optional `ip`; `vrf` is left as declared.
   */
  lemma PortChannelRoundTrip(rec: Record)
    requires WellFormedPortChannel(rec)
    ensures ReadablePortChannel(PortChannelObject(rec))
    ensures var back := FlattenPortChannel(rec, PortChannelObject(rec));
      && GetOk(back, "description") == GetOk(rec, "description")
      && GetOk(back, "ip") == GetOk(rec, "ip")
      && GetOk(back, "secondary_ip") == GetOk(rec, "secondary_ip")
      && GetOk(back, "shutdown") == GetOk(rec, "shutdown")
      && back["name"] == rec["name"]
      && GetOk(back, "vrf") == GetOk(rec, "vrf")
  {
    PortChannelAddressRoundTrip(rec);
    PortChannelSettingsRoundTrip(rec);
    PortChannelShutdownRoundTrip(rec);
  }

  /** The primary CIDR survives the netmask conversion and back; the secondary list keeps its order. */
  lemma PortChannelAddressRoundTrip(rec: Record)
    requires WellFormedPortChannel(rec)
    ensures ReadablePortChannel(PortChannelObject(rec))
    ensures var back := FlattenPortChannel(rec, PortChannelObject(rec));
      && GetOk(back, "ip") == GetOk(rec, "ip")
      && GetOk(back, "secondary_ip") == GetOk(rec, "secondary_ip")
  {
    var m := PortChannelObject(rec);
    var back := FlattenPortChannel(rec, m);
    if GetOk(rec, "ip").Some? {
      CidrRoundTrip(IPAddress(rec["ip"].s, "", ""));
      assert back["ip"] == rec["ip"];
    }
    SecondaryAttrRoundTrip(rec, CiscoEnabled);
    ReadsBackGetOk(back["secondary_ip"], rec, "secondary_ip", back);
  }

  /**
   * Description and vrf are sent only when set and overwrite the record only when the
   * device reports them; the name comes back unchanged.
   */
  lemma PortChannelSettingsRoundTrip(rec: Record)
    requires WellFormedPortChannel(rec)
    ensures ReadablePortChannel(PortChannelObject(rec))
    ensures var back := FlattenPortChannel(rec, PortChannelObject(rec));
      && GetOk(back, "description") == GetOk(rec, "description")
      && GetOk(back, "vrf") == GetOk(rec, "vrf")
      && back["name"] == rec["name"]
  {
  }

  /** `shutdown = true` is sent as a marker and reads back true; anything else reads back false. */
  lemma PortChannelShutdownRoundTrip(rec: Record)
    requires WellFormedPortChannel(rec)
    ensures ReadablePortChannel(PortChannelObject(rec))
    ensures GetOk(FlattenPortChannel(rec, PortChannelObject(rec)), "shutdown") == GetOk(rec, "shutdown")
  {
    var m := PortChannelObject(rec);
    var back := FlattenPortChannel(rec, m);
    PresenceRoundTrip(rec, "shutdown", m.shutdown);
    ReadsBackGetOk(back["shutdown"], rec, "shutdown", back);
  }
}
