/**
 * The `SVI` resource (defined in its own file but not registered with the provider):
 * a switched virtual interface whose remote name is the integer VLAN id. The expansion
 * writes into `IP.Address.Primary` of `models.L3Interface` without allocating; the model
 * takes that path to be held by value, as the SDK's type definitions are not part of
 * this model. Its markers are raw explicit nulls.
 */
module Svi {
  import opened Common
  import opened Strconv
  import opened Schema
  import opened Netmask
  import opened Interfaces
  import opened RemoteStore

  datatype L3Address = L3Address(primary: IPAddress, secondary: Option<seq<SecondaryIPAddress>>)
  datatype L3InterfaceIP = L3InterfaceIP(address: L3Address)

  /**
   * `models.L3Interface`. The name is sent as an int and comes back from JSON as a
   * float64 that the read truncates; VLAN ids are small integers, so both are `int` here.
   */
  datatype L3Interface = L3Interface(
    name: int,
    description: Option<string>,
    ip: L3InterfaceIP,
    shutdown: Option<Marker>)

  /** `models.SVI{}` with `Vlan.Name = id`: every other field at its zero value. */
  function NewL3Interface(id: int): L3Interface {
    L3Interface(id, None, L3InterfaceIP(L3Address(IPAddress("", "", ""), None)), None)
  }

  /** The SDK's `models.SVIName` prefix of the interface name (its exact text is the SDK's). */
  const SviName: string := "Vlan"

  const ReadKeys: set<string> := {"description", "ip", "name", "secondary_ip", "shutdown", "vlanid"}

  /** A declared record the schema accepts: required `ip` (a CIDR) and integer `vlanid`. */
  predicate WellFormedSvi(rec: Record) {
    && InterfaceAttrs(rec)
    && GetOk(rec, "ip").Some?
    && "vlanid" in rec && rec["vlanid"].Int?
  }

  /**
   * `getCreateUpdateSVIObject`: description when set; the CIDR written into the existing
   * primary address and converted; the secondary list with explicit-null markers; and
   * an explicit-null shutdown for `shutdown = true`. There is no vrf.
   */
  function ExpandSvi(rec: Record, m: L3Interface): (r: L3Interface)
    requires InterfaceAttrs(rec)
    ensures r.name == m.name
    ensures r.shutdown == if OkTrue(rec, "shutdown") then Some(ExplicitNull) else m.shutdown
    ensures OkString(rec, "ip").None? ==> r.ip.address.primary == m.ip.address.primary
    ensures OkString(rec, "ip").Some? ==> r.ip.address.primary.cidr == OkString(rec, "ip").value
    ensures OkString(rec, "description").None? ==> r.description == m.description
  {
    var primary :=
      match OkString(rec, "ip")
      case Some(s) => SetNetmask(m.ip.address.primary.(cidr := s))
      case None => m.ip.address.primary;
    var secondary := if GetOk(rec, "secondary_ip").Some? then SecondaryAttr(rec, ExplicitNull) else m.ip.address.secondary;
    m.(description := OkString(rec, "description").Or(m.description),
       ip := L3InterfaceIP(L3Address(primary, secondary)),
       shutdown := if OkTrue(rec, "shutdown") then Some(ExplicitNull) else m.shutdown)
  }

  method GetCreateUpdateSviObject(d: ResourceData, m: L3Interface) returns (r: L3Interface)
    requires InterfaceAttrs(d.attrs)
    ensures r == ExpandSvi(d.attrs, m)
  {
    r := m;
    var description := OkString(d.attrs, "description");
    if description.Some? {
      r := r.(description := Some(description.value));
    }
    var ip := OkString(d.attrs, "ip");
    if ip.Some? {
      var primary := r.ip.address.primary.(cidr := ip.value);
      primary := SetNetmask(primary);
      r := r.(ip := r.ip.(address := r.ip.address.(primary := primary)));
    }
    if GetOk(d.attrs, "secondary_ip").Some? {
      var o := ExpandSecondaryIPs(GetList(d.attrs, "secondary_ip"), ExplicitNull);
      r := r.(ip := r.ip.(address := r.ip.address.(secondary := o)));
    }
    if OkTrue(d.attrs, "shutdown") {
      r := r.(shutdown := Some(ExplicitNull));
    }
  }

  /** The object Create and Update send. */
  function SviObject(rec: Record): (m: L3Interface)
    requires InterfaceAttrs(rec)
    ensures m.name == GetInt(rec, "vlanid")
  {
    ExpandSvi(rec, NewL3Interface(GetInt(rec, "vlanid")))
  }

  /**
   * The record after `resourceSetSVI`: description only when present; the CIDR rebuilt;
   * name as the prefix and the decimal remote name; vlanid as the remote name.
   */
  function FlattenSvi(rec: Record, resp: L3Interface): (r: Record)
    ensures KeepsOutside(rec, r, ReadKeys)
    ensures resp.description.None? ==> ("description" in r <==> "description" in rec)
    ensures "name" in r && r["name"] == Str(SviName + Itoa(resp.name))
    ensures "vlanid" in r && r["vlanid"] == Int(resp.name)
    ensures "shutdown" in r && r["shutdown"] == Bool(resp.shutdown.Some?)
  {
    var r1 := if resp.description.Some? then rec["description" := Str(resp.description.value)] else rec;
    r1["ip" := Str(SetCidr(resp.ip.address.primary).cidr)]
      ["name" := Str(SviName + Itoa(resp.name))]
      ["secondary_ip" := List(SecondaryIPBlocks(resp.ip.address.secondary))]
      ["shutdown" := Presence(resp.shutdown)]
      ["vlanid" := Int(resp.name)]
  }

  /** `resourceSetSVI`, one `d.Set` after another. */
  method ResourceSetSvi(d: ResourceData, resp: L3Interface)
    modifies d
    ensures d.attrs == FlattenSvi(old(d.attrs), resp) && d.id == old(d.id)
  {
    if resp.description.Some? {
      d.Set("description", Str(resp.description.value));
    }
    var primary := SetCidr(resp.ip.address.primary);
    d.Set("ip", Str(primary.cidr));
    var name := resp.name;
    d.Set("name", Str(SviName + Itoa(name)));
    var secondary := FlattenSecondaryIPs(resp.ip.address.secondary);
    d.Set("secondary_ip", List(secondary));
    if resp.shutdown.Some? {
      d.Set("shutdown", Bool(true));
    } else {
      d.Set("shutdown", Bool(false));
    }
    d.Set("vlanid", Int(resp.name));
  }

  /** `resourceSVIRead`. */
  method Read(d: ResourceData, store: Store<int, L3Interface>) returns (diags: Diagnostics)
    modifies d
    ensures var key := GetInt(old(d.attrs), "vlanid");
      if !store.Serves(key) then
        diags == Errorf(Retrieving, "SVI") && d.attrs == old(d.attrs) && d.id == old(d.id)
      else
        diags == NoError && d.attrs == FlattenSvi(old(d.attrs), store.objects[key]) && d.id == Itoa(key)
  {
    var id := GetInt(d.attrs, "vlanid");
    var resp := store.Read(id);
    if resp.None? {
      return Errorf(Retrieving, "SVI");
    }
    ResourceSetSvi(d, resp.value);
    d.SetId(Itoa(id));
    diags := NoError;
  }

  /** `resourceSVICreate`: expand, create, then set the decimal ID and read back. */
  method Create(d: ResourceData, store: Store<int, L3Interface>) returns (diags: Diagnostics)
    requires InterfaceAttrs(d.attrs)
    modifies d, store
    ensures store.refused == old(store.refused)
    ensures var key := GetInt(old(d.attrs), "vlanid");
      if key in old(store.refused) then
        && diags == Errorf(Creating, "SVI")
        && store.objects == old(store.objects) && d.attrs == old(d.attrs) && d.id == old(d.id)
      else
        && store.objects == old(store.objects)[key := SviObject(old(d.attrs))]
        && diags == NoError && d.id == Itoa(key)
        && d.attrs == FlattenSvi(old(d.attrs), SviObject(old(d.attrs)))
  {
    var id := GetInt(d.attrs, "vlanid");
    var params := NewL3Interface(id);
    params := GetCreateUpdateSviObject(d, params);
    var ok := store.Create(id, params);
    if !ok {
      return Errorf(Creating, "SVI");
    }
    d.SetId(Itoa(id));
    diags := Read(d, store);
  }

  /** `resourceSVIUpdate`: the same as Create, through the update call. */
  method Update(d: ResourceData, store: Store<int, L3Interface>) returns (diags: Diagnostics)
    requires InterfaceAttrs(d.attrs)
    modifies d, store
    ensures store.refused == old(store.refused)
    ensures var key := GetInt(old(d.attrs), "vlanid");
      if key in old(store.refused) then
        && diags == Errorf(Updating, "SVI")
        && store.objects == old(store.objects) && d.attrs == old(d.attrs) && d.id == old(d.id)
      else
        && store.objects == old(store.objects)[key := SviObject(old(d.attrs))]
        && diags == NoError && d.id == Itoa(key)
        && d.attrs == FlattenSvi(old(d.attrs), SviObject(old(d.attrs)))
  {
    var id := GetInt(d.attrs, "vlanid");
    var params := NewL3Interface(id);
    params := GetCreateUpdateSviObject(d, params);
    var ok := store.Update(id, params);
    if !ok {
      return Errorf(Updating, "SVI");
    }
    d.SetId(Itoa(id));
    diags := Read(d, store);
  }

  /** `resourceSVIDelete`: the ID is cleared only when the remote delete succeeds. */
  method Delete(d: ResourceData, store: Store<int, L3Interface>) returns (diags: Diagnostics)
    modifies d, store
    ensures store.refused == old(store.refused)
    ensures d.attrs == old(d.attrs)
    ensures var key := GetInt(old(d.attrs), "vlanid");
      if old(store.Serves(key)) then
        diags == NoError && store.objects == old(store.objects) - {key} && d.id == ""
      else
        diags == Errorf(Deleting, "SVI") && store.objects == old(store.objects) && d.id == old(d.id)
  {
    var id := GetInt(d.attrs, "vlanid");
    var ok := store.Delete(id);
    if !ok {
      return Errorf(Deleting, "SVI");
    }
    d.SetId("");
    diags := NoError;
  }

  /**
   * No drift: what Create sends reads back, under GetOk, as every declared attribute
   * the resource maps; the name is the prefix followed by the decimal vlanid.
   */
  lemma SviRoundTrip(rec: Record)
    requires WellFormedSvi(rec)
    ensures var back := FlattenSvi(rec, SviObject(rec));
      && GetOk(back, "description") == GetOk(rec, "description")
      && GetOk(back, "ip") == GetOk(rec, "ip")
      && GetOk(back, "secondary_ip") == GetOk(rec, "secondary_ip")
      && GetOk(back, "shutdown") == GetOk(rec, "shutdown")
      && back["vlanid"] == rec["vlanid"]
      && back["name"] == Str(SviName + Itoa(rec["vlanid"].i))
  {
    var m := SviObject(rec);
    var back := FlattenSvi(rec, m);
    CidrRoundTrip(IPAddress(rec["ip"].s, "", ""));
    assert back["ip"] == rec["ip"];
    SecondaryAttrRoundTrip(rec, ExplicitNull);
    ReadsBackGetOk(back["secondary_ip"], rec, "secondary_ip", back);
    PresenceRoundTrip(rec, "shutdown", m.shutdown);
    ReadsBackGetOk(back["shutdown"], rec, "shutdown", back);
  }
}
