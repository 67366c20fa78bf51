/**
 * The `iosxe_l2_vlan` resource: a layer-2 VLAN addressed by its integer id, with an
 * optional name the device may fill in.
 */
module L2Vlan {
  import opened Common
  import opened Strconv
  import opened Schema
  import opened RemoteStore

  /** `models.L2Vlan`: the VLAN id and its name (a plain string, empty when unset). */
  datatype L2Vlan = L2Vlan(id: int, name: string)

  /** A declared record the schema accepts: `vlanid` in 1..4096, `name` a string. */
  predicate WellFormedL2Vlan(rec: Record) {
    && "vlanid" in rec && rec["vlanid"].Int? && 1 <= rec["vlanid"].i <= 4096
    && StrAttr(rec, "name")
  }

  /** `getCreateUpdateL2VlanObject`: the name is copied only when it is set. */
  function ExpandL2Vlan(rec: Record, m: L2Vlan): (r: L2Vlan)
    ensures r.id == m.id
    ensures OkString(rec, "name").Some? ==> r.name == OkString(rec, "name").value
    ensures OkString(rec, "name").None? ==> r.name == m.name
  {
    match OkString(rec, "name")
    case Some(s) => m.(name := s)
    case None => m
  }

  method GetCreateUpdateL2VlanObject(d: ResourceData, m: L2Vlan) returns (r: L2Vlan)
    ensures r == ExpandL2Vlan(d.attrs, m)
  {
    r := m;
    var name := OkString(d.attrs, "name");
    if name.Some? {
      r := r.(name := name.value);
    }
  }

  /** The object Create and Update send: `VlanList.ID = vlanid` and the expansion. */
  function L2VlanObject(rec: Record): (m: L2Vlan)
    ensures m.id == GetInt(rec, "vlanid")
  {
    ExpandL2Vlan(rec, L2Vlan(GetInt(rec, "vlanid"), ""))
  }

  /** `resourceSetL2Vlan`: `name` is always overwritten from the remote value, nothing else. */
  function FlattenL2Vlan(rec: Record, resp: L2Vlan): (r: Record)
    ensures KeepsOutside(rec, r, {"name"})
    ensures r.Keys == rec.Keys + {"name"}
    ensures r["name"] == Str(resp.name)
  {
    rec["name" := Str(resp.name)]
  }

  method ResourceSetL2Vlan(d: ResourceData, resp: L2Vlan)
    modifies d
    ensures d.attrs == FlattenL2Vlan(old(d.attrs), resp) && d.id == old(d.id)
  {
    d.Set("name", Str(resp.name));
  }

  /** `resourceL2VlanRead`. */
  method Read(d: ResourceData, store: Store<int, L2Vlan>) returns (diags: Diagnostics)
    modifies d
    ensures var key := GetInt(old(d.attrs), "vlanid");
      if !store.Serves(key) then
        diags == Errorf(Retrieving, "Vlan") && d.attrs == old(d.attrs) && d.id == old(d.id)
      else
        diags == NoError && d.attrs == FlattenL2Vlan(old(d.attrs), store.objects[key]) && d.id == Itoa(key)
  {
    var id := GetInt(d.attrs, "vlanid");
    var resp := store.Read(id);
    if resp.None? {
      return Errorf(Retrieving, "Vlan");
    }
    ResourceSetL2Vlan(d, resp.value);
    d.SetId(Itoa(id));
    diags := NoError;
  }

  /** `resourceL2VlanCreate`: expand, create, then set the decimal ID and read back. */
  method Create(d: ResourceData, store: Store<int, L2Vlan>) returns (diags: Diagnostics)
    modifies d, store
    ensures store.refused == old(store.refused)
    ensures var key := GetInt(old(d.attrs), "vlanid");
      if key in old(store.refused) then
        && diags == Errorf(Creating, "Vlan")
        && store.objects == old(store.objects) && d.attrs == old(d.attrs) && d.id == old(d.id)
      else
        && store.objects == old(store.objects)[key := L2VlanObject(old(d.attrs))]
        && diags == NoError && d.id == Itoa(key)
        && d.attrs == FlattenL2Vlan(old(d.attrs), L2VlanObject(old(d.attrs)))
  {
    var id := GetInt(d.attrs, "vlanid");
    var params := L2Vlan(id, "");
    params := GetCreateUpdateL2VlanObject(d, params);
    var ok := store.Create(id, params);
    if !ok {
      return Errorf(Creating, "Vlan");
    }
    d.SetId(Itoa(id));
    diags := Read(d, store);
  }

  /** `resourceL2VlanUpdate`: the same as Create, through the update call. */
  method Update(d: ResourceData, store: Store<int, L2Vlan>) returns (diags: Diagnostics)
    modifies d, store
    ensures store.refused == old(store.refused)
    ensures var key := GetInt(old(d.attrs), "vlanid");
      if key in old(store.refused) then
        && diags == Errorf(Updating, "Vlan")
        && store.objects == old(store.objects) && d.attrs == old(d.attrs) && d.id == old(d.id)
      else
        && store.objects == old(store.objects)[key := L2VlanObject(old(d.attrs))]
        && diags == NoError && d.id == Itoa(key)
        && d.attrs == FlattenL2Vlan(old(d.attrs), L2VlanObject(old(d.attrs)))
  {
    var id := GetInt(d.attrs, "vlanid");
    var params := L2Vlan(id, "");
    params := GetCreateUpdateL2VlanObject(d, params);
    var ok := store.Update(id, params);
    if !ok {
      return Errorf(Updating, "Vlan");
    }
    d.SetId(Itoa(id));
    diags := Read(d, store);
  }

  /** `resourceL2VlanDelete`: the ID is cleared only when the remote delete succeeds. */
  method Delete(d: ResourceData, store: Store<int, L2Vlan>) returns (diags: Diagnostics)
    modifies d, store
    ensures store.refused == old(store.refused)
    ensures d.attrs == old(d.attrs)
    ensures var key := GetInt(old(d.attrs), "vlanid");
      if old(store.Serves(key)) then
        diags == NoError && store.objects == old(store.objects) - {key} && d.id == ""
      else
        diags == Errorf(Deleting, "Vlan") && store.objects == old(store.objects) && d.id == old(d.id)
  {
    var id := GetInt(d.attrs, "vlanid");
    var ok := store.Delete(id);
    if !ok {
      return Errorf(Deleting, "Vlan");
    }
    d.SetId("");
    diags := NoError;
  }

  /**
   * No drift: a declared name reads back unchanged and an undeclared one reads back
   * unset; vlanid is untouched, and the ID parses back to it.
   */
  lemma L2VlanRoundTrip(rec: Record)
    requires WellFormedL2Vlan(rec)
    ensures var back := FlattenL2Vlan(rec, L2VlanObject(rec));
      && GetOk(back, "name") == GetOk(rec, "name")
      && back["vlanid"] == rec["vlanid"]
      && Atoi(Itoa(GetInt(rec, "vlanid"))) == Some(rec["vlanid"].i)
  {
    AtoiItoa(GetInt(rec, "vlanid"));
  }
}
