/**
 * The BGP neighbor prefix-list resource (defined in its own file but not registered with
 * the provider): one prefix-list applied to one neighbor of one routing instance. The
 * remote object is addressed by the triple (routing instance, neighbor ip, list name);
 * the resource ID is the list name alone.
 */
module BgpNeighborPrefixList {
  import opened Common
  import opened Schema
  import opened RemoteStore

  /** The remote address of a prefix-list: the router, the neighbor and the list name. */
  datatype PrefixListPath = PrefixListPath(routingInstance: string, neighborIp: string, name: string)

  /** `models.BgpNeighborPrefixList`: the direction (`in` or `out`) and the list name. */
  datatype PrefixList = PrefixList(inout: string, prefixListName: string)

  /** A declared record the schema accepts: the three path strings and `direction` in/out. */
  predicate WellFormedPrefixList(rec: Record) {
    && "direction" in rec && rec["direction"].Str? && rec["direction"].s in {"in", "out"}
    && "name" in rec && rec["name"].Str? && rec["name"].s != ""
    && StrAttr(rec, "neighbor_ip") && StrAttr(rec, "routing_instance")
  }

  /** The path every CRUD call uses, read from the record with `d.Get`. */
  function PathOf(rec: Record): PrefixListPath {
    PrefixListPath(GetString(rec, "routing_instance"), GetString(rec, "neighbor_ip"), GetString(rec, "name"))
  }

  /** `getCreateUpdateBgpNeighborPrefixListObject`: the direction only when it is set. */
  function ExpandPrefixList(rec: Record, m: PrefixList): (r: PrefixList)
    ensures r.prefixListName == m.prefixListName
    ensures OkString(rec, "direction").Some? ==> r.inout == OkString(rec, "direction").value
    ensures OkString(rec, "direction").None? ==> r.inout == m.inout
  {
    match OkString(rec, "direction")
    case Some(s) => m.(inout := s)
    case None => m
  }

  method GetCreateUpdatePrefixListObject(d: ResourceData, m: PrefixList) returns (r: PrefixList)
    ensures r == ExpandPrefixList(d.attrs, m)
  {
    r := m;
    var direction := OkString(d.attrs, "direction");
    if direction.Some? {
      r := r.(inout := direction.value);
    }
  }

  /** The object Create and Update send: `PrefixListName = name` and the expansion. */
  function PrefixListObject(rec: Record): (m: PrefixList)
    ensures m.prefixListName == GetString(rec, "name")
  {
    ExpandPrefixList(rec, PrefixList("", GetString(rec, "name")))
  }

  /** `resourceSetBgpNeighborPrefixList`: direction and name from the remote object. */
  function FlattenPrefixList(rec: Record, resp: PrefixList): (r: Record)
    ensures KeepsOutside(rec, r, {"direction", "name"})
    ensures r.Keys == rec.Keys + {"direction", "name"}
    ensures r["direction"] == Str(resp.inout) && r["name"] == Str(resp.prefixListName)
  {
    rec["direction" := Str(resp.inout)]["name" := Str(resp.prefixListName)]
  }

  method ResourceSetPrefixList(d: ResourceData, resp: PrefixList)
    modifies d
    ensures d.attrs == FlattenPrefixList(old(d.attrs), resp) && d.id == old(d.id)
  {
    d.Set("direction", Str(resp.inout));
    d.Set("name", Str(resp.prefixListName));
  }

  /** `resourceBgpNeighborPrefixListRead`. */
  method Read(d: ResourceData, store: Store<PrefixListPath, PrefixList>) returns (diags: Diagnostics)
    modifies d
    ensures var path := PathOf(old(d.attrs));
      if !store.Serves(path) then
        diags == Errorf(Retrieving, "BgpNeighborPrefixList") && d.attrs == old(d.attrs) && d.id == old(d.id)
      else
        diags == NoError && d.attrs == FlattenPrefixList(old(d.attrs), store.objects[path]) && d.id == path.name
  {
    var id := GetString(d.attrs, "name");
    var path := PrefixListPath(GetString(d.attrs, "routing_instance"), GetString(d.attrs, "neighbor_ip"), id);
    var resp := store.Read(path);
    if resp.None? {
      return Errorf(Retrieving, "BgpNeighborPrefixList");
    }
    ResourceSetPrefixList(d, resp.value);
    d.SetId(id);
    diags := NoError;
  }

  /**
   * `resourceBgpNeighborPrefixListCreate`: expand, create at the path, then set the ID
   * to the list name and read back. The read-back may rename the list, but it goes to
   * the path of the record as it was before the read.
   */
  method Create(d: ResourceData, store: Store<PrefixListPath, PrefixList>) returns (diags: Diagnostics)
    modifies d, store
    ensures store.refused == old(store.refused)
    ensures var path := PathOf(old(d.attrs));
      if path in old(store.refused) then
        && diags == Errorf(Creating, "BgpNeighborPrefixList")
        && store.objects == old(store.objects) && d.attrs == old(d.attrs) && d.id == old(d.id)
      else
        && store.objects == old(store.objects)[path := PrefixListObject(old(d.attrs))]
        && diags == NoError && d.id == path.name
        && d.attrs == FlattenPrefixList(old(d.attrs), PrefixListObject(old(d.attrs)))
  {
    var id := GetString(d.attrs, "name");
    var params := PrefixList("", id);
    var path := PrefixListPath(GetString(d.attrs, "routing_instance"), GetString(d.attrs, "neighbor_ip"), id);
    params := GetCreateUpdatePrefixListObject(d, params);
    var ok := store.Create(path, params);
    if !ok {
      return Errorf(Creating, "BgpNeighborPrefixList");
    }
    d.SetId(id);
    diags := Read(d, store);
  }

  /** `resourceBgpNeighborPrefixListUpdate`: the same as Create, through the update call. */
  method Update(d: ResourceData, store: Store<PrefixListPath, PrefixList>) returns (diags: Diagnostics)
    modifies d, store
    ensures store.refused == old(store.refused)
    ensures var path := PathOf(old(d.attrs));
      if path in old(store.refused) then
        && diags == Errorf(Updating, "BgpNeighborPrefixList")
        && store.objects == old(store.objects) && d.attrs == old(d.attrs) && d.id == old(d.id)
      else
        && store.objects == old(store.objects)[path := PrefixListObject(old(d.attrs))]
        && diags == NoError && d.id == path.name
        && d.attrs == FlattenPrefixList(old(d.attrs), PrefixListObject(old(d.attrs)))
  {
    var id := GetString(d.attrs, "name");
    var params := PrefixList("", id);
    var path := PrefixListPath(GetString(d.attrs, "routing_instance"), GetString(d.attrs, "neighbor_ip"), id);
    params := GetCreateUpdatePrefixListObject(d, params);
    var ok := store.Update(path, params);
    if !ok {
      return Errorf(Updating, "BgpNeighborPrefixList");
    }
    d.SetId(id);
    diags := Read(d, store);
  }

  /** `resourceBgpNeighborPrefixListDelete`: the ID is cleared only when the delete succeeds. */
  method Delete(d: ResourceData, store: Store<PrefixListPath, PrefixList>) returns (diags: Diagnostics)
    modifies d, store
    ensures store.refused == old(store.refused)
    ensures d.attrs == old(d.attrs)
    ensures var path := PathOf(old(d.attrs));
      if old(store.Serves(path)) then
        diags == NoError && store.objects == old(store.objects) - {path} && d.id == ""
      else
        diags == Errorf(Deleting, "BgpNeighborPrefixList") && store.objects == old(store.objects) && d.id == old(d.id)
  {
    var id := GetString(d.attrs, "name");
    var path := PrefixListPath(GetString(d.attrs, "routing_instance"), GetString(d.attrs, "neighbor_ip"), id);
    var ok := store.Delete(path);
    if !ok {
      return Errorf(Deleting, "BgpNeighborPrefixList");
    }
    d.SetId("");
    diags := NoError;
  }

  /**
   * No drift: direction and name read back as declared, and the record still addresses
   * the object that was written.
   */
  lemma PrefixListRoundTrip(rec: Record)
    requires WellFormedPrefixList(rec)
    ensures var back := FlattenPrefixList(rec, PrefixListObject(rec));
      && back["direction"] == rec["direction"]
      && back["name"] == rec["name"]
      && PathOf(back) == PathOf(rec)
  {
  }
}
