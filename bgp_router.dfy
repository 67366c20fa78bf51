/**
 * The `iosxe_bgp_router` resource: the BGP process of one autonomous system, with the
 * `log-neighbor-changes` switch.
 */
module BgpRouter {
  import opened Common
  import opened Strconv
  import opened Schema
  import opened RemoteStore

  datatype BgpSettings = BgpSettings(logNeighborChanges: bool)

  /** `models.BgpRouter`: `Bgp.ID` is the AS number. */
  datatype BgpRouter = BgpRouter(id: int, bgp: BgpSettings)

  /** A declared record the schema accepts: an integer `as` and a boolean switch. */
  predicate WellFormedBgpRouter(rec: Record) {
    "as" in rec && rec["as"].Int? && BoolAttr(rec, "log_neighbor_changes")
  }

  /**
   * `getCreateUpdateBgpRouterObject`: the switch is copied only when GetOk reports it,
   * and GetOk only reports true, so the object never carries an explicit false.
   */
  function ExpandBgpRouter(rec: Record, m: BgpRouter): (r: BgpRouter)
    ensures r.id == m.id
    ensures OkTrue(rec, "log_neighbor_changes") ==> r.bgp.logNeighborChanges
    ensures !OkTrue(rec, "log_neighbor_changes") ==> r == m
  {
    match GetOk(rec, "log_neighbor_changes")
    case Some(Bool(b)) => m.(bgp := m.bgp.(logNeighborChanges := b))
    case _ => m
  }

  method GetCreateUpdateBgpRouterObject(d: ResourceData, m: BgpRouter) returns (r: BgpRouter)
    ensures r == ExpandBgpRouter(d.attrs, m)
  {
    r := m;
    var v := GetOk(d.attrs, "log_neighbor_changes");
    if v.Some? && v.value.Bool? {
      r := r.(bgp := r.bgp.(logNeighborChanges := v.value.b));
    }
  }

  /** The object Create and Update send: `Bgp.ID = as` and the expansion. */
  function BgpRouterObject(rec: Record): (m: BgpRouter)
    ensures m.id == GetInt(rec, "as")
  {
    ExpandBgpRouter(rec, BgpRouter(GetInt(rec, "as"), BgpSettings(false)))
  }

  /** `resourceSetBgpRouter`: both attributes are overwritten from the remote object. */
  function FlattenBgpRouter(rec: Record, resp: BgpRouter): (r: Record)
    ensures KeepsOutside(rec, r, {"as", "log_neighbor_changes"})
    ensures r.Keys == rec.Keys + {"as", "log_neighbor_changes"}
    ensures r["as"] == Int(resp.id) && r["log_neighbor_changes"] == Bool(resp.bgp.logNeighborChanges)
  {
    rec["as" := Int(resp.id)]["log_neighbor_changes" := Bool(resp.bgp.logNeighborChanges)]
  }

  method ResourceSetBgpRouter(d: ResourceData, resp: BgpRouter)
    modifies d
    ensures d.attrs == FlattenBgpRouter(old(d.attrs), resp) && d.id == old(d.id)
  {
    d.Set("as", Int(resp.id));
    d.Set("log_neighbor_changes", Bool(resp.bgp.logNeighborChanges));
  }

  /** `resourceBgpRouterRead`. */
  method Read(d: ResourceData, store: Store<int, BgpRouter>) returns (diags: Diagnostics)
    modifies d
    ensures var key := GetInt(old(d.attrs), "as");
      if !store.Serves(key) then
        diags == Errorf(Retrieving, "BgpRouter") && d.attrs == old(d.attrs) && d.id == old(d.id)
      else
        diags == NoError && d.attrs == FlattenBgpRouter(old(d.attrs), store.objects[key]) && d.id == Itoa(key)
  {
    var id := GetInt(d.attrs, "as");
    var resp := store.Read(id);
    if resp.None? {
      return Errorf(Retrieving, "BgpRouter");
    }
    ResourceSetBgpRouter(d, resp.value);
    d.SetId(Itoa(id));
    diags := NoError;
  }

  /** `resourceBgpRouterCreate`: expand, create, then set the decimal ID and read back. */
  method Create(d: ResourceData, store: Store<int, BgpRouter>) returns (diags: Diagnostics)
    modifies d, store
    ensures store.refused == old(store.refused)
    ensures var key := GetInt(old(d.attrs), "as");
      if key in old(store.refused) then
        && diags == Errorf(Creating, "BgpRouter")
        && store.objects == old(store.objects) && d.attrs == old(d.attrs) && d.id == old(d.id)
      else
        && store.objects == old(store.objects)[key := BgpRouterObject(old(d.attrs))]
        && diags == NoError && d.id == Itoa(key)
        && d.attrs == FlattenBgpRouter(old(d.attrs), BgpRouterObject(old(d.attrs)))
  {
    var id := GetInt(d.attrs, "as");
    var params := BgpRouter(id, BgpSettings(false));
    params := GetCreateUpdateBgpRouterObject(d, params);
    var ok := store.Create(id, params);
    if !ok {
      return Errorf(Creating, "BgpRouter");
    }
    d.SetId(Itoa(id));
    diags := Read(d, store);
  }

  /** `resourceBgpRouterUpdate`: the same as Create, through the update call. */
  method Update(d: ResourceData, store: Store<int, BgpRouter>) returns (diags: Diagnostics)
    modifies d, store
    ensures store.refused == old(store.refused)
    ensures var key := GetInt(old(d.attrs), "as");
      if key in old(store.refused) then
        && diags == Errorf(Updating, "BgpRouter")
        && store.objects == old(store.objects) && d.attrs == old(d.attrs) && d.id == old(d.id)
      else
        && store.objects == old(store.objects)[key := BgpRouterObject(old(d.attrs))]
        && diags == NoError && d.id == Itoa(key)
        && d.attrs == FlattenBgpRouter(old(d.attrs), BgpRouterObject(old(d.attrs)))
  {
    var id := GetInt(d.attrs, "as");
    var params := BgpRouter(id, BgpSettings(false));
    params := GetCreateUpdateBgpRouterObject(d, params);
    var ok := store.Update(id, params);
    if !ok {
      return Errorf(Updating, "BgpRouter");
    }
    d.SetId(Itoa(id));
    diags := Read(d, store);
  }

  /** `resourceBgpRouterDelete`: the ID is cleared only when the remote delete succeeds. */
  method Delete(d: ResourceData, store: Store<int, BgpRouter>) returns (diags: Diagnostics)
    modifies d, store
    ensures store.refused == old(store.refused)
    ensures d.attrs == old(d.attrs)
    ensures var key := GetInt(old(d.attrs), "as");
      if old(store.Serves(key)) then
        diags == NoError && store.objects == old(store.objects) - {key} && d.id == ""
      else
        diags == Errorf(Deleting, "BgpRouter") && store.objects == old(store.objects) && d.id == old(d.id)
  {
    var id := GetInt(d.attrs, "as");
    var ok := store.Delete(id);
    if !ok {
      return Errorf(Deleting, "BgpRouter");
    }
    d.SetId("");
    diags := NoError;
  }

  /** No drift: `as` reads back as declared and the switch reads back as GetOk saw it. */
  lemma BgpRouterRoundTrip(rec: Record)
    requires WellFormedBgpRouter(rec)
    ensures var back := FlattenBgpRouter(rec, BgpRouterObject(rec));
      && back["as"] == rec["as"]
      && GetOk(back, "log_neighbor_changes") == GetOk(rec, "log_neighbor_changes")
  {
  }
}
