/**
 * The `iosxe_vrf` resource: a VRF definition with its route distinguisher, its address
 * families and its route-targets. The declared route-target list interleaves import and
 * export entries; the device keeps them as two separate lists, and a read writes all
 * exports before all imports. The declared address-family list collapses to two
 * presence flags.
 */
module Vrf {
  import opened Common
  import opened Schema
  import opened RemoteStore

  /** `models.VRFRouteTarget`: the `ASN:nn` or `IP:nn` text, behind a pointer. */
  datatype RouteTarget = RouteTarget(asnIp: Option<string>)

  /** `models.VRFRouteTargetList`. */
  datatype RouteTargetList = RouteTargetList(imports: seq<RouteTarget>, exports: seq<RouteTarget>)

  /** `models.VRFAddressFamily`: whether the (empty) Ipv4 and Ipv6 structs are present. */
  datatype AddressFamily = AddressFamily(ipv4: bool, ipv6: bool)

  /** `models.VRF`. */
  datatype Vrf = Vrf(
    name: string,
    description: Option<string>,
    rd: Option<string>,
    addressFamily: Option<AddressFamily>,
    routeTarget: Option<RouteTargetList>)

  // ----- route-targets -----

  /** Block `b` belongs to the `community` list: `m["community"] == community` and a string `rt`. */
  predicate Selects(b: Block, community: string) {
    "community" in b && b["community"] == Str(community) && "rt" in b && b["rt"].Str?
  }

  /** The route-targets of the blocks that belong to `community`, in declared order. */
  function RtsOf(items: seq<Block>, community: string): (r: seq<RouteTarget>)
    ensures |r| <= |items|
    ensures forall i :: 0 <= i < |r| ==> r[i].asnIp.Some?
    decreases |items|
  {
    if |items| == 0 then []
    else
      var last := items[|items| - 1];
      RtsOf(items[..|items| - 1], community)
        + (if Selects(last, community) then [RouteTarget(Some(last["rt"].s))] else [])
  }

  /**
   * `expandVRFRouteTarget`'s result: nil for an empty list, else the import and the
   * export entries in two lists; blocks of any other community are dropped.
   */
  function ExpandRouteTarget(items: seq<Block>): (r: Option<RouteTargetList>)
    ensures r.None? <==> |items| == 0
  {
    if |items| == 0 then None
    else Some(RouteTargetList(RtsOf(items, "import"), RtsOf(items, "export")))
  }

  /** `expandVRFRouteTarget`: one pass over the blocks, appending to `imp` or `exp`. */
  method ExpandVrfRouteTarget(items: seq<Block>) returns (r: Option<RouteTargetList>)
    ensures r == ExpandRouteTarget(items)
  {
    if |items| == 0 {
      return None;
    }
    var imp: seq<RouteTarget> := [];
    var exp: seq<RouteTarget> := [];
    var i := 0;
    while i < |items|
      invariant 0 <= i <= |items|
      invariant imp == RtsOf(items[..i], "import")
      invariant exp == RtsOf(items[..i], "export")
    {
      var m := items[i];
      assert items[..i + 1][..i] == items[..i];
      if "community" in m && m["community"] == Str("import") {
        if "rt" in m && m["rt"].Str? {
          imp := imp + [RouteTarget(Some(m["rt"].s))];
        }
      }
      if "community" in m && m["community"] == Str("export") {
        if "rt" in m && m["rt"].Str? {
          exp := exp + [RouteTarget(Some(m["rt"].s))];
        }
      }
      i := i + 1;
    }
    assert items[..i] == items;
    r := Some(RouteTargetList(imp, exp));
  }

  /** `flattenVRFRouteTarget` dereferences every `AsnIP`. */
  predicate AllSet(rts: seq<RouteTarget>) {
    forall i :: 0 <= i < |rts| ==> rts[i].asnIp.Some?
  }

  /** The blocks written for one list, labelled with its community, in order. */
  function RtBlocks(rts: seq<RouteTarget>, community: string): (r: seq<Block>)
    requires AllSet(rts)
    ensures |r| == |rts|
    decreases |rts|
  {
    if |rts| == 0 then []
    else
      RtBlocks(rts[..|rts| - 1], community)
        + [map["community" := Str(community), "rt" := Str(rts[|rts| - 1].asnIp.value)]]
  }

  /** `flattenVRFRouteTarget`'s result: every export entry, then every import entry. */
  function FlattenRouteTarget(input: Option<RouteTargetList>): (r: seq<Block>)
    requires input.Some? ==> AllSet(input.value.exports) && AllSet(input.value.imports)
    ensures input.None? ==> r == []
    ensures input.Some? ==> |r| == |input.value.exports| + |input.value.imports|
  {
    match input
    case None => []
    case Some(l) => RtBlocks(l.exports, "export") + RtBlocks(l.imports, "import")
  }

  /** `flattenVRFRouteTarget`: the export loop, then the import loop. */
  method FlattenVrfRouteTarget(input: Option<RouteTargetList>) returns (results: seq<Block>)
    requires input.Some? ==> AllSet(input.value.exports) && AllSet(input.value.imports)
    ensures results == FlattenRouteTarget(input)
  {
    results := [];
    if input.None? {
      return;
    }
    var exports := input.value.exports;
    var imports := input.value.imports;
    var i := 0;
    while i < |exports|
      invariant 0 <= i <= |exports|
      invariant results == RtBlocks(exports[..i], "export")
    {
      assert exports[..i + 1][..i] == exports[..i];
      results := results + [map["community" := Str("export"), "rt" := Str(exports[i].asnIp.value)]];
      i := i + 1;
    }
    assert exports[..i] == exports;
    var exported := results;
    var j := 0;
    while j < |imports|
      invariant 0 <= j <= |imports|
      invariant results == exported + RtBlocks(imports[..j], "import")
    {
      assert imports[..j + 1][..j] == imports[..j];
      results := results + [map["community" := Str("import"), "rt" := Str(imports[j].asnIp.value)]];
      j := j + 1;
    }
    assert imports[..j] == imports;
  }

  /** The declared blocks of one community, in declared order. */
  function Community(items: seq<Block>, community: string): (r: seq<Block>)
    ensures |r| <= |items|
    decreases |items|
  {
    if |items| == 0 then []
    else
      var last := items[|items| - 1];
      Community(items[..|items| - 1], community) + (if Selects(last, community) then [last] else [])
  }

  /** A route-target block as the schema delivers it: a community in export/import and a string rt. */
  predicate RtBlock(b: Block) {
    && b.Keys == {"community", "rt"}
    && b["community"].Str? && b["community"].s in {"export", "import"}
    && b["rt"].Str?
  }

  predicate RtBlocksValid(items: seq<Block>) {
    forall i :: 0 <= i < |items| ==> RtBlock(items[i])
  }

  /** A valid block belongs to exactly one of the two lists. */
  lemma SelectsOne(b: Block)
    requires RtBlock(b)
    ensures Selects(b, "export") != Selects(b, "import")
  {
    assert "export"[0] != "import"[0];
  }

  /** Flattening the entries of one community gives back that community's declared blocks. */
  lemma {:induction false} RtBlocksOfRts(items: seq<Block>, community: string)
    requires RtBlocksValid(items)
    ensures RtBlocks(RtsOf(items, community), community) == Community(items, community)
    decreases |items|
  {
    if |items| > 0 {
      var init := items[..|items| - 1];
      var last := items[|items| - 1];
      assert RtBlocksValid(init);
      RtBlocksOfRts(init, community);
      var rts := RtsOf(items, community);
      if Selects(last, community) {
        assert rts[..|rts| - 1] == RtsOf(init, community);
        var b: Block := map["community" := Str(community), "rt" := Str(last["rt"].s)];
        assert b.Keys == last.Keys;
        assert b == last;
      } else {
        assert rts == RtsOf(init, community);
      }
    }
  }

  /**
   * A route-target list survives expand then flatten up to order: the result is the
   * export blocks, then the import blocks, each community in its declared order.
   */
  lemma RouteTargetRoundTrip(items: seq<Block>)
    requires RtBlocksValid(items) && |items| > 0
    ensures FlattenRouteTarget(ExpandRouteTarget(items)) == Community(items, "export") + Community(items, "import")
  {
    RtBlocksOfRts(items, "export");
    RtBlocksOfRts(items, "import");
  }

  /** Splitting valid blocks by community loses none and invents none: a permutation. */
  lemma {:induction false} CommunitiesPermutation(items: seq<Block>)
    requires RtBlocksValid(items)
    ensures multiset(Community(items, "export") + Community(items, "import")) == multiset(items)
    decreases |items|
  {
    if |items| > 0 {
      var init := items[..|items| - 1];
      var last := items[|items| - 1];
      assert RtBlocksValid(init) by {
        forall i | 0 <= i < |init| ensures RtBlock(init[i]) {
          assert init[i] == items[i];
        }
      }
      CommunitiesPermutation(init);
      SelectsOne(last);
      assert items == init + [last];
    }
  }

  /** No export block follows an import block. */
  predicate ExportsFirst(items: seq<Block>) {
    forall i, j :: 0 <= i < j < |items| && Selects(items[i], "import") ==> !Selects(items[j], "export")
  }

  lemma {:induction false} NoneSelected(items: seq<Block>, community: string)
    requires forall i :: 0 <= i < |items| ==> !Selects(items[i], community)
    ensures Community(items, community) == []
    decreases |items|
  {
    if |items| > 0 {
      NoneSelected(items[..|items| - 1], community);
    }
  }

  /** A declared list that already has its exports first reads back exactly. */
  lemma {:induction false} ExportsFirstRoundTrip(items: seq<Block>)
    requires RtBlocksValid(items) && ExportsFirst(items)
    ensures Community(items, "export") + Community(items, "import") == items
    decreases |items|
  {
    if |items| > 0 {
      var init := items[..|items| - 1];
      var last := items[|items| - 1];
      InitValid(items);
      ExportsFirstRoundTrip(init);
      SelectsOne(last);
      if Selects(last, "export") {
        NoImportBeforeExport(items, init);
        NoneSelected(init, "import");
      }
      assert items == init + [last];
    }
  }

  lemma InitValid(items: seq<Block>)
    requires RtBlocksValid(items) && ExportsFirst(items) && |items| > 0
    ensures RtBlocksValid(items[..|items| - 1]) && ExportsFirst(items[..|items| - 1])
  {
  }

  lemma NoImportBeforeExport(items: seq<Block>, init: seq<Block>)
    requires ExportsFirst(items) && |items| > 0 && Selects(items[|items| - 1], "export")
    requires init == items[..|items| - 1]
    ensures forall i :: 0 <= i < |init| ==> !Selects(init[i], "import")
  {
  }

  /** The interleaving is lost: an import declared before an export reads back after it. */
  lemma InterleavingLost()
    ensures var imp: Block := map["community" := Str("import"), "rt" := Str("65000:1")];
      var exp: Block := map["community" := Str("export"), "rt" := Str("65000:2")];
      FlattenRouteTarget(ExpandRouteTarget([imp, exp])) == [exp, imp]
  {
    var imp: Block := map["community" := Str("import"), "rt" := Str("65000:1")];
    var exp: Block := map["community" := Str("export"), "rt" := Str("65000:2")];
    SelectsOne(imp);
    SelectsOne(exp);
    RouteTargetRoundTrip([imp, exp]);
    CommunityOfPair(imp, exp, "export");
    CommunityOfPair(imp, exp, "import");
  }

  lemma CommunityOfPair(a: Block, b: Block, community: string)
    ensures Community([a, b], community)
      == (if Selects(a, community) then [a] else []) + (if Selects(b, community) then [b] else [])
  {
    assert [a, b][..1] == [a] && [a][..0] == [];
  }

  // ----- address families -----

  /** Every block carries an integer `ip_version` (`m["ip_version"].(int)` would panic otherwise). */
  predicate AfBlocks(items: seq<Block>) {
    forall i :: 0 <= i < |items| ==> "ip_version" in items[i] && items[i]["ip_version"].Int?
  }

  /** Some declared block names version `v`. */
  predicate Declares(items: seq<Block>, v: int)
    requires AfBlocks(items)
  {
    exists i :: 0 <= i < |items| && items[i]["ip_version"].i == v
  }

  /** `expandVRFAddressFamily`'s result: nil when empty, else which of 4 and 6 are declared. */
  function ExpandAddressFamily(items: seq<Block>): (r: Option<AddressFamily>)
    requires AfBlocks(items)
    ensures r.None? <==> |items| == 0
  {
    if |items| == 0 then None
    else Some(AddressFamily(Declares(items, 4), Declares(items, 6)))
  }

  /** `expandVRFAddressFamily`: one pass that sets a flag for each 4 or 6 it meets. */
  method ExpandVrfAddressFamily(items: seq<Block>) returns (r: Option<AddressFamily>)
    requires AfBlocks(items)
    ensures r == ExpandAddressFamily(items)
  {
    if |items| == 0 {
      return None;
    }
    var af := AddressFamily(false, false);
    var i := 0;
    while i < |items|
      invariant 0 <= i <= |items|
      invariant af.ipv4 <==> exists j :: 0 <= j < i && items[j]["ip_version"].i == 4
      invariant af.ipv6 <==> exists j :: 0 <= j < i && items[j]["ip_version"].i == 6
    {
      var m := items[i];
      if m["ip_version"].i == 4 {
        af := af.(ipv4 := true);
      }
      if m["ip_version"].i == 6 {
        af := af.(ipv6 := true);
      }
      i := i + 1;
    }
    r := Some(af);
  }

  function VersionBlock(v: int): Block {
    map["ip_version" := Int(v)]
  }

  /** `flattenVRFAddressFamily`: at most a 4 block then a 6 block; nothing for nil. */
  function FlattenAddressFamily(input: Option<AddressFamily>): (r: seq<Block>)
    ensures |r| <= 2 && AfBlocks(r)
    ensures forall i, j :: 0 <= i < j < |r| ==> r[i]["ip_version"].i < r[j]["ip_version"].i
  {
    match input
    case None => []
    case Some(af) =>
      (if af.ipv4 then [VersionBlock(4)] else []) + (if af.ipv6 then [VersionBlock(6)] else [])
  }

  method FlattenVrfAddressFamily(input: Option<AddressFamily>) returns (results: seq<Block>)
    ensures results == FlattenAddressFamily(input)
  {
    results := [];
    if input.Some? {
      if input.value.ipv4 {
        results := results + [map["ip_version" := Int(4)]];
      }
      if input.value.ipv6 {
        results := results + [map["ip_version" := Int(6)]];
      }
    }
  }

  /** The versions a block list names. */
  function Versions(items: seq<Block>): set<int>
    requires AfBlocks(items)
  {
    set i | 0 <= i < |items| :: items[i]["ip_version"].i
  }

  /**
   * Address families survive expand then flatten as a set restricted to 4 and 6: other
   * versions are ignored, duplicates collapse, and the order becomes 4 then 6.
   */
  lemma AddressFamilyRoundTrip(items: seq<Block>)
    requires AfBlocks(items) && |items| > 0
    ensures Versions(FlattenAddressFamily(ExpandAddressFamily(items))) == Versions(items) * {4, 6}
  {
    var back := FlattenAddressFamily(ExpandAddressFamily(items));
    assert 4 in Versions(items) <==> Declares(items, 4) by {
      if Declares(items, 4) {
        var i :| 0 <= i < |items| && items[i]["ip_version"].i == 4;
        assert items[i]["ip_version"].i in Versions(items);
      }
    }
    assert 6 in Versions(items) <==> Declares(items, 6) by {
      if Declares(items, 6) {
        var i :| 0 <= i < |items| && items[i]["ip_version"].i == 6;
        assert items[i]["ip_version"].i in Versions(items);
      }
    }
    forall v | v in Versions(back) ensures v in Versions(items) * {4, 6} {
      var i :| 0 <= i < |back| && back[i]["ip_version"].i == v;
    }
    forall v | v in Versions(items) * {4, 6} ensures v in Versions(back) {
      if v == 4 {
        assert back[0]["ip_version"].i == 4;
      } else {
        assert back[|back| - 1]["ip_version"].i == 6;
      }
    }
  }

  // ----- the resource -----

  /** A declared record the schema accepts. */
  predicate WellFormedVrf(rec: Record) {
    && StrAttr(rec, "description")
    && "name" in rec && rec["name"].Str? && rec["name"].s != ""
    && "rd" in rec && rec["rd"].Str? && rec["rd"].s != ""
    && ListAttr(rec, "address_family") && AfBlocks(GetList(rec, "address_family"))
    && ListAttr(rec, "route_target") && RtBlocksValid(GetList(rec, "route_target"))
  }

  /** Schema typing the expansion relies on: integer `ip_version` in every address family. */
  predicate VrfAttrs(rec: Record) {
    AfBlocks(GetList(rec, "address_family"))
  }

  /**
   * `getCreateUpdateVRFObject`: description, name, rd, the address families and the
   * route-targets, each only when GetOk reports it set.
   */
  function ExpandVrf(rec: Record, m: Vrf): (r: Vrf)
    requires VrfAttrs(rec)
    ensures OkString(rec, "description").None? ==> r.description == m.description
    ensures OkString(rec, "rd").None? ==> r.rd == m.rd
    ensures OkString(rec, "rd").Some? ==> r.rd == OkString(rec, "rd")
    ensures GetOk(rec, "route_target").None? ==> r.routeTarget == m.routeTarget
    ensures GetOk(rec, "address_family").None? ==> r.addressFamily == m.addressFamily
  {
    m.(description := OkString(rec, "description").Or(m.description),
       name := if OkString(rec, "name").Some? then OkString(rec, "name").value else m.name,
       rd := OkString(rec, "rd").Or(m.rd),
       addressFamily :=
         if GetOk(rec, "address_family").Some? then ExpandAddressFamily(GetList(rec, "address_family"))
         else m.addressFamily,
       routeTarget :=
         if GetOk(rec, "route_target").Some? then ExpandRouteTarget(GetList(rec, "route_target"))
         else m.routeTarget)
  }

  method GetCreateUpdateVrfObject(d: ResourceData, m: Vrf) returns (r: Vrf)
    requires VrfAttrs(d.attrs)
    ensures r == ExpandVrf(d.attrs, m)
  {
    r := m;
    var description := OkString(d.attrs, "description");
    if description.Some? {
      r := r.(description := Some(description.value));
    }
    var name := OkString(d.attrs, "name");
    if name.Some? {
      r := r.(name := name.value);
    }
    var rd := OkString(d.attrs, "rd");
    if rd.Some? {
      r := r.(rd := Some(rd.value));
    }
    if GetOk(d.attrs, "address_family").Some? {
      var o := ExpandVrfAddressFamily(GetList(d.attrs, "address_family"));
      r := r.(addressFamily := o);
    }
    if GetOk(d.attrs, "route_target").Some? {
      var o := ExpandVrfRouteTarget(GetList(d.attrs, "route_target"));
      r := r.(routeTarget := o);
    }
  }

  /**
   * The object Create and Update send: `Name = name` and the expansion. Its route-targets
   * all carry a value, so the read-back after a create never dereferences a nil `AsnIP`.
   */
  function VrfObject(rec: Record): (m: Vrf)
    requires VrfAttrs(rec)
    ensures m.name == GetString(rec, "name")
    ensures m.description == OkString(rec, "description") && m.rd == OkString(rec, "rd")
    ensures m.routeTarget.Some? <==> |GetList(rec, "route_target")| > 0
    ensures ReadableVrf(m)
  {
    ExpandVrf(rec, Vrf(GetString(rec, "name"), None, None, None, None))
  }

  /** `resourceSetVRF` dereferences every route-target's `AsnIP`. */
  predicate ReadableVrf(resp: Vrf) {
    resp.routeTarget.Some? ==> AllSet(resp.routeTarget.value.exports) && AllSet(resp.routeTarget.value.imports)
  }

  /**
   * The record after `resourceSetVRF`: description and rd only when the remote value is
   * present; name, address families and route-targets always.
   */
  function FlattenVrf(rec: Record, resp: Vrf): (r: Record)
    requires ReadableVrf(resp)
    ensures KeepsOutside(rec, r, {"description", "rd", "name", "address_family", "route_target"})
    ensures resp.description.None? ==> ("description" in r <==> "description" in rec)
    ensures resp.rd.None? ==> ("rd" in r <==> "rd" in rec)
    ensures resp.rd.None? && "rd" in rec ==> r["rd"] == rec["rd"]
    ensures "name" in r && "address_family" in r && "route_target" in r
  {
    var r1 := if resp.description.Some? then rec["description" := Str(resp.description.value)] else rec;
    var r2 := if resp.rd.Some? then r1["rd" := Str(resp.rd.value)] else r1;
    r2["name" := Str(resp.name)]
      ["address_family" := List(FlattenAddressFamily(resp.addressFamily))]
      ["route_target" := List(FlattenRouteTarget(resp.routeTarget))]
  }

  method ResourceSetVrf(d: ResourceData, resp: Vrf)
    requires ReadableVrf(resp)
    modifies d
    ensures d.attrs == FlattenVrf(old(d.attrs), resp) && d.id == old(d.id)
  {
    if resp.description.Some? {
      d.Set("description", Str(resp.description.value));
    }
    if resp.rd.Some? {
      d.Set("rd", Str(resp.rd.value));
    }
    d.Set("name", Str(resp.name));
    var af := FlattenVrfAddressFamily(resp.addressFamily);
    d.Set("address_family", List(af));
    var rt := FlattenVrfRouteTarget(resp.routeTarget);
    d.Set("route_target", List(rt));
  }

  /** `resourceVRFRead`; its error text names a "Vlan". */
  method Read(d: ResourceData, store: Store<string, Vrf>) returns (diags: Diagnostics)
    modifies d
    ensures var key := GetString(old(d.attrs), "name");
      if !store.Serves(key) then
        diags == Errorf(Retrieving, "Vlan") && d.attrs == old(d.attrs) && d.id == old(d.id)
      else if !ReadableVrf(store.objects[key]) then
        diags.Panic? && d.attrs == old(d.attrs) && d.id == old(d.id)
      else
        diags == NoError && d.attrs == FlattenVrf(old(d.attrs), store.objects[key]) && d.id == key
  {
    var id := GetString(d.attrs, "name");
    var resp := store.Read(id);
    if resp.None? {
      return Errorf(Retrieving, "Vlan");
    }
    if !ReadableVrf(resp.value) {
      return Panic("nil pointer dereference");
    }
    ResourceSetVrf(d, resp.value);
    d.SetId(id);
    diags := NoError;
  }

  /** `resourceVRFCreate`: expand, create, then set the ID and read back. */
  method Create(d: ResourceData, store: Store<string, Vrf>) returns (diags: Diagnostics)
    requires VrfAttrs(d.attrs)
    modifies d, store
    ensures store.refused == old(store.refused)
    ensures var key := GetString(old(d.attrs), "name");
      if key in old(store.refused) then
        && diags == Errorf(Creating, "Vlan")
        && store.objects == old(store.objects) && d.attrs == old(d.attrs) && d.id == old(d.id)
      else
        && store.objects == old(store.objects)[key := VrfObject(old(d.attrs))]
        && d.id == key
        && diags == NoError
        && d.attrs == FlattenVrf(old(d.attrs), VrfObject(old(d.attrs)))
  {
    var id := GetString(d.attrs, "name");
    var params := Vrf(id, None, None, None, None);
    params := GetCreateUpdateVrfObject(d, params);
    var ok := store.Create(id, params);
    if !ok {
      return Errorf(Creating, "Vlan");
    }
    d.SetId(id);
    diags := Read(d, store);
  }

  /** `resourceVRFUpdate`: the same as Create, through the update call. */
  method Update(d: ResourceData, store: Store<string, Vrf>) returns (diags: Diagnostics)
    requires VrfAttrs(d.attrs)
    modifies d, store
    ensures store.refused == old(store.refused)
    ensures var key := GetString(old(d.attrs), "name");
      if key in old(store.refused) then
        && diags == Errorf(Updating, "Vlan")
        && store.objects == old(store.objects) && d.attrs == old(d.attrs) && d.id == old(d.id)
      else
        && store.objects == old(store.objects)[key := VrfObject(old(d.attrs))]
        && d.id == key
        && diags == NoError
        && d.attrs == FlattenVrf(old(d.attrs), VrfObject(old(d.attrs)))
  {
    var id := GetString(d.attrs, "name");
    var params := Vrf(id, None, None, None, None);
    params := GetCreateUpdateVrfObject(d, params);
    var ok := store.Update(id, params);
    if !ok {
      return Errorf(Updating, "Vlan");
    }
    d.SetId(id);
    diags := Read(d, store);
  }

  /** `resourceVRFDelete`: the ID is cleared only when the remote delete succeeds. */
  method Delete(d: ResourceData, store: Store<string, Vrf>) returns (diags: Diagnostics)
    modifies d, store
    ensures store.refused == old(store.refused)
    ensures d.attrs == old(d.attrs)
    ensures var key := GetString(old(d.attrs), "name");
      if old(store.Serves(key)) then
        diags == NoError && store.objects == old(store.objects) - {key} && d.id == ""
      else
        diags == Errorf(Deleting, "Vlan") && store.objects == old(store.objects) && d.id == old(d.id)
  {
    var id := GetString(d.attrs, "name");
    var ok := store.Delete(id);
    if !ok {
      return Errorf(Deleting, "Vlan");
    }
    d.SetId("");
    diags := NoError;
  }

  /** What Create sends for a well-formed record, field by field. */
  lemma VrfObjectFields(rec: Record)
    requires WellFormedVrf(rec)
    ensures var m := VrfObject(rec);
      var rts := GetList(rec, "route_target");
      var afs := GetList(rec, "address_family");
      && m.name == rec["name"].s && m.rd == Some(rec["rd"].s)
      && (OkString(rec, "description").Some? ==> m.description == OkString(rec, "description"))
      && (OkString(rec, "description").None? ==> m.description.None?)
      && m.routeTarget == (if |rts| > 0 then ExpandRouteTarget(rts) else None)
      && m.addressFamily == (if |afs| > 0 then ExpandAddressFamily(afs) else None)
  {
  }

  /** What `resourceSetVRF` writes, attribute by attribute. */
  lemma FlattenVrfFields(rec: Record, resp: Vrf)
    requires ReadableVrf(resp)
    ensures var back := FlattenVrf(rec, resp);
      && back["name"] == Str(resp.name)
      && (resp.rd.Some? ==> back["rd"] == Str(resp.rd.value))
      && (resp.description.Some? ==> back["description"] == Str(resp.description.value))
      && (resp.description.None? ==> GetOk(back, "description") == GetOk(rec, "description"))
      && back["route_target"] == List(FlattenRouteTarget(resp.routeTarget))
      && back["address_family"] == List(FlattenAddressFamily(resp.addressFamily))
  {
  }

  /**
   * What a VRF reads back after Create: description, name and rd as declared; the
   * address families as their set of versions within {4, 6}; the route-targets as the
   * declared exports followed by the declared imports, which is the declared list
   * itself exactly when it already had its exports first.
   */
  lemma VrfRoundTrip(rec: Record)
    requires WellFormedVrf(rec)
    ensures ReadableVrf(VrfObject(rec))
    ensures var back := FlattenVrf(rec, VrfObject(rec));
      var rts := GetList(rec, "route_target");
      var afs := GetList(rec, "address_family");
      && GetOk(back, "description") == GetOk(rec, "description")
      && back["name"] == rec["name"]
      && back["rd"] == rec["rd"]
      && back["route_target"] == List(Community(rts, "export") + Community(rts, "import"))
      && (ExportsFirst(rts) ==> back["route_target"] == List(rts))
      && AfBlocks(back["address_family"].items)
      && Versions(back["address_family"].items) == Versions(afs) * {4, 6}
  {
    var rts := GetList(rec, "route_target");
    var afs := GetList(rec, "address_family");
    var m := VrfObject(rec);
    VrfObjectFields(rec);
    FlattenVrfFields(rec, m);
    var rtBack := FlattenRouteTarget(m.routeTarget);
    assert rtBack == Community(rts, "export") + Community(rts, "import") by {
      if |rts| > 0 {
        RouteTargetRoundTrip(rts);
      }
    }
    if ExportsFirst(rts) {
      ExportsFirstRoundTrip(rts);
    }
    if |afs| > 0 {
      AddressFamilyRoundTrip(afs);
    }
  }
}
