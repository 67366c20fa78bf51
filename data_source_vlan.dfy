/**
 * The `dataSourceL3Vlan` data source: it looks up a layer-3 VLAN by its integer id and
 * copies the device's answer into computed attributes. Unlike the interface VLAN
 * resource it writes the primary address with its dotted mask, not a prefix length.
 */
module DataSourceVlan {
  import opened Common
  import opened Strconv
  import opened Strings
  import opened Schema
  import opened Netmask
  import opened RemoteStore

  /**
   * `IP.Address.Primary` of the data source's `models.Vlan`: two plain strings. The
   * path to it is taken to be held by value, so the read reaches it on every answer.
   */
  datatype PrimaryAddress = PrimaryAddress(address: string, mask: string)

  /**
   * The `Vlan` part of `models.L3Vlan` that the data source reads: the integer VLAN
   * id (`Name`), the description, the shutdown text and the primary address.
   */
  datatype L3Vlan = L3Vlan(name: int, description: string, shutdown: string, primary: PrimaryAddress)

  /** The attributes a read of the data source may write. */
  const ReadKeys: set<string> := {"description", "ip", "name", "shutdown", "vlanid"}

  /**
   * The `ip` text `dataSetL3VlanPrimaryIP` writes: `address/mask` when both parts are
   * non-empty, nothing otherwise.
   */
  function JoinedPrimary(p: PrimaryAddress): (r: Option<string>)
    ensures r.Some? <==> p.address != "" && p.mask != ""
  {
    if p.address != "" && p.mask != "" then Some(p.address + "/" + p.mask) else None
  }

  /** The record after `dataSetL3VlanPrimaryIP`: `ip` is written only when the join is defined. */
  function FlattenPrimaryIP(rec: Record, p: PrimaryAddress): (r: Record)
    ensures KeepsOutside(rec, r, {"ip"})
    ensures "ip" in r <==> "ip" in rec || JoinedPrimary(p).Some?
    ensures JoinedPrimary(p).Some? ==> r["ip"] == Str(JoinedPrimary(p).value)
    ensures JoinedPrimary(p).None? && "ip" in rec ==> r["ip"] == rec["ip"]
  {
    match JoinedPrimary(p)
    case Some(text) => rec["ip" := Str(text)]
    case None => rec
  }

  /**
   * `dataSetL3VlanPrimaryIP`: the address and the mask are copied into locals (the
   * `&x != nil` guards always hold) and `ip` is set when neither is empty.
   */
  method DataSetL3VlanPrimaryIP(d: ResourceData, resp: L3Vlan)
    modifies d
    ensures d.attrs == FlattenPrimaryIP(old(d.attrs), resp.primary) && d.id == old(d.id)
  {
    var primaryIP := "";
    var primaryMask := "";
    primaryIP := resp.primary.address;
    primaryMask := resp.primary.mask;
    if primaryIP != "" && primaryMask != "" {
      d.Set("ip", Str(primaryIP + "/" + primaryMask));
    }
  }

  /**
   * The record after `dataSetL3Vlan`: description, name (the decimal id), vlanid and
   * shutdown are always written, then the primary address when it is complete.
   */
  function FlattenL3Vlan(rec: Record, resp: L3Vlan): (r: Record)
    ensures KeepsOutside(rec, r, ReadKeys)
    ensures r.Keys == rec.Keys + {"description", "name", "shutdown", "vlanid"} + (if JoinedPrimary(resp.primary).Some? then {"ip"} else {})
    ensures r["description"] == Str(resp.description) && r["shutdown"] == Str(resp.shutdown)
    ensures r["name"] == Str(Itoa(resp.name)) && r["vlanid"] == Int(resp.name)
    ensures JoinedPrimary(resp.primary).Some? ==> r["ip"] == Str(JoinedPrimary(resp.primary).value)
    ensures JoinedPrimary(resp.primary).None? && "ip" in rec ==> r["ip"] == rec["ip"]
  {
    var scalars := rec["description" := Str(resp.description)]
                      ["name" := Str(Itoa(resp.name))]
                      ["vlanid" := Int(resp.name)]
                      ["shutdown" := Str(resp.shutdown)];
    FlattenPrimaryIP(scalars, resp.primary)
  }

  /** `dataSetL3Vlan`, one `d.Set` after another. */
  method DataSetL3Vlan(d: ResourceData, resp: L3Vlan)
    modifies d
    ensures d.attrs == FlattenL3Vlan(old(d.attrs), resp) && d.id == old(d.id)
  {
    d.Set("description", Str(resp.description));
    d.Set("name", Str(Itoa(resp.name)));
    d.Set("vlanid", Int(resp.name));
    d.Set("shutdown", Str(resp.shutdown));
    DataSetL3VlanPrimaryIP(d, resp);
  }

  /**
   * `dataSourceL3VlanRead`: look the VLAN up by the declared vlanid; on failure return
   * the error before touching the record, otherwise copy the answer and set the ID to
   * the decimal of the requested id.
   */
  method Read(d: ResourceData, store: Store<int, L3Vlan>) returns (diags: Diagnostics)
    modifies d
    ensures var key := GetInt(old(d.attrs), "vlanid");
      if !store.Serves(key) then
        diags == Errorf(Retrieving, "L3 vlans") && d.attrs == old(d.attrs) && d.id == old(d.id)
      else
        diags == NoError && d.attrs == FlattenL3Vlan(old(d.attrs), store.objects[key]) && d.id == Itoa(key)
  {
    var id := GetInt(d.attrs, "vlanid");
    var resp := store.Read(id);
    if resp.None? {
      return Errorf(Retrieving, "L3 vlans");
    }
    DataSetL3Vlan(d, resp.value);
    d.SetId(Itoa(id));
    diags := NoError;
  }

  /**
   * When the device answers for the VLAN that was asked for, `vlanid` reads back as
   * declared and `name` and the ID are the same decimal text, which parses back to it.
   */
  lemma L3VlanIdRoundTrip(rec: Record, resp: L3Vlan)
    requires "vlanid" in rec && rec["vlanid"].Int? && resp.name == rec["vlanid"].i
    ensures var back := FlattenL3Vlan(rec, resp);
      && back["vlanid"] == rec["vlanid"]
      && back["name"] == Str(Itoa(GetInt(rec, "vlanid")))
      && Atoi(back["name"].s) == Some(rec["vlanid"].i)
  {
    AtoiItoa(resp.name);
  }

  /**
   * The `ip` text splits back at its one slash into the device's address and mask, as
   * long as neither part holds a slash itself.
   */
  lemma JoinedPrimarySplits(p: PrimaryAddress)
    requires p.address != "" && p.mask != ""
    requires '/' !in p.address && '/' !in p.mask
    ensures JoinedPrimary(p).Some?
    ensures Split(JoinedPrimary(p).value, '/') == [p.address, p.mask]
  {
    assert p.address + "/" + p.mask == p.address + ['/'] + p.mask;
    SplitAfterPart(p.address, p.mask, '/');
    SplitWithoutSep(p.mask, '/');
  }

  /** Reading the same answer twice leaves the record as one read left it. */
  lemma FlattenL3VlanIdempotent(rec: Record, resp: L3Vlan)
    ensures FlattenL3Vlan(FlattenL3Vlan(rec, resp), resp) == FlattenL3Vlan(rec, resp)
  {
    var once := FlattenL3Vlan(rec, resp);
    var twice := FlattenL3Vlan(once, resp);
    forall k | k in twice
      ensures k in once && twice[k] == once[k]
    {
    }
  }

  /**
   * The data source does not show the prefix length: for a device address whose mask is
   * the prefix mask of `n`, the interface VLAN resource reads back `address/n` while
   * the data source shows `address/` followed by the dotted mask, a different text.
   */
  lemma DataSourceShowsDottedMask(address: string, n: nat)
    requires address != "" && n <= 32
    ensures var shown := JoinedPrimary(PrimaryAddress(address, PrefixMask(n)));
      && SetCidr(IPAddress("", address, PrefixMask(n))).cidr == address + "/" + NatToString(n)
      && shown == Some(address + "/" + PrefixMask(n))
      && shown.value != SetCidr(IPAddress("", address, PrefixMask(n))).cidr
  {
    MaskRoundTrip(n);
    var mask := PrefixMask(n);
    var first := MaskOctetText(n, 0);
    assert mask == first + ['.'] + Join([MaskOctetText(n, 1), MaskOctetText(n, 2), MaskOctetText(n, 3)], '.');
    assert mask[|first|] == '.';
    var digits := NatToString(n);
    assert !AllDigits(mask) by {
      assert !IsDigit(mask[|first|]);
    }
    assert (address + "/" + mask)[|address| + 1..] == mask;
    assert (address + "/" + digits)[|address| + 1..] == digits;
  }
}
