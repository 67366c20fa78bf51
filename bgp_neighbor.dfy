/**
 * The `iosxe_bgp_neighbor` resource. One declared record feeds two remote objects
 * under the same (AS, neighbor ip) path: the neighbor itself (description, toggles,
 * ebgp-multihop, local-as, remote-as, timers) and the neighbor's address-family
 * configuration (default-originate, local-as, prefix-lists, remove-private-as,
 * soft-reconfiguration). Create and Update write the neighbor first and the
 * configuration second; Read reads both back in the same order.
 */
module BgpNeighbor {
  import opened Common
  import opened Schema
  import opened Interfaces
  import opened RemoteStore

  /** `models.EbgpMultihop`: the hop limit, behind a pointer. */
  datatype EbgpMultihop = EbgpMultihop(maxHop: Option<int>)

  /** `models.LocalAs` of the neighbor object: the local AS, behind a pointer. */
  datatype LocalAs = LocalAs(asNo: Option<int>)

  /** `models.Timers`. */
  datatype Timers = Timers(keepaliveInterval: int, holdtime: int, minimumNeighborHold: int)

  /** `models.BgpNeighbor`; toggles are explicit-null markers, containers are pointers. */
  datatype Neighbor = Neighbor(
    id: string,
    description: Option<string>,
    disableConnectedCheck: Option<Marker>,
    ebgpMultihop: Option<EbgpMultihop>,
    localAs: Option<LocalAs>,
    remoteAs: int,
    shutdown: Option<Marker>,
    timers: Option<Timers>)

  /** `models.PrefixList`: direction (`in`/`out`) and list name. */
  datatype PrefixList = PrefixList(inout: string, prefixListName: string)

  /**
   * `models.BgpNeighborConfig`; toggles are `*struct{}` presence (`Some(())`), local-as
   * and the prefix-list slice are held by value.
   */
  datatype NeighborConfig = NeighborConfig(
    id: string,
    defaultOriginate: Option<()>,
    localAsNo: int,
    prefixList: seq<PrefixList>,
    removePrivateAs: Option<()>,
    softReconfiguration: Option<string>)

  /** `models.BgpNeighbor{}` with `Neighbor.ID = id`. */
  function NewNeighbor(id: string): Neighbor {
    Neighbor(id, None, None, None, None, 0, None, None)
  }

  /** `models.BgpNeighborConfig{}` with `NeighborConfig.ID = id`. */
  function NewNeighborConfig(id: string): NeighborConfig {
    NeighborConfig(id, None, 0, [], None, None)
  }

  /** The remote path of both objects: the router's AS and the neighbor ip. */
  datatype NeighborKey = NeighborKey(asn: int, ip: string)

  function KeyOf(rec: Record): NeighborKey {
    NeighborKey(GetInt(rec, "as"), GetString(rec, "ip"))
  }

  // ----- timers -----

  /** A `timers` block as the schema delivers it: the three integer attributes. */
  predicate TimersBlock(b: Block) {
    && b.Keys == {"keepalive_interval", "holdtime", "minimum_neighbor_hold"}
    && b["keepalive_interval"].Int? && b["holdtime"].Int? && b["minimum_neighbor_hold"].Int?
  }

  predicate TimersBlocks(items: seq<Block>) {
    forall i :: 0 <= i < |items| ==> TimersBlock(items[i])
  }

  function TimersOf(b: Block): Timers
    requires TimersBlock(b)
  {
    Timers(b["keepalive_interval"].i, b["holdtime"].i, b["minimum_neighbor_hold"].i)
  }

  /** `expandBgpNeighborTimers`, reading the schema's own key: nil when empty, else the first block. */
  function ExpandTimers(items: seq<Block>): (r: Option<Timers>)
    requires TimersBlocks(items)
    ensures r.None? <==> |items| == 0
    ensures r.Some? ==>
      && r.value.keepaliveInterval == items[0]["keepalive_interval"].i
      && r.value.holdtime == items[0]["holdtime"].i
      && r.value.minimumNeighborHold == items[0]["minimum_neighbor_hold"].i
  {
    if |items| == 0 then None else Some(TimersOf(items[0]))
  }

  /** `expandBgpNeighborTimers`: converts every block, then keeps only the first. */
  method ExpandBgpNeighborTimers(items: seq<Block>) returns (r: Option<Timers>)
    requires TimersBlocks(items)
    ensures r == ExpandTimers(items)
  {
    if |items| == 0 {
      return None;
    }
    var acc: seq<Timers> := [];
    var i := 0;
    while i < |items|
      invariant 0 <= i <= |items|
      invariant |acc| == i
      invariant forall j :: 0 <= j < i ==> acc[j] == TimersOf(items[j])
    {
      var m := items[i];
      var temp := Timers(0, 0, 0);
      temp := temp.(keepaliveInterval := m["keepalive_interval"].i);
      temp := temp.(holdtime := m["holdtime"].i);
      temp := temp.(minimumNeighborHold := m["minimum_neighbor_hold"].i);
      acc := acc + [temp];
      i := i + 1;
    }
    r := Some(acc[0]);
  }

  function TimersBlockOf(v: Timers): Block {
    map["keepalive_interval" := Int(v.keepaliveInterval), "holdtime" := Int(v.holdtime),
        "minimum_neighbor_hold" := Int(v.minimumNeighborHold)]
  }

  /** `flattenBgpNeighborTimers`, writing the schema's own keys: nothing for nil, else one block. */
  function FlattenTimers(input: Option<Timers>): (r: seq<Block>)
    ensures |r| == if input.Some? then 1 else 0
    ensures TimersBlocks(r)
  {
    if input.Some? then [TimersBlockOf(input.value)] else []
  }

  /** `flattenBgpNeighborTimers`: a loop over the one-element slice `{*input}`. */
  method FlattenBgpNeighborTimers(input: Option<Timers>) returns (results: seq<Block>)
    ensures results == FlattenTimers(input)
  {
    results := [];
    if input.Some? {
      var vs := [input.value];
      for i := 0 to |vs|
        invariant results == seq(i, j requires 0 <= j < i => TimersBlockOf(vs[j]))
      {
        var v := vs[i];
        var output: Block := map[];
        output := output["keepalive_interval" := Int(v.keepaliveInterval)];
        output := output["holdtime" := Int(v.holdtime)];
        output := output["minimum_neighbor_hold" := Int(v.minimumNeighborHold)];
        assert output == TimersBlockOf(v);
        results := results + [output];
      }
    }
  }

  /**
   * Timers survive expand then flatten as their first block: an empty list reads back
   * empty and a one-block list (the schema's maximum) reads back exactly.
   */
  lemma TimersRoundTrip(items: seq<Block>)
    requires TimersBlocks(items)
    ensures FlattenTimers(ExpandTimers(items)) == if |items| == 0 then [] else [items[0]]
    ensures |items| <= 1 ==> FlattenTimers(ExpandTimers(items)) == items
  {
    if |items| > 0 {
      var b := items[0];
      assert TimersBlockOf(TimersOf(b)).Keys == b.Keys;
      assert TimersBlockOf(TimersOf(b)) == b;
      if |items| == 1 {
        assert items == [b];
      }
    }
  }

  /** The block key `expandBgpNeighborTimers` reads the minimum hold from, as written. */
  const MinimumHoldKeyAsWritten: string := "minimum-neighbor-hold"

  /** The three `.(int)` type assertions of the loop body succeed on `b`, as written. */
  predicate TimersAssertionsHold(b: Block) {
    && "keepalive_interval" in b && b["keepalive_interval"].Int?
    && "holdtime" in b && b["holdtime"].Int?
    && MinimumHoldKeyAsWritten in b && b[MinimumHoldKeyAsWritten].Int?
  }

  /** An expansion that either builds a value or ends in a Go runtime panic. */
  datatype Expanded<T> = Built(value: T) | Panicked

  /**
   * `expandBgpNeighborTimers` as written: the loop asserts an `int` under the key
   * `minimum-neighbor-hold` in every block, and a failed assertion panics.
   */
  function ExpandTimersAsWritten(items: seq<Block>): (r: Expanded<Option<Timers>>)
    ensures r.Built? && |items| > 0 ==> r.value.Some?
  {
    if |items| == 0 then Built(None)
    else if exists i :: 0 <= i < |items| && !TimersAssertionsHold(items[i]) then Panicked
    else
      var b := items[0];
      Built(Some(Timers(b["keepalive_interval"].i, b["holdtime"].i, b[MinimumHoldKeyAsWritten].i)))
  }

  /** The key the expansion reads is not one of the block's schema keys. */
  lemma MinimumHoldKeyOutsideSchema()
    ensures MinimumHoldKeyAsWritten !in {"keepalive_interval", "holdtime", "minimum_neighbor_hold"}
  {
    assert MinimumHoldKeyAsWritten[7] == '-' && "minimum_neighbor_hold"[7] == '_';
    assert |MinimumHoldKeyAsWritten| != |"keepalive_interval"| && |MinimumHoldKeyAsWritten| != |"holdtime"|;
  }

  /** As written, any non-empty `timers` list the schema accepts panics the expansion. */
  lemma TimersAsWrittenPanics(items: seq<Block>)
    requires TimersBlocks(items) && |items| > 0
    ensures ExpandTimersAsWritten(items).Panicked?
  {
    MinimumHoldKeyOutsideSchema();
    assert !TimersAssertionsHold(items[0]);
  }

  /** `flattenBgpNeighborTimers` as written: the block uses hyphenated keys. */
  function FlattenTimersAsWritten(input: Option<Timers>): (r: seq<Block>)
    ensures |r| == if input.Some? then 1 else 0
  {
    if input.None? then []
    else
      var v := input.value;
      [map["keepalive-interval" := Int(v.keepaliveInterval), "holdtime" := Int(v.holdtime),
           MinimumHoldKeyAsWritten := Int(v.minimumNeighborHold)]]
  }

  /** As written, the block a read writes for any remote timers is not a schema block. */
  lemma FlattenedTimersOutsideSchema(t: Timers)
    ensures !TimersBlock(FlattenTimersAsWritten(Some(t))[0])
  {
    var b := FlattenTimersAsWritten(Some(t))[0];
    MinimumHoldKeyOutsideSchema();
    assert MinimumHoldKeyAsWritten in b.Keys;
  }

  // ----- prefix-lists -----

  /** A `prefix_list` block as the schema delivers it: string `direction` and `name`. */
  predicate PrefixListBlock(b: Block) {
    b.Keys == {"direction", "name"} && b["direction"].Str? && b["name"].Str?
  }

  predicate PrefixListBlocks(items: seq<Block>) {
    forall i :: 0 <= i < |items| ==> PrefixListBlock(items[i])
  }

  function PrefixListOf(b: Block): PrefixList
    requires PrefixListBlock(b)
  {
    PrefixList(b["direction"].s, b["name"].s)
  }

  /** `expandBgpNeighborConfigPrefixList`: nil when empty, else one entry per block, in order. */
  function ExpandPrefixLists(items: seq<Block>): (r: Option<seq<PrefixList>>)
    requires PrefixListBlocks(items)
    ensures r.None? <==> |items| == 0
    ensures r.Some? ==> |r.value| == |items|
    ensures r.Some? ==> forall i :: 0 <= i < |items| ==>
           r.value[i].inout == items[i]["direction"].s && r.value[i].prefixListName == items[i]["name"].s
  {
    if |items| == 0 then None
    else Some(seq(|items|, i requires 0 <= i < |items| => PrefixListOf(items[i])))
  }

  method ExpandBgpNeighborConfigPrefixList(items: seq<Block>) returns (r: Option<seq<PrefixList>>)
    requires PrefixListBlocks(items)
    ensures r == ExpandPrefixLists(items)
  {
    if |items| == 0 {
      return None;
    }
    var acc: seq<PrefixList> := [];
    var i := 0;
    while i < |items|
      invariant 0 <= i <= |items|
      invariant |acc| == i
      invariant forall j :: 0 <= j < i ==> acc[j] == PrefixListOf(items[j])
    {
      var m := items[i];
      var temp := PrefixList("", "");
      temp := temp.(inout := m["direction"].s);
      temp := temp.(prefixListName := m["name"].s);
      acc := acc + [temp];
      i := i + 1;
    }
    assert acc == seq(|items|, i requires 0 <= i < |items| => PrefixListOf(items[i]));
    r := Some(acc);
  }

  function PrefixListBlockOf(v: PrefixList): Block {
    map["direction" := Str(v.inout), "name" := Str(v.prefixListName)]
  }

  /** `flattenBgpNeighborConfigPrefixList`: one block per entry, in order. */
  function FlattenPrefixLists(ps: seq<PrefixList>): (r: seq<Block>)
    ensures |r| == |ps| && PrefixListBlocks(r)
  {
    seq(|ps|, i requires 0 <= i < |ps| => PrefixListBlockOf(ps[i]))
  }

  method FlattenBgpNeighborConfigPrefixList(ps: seq<PrefixList>) returns (results: seq<Block>)
    ensures results == FlattenPrefixLists(ps)
  {
    results := [];
    var i := 0;
    while i < |ps|
      invariant 0 <= i <= |ps|
      invariant |results| == i
      invariant forall j :: 0 <= j < i ==> results[j] == PrefixListBlockOf(ps[j])
    {
      var output: Block := map[];
      output := output["direction" := Str(ps[i].inout)];
      output := output["name" := Str(ps[i].prefixListName)];
      assert output == PrefixListBlockOf(ps[i]);
      results := results + [output];
      i := i + 1;
    }
  }

  /** A non-empty prefix-list list reads back exactly as declared, in the same order. */
  lemma PrefixListsRoundTrip(items: seq<Block>)
    requires PrefixListBlocks(items) && |items| > 0
    ensures FlattenPrefixLists(ExpandPrefixLists(items).value) == items
  {
    var back := FlattenPrefixLists(ExpandPrefixLists(items).value);
    forall i | 0 <= i < |items|
      ensures back[i] == items[i]
    {
      assert back[i].Keys == items[i].Keys;
    }
  }

  /** And the other way: the remote list survives flatten then expand. */
  lemma PrefixListsInverse(ps: seq<PrefixList>)
    requires |ps| > 0
    ensures ExpandPrefixLists(FlattenPrefixLists(ps)) == Some(ps)
  {
    var back := ExpandPrefixLists(FlattenPrefixLists(ps)).value;
    assert back == ps;
  }

  // ----- the two objects -----

  /** Schema typing the expansions rely on: the blocks their type assertions read. */
  predicate NeighborAttrs(rec: Record) {
    && ListAttr(rec, "timers") && TimersBlocks(GetList(rec, "timers"))
    && ListAttr(rec, "prefix_list") && PrefixListBlocks(GetList(rec, "prefix_list"))
  }

  /**
   * `getCreateUpdateBgpNeighborObject`, with the containers the hop limit and the local
   * AS are written into allocated: description, the two explicit-null toggles for
   * `true`, ebgp-multihop, local-as, remote-as and the first timers block, each only
   * when GetOk reports the attribute set.
   */
  function ExpandNeighbor(rec: Record, m: Neighbor): (r: Neighbor)
    requires NeighborAttrs(rec)
    ensures r.id == m.id
    ensures r.disableConnectedCheck ==
      if OkTrue(rec, "disable_connected_check") then Some(ExplicitNull) else m.disableConnectedCheck
    ensures r.shutdown == if OkTrue(rec, "shutdown") then Some(ExplicitNull) else m.shutdown
    ensures OkInt(rec, "ebgp_multihop").Some? ==> r.ebgpMultihop == Some(EbgpMultihop(OkInt(rec, "ebgp_multihop")))
    ensures OkInt(rec, "ebgp_multihop").None? ==> r.ebgpMultihop == m.ebgpMultihop
    ensures OkInt(rec, "local_as").Some? ==> r.localAs == Some(LocalAs(OkInt(rec, "local_as")))
    ensures OkInt(rec, "local_as").None? ==> r.localAs == m.localAs
    ensures OkString(rec, "description").None? ==> r.description == m.description
    ensures GetOk(rec, "timers").None? ==> r.timers == m.timers
  {
    m.(description := OkString(rec, "description").Or(m.description),
       disableConnectedCheck :=
         if OkTrue(rec, "disable_connected_check") then Some(ExplicitNull) else m.disableConnectedCheck,
       ebgpMultihop :=
         if OkInt(rec, "ebgp_multihop").Some? then Some(EbgpMultihop(OkInt(rec, "ebgp_multihop"))) else m.ebgpMultihop,
       localAs := if OkInt(rec, "local_as").Some? then Some(LocalAs(OkInt(rec, "local_as"))) else m.localAs,
       remoteAs := if OkInt(rec, "remote_as").Some? then OkInt(rec, "remote_as").value else m.remoteAs,
       shutdown := if OkTrue(rec, "shutdown") then Some(ExplicitNull) else m.shutdown,
       timers := if GetOk(rec, "timers").Some? then ExpandTimers(GetList(rec, "timers")) else m.timers)
  }

  method GetCreateUpdateBgpNeighborObject(d: ResourceData, m: Neighbor) returns (r: Neighbor)
    requires NeighborAttrs(d.attrs)
    ensures r == ExpandNeighbor(d.attrs, m)
  {
    r := m;
    var description := OkString(d.attrs, "description");
    if description.Some? {
      r := r.(description := Some(description.value));
    }
    if OkTrue(d.attrs, "disable_connected_check") {
      r := r.(disableConnectedCheck := Some(ExplicitNull));
    }
    var hops := OkInt(d.attrs, "ebgp_multihop");
    if hops.Some? {
      r := r.(ebgpMultihop := Some(EbgpMultihop(Some(hops.value))));
    }
    var localAs := OkInt(d.attrs, "local_as");
    if localAs.Some? {
      r := r.(localAs := Some(LocalAs(Some(localAs.value))));
    }
    var remoteAs := OkInt(d.attrs, "remote_as");
    if remoteAs.Some? {
      r := r.(remoteAs := remoteAs.value);
    }
    if OkTrue(d.attrs, "shutdown") {
      r := r.(shutdown := Some(ExplicitNull));
    }
    if GetOk(d.attrs, "timers").Some? {
      var o := ExpandBgpNeighborTimers(GetList(d.attrs, "timers"));
      r := r.(timers := o);
    }
  }

  /**
   * `getCreateUpdateBgpNeighborObject` as written: the hop limit and the local AS are
   * stored through the still-nil `EbgpMultihop` and `LocalAs` pointers, and the timers
   * use the as-written expansion; each of these panics.
   */
  function ExpandNeighborAsWritten(rec: Record, m: Neighbor): (r: Expanded<Neighbor>)
    requires NeighborAttrs(rec)
    ensures r.Built? ==> r.value.id == m.id
  {
    if OkInt(rec, "ebgp_multihop").Some? && m.ebgpMultihop.None? then Panicked
    else if OkInt(rec, "local_as").Some? && m.localAs.None? then Panicked
    else if GetOk(rec, "timers").Some? && ExpandTimersAsWritten(GetList(rec, "timers")).Panicked? then Panicked
    else
      Built(m.(description := OkString(rec, "description").Or(m.description),
               disableConnectedCheck :=
                 if OkTrue(rec, "disable_connected_check") then Some(ExplicitNull) else m.disableConnectedCheck,
               ebgpMultihop :=
                 if OkInt(rec, "ebgp_multihop").Some? then Some(m.ebgpMultihop.value.(maxHop := OkInt(rec, "ebgp_multihop")))
                 else m.ebgpMultihop,
               localAs :=
                 if OkInt(rec, "local_as").Some? then Some(m.localAs.value.(asNo := OkInt(rec, "local_as")))
                 else m.localAs,
               remoteAs := if OkInt(rec, "remote_as").Some? then OkInt(rec, "remote_as").value else m.remoteAs,
               shutdown := if OkTrue(rec, "shutdown") then Some(ExplicitNull) else m.shutdown,
               timers :=
                 if GetOk(rec, "timers").Some? then ExpandTimersAsWritten(GetList(rec, "timers")).value
                 else m.timers))
  }

  /**
   * As written, Create and Update panic whenever `ebgp_multihop`, `local_as` or `timers`
   * is declared, since they start from a fresh object; otherwise the as-written and the
   * corrected expansion agree.
   */
  lemma NeighborAsWrittenPanics(rec: Record)
    requires NeighborAttrs(rec)
    ensures var r := ExpandNeighborAsWritten(rec, NewNeighbor(GetString(rec, "ip")));
      r.Panicked? <==>
        OkInt(rec, "ebgp_multihop").Some? || OkInt(rec, "local_as").Some? || GetOk(rec, "timers").Some?
    ensures var r := ExpandNeighborAsWritten(rec, NewNeighbor(GetString(rec, "ip")));
      r.Built? ==> r.value == ExpandNeighbor(rec, NewNeighbor(GetString(rec, "ip")))
  {
    var items := GetList(rec, "timers");
    if GetOk(rec, "timers").Some? {
      assert |items| > 0;
      TimersAsWrittenPanics(items);
    }
  }

  /** The object Create and Update send as the neighbor. */
  function NeighborObject(rec: Record): (m: Neighbor)
    requires NeighborAttrs(rec)
    ensures m.id == GetString(rec, "ip") && m.remoteAs == GetInt(rec, "remote_as")
    ensures m.description == OkString(rec, "description")
    ensures m.disableConnectedCheck.Some? <==> OkTrue(rec, "disable_connected_check")
    ensures m.shutdown.Some? <==> OkTrue(rec, "shutdown")
    ensures m.ebgpMultihop.Some? <==> OkInt(rec, "ebgp_multihop").Some?
    ensures m.localAs.Some? <==> OkInt(rec, "local_as").Some?
    ensures m.timers.Some? <==> GetOk(rec, "timers").Some?
  {
    ExpandNeighbor(rec, NewNeighbor(GetString(rec, "ip")))
  }

  /**
   * `getCreateUpdateBgpNeighborConfigObject`: empty-struct presence for
   * `default_originate` and `remove_private_as` set true, and local-as, the prefix-lists
   * and soft-reconfiguration, each only when set.
   */
  function ExpandNeighborConfig(rec: Record, m: NeighborConfig): (r: NeighborConfig)
    requires NeighborAttrs(rec)
    ensures r.id == m.id
    ensures r.defaultOriginate == if OkTrue(rec, "default_originate") then Some(()) else m.defaultOriginate
    ensures r.removePrivateAs == if OkTrue(rec, "remove_private_as") then Some(()) else m.removePrivateAs
    ensures r.localAsNo == if OkInt(rec, "local_as").Some? then OkInt(rec, "local_as").value else m.localAsNo
    ensures GetOk(rec, "prefix_list").Some? ==> |r.prefixList| == |GetList(rec, "prefix_list")|
    ensures GetOk(rec, "prefix_list").None? ==> r.prefixList == m.prefixList
    ensures OkString(rec, "soft_reconfiguration").None? ==> r.softReconfiguration == m.softReconfiguration
  {
    var items := GetList(rec, "prefix_list");
    m.(defaultOriginate := if OkTrue(rec, "default_originate") then Some(()) else m.defaultOriginate,
       localAsNo := if OkInt(rec, "local_as").Some? then OkInt(rec, "local_as").value else m.localAsNo,
       prefixList := if GetOk(rec, "prefix_list").Some? then ExpandPrefixLists(items).value else m.prefixList,
       removePrivateAs := if OkTrue(rec, "remove_private_as") then Some(()) else m.removePrivateAs,
       softReconfiguration := OkString(rec, "soft_reconfiguration").Or(m.softReconfiguration))
  }

  method GetCreateUpdateBgpNeighborConfigObject(d: ResourceData, m: NeighborConfig) returns (r: NeighborConfig)
    requires NeighborAttrs(d.attrs)
    ensures r == ExpandNeighborConfig(d.attrs, m)
  {
    r := m;
    if OkTrue(d.attrs, "default_originate") {
      r := r.(defaultOriginate := Some(()));
    }
    var localAs := OkInt(d.attrs, "local_as");
    if localAs.Some? {
      r := r.(localAsNo := localAs.value);
    }
    if GetOk(d.attrs, "prefix_list").Some? {
      var o := ExpandBgpNeighborConfigPrefixList(GetList(d.attrs, "prefix_list"));
      // GetOk reports a list only when it is non-empty, so `o` is never nil here
      r := r.(prefixList := o.value);
    }
    if OkTrue(d.attrs, "remove_private_as") {
      r := r.(removePrivateAs := Some(()));
    }
    var soft := OkString(d.attrs, "soft_reconfiguration");
    if soft.Some? {
      r := r.(softReconfiguration := Some(soft.value));
    }
  }

  /** The object Create and Update send as the neighbor configuration. */
  function NeighborConfigObject(rec: Record): (m: NeighborConfig)
    requires NeighborAttrs(rec)
    ensures m.id == GetString(rec, "ip") && m.localAsNo == GetInt(rec, "local_as")
    ensures m.defaultOriginate.Some? <==> OkTrue(rec, "default_originate")
    ensures m.removePrivateAs.Some? <==> OkTrue(rec, "remove_private_as")
    ensures m.softReconfiguration == OkString(rec, "soft_reconfiguration")
    ensures GetOk(rec, "prefix_list").None? ==> m.prefixList == []
  {
    ExpandNeighborConfig(rec, NewNeighborConfig(GetString(rec, "ip")))
  }

  /** The attributes `resourceSetBgpNeighbor` may write. */
  const NeighborKeys: set<string> :=
    {"description", "disable_connected_check", "ebgp_multihop", "local_as", "remote_as", "shutdown", "timers"}

  /** The attributes `resourceSetBgpNeighborConfig` may write. */
  const ConfigKeys: set<string> := {"default_originate", "remove_private_as", "prefix_list", "soft_reconfiguration"}

  /** `d.Set(key, p)` for an `*int` pointer: nil writes the zero value. */
  function IntOrZero(o: Option<int>): (r: int)
    ensures o.Some? ==> r == o.value
    ensures o.None? ==> IsZero(Int(r))
  {
    if o.Some? then o.value else 0
  }

  /**
   * The record after `resourceSetBgpNeighbor`: description when present; the two
   * toggles as presence; ebgp-multihop and local-as only when their container is
   * present; remote-as and the timers always.
   */
  function FlattenNeighbor(rec: Record, resp: Neighbor): (r: Record)
    ensures KeepsOutside(rec, r, NeighborKeys)
    ensures r.Keys <= rec.Keys + NeighborKeys
    ensures resp.description.None? ==> ("description" in r <==> "description" in rec)
    ensures resp.ebgpMultihop.None? ==> ("ebgp_multihop" in r <==> "ebgp_multihop" in rec)
    ensures resp.localAs.None? ==> ("local_as" in r <==> "local_as" in rec)
    ensures "disable_connected_check" in r && r["disable_connected_check"] == Bool(resp.disableConnectedCheck.Some?)
    ensures "shutdown" in r && r["shutdown"] == Bool(resp.shutdown.Some?)
    ensures "remote_as" in r && r["remote_as"] == Int(resp.remoteAs)
    ensures "timers" in r && r["timers"] == List(FlattenTimers(resp.timers))
  {
    var r1 := if resp.description.Some? then rec["description" := Str(resp.description.value)] else rec;
    var r2 := r1["disable_connected_check" := Presence(resp.disableConnectedCheck)];
    var r3 := if resp.ebgpMultihop.Some? then r2["ebgp_multihop" := Int(IntOrZero(resp.ebgpMultihop.value.maxHop))] else r2;
    var r4 := if resp.localAs.Some? then r3["local_as" := Int(IntOrZero(resp.localAs.value.asNo))] else r3;
    r4["remote_as" := Int(resp.remoteAs)]
      ["shutdown" := Presence(resp.shutdown)]
      ["timers" := List(FlattenTimers(resp.timers))]
  }

  method ResourceSetBgpNeighbor(d: ResourceData, resp: Neighbor)
    modifies d
    ensures d.attrs == FlattenNeighbor(old(d.attrs), resp) && d.id == old(d.id)
  {
    if resp.description.Some? {
      d.Set("description", Str(resp.description.value));
    }
    if resp.disableConnectedCheck.Some? {
      d.Set("disable_connected_check", Bool(true));
    } else {
      d.Set("disable_connected_check", Bool(false));
    }
    if resp.ebgpMultihop.Some? {
      d.Set("ebgp_multihop", Int(IntOrZero(resp.ebgpMultihop.value.maxHop)));
    }
    if resp.localAs.Some? {
      d.Set("local_as", Int(IntOrZero(resp.localAs.value.asNo)));
    }
    d.Set("remote_as", Int(resp.remoteAs));
    if resp.shutdown.Some? {
      d.Set("shutdown", Bool(true));
    } else {
      d.Set("shutdown", Bool(false));
    }
    var timers := FlattenBgpNeighborTimers(resp.timers);
    d.Set("timers", List(timers));
  }

  /**
   * The record after `resourceSetBgpNeighborConfig`: the two toggles as presence and the
   * prefix-lists always, soft-reconfiguration when present; local-as is not read back.
   */
  function FlattenNeighborConfig(rec: Record, resp: NeighborConfig): (r: Record)
    ensures KeepsOutside(rec, r, ConfigKeys)
    ensures r.Keys <= rec.Keys + ConfigKeys
    ensures resp.softReconfiguration.None? ==> ("soft_reconfiguration" in r <==> "soft_reconfiguration" in rec)
    ensures "default_originate" in r && r["default_originate"] == Bool(resp.defaultOriginate.Some?)
    ensures "remove_private_as" in r && r["remove_private_as"] == Bool(resp.removePrivateAs.Some?)
    ensures "prefix_list" in r && r["prefix_list"] == List(FlattenPrefixLists(resp.prefixList))
  {
    var r1 := rec["default_originate" := Presence(resp.defaultOriginate)]
      ["remove_private_as" := Presence(resp.removePrivateAs)]
      ["prefix_list" := List(FlattenPrefixLists(resp.prefixList))];
    if resp.softReconfiguration.Some? then r1["soft_reconfiguration" := Str(resp.softReconfiguration.value)] else r1
  }

  method ResourceSetBgpNeighborConfig(d: ResourceData, resp: NeighborConfig)
    modifies d
    ensures d.attrs == FlattenNeighborConfig(old(d.attrs), resp) && d.id == old(d.id)
  {
    if resp.defaultOriginate.Some? {
      d.Set("default_originate", Bool(true));
    } else {
      d.Set("default_originate", Bool(false));
    }
    if resp.removePrivateAs.Some? {
      d.Set("remove_private_as", Bool(true));
    } else {
      d.Set("remove_private_as", Bool(false));
    }
    var prefixLists := FlattenBgpNeighborConfigPrefixList(resp.prefixList);
    d.Set("prefix_list", List(prefixLists));
    if resp.softReconfiguration.Some? {
      d.Set("soft_reconfiguration", Str(resp.softReconfiguration.value));
    }
  }

  // ----- CRUD -----

  /**
   * `resourceBgpNeighborRead`: the neighbor is read and written into the record first;
   * a failing configuration read then returns an error with the neighbor's attributes
   * already written and the ID untouched.
   */
  method Read(d: ResourceData, neighbors: Store<NeighborKey, Neighbor>, configs: Store<NeighborKey, NeighborConfig>)
    returns (diags: Diagnostics)
    modifies d
    ensures var key := KeyOf(old(d.attrs));
      if !neighbors.Serves(key) then
        diags == Errorf(Retrieving, "BgpNeighbor") && d.attrs == old(d.attrs) && d.id == old(d.id)
      else if !configs.Serves(key) then
        && diags == Errorf(Retrieving, "BgpNeighborConfig")
        && d.attrs == FlattenNeighbor(old(d.attrs), neighbors.objects[key]) && d.id == old(d.id)
      else
        && diags == NoError && d.id == key.ip
        && d.attrs == FlattenNeighborConfig(FlattenNeighbor(old(d.attrs), neighbors.objects[key]), configs.objects[key])
  {
    var id := GetString(d.attrs, "ip");
    var asn := GetInt(d.attrs, "as");
    var resp := neighbors.Read(NeighborKey(asn, id));
    if resp.None? {
      return Errorf(Retrieving, "BgpNeighbor");
    }
    ResourceSetBgpNeighbor(d, resp.value);
    var resp2 := configs.Read(NeighborKey(asn, id));
    if resp2.None? {
      return Errorf(Retrieving, "BgpNeighborConfig");
    }
    ResourceSetBgpNeighborConfig(d, resp2.value);
    d.SetId(id);
    diags := NoError;
  }

  /**
   * `resourceBgpNeighborCreate`: the neighbor is written first; only when that succeeds
   * is the configuration written; only when both succeed is the ID set and the record
   * read back.
   */
  method Create(d: ResourceData, neighbors: Store<NeighborKey, Neighbor>, configs: Store<NeighborKey, NeighborConfig>)
    returns (diags: Diagnostics)
    requires NeighborAttrs(d.attrs)
    modifies d, neighbors, configs
    ensures neighbors.refused == old(neighbors.refused) && configs.refused == old(configs.refused)
    ensures var key := KeyOf(old(d.attrs));
      if key in old(neighbors.refused) then
        && diags == Errorf(Creating, "BgpNeighbor")
        && neighbors.objects == old(neighbors.objects) && configs.objects == old(configs.objects)
        && d.attrs == old(d.attrs) && d.id == old(d.id)
      else if key in old(configs.refused) then
        && diags == Errorf(Creating, "BgpNeighborConfig")
        && neighbors.objects == old(neighbors.objects)[key := NeighborObject(old(d.attrs))]
        && configs.objects == old(configs.objects)
        && d.attrs == old(d.attrs) && d.id == old(d.id)
      else
        && neighbors.objects == old(neighbors.objects)[key := NeighborObject(old(d.attrs))]
        && configs.objects == old(configs.objects)[key := NeighborConfigObject(old(d.attrs))]
        && diags == NoError && d.id == key.ip
        && d.attrs == FlattenNeighborConfig(
             FlattenNeighbor(old(d.attrs), NeighborObject(old(d.attrs))), NeighborConfigObject(old(d.attrs)))
  {
    var id := GetString(d.attrs, "ip");
    var asn := GetInt(d.attrs, "as");
    var neighbor := NewNeighbor(id);
    neighbor := GetCreateUpdateBgpNeighborObject(d, neighbor);
    var ok := neighbors.Create(NeighborKey(asn, id), neighbor);
    if !ok {
      return Errorf(Creating, "BgpNeighbor");
    }
    var neighborConf := NewNeighborConfig(id);
    neighborConf := GetCreateUpdateBgpNeighborConfigObject(d, neighborConf);
    ok := configs.Create(NeighborKey(asn, id), neighborConf);
    if !ok {
      return Errorf(Creating, "BgpNeighborConfig");
    }
    d.SetId(id);
    diags := Read(d, neighbors, configs);
  }

  /** `resourceBgpNeighborUpdate`: the same two writes through the create calls. */
  method Update(d: ResourceData, neighbors: Store<NeighborKey, Neighbor>, configs: Store<NeighborKey, NeighborConfig>)
    returns (diags: Diagnostics)
    requires NeighborAttrs(d.attrs)
    modifies d, neighbors, configs
    ensures neighbors.refused == old(neighbors.refused) && configs.refused == old(configs.refused)
    ensures var key := KeyOf(old(d.attrs));
      if key in old(neighbors.refused) then
        && diags == Errorf(Updating, "BgpNeighbor")
        && neighbors.objects == old(neighbors.objects) && configs.objects == old(configs.objects)
        && d.attrs == old(d.attrs) && d.id == old(d.id)
      else if key in old(configs.refused) then
        && diags == Errorf(Updating, "BgpNeighborConfig")
        && neighbors.objects == old(neighbors.objects)[key := NeighborObject(old(d.attrs))]
        && configs.objects == old(configs.objects)
        && d.attrs == old(d.attrs) && d.id == old(d.id)
      else
        && neighbors.objects == old(neighbors.objects)[key := NeighborObject(old(d.attrs))]
        && configs.objects == old(configs.objects)[key := NeighborConfigObject(old(d.attrs))]
        && diags == NoError && d.id == key.ip
        && d.attrs == FlattenNeighborConfig(
             FlattenNeighbor(old(d.attrs), NeighborObject(old(d.attrs))), NeighborConfigObject(old(d.attrs)))
  {
    var id := GetString(d.attrs, "ip");
    var asn := GetInt(d.attrs, "as");
    var neighbor := NewNeighbor(id);
    neighbor := GetCreateUpdateBgpNeighborObject(d, neighbor);
    var ok := neighbors.Create(NeighborKey(asn, id), neighbor);
    if !ok {
      return Errorf(Updating, "BgpNeighbor");
    }
    var neighborConf := NewNeighborConfig(id);
    neighborConf := GetCreateUpdateBgpNeighborConfigObject(d, neighborConf);
    ok := configs.Create(NeighborKey(asn, id), neighborConf);
    if !ok {
      return Errorf(Updating, "BgpNeighborConfig");
    }
    d.SetId(id);
    diags := Read(d, neighbors, configs);
  }

  /**
   * `resourceBgpNeighborDelete`: only the neighbor is deleted (the device drops its
   * configuration with it); the ID is cleared only when that succeeds.
   */
  method Delete(d: ResourceData, neighbors: Store<NeighborKey, Neighbor>, configs: Store<NeighborKey, NeighborConfig>)
    returns (diags: Diagnostics)
    modifies d, neighbors
    ensures neighbors.refused == old(neighbors.refused)
    ensures d.attrs == old(d.attrs)
    ensures var key := KeyOf(old(d.attrs));
      if old(neighbors.Serves(key)) then
        diags == NoError && neighbors.objects == old(neighbors.objects) - {key} && d.id == ""
      else
        && diags == Errorf(Deleting, "BgpNeighbor")
        && neighbors.objects == old(neighbors.objects) && d.id == old(d.id)
  {
    var id := GetString(d.attrs, "ip");
    var asn := GetInt(d.attrs, "as");
    var ok := neighbors.Delete(NeighborKey(asn, id));
    if !ok {
      return Errorf(Deleting, "BgpNeighbor");
    }
    d.SetId("");
    diags := NoError;
  }

  // ----- no drift -----

  /** A declared record the schema accepts. */
  predicate WellFormedNeighbor(rec: Record) {
    && "as" in rec && rec["as"].Int?
    && "ip" in rec && rec["ip"].Str? && rec["ip"].s != ""
    && "remote_as" in rec && rec["remote_as"].Int?
    && StrAttr(rec, "description") && StrAttr(rec, "soft_reconfiguration")
    && BoolAttr(rec, "default_originate") && BoolAttr(rec, "disable_connected_check")
    && BoolAttr(rec, "remove_private_as") && BoolAttr(rec, "shutdown")
    && IntAttr(rec, "ebgp_multihop") && IntAttr(rec, "local_as")
    && |GetList(rec, "timers")| <= 1 && |GetList(rec, "prefix_list")| <= 2
    && NeighborAttrs(rec)
  }

  /** GetOk answers on `back` as on `rec` for every key in `keys`. */
  predicate ReadsBack(rec: Record, back: Record, keys: set<string>) {
    forall k :: k in keys ==> GetOk(back, k) == GetOk(rec, k)
  }

  /** The neighbor's timers read back under GetOk as declared. */
  lemma NeighborTimersRoundTrip(rec: Record)
    requires WellFormedNeighbor(rec)
    ensures GetOk(FlattenNeighbor(rec, NeighborObject(rec)), "timers") == GetOk(rec, "timers")
  {
    var m := NeighborObject(rec);
    var items := GetList(rec, "timers");
    TimersRoundTrip(items);
    if GetOk(rec, "timers").None? {
      assert items == [] && m.timers.None?;
    }
  }

  /** The neighbor's description and remote AS read back under GetOk as declared. */
  lemma NeighborScalarsRoundTrip(rec: Record)
    requires WellFormedNeighbor(rec)
    ensures var back := FlattenNeighbor(rec, NeighborObject(rec));
      && GetOk(back, "description") == GetOk(rec, "description")
      && GetOk(back, "remote_as") == GetOk(rec, "remote_as")
  {
  }

  /**
   * The hop limit and the local AS read back under GetOk as declared: set values come
   * back through their allocated containers, unset ones are never written.
   */
  lemma NeighborContainersRoundTrip(rec: Record)
    requires WellFormedNeighbor(rec)
    ensures var back := FlattenNeighbor(rec, NeighborObject(rec));
      && GetOk(back, "ebgp_multihop") == GetOk(rec, "ebgp_multihop")
      && GetOk(back, "local_as") == GetOk(rec, "local_as")
  {
  }

  /** The neighbor's two toggles read back under GetOk as declared. */
  lemma NeighborTogglesRoundTrip(rec: Record)
    requires WellFormedNeighbor(rec)
    ensures var back := FlattenNeighbor(rec, NeighborObject(rec));
      && GetOk(back, "disable_connected_check") == GetOk(rec, "disable_connected_check")
      && GetOk(back, "shutdown") == GetOk(rec, "shutdown")
  {
    var m := NeighborObject(rec);
    var back := FlattenNeighbor(rec, m);
    PresenceRoundTrip(rec, "disable_connected_check", m.disableConnectedCheck);
    ReadsBackGetOk(back["disable_connected_check"], rec, "disable_connected_check", back);
    PresenceRoundTrip(rec, "shutdown", m.shutdown);
    ReadsBackGetOk(back["shutdown"], rec, "shutdown", back);
  }

  /** The neighbor object Create sends reads back, under GetOk, as every declared neighbor attribute. */
  lemma NeighborRoundTrip(rec: Record)
    requires WellFormedNeighbor(rec)
    ensures ReadsBack(rec, FlattenNeighbor(rec, NeighborObject(rec)), NeighborKeys)
  {
    NeighborTogglesRoundTrip(rec);
    NeighborTimersRoundTrip(rec);
    NeighborScalarsRoundTrip(rec);
    NeighborContainersRoundTrip(rec);
    NeighborKeysByKey(rec, FlattenNeighbor(rec, NeighborObject(rec)));
  }

  lemma NeighborKeysByKey(rec: Record, back: Record)
    requires GetOk(back, "description") == GetOk(rec, "description")
    requires GetOk(back, "disable_connected_check") == GetOk(rec, "disable_connected_check")
    requires GetOk(back, "ebgp_multihop") == GetOk(rec, "ebgp_multihop")
    requires GetOk(back, "local_as") == GetOk(rec, "local_as")
    requires GetOk(back, "remote_as") == GetOk(rec, "remote_as")
    requires GetOk(back, "shutdown") == GetOk(rec, "shutdown")
    requires GetOk(back, "timers") == GetOk(rec, "timers")
    ensures ReadsBack(rec, back, NeighborKeys)
  {
  }

  /** `a` and `b` hold the same attributes under `keys`. */
  predicate Agrees(a: Record, b: Record, keys: set<string>) {
    forall k :: k in keys ==> (k in a <==> k in b) && (k in a ==> a[k] == b[k])
  }

  /**
   * The configuration object Create sends reads back, under GetOk, as every declared
   * configuration attribute, whatever record the read writes into, as long as that
   * record still holds the declared configuration attributes.
   */
  lemma NeighborConfigRoundTrip(rec: Record, base: Record)
    requires WellFormedNeighbor(rec) && Agrees(base, rec, ConfigKeys)
    ensures ReadsBack(rec, FlattenNeighborConfig(base, NeighborConfigObject(rec)), ConfigKeys)
  {
    var m := NeighborConfigObject(rec);
    var back := FlattenNeighborConfig(base, m);
    PresenceRoundTrip(rec, "default_originate", m.defaultOriginate);
    ReadsBackGetOk(back["default_originate"], rec, "default_originate", back);
    PresenceRoundTrip(rec, "remove_private_as", m.removePrivateAs);
    ReadsBackGetOk(back["remove_private_as"], rec, "remove_private_as", back);
    var items := GetList(rec, "prefix_list");
    if GetOk(rec, "prefix_list").Some? {
      PrefixListsRoundTrip(items);
      assert back["prefix_list"] == rec["prefix_list"];
    } else {
      assert m.prefixList == [];
    }
    assert "soft_reconfiguration" in ConfigKeys;
    assert GetOk(back, "soft_reconfiguration") == GetOk(rec, "soft_reconfiguration");
  }

  /** The two reads write disjoint attributes, and neither writes the path attributes. */
  lemma KeySetsDisjoint()
    ensures NeighborKeys !! ConfigKeys
    ensures "as" !in NeighborKeys + ConfigKeys && "ip" !in NeighborKeys + ConfigKeys
  {
  }

  /** A read that writes only `written` leaves every other attribute as it was, present or not. */
  lemma WriteFrame(before: Record, after: Record, written: set<string>, others: set<string>)
    requires KeepsOutside(before, after, written) && after.Keys <= before.Keys + written
    requires written !! others
    ensures Agrees(after, before, others)
  {
  }

  /**
   * No drift across the two objects: after a successful Create, the record read back
   * answers GetOk as declared for every attribute either read writes, and its path
   * attributes are untouched.
   */
  lemma ReadAfterCreate(rec: Record)
    requires WellFormedNeighbor(rec)
    ensures var back := FlattenNeighborConfig(FlattenNeighbor(rec, NeighborObject(rec)), NeighborConfigObject(rec));
      ReadsBack(rec, back, NeighborKeys + ConfigKeys) && KeyOf(back) == KeyOf(rec)
  {
    var mid := FlattenNeighbor(rec, NeighborObject(rec));
    var back := FlattenNeighborConfig(mid, NeighborConfigObject(rec));
    assert ReadsBack(rec, mid, NeighborKeys) by {
      NeighborRoundTrip(rec);
    }
    assert Agrees(mid, rec, ConfigKeys + {"as", "ip"}) by {
      KeySetsDisjoint();
      WriteFrame(rec, mid, NeighborKeys, ConfigKeys + {"as", "ip"});
    }
    assert ReadsBack(rec, back, ConfigKeys) by {
      assert Agrees(mid, rec, ConfigKeys);
      NeighborConfigRoundTrip(rec, mid);
    }
    assert Agrees(back, mid, NeighborKeys + {"as", "ip"}) by {
      KeySetsDisjoint();
      WriteFrame(mid, back, ConfigKeys, NeighborKeys + {"as", "ip"});
    }
    ReadsAcrossTwoWrites(rec, mid, back);
  }

  /**
   * The second read keeps what the first read wrote and both keep the path, so the
   * record after both answers GetOk as declared on the union of what they write.
   */
  lemma ReadsAcrossTwoWrites(rec: Record, mid: Record, back: Record)
    requires ReadsBack(rec, mid, NeighborKeys) && ReadsBack(rec, back, ConfigKeys)
    requires Agrees(mid, rec, ConfigKeys + {"as", "ip"})
    requires Agrees(back, mid, NeighborKeys + {"as", "ip"})
    ensures ReadsBack(rec, back, NeighborKeys + ConfigKeys) && KeyOf(back) == KeyOf(rec)
  {
    assert ReadsBack(mid, back, NeighborKeys);
  }
}
