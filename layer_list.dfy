/** The layer list of src/components/layer-list.js: the up/down moves and
    the visibility toggle of one list item, and the way the list places each
    layer either in its group or among the ungrouped layers. */
module LayerList {
  import opened Common

  /** A layer of the map style: its id and the group its metadata names
      under the group key, if any. */
  datatype Layer = Layer(id: string, group: Option<string>)

  /** A group definition from the map metadata's groups object. */
  datatype Group = Group(name: string, exclusive: bool)

  /** The map actions a list item dispatches. */
  datatype LayerAction =
    | OrderLayer(layerId: string, targetId: string)
    | SetLayerVisibility(layerId: string, visibility: string)
    | SetLayerInGroupVisible(layerId: string, groupId: Option<string>)

  /** `getLayerIndexById(layers, id)` (its source is not part of this
      model): the index of the first layer with that id, -1 if none. */
  function LayerIndexById(layers: seq<Layer>, id: string): (r: int)
    ensures -1 <= r < |layers|
    ensures r >= 0 ==> layers[r].id == id && forall j :: 0 <= j < r ==> layers[j].id != id
    ensures r == -1 <==> forall j :: 0 <= j < |layers| ==> layers[j].id != id
  {
    if layers == [] then -1
    else if layers[0].id == id then 0
    else
      var k := LayerIndexById(layers[1..], id);
      if k == -1 then -1 else k + 1
  }

  predicate DistinctIds(layers: seq<Layer>) {
    forall i, j :: 0 <= i < j < |layers| ==> layers[i].id != layers[j].id
  }

  /** `moveLayerUp`: dispatches only when the layer's index is below the
      last one, and then orders the layer after its successor. */
  function MoveLayerUp(layers: seq<Layer>, layerId: string): (r: Option<LayerAction>)
    ensures r.Some? <==> LayerIndexById(layers, layerId) < |layers| - 1
    ensures r.Some? ==>
      r.value == OrderLayer(layers[LayerIndexById(layers, layerId) + 1].id, layerId)
  {
    var index := LayerIndexById(layers, layerId);
    if index < |layers| - 1 then Some(OrderLayer(layers[index + 1].id, layerId)) else None
  }

  /** `moveLayerDown`: dispatches only when the layer's index is above 0,
      and then orders the layer's predecessor after it. */
  function MoveLayerDown(layers: seq<Layer>, layerId: string): (r: Option<LayerAction>)
    ensures r.Some? <==> LayerIndexById(layers, layerId) > 0
    ensures r.Some? ==>
      r.value == OrderLayer(layerId, layers[LayerIndexById(layers, layerId) - 1].id)
  {
    var index := LayerIndexById(layers, layerId);
    if index > 0 then Some(OrderLayer(layerId, layers[index - 1].id)) else None
  }

  /** Moving layer i up and moving layer i + 1 down dispatch the same
      action: the two buttons swap the same neighbours. */
  lemma MoveUpMatchesMoveDown(layers: seq<Layer>, i: nat)
    requires DistinctIds(layers)
    requires i + 1 < |layers|
    ensures MoveLayerUp(layers, layers[i].id) == Some(OrderLayer(layers[i + 1].id, layers[i].id))
    ensures MoveLayerDown(layers, layers[i + 1].id) == MoveLayerUp(layers, layers[i].id)
  {
    IndexOfDistinct(layers, i);
    IndexOfDistinct(layers, i + 1);
  }

  /** In a list of distinct ids, layer i is found at index i. */
  lemma IndexOfDistinct(layers: seq<Layer>, i: nat)
    requires DistinctIds(layers)
    requires i < |layers|
    ensures LayerIndexById(layers, layers[i].id) == i
  {
  }

  /** The last layer never moves up and the first never moves down. A
      layer that is not in the list never moves down, but "moves up" to
      after the first layer, since its index -1 is below the last. */
  lemma MoveBounds(layers: seq<Layer>, layerId: string)
    requires layers != []
    ensures layers[|layers| - 1].id == layerId && DistinctIds(layers) ==>
              MoveLayerUp(layers, layerId).None?
    ensures layers[0].id == layerId ==> MoveLayerDown(layers, layerId).None?
    ensures (forall j :: 0 <= j < |layers| ==> layers[j].id != layerId) ==>
              MoveLayerDown(layers, layerId).None? &&
              MoveLayerUp(layers, layerId) == Some(OrderLayer(layers[0].id, layerId))
  {
    if layers[|layers| - 1].id == layerId && DistinctIds(layers) {
      IndexOfDistinct(layers, |layers| - 1);
    }
  }

  /** `toggleVisibility`: in an exclusive group the item asks for its layer
      to be the visible one of the group; otherwise it hides a shown layer
      and shows a hidden one. `shown` is what `isLayerVisible` (not part of
      this model) says of the layer. */
  function ToggleVisibility(layer: Layer, exclusive: bool, groupId: Option<string>,
                            shown: bool): (r: LayerAction)
    ensures exclusive ==> r == SetLayerInGroupVisible(layer.id, groupId)
    ensures !exclusive ==> r.SetLayerVisibility? && r.layerId == layer.id
    ensures !exclusive ==> (r.visibility == "none" <==> shown)
    ensures !exclusive ==> (r.visibility == "visible" <==> !shown)
  {
    if exclusive then SetLayerInGroupVisible(layer.id, groupId)
    else SetLayerVisibility(layer.id, if shown then "none" else "visible")
  }

  /** Rendered entries: a group with its member layers, or one ungrouped
      layer with its store index as key. */
  datatype Entry =
    | GroupEntry(groupId: string, group: Group, members: seq<Layer>)
    | LayerEntry(key: int, layer: Layer)

  /** The members of group `key`, in reverse store order: the layers of the
      inner loop, visited from the last to the first. */
  function InGroup(layers: seq<Layer>, key: string): (r: seq<Layer>)
    ensures forall l :: l in r <==> l in layers && l.group == Some(key)
  {
    if layers == [] then []
    else InGroup(layers[1..], key) + (if layers[0].group == Some(key) then [layers[0]] else [])
  }

  /** The group entries in the order of the groups object's keys, skipping
      groups without members. */
  function GroupEntries(layers: seq<Layer>, groups: seq<(string, Group)>): seq<Entry>
  {
    if groups == [] then []
    else
      var last := groups[|groups| - 1];
      var members := InGroup(layers, last.0);
      GroupEntries(layers, groups[..|groups| - 1])
        + (if |members| > 0 then [GroupEntry(last.0, last.1, members)] else [])
  }

  function Keys(groups: seq<(string, Group)>): set<string> {
    set g | g in groups :: g.0
  }

  /** The ids the group loop marks in `layersHash`. */
  function GroupedIds(layers: seq<Layer>, keys: set<string>): set<string> {
    set l | l in layers && l.group.Some? && l.group.value in keys :: l.id
  }

  /** The ungrouped entries for the layers from index `k` on, in reverse
      store order: those whose id is not marked. */
  function UngroupedFrom(layers: seq<Layer>, marked: set<string>, k: nat): seq<Entry>
    requires k <= |layers|
    decreases |layers| - k
  {
    if k == |layers| then []
    else UngroupedFrom(layers, marked, k + 1)
           + (if layers[k].id !in marked then [LayerEntry(k, layers[k])] else [])
  }

  /** The rendered list when `layersHash` starts out holding the names in
      `inherited`: the group entries, then the layers whose id is neither
      inherited nor marked by the group loop. */
  function RenderedWith(layers: seq<Layer>, groups: Option<seq<(string, Group)>>, inherited: set<string>): seq<Entry> {
    var gs := groups.GetOr([]);
    GroupEntries(layers, gs) + UngroupedFrom(layers, inherited + GroupedIds(layers, Keys(gs)), 0)
  }

  /** The whole rendered list as `SdkLayerList.render` builds it:
      `layersHash` is a plain object, so `layersHash[id]` is truthy for
      every name inherited from `Object.prototype` before any layer is
      marked. */
  function Rendered(layers: seq<Layer>, groups: Option<seq<(string, Group)>>): seq<Entry> {
    RenderedWith(layers, groups, ProtoNames)
  }

  /** The list the render evidently intends: `layersHash` used as a set of
      marked ids, holding nothing before the group loop. */
  function RenderedIntended(layers: seq<Layer>, groups: Option<seq<(string, Group)>>): seq<Entry> {
    RenderedWith(layers, groups, {})
  }

  /** The inner loop of the group loop of `SdkLayerList.render`: the
      members of group `key`, visited from the last layer to the first, and
      the ids it marks in `layersHash`. */
  method CollectGroup(layers: seq<Layer>, key: string) returns (groupLayers: seq<Layer>, marked: set<string>)
    ensures groupLayers == InGroup(layers, key)
    ensures marked == GroupedIds(layers, {key})
  {
    groupLayers, marked := [], {};
    var i := |layers| - 1;
    while i >= 0
      invariant -1 <= i < |layers|
      invariant groupLayers == InGroup(layers[i + 1..], key)
      invariant marked == GroupedIds(layers[i + 1..], {key})
    {
      var item := layers[i];
      assert layers[i..] == [item] + layers[i + 1..];
      GroupedIdsCons(item, layers[i + 1..], key);
      if item.group == Some(key) {
        groupLayers := groupLayers + [item];
        marked := marked + {item.id};
      }
      i := i - 1;
    }
    assert layers[0..] == layers;
  }

  lemma GroupedIdsCons(item: Layer, rest: seq<Layer>, key: string)
    ensures GroupedIds([item] + rest, {key})
         == GroupedIds(rest, {key}) + (if item.group == Some(key) then {item.id} else {})
  {
    var all := [item] + rest;
    forall id | id in GroupedIds(all, {key})
      ensures id in GroupedIds(rest, {key}) + (if item.group == Some(key) then {item.id} else {})
    {
      var l :| l in all && l.group.Some? && l.group.value in {key} && l.id == id;
      if l != item { assert l in rest; }
    }
  }

  /** `SdkLayerList.render`: the group loop adds one entry per group with
      members and marks their layers; the last loop adds every layer whose
      id `layersHash` does not hold, from the last to the first.
      `layersHash` is the set of names it holds a truthy value for, which
      starts with the inherited ones. */
  method Render(layers: seq<Layer>, groups: Option<seq<(string, Group)>>)
    returns (entries: seq<Entry>)
    ensures entries == Rendered(layers, groups)
  {
    var layersHash: set<string> := ProtoNames;
    entries, layersHash := GroupLoop(layers, groups.GetOr([]), layersHash);
    var ungrouped := UngroupedLoop(layers, layersHash);
    entries := entries + ungrouped;
  }

  /** The group loop of `SdkLayerList.render`, over the keys of the groups
      object: an entry for each group with members, whose ids it adds to
      `layersHash`. */
  method GroupLoop(layers: seq<Layer>, gs: seq<(string, Group)>, hash: set<string>)
    returns (entries: seq<Entry>, layersHash: set<string>)
    ensures entries == GroupEntries(layers, gs)
    ensures layersHash == hash + GroupedIds(layers, Keys(gs))
  {
    entries := [];
    layersHash := hash;
    var g := 0;
    while g < |gs|
      invariant 0 <= g <= |gs|
      invariant entries == GroupEntries(layers, gs[..g])
      invariant layersHash == hash + GroupedIds(layers, Keys(gs[..g]))
    {
      var key := gs[g].0;
      var groupLayers, marked := CollectGroup(layers, key);
      assert gs[..g + 1][..g] == gs[..g];
      assert gs[..g + 1] == gs[..g] + [gs[g]];
      assert Keys(gs[..g + 1]) == Keys(gs[..g]) + {key};
      GroupedIdsUnion(layers, Keys(gs[..g]), key);
      layersHash := layersHash + marked;
      if |groupLayers| > 0 {
        entries := entries + [GroupEntry(key, gs[g].1, groupLayers)];
      }
      g := g + 1;
    }
    assert gs[..|gs|] == gs;
  }

  /** The last loop of `SdkLayerList.render`: every layer whose id
      `layersHash` does not hold, from the last to the first, keyed by its
      index. */
  method UngroupedLoop(layers: seq<Layer>, layersHash: set<string>) returns (ungrouped: seq<Entry>)
    ensures ungrouped == UngroupedFrom(layers, layersHash, 0)
  {
    var i := |layers| - 1;
    ungrouped := [];
    while i >= 0
      invariant -1 <= i < |layers|
      invariant ungrouped == UngroupedFrom(layers, layersHash, i + 1)
    {
      if layers[i].id !in layersHash {
        ungrouped := ungrouped + [LayerEntry(i, layers[i])];
      }
      i := i - 1;
    }
  }

  lemma GroupedIdsUnion(layers: seq<Layer>, keys: set<string>, key: string)
    ensures GroupedIds(layers, keys + {key}) == GroupedIds(layers, keys) + GroupedIds(layers, {key})
  {
  }

  predicate DistinctKeys(groups: seq<(string, Group)>) {
    forall i, j :: 0 <= i < j < |groups| ==> groups[i].0 != groups[j].0
  }

  /** The layers an entry shows. */
  function EntryLayers(e: Entry): seq<Layer> {
    match e
    case GroupEntry(_, _, members) => members
    case LayerEntry(_, layer) => [layer]
  }

  /** Every layer the rendered entries show, in order. */
  function Flatten(entries: seq<Entry>): seq<Layer> {
    if entries == [] then []
    else Flatten(entries[..|entries| - 1]) + EntryLayers(entries[|entries| - 1])
  }

  lemma {:induction false} FlattenAppend(a: seq<Entry>, b: seq<Entry>)
    ensures Flatten(a + b) == Flatten(a) + Flatten(b)
    decreases |b|
  {
    if b == [] {
      assert a + b == a;
    } else {
      assert (a + b)[..|a + b| - 1] == a + b[..|b| - 1];
      FlattenAppend(a, b[..|b| - 1]);
    }
  }

  /** The layers whose group is one of `keys`, in store order. */
  function WithGroupIn(layers: seq<Layer>, keys: set<string>): seq<Layer> {
    if layers == [] then []
    else (if layers[0].group.Some? && layers[0].group.value in keys then [layers[0]] else [])
         + WithGroupIn(layers[1..], keys)
  }

  /** The layers whose group is none of `keys`, in store order. */
  function WithoutGroupIn(layers: seq<Layer>, keys: set<string>): seq<Layer> {
    if layers == [] then []
    else (if layers[0].group.Some? && layers[0].group.value in keys then [] else [layers[0]])
         + WithoutGroupIn(layers[1..], keys)
  }

  function Reverse(layers: seq<Layer>): seq<Layer> {
    if layers == [] then [] else Reverse(layers[1..]) + [layers[0]]
  }

  lemma {:induction false} WithGroupInAppend(a: seq<Layer>, b: seq<Layer>, keys: set<string>)
    ensures WithGroupIn(a + b, keys) == WithGroupIn(a, keys) + WithGroupIn(b, keys)
    decreases |a|
  {
    if a != [] {
      assert (a + b)[1..] == a[1..] + b;
      WithGroupInAppend(a[1..], b, keys);
    } else {
      assert a + b == b;
    }
  }

  /** A group's members are the layers of that group in reverse store
      order. */
  lemma {:induction false} InGroupIsReversed(layers: seq<Layer>, key: string)
    ensures InGroup(layers, key) == WithGroupIn(Reverse(layers), {key})
    decreases |layers|
  {
    if layers != [] {
      InGroupIsReversed(layers[1..], key);
      WithGroupInAppend(Reverse(layers[1..]), [layers[0]], {key});
      assert [layers[0]][1..] == [];
    }
  }

  /** Entries that each show layer `key` of `layers`, a layer that is not
      marked, with keys at least `k` and strictly decreasing. */
  predicate DescendingFrom(u: seq<Entry>, layers: seq<Layer>, marked: set<string>, k: nat) {
    && (forall a :: 0 <= a < |u| ==>
          u[a].LayerEntry? && k <= u[a].key < |layers| &&
          u[a].layer == layers[u[a].key] && u[a].layer.id !in marked)
    && (forall a, b :: 0 <= a < b < |u| ==> u[a].key > u[b].key)
  }

  /** The ungrouped entries show the layers from index `k` on that are not
      marked, each with its own index as key, in reverse store order. */
  lemma {:induction false} UngroupedOrder(layers: seq<Layer>, marked: set<string>, k: nat)
    requires k <= |layers|
    ensures DescendingFrom(UngroupedFrom(layers, marked, k), layers, marked, k)
    decreases |layers| - k
  {
    if k < |layers| {
      UngroupedOrder(layers, marked, k + 1);
      var rest := UngroupedFrom(layers, marked, k + 1);
      var u := UngroupedFrom(layers, marked, k);
      if layers[k].id !in marked {
        assert u == rest + [LayerEntry(k, layers[k])];
        assert forall a :: 0 <= a < |rest| ==> u[a] == rest[a];
      } else {
        assert u == rest;
      }
    }
  }

  /** Every entry of a group has at least one member: a group no layer
      names produces no entry. */
  lemma {:induction false} GroupEntriesNonEmpty(layers: seq<Layer>, groups: seq<(string, Group)>)
    ensures forall e :: e in GroupEntries(layers, groups) ==>
              e.GroupEntry? && |e.members| > 0 && e.members == InGroup(layers, e.groupId)
    ensures forall e :: e in GroupEntries(layers, groups) ==> exists g :: g in groups && g.0 == e.groupId
    decreases |groups|
  {
    if groups != [] {
      var init := groups[..|groups| - 1];
      GroupEntriesNonEmpty(layers, init);
      assert forall g :: g in init ==> g in groups;
      assert groups[|groups| - 1] in groups;
    }
  }

  /** Each group that some layer names has its entry, holding exactly the
      layers of that group. */
  lemma {:induction false} GroupEntryPresent(layers: seq<Layer>, groups: seq<(string, Group)>, i: nat)
    requires i < |groups|
    requires |InGroup(layers, groups[i].0)| > 0
    ensures GroupEntry(groups[i].0, groups[i].1, InGroup(layers, groups[i].0)) in GroupEntries(layers, groups)
    decreases |groups|
  {
    if i < |groups| - 1 {
      var init := groups[..|groups| - 1];
      GroupEntryPresent(layers, init, i);
    }
  }

  lemma InGroupMultiset(layers: seq<Layer>, key: string)
    ensures multiset(InGroup(layers, key)) == multiset(WithGroupIn(layers, {key}))
  {
  }

  lemma {:induction false} WithGroupInUnion(layers: seq<Layer>, keys: set<string>, key: string)
    requires key !in keys
    ensures multiset(WithGroupIn(layers, keys + {key}))
         == multiset(WithGroupIn(layers, keys)) + multiset(WithGroupIn(layers, {key}))
    decreases |layers|
  {
    if layers != [] {
      WithGroupInUnion(layers[1..], keys, key);
    }
  }

  /** The group entries show each layer whose group is a key of the groups
      object once. */
  lemma {:induction false} GroupEntriesMultiset(layers: seq<Layer>, groups: seq<(string, Group)>)
    requires DistinctKeys(groups)
    ensures multiset(Flatten(GroupEntries(layers, groups))) == multiset(WithGroupIn(layers, Keys(groups)))
    decreases |groups|
  {
    if groups == [] {
      assert Keys(groups) == {};
      EmptyKeysFilter(layers);
    } else {
      var init := groups[..|groups| - 1];
      var last := groups[|groups| - 1];
      assert DistinctKeys(init);
      GroupEntriesMultiset(layers, init);
      LastGroupStep(layers, init, last);
      assert groups == init + [last];
      KeysSnoc(init, last);
      assert last.0 !in Keys(init);
      WithGroupInUnion(layers, Keys(init), last.0);
    }
  }

  lemma KeysSnoc(init: seq<(string, Group)>, last: (string, Group))
    ensures Keys(init + [last]) == Keys(init) + {last.0}
  {
    assert forall g :: g in init + [last] <==> g in init || g == last;
  }

  /** Appending one group adds that group's members to the flattened
      entries. */
  lemma LastGroupStep(layers: seq<Layer>, init: seq<(string, Group)>, last: (string, Group))
    ensures multiset(Flatten(GroupEntries(layers, init + [last])))
         == multiset(Flatten(GroupEntries(layers, init))) + multiset(WithGroupIn(layers, {last.0}))
  {
    var members := InGroup(layers, last.0);
    var tail := if |members| > 0 then [GroupEntry(last.0, last.1, members)] else [];
    assert (init + [last])[..|init + [last]| - 1] == init;
    assert GroupEntries(layers, init + [last]) == GroupEntries(layers, init) + tail;
    FlattenAppend(GroupEntries(layers, init), tail);
    if |members| > 0 {
      assert tail[..0] == [];
      assert Flatten(tail) == members;
    } else {
      assert Flatten(tail) == members;
    }
    InGroupMultiset(layers, last.0);
  }

  lemma {:induction false} EmptyKeysFilter(layers: seq<Layer>)
    ensures WithGroupIn(layers, {}) == []
    decreases |layers|
  {
    if layers != [] {
      EmptyKeysFilter(layers[1..]);
    }
  }

  /** With distinct ids, the ungrouped entries show each layer whose group
      is not a key once: marking by id marks exactly the grouped layers. */
  lemma UngroupedMultiset(layers: seq<Layer>, keys: set<string>, inherited: set<string>, k: nat)
    requires DistinctIds(layers)
    requires forall j :: 0 <= j < |layers| ==> layers[j].id !in inherited
    requires k <= |layers|
    ensures multiset(Flatten(UngroupedFrom(layers, inherited + GroupedIds(layers, keys), k)))
         == multiset(WithoutGroupIn(layers[k..], keys))
  {
    var marked := inherited + GroupedIds(layers, keys);
    forall j | k <= j < |layers|
      ensures layers[j].id in marked <==> layers[j].group.Some? && layers[j].group.value in keys
    {
      MarkedIffGrouped(layers, keys, j);
    }
    UnmarkedMultiset(layers, keys, marked, k);
  }

  /** When the marked ids are exactly those of the layers whose group is a
      key, the ungrouped entries show the other layers. */
  lemma {:induction false} UnmarkedMultiset(layers: seq<Layer>, keys: set<string>, marked: set<string>, k: nat)
    requires k <= |layers|
    requires forall j :: k <= j < |layers| ==>
               (layers[j].id in marked <==> layers[j].group.Some? && layers[j].group.value in keys)
    ensures multiset(Flatten(UngroupedFrom(layers, marked, k))) == multiset(WithoutGroupIn(layers[k..], keys))
    decreases |layers| - k
  {
    if k < |layers| {
      UnmarkedMultiset(layers, keys, marked, k + 1);
      var l := layers[k];
      var tail := if l.id !in marked then [LayerEntry(k, l)] else [];
      var rest := UngroupedFrom(layers, marked, k + 1);
      assert UngroupedFrom(layers, marked, k) == rest + tail;
      FlattenAppend(rest, tail);
      FlattenTail(k, l, marked);
      var suffix := layers[k..];
      assert suffix[0] == l && suffix[1..] == layers[k + 1..];
      assert WithoutGroupIn(suffix, keys)
          == (if l.group.Some? && l.group.value in keys then [] else [l]) + WithoutGroupIn(layers[k + 1..], keys);
    } else {
      assert layers[k..] == [];
    }
  }

  /** The layers of at most one ungrouped entry. */
  lemma FlattenTail(k: int, l: Layer, marked: set<string>)
    ensures Flatten(if l.id !in marked then [LayerEntry(k, l)] else []) == (if l.id !in marked then [l] else [])
  {
    if l.id !in marked {
      assert [LayerEntry(k, l)][..0] == [];
    }
  }

  /** With distinct ids, a layer's id is marked exactly when its own group
      is one of the keys. */
  lemma MarkedIffGrouped(layers: seq<Layer>, keys: set<string>, k: nat)
    requires DistinctIds(layers)
    requires k < |layers|
    ensures layers[k].id in GroupedIds(layers, keys) <==>
              layers[k].group.Some? && layers[k].group.value in keys
  {
    var l := layers[k];
    if l.id in GroupedIds(layers, keys) {
      var m :| m in layers && m.group.Some? && m.group.value in keys && m.id == l.id;
      var j :| 0 <= j < |layers| && layers[j] == m;
      assert j == k;
    }
  }

  lemma {:induction false} FilterPartition(layers: seq<Layer>, keys: set<string>)
    ensures multiset(WithGroupIn(layers, keys)) + multiset(WithoutGroupIn(layers, keys)) == multiset(layers)
    decreases |layers|
  {
    if layers != [] {
      FilterPartition(layers[1..], keys);
      assert layers == [layers[0]] + layers[1..];
    }
  }

  /** Every layer appears exactly once in the rendered list: the layers the
      entries show are a permutation of the store's layers (layer ids are
      distinct, and so are the keys of the groups object), provided no id
      is one of the names `layersHash` starts out holding. */
  lemma EveryLayerOnce(layers: seq<Layer>, groups: Option<seq<(string, Group)>>, inherited: set<string>)
    requires DistinctIds(layers)
    requires groups.Some? ==> DistinctKeys(groups.value)
    requires forall j :: 0 <= j < |layers| ==> layers[j].id !in inherited
    ensures multiset(Flatten(RenderedWith(layers, groups, inherited))) == multiset(layers)
  {
    var gs := groups.GetOr([]);
    var keys := Keys(gs);
    FlattenAppend(GroupEntries(layers, gs), UngroupedFrom(layers, inherited + GroupedIds(layers, keys), 0));
    GroupEntriesMultiset(layers, gs);
    UngroupedMultiset(layers, keys, inherited, 0);
    assert layers[0..] == layers;
    FilterPartition(layers, keys);
  }

  /** The render as written shows every layer once when no layer id is a
      name inherited from `Object.prototype`. */
  lemma RenderedEveryLayerOnce(layers: seq<Layer>, groups: Option<seq<(string, Group)>>)
    requires DistinctIds(layers)
    requires groups.Some? ==> DistinctKeys(groups.value)
    requires forall j :: 0 <= j < |layers| ==> layers[j].id !in ProtoNames
    ensures multiset(Flatten(Rendered(layers, groups))) == multiset(layers)
  {
    EveryLayerOnce(layers, groups, ProtoNames);
  }

  /** The intended render shows every layer once, whatever the ids. */
  lemma IntendedEveryLayerOnce(layers: seq<Layer>, groups: Option<seq<(string, Group)>>)
    requires DistinctIds(layers)
    requires groups.Some? ==> DistinctKeys(groups.value)
    ensures multiset(Flatten(RenderedIntended(layers, groups))) == multiset(layers)
  {
    EveryLayerOnce(layers, groups, {});
  }

  /** As written, an ungrouped layer whose id is an inherited name, such as
      "constructor", is never rendered: a single such layer without groups
      gives an empty list, where the intended render shows it. */
  lemma InheritedIdHidden(layers: seq<Layer>, groups: Option<seq<(string, Group)>>)
    ensures forall e :: e in UngroupedFrom(layers, ProtoNames + GroupedIds(layers, Keys(groups.GetOr([]))), 0) ==>
              e.LayerEntry? && e.layer.id !in ProtoNames
    ensures Rendered([Layer("constructor", None)], None) == []
    ensures RenderedIntended([Layer("constructor", None)], None) == [LayerEntry(0, Layer("constructor", None))]
  {
    var marked := ProtoNames + GroupedIds(layers, Keys(groups.GetOr([])));
    UngroupedOrder(layers, marked, 0);
    var u := UngroupedFrom(layers, marked, 0);
    assert forall e :: e in u ==> exists a :: 0 <= a < |u| && u[a] == e;
    var one := [Layer("constructor", None)];
    assert GroupedIds(one, Keys([])) == {};
    assert UngroupedFrom(one, {}, 1) == [];
    assert UngroupedFrom(one, ProtoNames, 1) == [];
  }

  /** A layer whose group is a key of the groups object is shown in that
      group's entry and never among the ungrouped entries. */
  lemma GroupedLayerPlacement(layers: seq<Layer>, groups: seq<(string, Group)>, i: nat, g: nat)
    requires i < |layers| && g < |groups|
    requires layers[i].group == Some(groups[g].0)
    ensures var e := GroupEntry(groups[g].0, groups[g].1, InGroup(layers, groups[g].0));
      e in Rendered(layers, Some(groups)) && layers[i] in e.members
    ensures forall e :: e in UngroupedFrom(layers, ProtoNames + GroupedIds(layers, Keys(groups)), 0) ==>
              e.LayerEntry? && e.layer.id != layers[i].id
  {
    assert layers[i] in InGroup(layers, groups[g].0);
    GroupEntryPresent(layers, groups, g);
    var marked := ProtoNames + GroupedIds(layers, Keys(groups));
    assert groups[g] in groups;
    assert layers[i].id in marked;
    UngroupedOrder(layers, marked, 0);
    var u := UngroupedFrom(layers, marked, 0);
    assert forall e :: e in u ==> exists a :: 0 <= a < |u| && u[a] == e;
  }
}
