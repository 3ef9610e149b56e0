/**
 * Scene items as the layer controller sees them (an id carrying a layer type
 * and a z-value), the search for an item's neighbours within its layer, and
 * the stacking invariant the controller keeps over the scene.
 */
module Stacking {
  import opened LayerScope

  /** Identity of a scene item. */
  type ItemId = nat

  /** What the controller reads and writes on a graphics item: its layer type and its z-value. */
  datatype SceneItem = SceneItem(layer: LayerType, z: real)

  datatype Option<T> = None | Some(value: T)

  /** `w` is another item of the same layer as `id`. */
  predicate Sibling(items: map<ItemId, SceneItem>, id: ItemId, w: ItemId)
  {
    id in items && w in items && w != id && items[w].layer == items[id].layer
  }

  /** No item of `id`'s layer lies strictly above it. */
  ghost predicate NoneAbove(items: map<ItemId, SceneItem>, id: ItemId)
  {
    forall w :: Sibling(items, id, w) ==> items[w].z <= items[id].z
  }

  /** No item of `id`'s layer lies strictly below it. */
  ghost predicate NoneBelow(items: map<ItemId, SceneItem>, id: ItemId)
  {
    forall w :: Sibling(items, id, w) ==> items[id].z <= items[w].z
  }

  /** `id` lies strictly above every other item of its layer. */
  ghost predicate OnTop(items: map<ItemId, SceneItem>, id: ItemId)
  {
    forall w :: Sibling(items, id, w) ==> items[w].z < items[id].z
  }

  /** `n` is the lowest item of `id`'s layer strictly above `id`. */
  ghost predicate IsNearestAbove(items: map<ItemId, SceneItem>, id: ItemId, n: ItemId)
  {
    && Sibling(items, id, n)
    && items[id].z < items[n].z
    && forall w :: Sibling(items, id, w) && items[id].z < items[w].z ==> items[n].z <= items[w].z
  }

  /** `n` is the highest item of `id`'s layer strictly below `id`. */
  ghost predicate IsNearestBelow(items: map<ItemId, SceneItem>, id: ItemId, n: ItemId)
  {
    && Sibling(items, id, n)
    && items[n].z < items[id].z
    && forall w :: Sibling(items, id, w) && items[w].z < items[id].z ==> items[w].z <= items[n].z
  }

  /** `low` is the lowest z-value in `id`'s layer, `id` itself included. */
  ghost predicate IsLowest(items: map<ItemId, SceneItem>, id: ItemId, low: real)
  {
    && id in items
    && low <= items[id].z
    && (forall w :: Sibling(items, id, w) ==> low <= items[w].z)
    && (low == items[id].z || exists w :: Sibling(items, id, w) && items[w].z == low)
  }

  /** An item's layer has one lowest z-value. */
  lemma LowestIsUnique(items: map<ItemId, SceneItem>, id: ItemId, a: real, b: real)
    requires IsLowest(items, id, a) && IsLowest(items, id, b)
    ensures a == b
  {
  }

  /**
   * `after` is `before` with item `id` sent to the bottom of its layer
   * (range record `d`), and `z` is what the move reports: one step below the
   * layer's lowest z-value, or, where that would cross the layer's bottom
   * edge, the bottom edge itself, reported with the error value.
   */
  ghost predicate SentToBottom(before: map<ItemId, SceneItem>, after: map<ItemId, SceneItem>, id: ItemId,
                               d: ItemLayerTypeData, z: real)
  {
    exists low :: IsLowest(before, id, low) &&
      if d.bottomLimit <= low - d.incStep then
        z == low - d.incStep && after == before[id := before[id].(z := z)]
      else
        z == ErrorNumber && after == before[id := before[id].(z := d.bottomLimit)]
  }

  /** Finds the item just above `id` in its layer, if there is one. */
  method NearestAbove(items: map<ItemId, SceneItem>, id: ItemId) returns (n: Option<ItemId>)
    requires id in items
    ensures n.None? <==> NoneAbove(items, id)
    ensures n.Some? ==> IsNearestAbove(items, id, n.value)
  {
    n := None;
    var rest := items.Keys;
    while rest != {}
      invariant rest <= items.Keys
      invariant n.None? ==> forall w :: w !in rest && Sibling(items, id, w) ==> items[w].z <= items[id].z
      invariant n.Some? ==> Sibling(items, id, n.value) && items[id].z < items[n.value].z
      invariant n.Some? ==> forall w :: w !in rest && Sibling(items, id, w) && items[id].z < items[w].z ==>
        items[n.value].z <= items[w].z
      decreases rest
    {
      var w :| w in rest;
      rest := rest - {w};
      if Sibling(items, id, w) && items[id].z < items[w].z && (n.None? || items[w].z < items[n.value].z) {
        n := Some(w);
      }
    }
  }

  /** Finds the item just below `id` in its layer, if there is one. */
  method NearestBelow(items: map<ItemId, SceneItem>, id: ItemId) returns (n: Option<ItemId>)
    requires id in items
    ensures n.None? <==> NoneBelow(items, id)
    ensures n.Some? ==> IsNearestBelow(items, id, n.value)
  {
    n := None;
    var rest := items.Keys;
    while rest != {}
      invariant rest <= items.Keys
      invariant n.None? ==> forall w :: w !in rest && Sibling(items, id, w) ==> items[id].z <= items[w].z
      invariant n.Some? ==> Sibling(items, id, n.value) && items[n.value].z < items[id].z
      invariant n.Some? ==> forall w :: w !in rest && Sibling(items, id, w) && items[w].z < items[id].z ==>
        items[w].z <= items[n.value].z
      decreases rest
    {
      var w :| w in rest;
      rest := rest - {w};
      if Sibling(items, id, w) && items[w].z < items[id].z && (n.None? || items[n.value].z < items[w].z) {
        n := Some(w);
      }
    }
  }

  /** The lowest z-value in `id`'s layer. */
  method LowestZ(items: map<ItemId, SceneItem>, id: ItemId) returns (low: real)
    requires id in items
    ensures IsLowest(items, id, low)
  {
    low := items[id].z;
    var rest := items.Keys;
    while rest != {}
      invariant rest <= items.Keys
      invariant low <= items[id].z
      invariant forall w :: w !in rest && Sibling(items, id, w) ==> low <= items[w].z
      invariant low == items[id].z || exists w :: Sibling(items, id, w) && items[w].z == low
      decreases rest
    {
      var w :| w in rest;
      rest := rest - {w};
      if Sibling(items, id, w) && items[w].z < low {
        low := items[w].z;
      }
    }
  }

  /**
   * Every item of a registered layer holds a z-value that layer has handed
   * out: inside its edges and below its running value.
   */
  ghost predicate Stacked(m: map<LayerType, ItemLayerTypeData>, items: map<ItemId, SceneItem>)
  {
    forall id :: id in items && items[id].layer in m ==> InScope(items[id].z, m[items[id].layer])
  }

  /** The scene after items `a` and `b` exchange their z-values. */
  function Swapped(items: map<ItemId, SceneItem>, a: ItemId, b: ItemId): map<ItemId, SceneItem>
    requires a in items && b in items
  {
    items[a := items[a].(z := items[b].z)][b := items[b].(z := items[a].z)]
  }

  /**
   * After an item exchanges places with its nearest upper neighbour, that
   * neighbour is a nearest item below it, and exchanging the two again
   * restores the scene.
   */
  lemma UpperNeighbourBecomesLower(items: map<ItemId, SceneItem>, id: ItemId, n: ItemId)
    requires IsNearestAbove(items, id, n)
    ensures IsNearestBelow(Swapped(items, id, n), id, n)
    ensures Swapped(Swapped(items, id, n), id, n) == items
  {
  }

  /**
   * When no other item of its layer shares the item's z-value, moving it up
   * and then down restores the scene: after the exchange with its nearest
   * upper neighbour `n`, `n` is the only nearest item below it, so the move
   * down can only exchange the two back.
   */
  lemma DownUndoesUp(items: map<ItemId, SceneItem>, id: ItemId, n: ItemId)
    requires IsNearestAbove(items, id, n)
    requires forall w :: Sibling(items, id, w) ==> items[w].z != items[id].z
    ensures forall k: ItemId :: IsNearestBelow(Swapped(items, id, n), id, k) ==> k == n
    ensures Swapped(Swapped(items, id, n), id, n) == items
  {
    var after := Swapped(items, id, n);
    forall k: ItemId | IsNearestBelow(after, id, k)
      ensures k == n
    {
      UpperNeighbourBecomesLower(items, id, n);
    }
  }

  /** Two items of one layer exchanging their z-values keep the scene stacked. */
  lemma SwapKeepsStacked(m: map<LayerType, ItemLayerTypeData>, items: map<ItemId, SceneItem>, a: ItemId, b: ItemId)
    requires Stacked(m, items) && Sibling(items, a, b)
    ensures Stacked(m, Swapped(items, a, b))
    ensures Swapped(items, a, b).Keys == items.Keys
    ensures Swapped(items, a, b)[a].z == items[b].z && Swapped(items, a, b)[b].z == items[a].z
    ensures forall w :: w in items && w != a && w != b ==> Swapped(items, a, b)[w] == items[w]
  {
  }

  /** An allocation from a registered layer only raises its running value: the scene stays stacked. */
  lemma AllocationKeepsStacked(m: map<LayerType, ItemLayerTypeData>, items: map<ItemId, SceneItem>, t: LayerType)
    requires Stacked(m, items) && t in m && WellFormed(m[t])
    ensures Stacked(m[t := AllocateFrom(m[t]).next], items)
  {
  }

  /** Stamping an item into a layer with the z-value that layer just handed out keeps the scene stacked. */
  lemma StampKeepsStacked(m: map<LayerType, ItemLayerTypeData>, items: map<ItemId, SceneItem>, t: LayerType, id: ItemId)
    requires Stacked(m, items) && t in m && WellFormed(m[t])
    requires AllocateFrom(m[t]).result.Key?
    ensures Stacked(m[t := AllocateFrom(m[t]).next], items[id := SceneItem(t, AllocateFrom(m[t]).result.z)])
  {
  }

  /** Lowering an item within its layer, not below the layer's floor, keeps the scene stacked. */
  lemma LoweringKeepsStacked(m: map<LayerType, ItemLayerTypeData>, items: map<ItemId, SceneItem>, id: ItemId, z: real)
    requires Stacked(m, items) && id in items && items[id].layer in m
    requires m[items[id].layer].bottomLimit <= z <= items[id].z
    ensures Stacked(m, items[id := items[id].(z := z)])
  {
  }

  /**
   * In a stacked scene, the z-value the next allocation from an item's layer
   * hands out lies strictly above every other item of that layer.
   */
  lemma NextKeyIsAboveLayer(m: map<LayerType, ItemLayerTypeData>, items: map<ItemId, SceneItem>, id: ItemId)
    requires Stacked(m, items) && id in items && items[id].layer in m
    requires AllocateFrom(m[items[id].layer]).result.Key?
    ensures forall w :: Sibling(items, id, w) ==> items[w].z < AllocateFrom(m[items[id].layer]).result.z
  {
  }

  /**
   * In a stacked scene over disjoint layers, items of two distinct layers
   * never share a z-value and compare in the order of their layers' ranges.
   */
  lemma LayersStayApart(m: map<LayerType, ItemLayerTypeData>, items: map<ItemId, SceneItem>, x: ItemId, y: ItemId)
    requires Stacked(m, items) && Disjoint(m)
    requires x in items && y in items && items[x].layer in m && items[y].layer in m
    requires items[x].layer != items[y].layer
    ensures items[x].z != items[y].z
    ensures items[x].z < items[y].z <==> m[items[x].layer].topLimit < m[items[y].layer].bottomLimit
  {
  }
}
