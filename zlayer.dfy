/**
 * The z-order layer controller (UBZLayerController): a fixed table from item
 * layer type to range record, the allocation of z-levels from it, and the
 * moves of one scene item within its layer.
 */
module ZLayer {
  import opened LayerScope
  import opened Stacking

  /** Where `changeZLevelTo` moves an item within its layer. */
  datatype MoveDestination = Up | Down | Top | Bottom

  /** The graphics scene the controller is bound to: its items, by id. */
  class Scene {
    var items: map<ItemId, SceneItem>

    constructor (items: map<ItemId, SceneItem>)
      ensures this.items == items
    {
      this.items := items;
    }
  }

  class ZLayerController {
    /** The table from layer type to range record (ScopeMap). */
    var scopeMap: map<LayerType, ItemLayerTypeData>
    /** The scene whose items the controller restacks. */
    const scene: Scene

    /** Every registered record has a positive step and a running value not below its floor. */
    ghost predicate Valid()
      reads this
    {
      forall k :: k in scopeMap ==> WellFormed(scopeMap[k])
    }

    /** Every scene item of a registered layer holds a z-value that layer has handed out. */
    ghost predicate Ordered()
      reads this, scene
    {
      Stacked(scopeMap, scene.items)
    }

    /** Binds the controller to `scene` with the given table of layer ranges. */
    constructor (scene: Scene, scopes: map<LayerType, ItemLayerTypeData>)
      requires forall k :: k in scopes ==> WellFormed(scopes[k])
      ensures Valid()
      ensures this.scene == scene && scopeMap == scopes
    {
      this.scene := scene;
      scopeMap := scopes;
    }

    /** The bottom edge of `key`'s layer, 0 for an unregistered type. */
    function GetBottomLimit(key: LayerType): (r: real)
      reads this
      ensures key in scopeMap ==> r == scopeMap[key].bottomLimit
      ensures key !in scopeMap ==> r == 0.0
    {
      ValueOf(scopeMap, key).bottomLimit
    }

    /** The top edge of `key`'s layer, 0 for an unregistered type. */
    function GetTopLimit(key: LayerType): (r: real)
      reads this
      ensures key in scopeMap ==> r == scopeMap[key].topLimit
      ensures key !in scopeMap ==> r == 0.0
    {
      ValueOf(scopeMap, key).topLimit
    }

    /** Whether `key` is a registered layer type; an unregistered one reads as the range [0, 0]. */
    function ValidLayerType(key: LayerType): (b: bool)
      reads this
      ensures b <==> key in scopeMap
      ensures !b ==> GetBottomLimit(key) == 0.0 && GetTopLimit(key) == 0.0
    {
      key in scopeMap
    }

    /** The shared error value: what every failed operation returns, whatever the reason. */
    static function ErrorNum(): (r: real)
      ensures r == ZValue(Failed(UnknownLayer)) && r == ZValue(Failed(Exhausted))
    {
      ErrorNumber
    }

    /**
     * One allocation from `key`'s layer, keeping the reason for a failure:
     * an unregistered type or an exhausted range.
     */
    method Allocate(key: LayerType) returns (r: ZResult)
      requires Valid()
      modifies this
      ensures Valid()
      ensures key !in old(scopeMap) ==> r == Failed(UnknownLayer) && scopeMap == old(scopeMap)
      ensures key in old(scopeMap) ==>
        && r == AllocateFrom(old(scopeMap)[key]).result
        && scopeMap == old(scopeMap)[key := AllocateFrom(old(scopeMap)[key]).next]
      ensures old(Ordered()) ==> Ordered()
    {
      if key !in scopeMap {
        return Failed(UnknownLayer);
      }
      var a := AllocateFrom(scopeMap[key]);
      if old(Ordered()) {
        AllocationKeepsStacked(scopeMap, scene.items, key);
      }
      r := a.result;
      scopeMap := scopeMap[key := a.next];
    }

    /**
     * `generateZLevel(key)`: hands out the running value of `key`'s layer and
     * advances it by the layer's step; every other layer is untouched. An
     * unregistered type or an exhausted layer yields the error value and
     * changes nothing.
     */
    method GenerateZLevel(key: LayerType) returns (z: real)
      requires Valid()
      modifies this
      ensures Valid()
      ensures scopeMap.Keys == old(scopeMap).Keys
      ensures forall k :: k in old(scopeMap) && k != key ==> scopeMap[k] == old(scopeMap)[k]
      ensures key !in old(scopeMap) ==> z == ErrorNum() && scopeMap == old(scopeMap)
      ensures key in old(scopeMap) ==>
        var d := old(scopeMap)[key];
        if d.curValue <= d.topLimit then
          z == d.curValue && scopeMap[key] == d.(curValue := d.curValue + d.incStep)
        else
          z == ErrorNum() && scopeMap == old(scopeMap)
      ensures key in old(scopeMap) && old(scopeMap)[key].curValue <= old(scopeMap)[key].topLimit ==>
        GetBottomLimit(key) <= z <= GetTopLimit(key) && z < scopeMap[key].curValue
      ensures old(Ordered()) ==> Ordered()
    {
      var r := Allocate(key);
      z := ZValue(r);
    }

    /** The layer type recorded on item `id` (`typeForData`). */
    function TypeForData(id: ItemId): (t: LayerType)
      reads scene
      requires id in scene.items
      ensures t == scene.items[id].layer
    {
      scene.items[id].layer
    }

    /** `generateZLevel(item)`: a z-level from the layer recorded on the item. */
    method GenerateZLevelFor(id: ItemId) returns (z: real)
      requires Valid() && id in scene.items
      modifies this
      ensures Valid()
      ensures var key := old(TypeForData(id));
        if key in old(scopeMap) && old(scopeMap)[key].curValue <= old(scopeMap)[key].topLimit then
          var d := old(scopeMap)[key];
          z == d.curValue && scopeMap == old(scopeMap)[key := d.(curValue := d.curValue + d.incStep)]
        else
          z == ErrorNum() && scopeMap == old(scopeMap)
      ensures old(Ordered()) ==> Ordered()
    {
      z := GenerateZLevel(TypeForData(id));
    }

    /**
     * `changeZLevelTo(item, dest)`: moves item `id` within its layer and
     * returns its resulting z-level, or the error value when the move failed.
     * Only items of the same layer take part; no other layer's record
     * changes.
     */
    method ChangeZLevelTo(id: ItemId, dest: MoveDestination) returns (z: real)
      requires Valid() && id in scene.items
      modifies this, scene
      ensures Valid()
      ensures old(Ordered()) ==> Ordered()
      ensures scene.items.Keys == old(scene.items).Keys
      // an item of an unregistered layer is not moved
      ensures old(scene.items)[id].layer !in old(scopeMap) ==>
        z == ErrorNum() && scopeMap == old(scopeMap) && scene.items == old(scene.items)
      // up: exchange z-values with the nearest item above, if any
      ensures dest == Up && old(scene.items)[id].layer in old(scopeMap) ==>
        && scopeMap == old(scopeMap)
        && ((NoneAbove(old(scene.items), id) && scene.items == old(scene.items) && z == old(scene.items)[id].z)
            || exists n :: IsNearestAbove(old(scene.items), id, n) &&
                 scene.items == Swapped(old(scene.items), id, n) && z == old(scene.items)[n].z)
      // down: exchange z-values with the nearest item below, if any
      ensures dest == Down && old(scene.items)[id].layer in old(scopeMap) ==>
        && scopeMap == old(scopeMap)
        && ((NoneBelow(old(scene.items), id) && scene.items == old(scene.items) && z == old(scene.items)[id].z)
            || exists n :: IsNearestBelow(old(scene.items), id, n) &&
                 scene.items == Swapped(old(scene.items), id, n) && z == old(scene.items)[n].z)
      // top: stamp the item with a fresh z-level of its layer
      ensures dest == Top && old(scene.items)[id].layer in old(scopeMap) ==>
        var t := old(scene.items)[id].layer;
        var d := old(scopeMap)[t];
        if d.curValue <= d.topLimit then
          && z == d.curValue
          && scopeMap == old(scopeMap)[t := d.(curValue := d.curValue + d.incStep)]
          && scene.items == old(scene.items)[id := old(scene.items)[id].(z := z)]
        else
          z == ErrorNum() && scopeMap == old(scopeMap) && scene.items == old(scene.items)
      ensures dest == Top && old(Ordered()) && old(scene.items)[id].layer in old(scopeMap) &&
              old(scopeMap)[old(scene.items)[id].layer].curValue <= old(scopeMap)[old(scene.items)[id].layer].topLimit ==>
        scene.items[id].z == z && OnTop(scene.items, id)
      // bottom: one step below the lowest item of the layer, clamped to the floor
      ensures dest == Bottom && old(scene.items)[id].layer in old(scopeMap) ==>
        var d := old(scopeMap)[old(scene.items)[id].layer];
        && scopeMap == old(scopeMap)
        && SentToBottom(old(scene.items), scene.items, id, d, z)
      ensures dest == Bottom && old(Ordered()) && old(scene.items)[id].layer in old(scopeMap) ==>
        NoneBelow(scene.items, id)
    {
      var it := scene.items[id];
      ghost var before := scene.items;
      if it.layer !in scopeMap {
        return ErrorNumber;
      }
      if dest == Up || dest == Down {
        var n;
        if dest == Up {
          n := NearestAbove(scene.items, id);
        } else {
          n := NearestBelow(scene.items, id);
        }
        if n.None? {
          z := it.z;
        } else {
          if Stacked(scopeMap, scene.items) {
            SwapKeepsStacked(scopeMap, scene.items, id, n.value);
          }
          z := scene.items[n.value].z;
          scene.items := Swapped(scene.items, id, n.value);
        }
      } else if dest == Top {
        ghost var m := scopeMap;
        var r := Allocate(it.layer);
        if r.Key? {
          if Stacked(m, before) {
            NextKeyIsAboveLayer(m, before, id);
            StampKeepsStacked(m, before, it.layer, id);
          }
          scene.items := scene.items[id := it.(z := r.z)];
          z := r.z;
        } else {
          z := ErrorNumber;
        }
      } else {
        var low := LowestZ(scene.items, id);
        var d := scopeMap[it.layer];
        var target;
        if d.bottomLimit <= low - d.incStep {
          target := low - d.incStep;
          z := target;
        } else {
          // the floor is reached: clamp to it and report the error value
          target := d.bottomLimit;
          z := ErrorNumber;
        }
        if Stacked(scopeMap, scene.items) {
          LoweringKeepsStacked(scopeMap, scene.items, id, target);
        }
        scene.items := scene.items[id := it.(z := target)];
      }
    }

    /**
     * `setLayerType(item, type)`: moves item `id` into layer `newType` with a
     * fresh z-level of that layer. When the layer hands out no z-level
     * (unregistered or exhausted), the item is left as it was.
     */
    method SetLayerType(id: ItemId, newType: LayerType)
      requires Valid() && id in scene.items
      modifies this, scene
      ensures Valid()
      ensures old(Ordered()) ==> Ordered()
      ensures scene.items.Keys == old(scene.items).Keys
      ensures forall w :: w in old(scene.items) && w != id ==> scene.items[w] == old(scene.items)[w]
      ensures newType in old(scopeMap) && old(scopeMap)[newType].curValue <= old(scopeMap)[newType].topLimit ==>
        var d := old(scopeMap)[newType];
        && TypeForData(id) == newType
        && scene.items[id].z == d.curValue
        && GetBottomLimit(newType) <= scene.items[id].z <= GetTopLimit(newType)
        && scopeMap == old(scopeMap)[newType := d.(curValue := d.curValue + d.incStep)]
      ensures !(newType in old(scopeMap) && old(scopeMap)[newType].curValue <= old(scopeMap)[newType].topLimit) ==>
        scene.items == old(scene.items) && scopeMap == old(scopeMap)
    {
      ghost var m := scopeMap;
      var r := Allocate(newType);
      if r.Key? {
        if Stacked(m, scene.items) {
          StampKeepsStacked(m, scene.items, newType, id);
        }
        scene.items := scene.items[id := SceneItem(newType, r.z)];
      }
    }
  }

  /**
   * A content layer [0, 1000] with step 1: three items stamped into it get
   * 0, 1 and 2, and bringing the first to the front gives it 3.
   */
  method ScenarioToFront()
  {
    var scene := new Scene(map[0 := SceneItem(0, 0.0), 1 := SceneItem(0, 0.0), 2 := SceneItem(0, 0.0)]);
    var c := new ZLayerController(scene, map[1 := LayerData(0.0, 1000.0)]);
    c.SetLayerType(0, 1);
    c.SetLayerType(1, 1);
    c.SetLayerType(2, 1);
    assert scene.items == map[0 := SceneItem(1, 0.0), 1 := SceneItem(1, 1.0), 2 := SceneItem(1, 2.0)];
    assert c.scopeMap == map[1 := ItemLayerTypeData(0.0, 1000.0, 3.0, 1.0)];
    assert scene.items[0].layer == 1 && 1 in c.scopeMap;
    assert c.scopeMap[1].curValue <= c.scopeMap[1].topLimit;
    var z := c.ChangeZLevelTo(0, Top);
    assert z == 3.0;
    assert scene.items[0].z == 3.0 && scene.items[1].z == 1.0 && scene.items[2].z == 2.0;
  }

  /**
   * Continuing from there: sending the second item to the back gives it 0,
   * one step below the lowest item; sending the third to the back then hits
   * the floor, which is reported with the error value.
   */
  method ScenarioToBack(c: ZLayerController)
    requires c.Valid()
    requires c.scopeMap == map[1 := ItemLayerTypeData(0.0, 1000.0, 4.0, 1.0)]
    requires c.scene.items == map[0 := SceneItem(1, 3.0), 1 := SceneItem(1, 1.0), 2 := SceneItem(1, 2.0)]
    modifies c, c.scene
  {
    var scene := c.scene;
    assert IsLowest(scene.items, 1, 1.0);
    ghost var before := scene.items;
    var z := c.ChangeZLevelTo(1, Bottom);
    assert z == 0.0 by {
      forall low | IsLowest(before, 1, low) ensures low == 1.0 {
        LowestIsUnique(before, 1, low, 1.0);
      }
    }
    assert scene.items == map[0 := SceneItem(1, 3.0), 1 := SceneItem(1, 0.0), 2 := SceneItem(1, 2.0)];
    assert IsLowest(scene.items, 2, 0.0) by {
      assert Sibling(scene.items, 2, 1);
    }
    before := scene.items;
    z := c.ChangeZLevelTo(2, Bottom);
    assert z == ZLayerController.ErrorNum() && scene.items[2].z == 0.0 by {
      forall low | IsLowest(before, 2, low) ensures low == 0.0 {
        LowestIsUnique(before, 2, low, 0.0);
      }
    }
  }
}
