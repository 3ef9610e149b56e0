# Z-order layer controller of the Open-Sankoré board scene

This project models `UBZLayerController`, the part of the whiteboard's graphics
scene that decides the stacking order ("z-level") of the items on a board page.
Every item belongs to a layer type (background, objects, drawings, tools,
curtain, cache, ...). The controller keeps a table, `ScopeMap`, from each layer
type to a range record `ItemLayerTypeData` with four fields: `bottomLimit` and
`topLimit`, the range's edges; `curValue`, the running value; and `incStep`, the
step. From a layer's range it hands out z-levels (`generateZLevel`). It moves
one item within its layer (`changeZLevelTo` with `up`, `down`, `top` or
`bottom`). It answers bound and validity queries. It signals failure through
one shared error value (`errorNum`).

Three modules, one per concern:

- `LayerScope` (`layer_scope.dfy`) holds the range record and its two
  constructors. It also holds `QMap::value`'s fallback to a default record,
  the error value, and `AllocateFrom`, which is one allocation from one
  record. Lemmas about successive allocations are proved over `Run`, the
  results of n allocations in a row.
- `Stacking` (`stacking.dfy`) holds the scene items as the controller sees
  them: an id carrying a layer type and a z-value. It holds the search for an
  item's neighbours within its layer, as loops over the scene. It also holds
  `Stacked`, the invariant the controller keeps over the scene: every item of
  a registered layer holds a z-value that layer has handed out.
- `ZLayer` (`zlayer.dfy`) holds the controller as a class. Its field
  `scopeMap` is updated in place. `scene` stands for the `mScene` pointer, and
  its `items` map is updated in place by the moves.

Only the class declaration in `src/domain/UBGraphicsScene.h` is part of this
model. The bodies of `generateZLevel`, `changeZLevelTo`, `typeForData` and
`setLayerType`, the constructor's table of ranges, and the value of
`errorNumber` are in `src/domain/UBGraphicsScene.cpp`, which is not part of
this model. For those members, the contracts below state behaviour ASSUMED
from the declarations and the field comments. They are not checked against
source. The assumptions are:

- An allocation hands out `curValue` and then advances it by `incStep`. A
  layer whose `curValue` has passed `topLimit` is exhausted. Exhaustion is
  noticed one call late. The call that finds it returns the error value and
  changes nothing.
- For an unregistered layer type, `generateZLevel` and `changeZLevelTo`
  return the error value and change nothing, and `setLayerType` leaves the
  item as it was. The bound queries read such a type as the range [0, 0].
- `up` and `down` exchange the item's z-value with the nearest item of the
  same layer strictly above or below it. Without such an item the call does
  nothing and returns the item's own z-value.
- `top` stamps the item with a fresh allocation from its layer.
- `bottom` puts the item one step below the lowest z-value of its layer. If
  that would cross `bottomLimit`, the item is clamped to `bottomLimit` and
  the error value is returned, to signal that the layer needs renormalising.
- `setLayerType` stamps the item with the new type and a fresh z-level of
  that type. If the new type hands out no z-level, the item is left as it was.
- The error value is the constant `-20000001.0`, chosen by the model.

Two client methods, `ZLayer.ScenarioToFront` and `ZLayer.ScenarioToBack`,
work through an example from the contracts alone. Items stamped into a layer
[0, 1000] with step 1 get 0, 1 and 2. Bringing the first to the front gives
it 3. Sending the second to the back gives it 0. Sending the third to the back
then hits the floor and reports the error value.

Internally, an allocation keeps the two failure reasons apart (`ZResult`:
`UnknownLayer` or `Exhausted`). Callers see only the conflated error value
(`ZValue`), as in the source.

## Model

| member | source | states |
|---|---|---|
| `LayerScope.DefaultLayerData` | src/domain/UBGraphicsScene.h:69 | the default record is the one the three-argument constructor builds from (0, 0): bottom 0, top 0, running value 0, step 1 |
| `LayerScope.LayerData` | src/domain/UBGraphicsScene.h:70 | a record built from (bot, top[, step]) keeps its edges and step, with step 1 when omitted, and its running value starts at `bot`; its first allocation hands out `bot` when bot <= top and is exhausted otherwise; a positive step makes it well-formed |
| `LayerScope.AllocateFrom` | src/domain/UBGraphicsScene.h:71-74 | (assumed) one allocation hands out the running value exactly when it has not passed the top edge, and then advances it by the step; a failure reports exhaustion and keeps the record; edges and step never change; on a well-formed record the key lies between the edges and below the new running value |
| `LayerScope.Run` | src/domain/UBGraphicsScene.h:94 | (assumed) n successive allocations give n results |
| `LayerScope.RunAt` | src/domain/UBGraphicsScene.h:73-74 | (assumed) the i-th successive allocation hands out `curValue + i * incStep` while that stays within the top edge, and fails from then on |
| `LayerScope.RunAtLeastCursor` | src/domain/UBGraphicsScene.h:73 | (assumed) no allocation hands out a z-level below the starting running value |
| `LayerScope.RunIncreasing` | src/domain/UBGraphicsScene.h:94 | (assumed) successive allocations from one layer hand out strictly increasing z-levels |
| `LayerScope.RunFromExhausted` | src/domain/UBGraphicsScene.h:94 | (assumed) a layer whose running value has passed its top edge fails every allocation |
| `LayerScope.ExhaustionIsSticky` | src/domain/UBGraphicsScene.h:94 | (assumed) once an allocation from a layer fails, every later one fails too |
| `LayerScope.RunInRange` | src/domain/UBGraphicsScene.h:71-72 | (assumed) every z-level a well-formed layer hands out lies between its bottom and top edges |
| `LayerScope.DisjointLayersOrderKeys` | src/domain/UBGraphicsScene.h:84 | z-levels inside two distinct, non-overlapping layers never coincide and compare in the order of the layers' ranges |
| `LayerScope.ErrorValueIsUnambiguous` | src/domain/UBGraphicsScene.h:92 | when the error value lies outside a layer's range, an allocation returned the error value exactly when it failed |
| `Stacking.NearestAbove` | src/domain/UBGraphicsScene.h:78 | (assumed) finds the lowest item of the same layer strictly above the item, and reports none exactly when no item of the layer lies above it |
| `Stacking.NearestBelow` | src/domain/UBGraphicsScene.h:79 | (assumed) finds the highest item of the same layer strictly below the item, and reports none exactly when no item of the layer lies below it |
| `Stacking.LowestZ` | src/domain/UBGraphicsScene.h:81 | (assumed) the lowest z-value among the item and the other items of its layer |
| `Stacking.UpperNeighbourBecomesLower` | src/domain/UBGraphicsScene.h:78-79 | (assumed) after an item exchanges places with its nearest upper neighbour, that neighbour is a nearest item below it, and exchanging again restores the scene |
| `Stacking.DownUndoesUp` | src/domain/UBGraphicsScene.h:78-79 | (assumed) when no other item of the layer shares the item's z-value, the nearest upper neighbour it exchanged with is afterwards its only nearest item below, so `down` after `up` exchanges the two back and restores the scene |
| `Stacking.SwapKeepsStacked` | src/domain/UBGraphicsScene.h:97 | (assumed) two items of one layer exchanging z-values keep every item inside its layer's handed-out range and touch no other item |
| `Stacking.AllocationKeepsStacked` | src/domain/UBGraphicsScene.h:94 | (assumed) an allocation keeps every item inside its layer's handed-out range |
| `Stacking.StampKeepsStacked` | src/domain/UBGraphicsScene.h:99 | (assumed) stamping an item with the z-level its layer just handed out keeps every item inside its layer's handed-out range |
| `Stacking.LoweringKeepsStacked` | src/domain/UBGraphicsScene.h:81 | (assumed) lowering an item within its layer, not below the layer's bottom edge, keeps every item inside its layer's handed-out range |
| `Stacking.NextKeyIsAboveLayer` | src/domain/UBGraphicsScene.h:80 | (assumed) in a stacked scene, the next z-level of an item's layer lies strictly above every other item of that layer |
| `Stacking.LayersStayApart` | src/domain/UBGraphicsScene.h:84 | in a stacked scene over non-overlapping layers, items of distinct layers never share a z-value and compare in the order of their layers' ranges |
| `ZLayer.ZLayerController.constructor` | src/domain/UBGraphicsScene.h:86 | binds the controller to one scene with a table of well-formed ranges |
| `ZLayer.ZLayerController.GetBottomLimit` | src/domain/UBGraphicsScene.h:88 | the stored bottom edge of a registered layer type, 0 for an unregistered one |
| `ZLayer.ZLayerController.GetTopLimit` | src/domain/UBGraphicsScene.h:89 | the stored top edge of a registered layer type, 0 for an unregistered one |
| `ZLayer.ZLayerController.ValidLayerType` | src/domain/UBGraphicsScene.h:90 | true exactly when the type is a key of the scope map; an unregistered type reads as the range [0, 0] |
| `ZLayer.ZLayerController.ErrorNum` | src/domain/UBGraphicsScene.h:92 | one value, shared by every controller, that both failure reasons surface as |
| `ZLayer.ZLayerController.Allocate` | src/domain/UBGraphicsScene.h:94 | (assumed) an allocation from the table: an unknown layer fails and changes nothing; a registered one follows `AllocateFrom` on its record only; the table stays well-formed and the scene stacked |
| `ZLayer.ZLayerController.GenerateZLevel` | src/domain/UBGraphicsScene.h:94 | (assumed) hands out the layer's running value and advances it by its step, the result lying within the layer's bounds; other layers' records are untouched; an unknown or exhausted layer yields the error value and changes nothing |
| `ZLayer.ZLayerController.GenerateZLevelFor` | src/domain/UBGraphicsScene.h:95 | (assumed) the same allocation for the layer type recorded on the item |
| `ZLayer.ZLayerController.TypeForData` | src/domain/UBGraphicsScene.h:98 | the layer type recorded on the item, read without changing anything |
| `ZLayer.ZLayerController.ChangeZLevelTo` | src/domain/UBGraphicsScene.h:97 | (assumed) up/down exchange z-values with the nearest item of the same layer, or do nothing at the extreme; top stamps a fresh z-level, which in a stacked scene lies strictly above every other item of the layer; bottom goes one step below the layer's lowest item, or clamps to the floor and returns the error value; an unknown layer returns the error value and changes nothing; the scene stays stacked |
| `ZLayer.ZLayerController.SetLayerType` | src/domain/UBGraphicsScene.h:99 | (assumed) the item afterwards reports the new type and holds a fresh z-level within the new layer's bounds; no other item changes; when the new type hands out nothing, nothing changes |

## Left out

- `UBGraphicsScene` itself (input devices, drawing, item factories, magnifier, background, undo stack, rendering context): user-interface glue around the toolkit scene.
- The contents of the constructor's table of ranges, the value of `errorNumber` and the `itemLayerType` enumeration: they are defined in `src/domain/UBGraphicsScene.cpp` and `src/core/UB.h`, which are not part of this model. The constructor takes the table as a parameter, a layer type is its enumerator's integer, and the error value is a constant the model picks.
- `ZLayer.ZLayerController.ChangeZLevelTo`: the moves' exact behaviour near the floor and at ties, and whether `top` leaves an already topmost item alone, are assumed rather than taken from the hidden body; siblings are all items of the same layer, without any geometric filter; a layer that hits its floor is reported through the return value only and is not marked for later renormalisation.
- `ZLayer.ZLayerController.GenerateZLevel`: the exact overflow rule is assumed (exhaustion noticed one call late, no clamping). Exhaustion is recorded by the running value itself, not by a separate flag: after the last z-level inside the range is handed out, `curValue` lies above `topLimit`, so the range invariant "bottom <= running value <= top after every successful allocation" does not hold; `LayerScope.RunInRange` bounds the handed-out z-levels instead.
- qreal rounding: z-values are exact reals.
- Items are ids carrying a layer type and a z-value; `QGraphicsItem`'s other data, and the scene's adding and removing of items, are not modelled.
- `Q_OBJECT`, signals and slots, and thread affinity: framework plumbing.
