/**
 * The per-layer range record of the z-order layer controller
 * (UBZLayerController::ItemLayerTypeData) and the allocation of stacking
 * values ("z-levels") from one such range.
 *
 * Z-values are exact reals: the toolkit's qreal rounding is not modelled.
 */
module LayerScope {

  /** The numeric value of an itemLayerType::Enum enumerator. */
  type LayerType = int

  /** One layer's range of z-values. */
  datatype ItemLayerTypeData = ItemLayerTypeData(
    bottomLimit: real,  // bottom bound of the layer
    topLimit: real,     // top bound of the layer
    curValue: real,     // the running value: the next z-level the layer hands out
    incStep: real)      // distance between two successive z-levels

  /** The record `ItemLayerTypeData()` builds: the empty range [0, 0], step 1. */
  function DefaultLayerData(): (d: ItemLayerTypeData)
    ensures d == LayerData(0.0, 0.0)
    ensures d.bottomLimit == 0.0 && d.topLimit == 0.0
    ensures d.curValue == 0.0 && d.incStep == 1.0
  {
    ItemLayerTypeData(0.0, 0.0, 0.0, 1.0)
  }

  /**
   * The record `ItemLayerTypeData(bot, top, increment = 1)` builds: the
   * running value starts at the bottom edge.
   */
  function LayerData(bot: real, top: real, increment: real := 1.0): (d: ItemLayerTypeData)
    ensures d.bottomLimit == bot && d.topLimit == top && d.incStep == increment
    ensures d.curValue == bot
    ensures increment > 0.0 ==> WellFormed(d)
    ensures bot <= top ==> AllocateFrom(d).result == Key(bot)
    ensures bot > top ==> AllocateFrom(d).result == Failed(Exhausted)
  {
    ItemLayerTypeData(bot, top, bot, increment)
  }

  /** A record the controller can allocate from: a positive step, a cursor not below the floor. */
  predicate WellFormed(d: ItemLayerTypeData)
  {
    d.incStep > 0.0 && d.bottomLimit <= d.curValue
  }

  /**
   * `z` is a z-level the layer has already handed out: inside its edges and
   * below its running value.
   */
  predicate InScope(z: real, d: ItemLayerTypeData)
  {
    d.bottomLimit <= z <= d.topLimit && z < d.curValue
  }

  /**
   * `QMap::value(key)`: the stored record, or a default-constructed one when
   * the key is absent.
   */
  function ValueOf(m: map<LayerType, ItemLayerTypeData>, key: LayerType): ItemLayerTypeData
  {
    if key in m then m[key] else DefaultLayerData()
  }

  /** The single shared error value (UBZLayerController::errorNumber). */
  const ErrorNumber: real := -20000001.0

  /** Why an allocation produced no z-level. */
  datatype Failure = UnknownLayer | Exhausted

  /** What an allocation produced, keeping the two failure reasons apart. */
  datatype ZResult = Key(z: real) | Failed(reason: Failure)

  /** The value a caller sees: the key itself, or the shared error value for either failure. */
  function ZValue(r: ZResult): real
  {
    match r
    case Key(z) => z
    case Failed(_) => ErrorNumber
  }

  /** The outcome of one allocation and the record afterwards. */
  datatype Allocation = Allocation(result: ZResult, next: ItemLayerTypeData)

  /**
   * One allocation from one layer's record: the running value is handed out
   * and then advanced by the step. A layer whose running value has passed
   * its top edge is exhausted: it hands out nothing and keeps its record.
   */
  function AllocateFrom(d: ItemLayerTypeData): (a: Allocation)
    ensures a.result.Key? <==> d.curValue <= d.topLimit
    ensures a.result.Key? ==> a.result.z == d.curValue && a.next.curValue == d.curValue + d.incStep
    ensures a.result.Failed? ==> a.result.reason == Exhausted && a.next == d
    ensures a.next.bottomLimit == d.bottomLimit && a.next.topLimit == d.topLimit
    ensures a.next.incStep == d.incStep
    ensures WellFormed(d) ==> WellFormed(a.next) && d.curValue <= a.next.curValue
    ensures WellFormed(d) && a.result.Key? ==> InScope(a.result.z, a.next)
  {
    if d.curValue <= d.topLimit then
      Allocation(Key(d.curValue), d.(curValue := d.curValue + d.incStep))
    else
      Allocation(Failed(Exhausted), d)
  }

  /** The results of `n` successive allocations from one layer, starting from `d`. */
  function Run(d: ItemLayerTypeData, n: nat): (keys: seq<ZResult>)
    ensures |keys| == n
    decreases n
  {
    if n == 0 then []
    else
      var a := AllocateFrom(d);
      [a.result] + Run(a.next, n - 1)
  }

  /**
   * The i-th of successive allocations hands out `curValue + i * incStep`
   * while that stays within the top edge, and fails from then on.
   */
  lemma {:induction false} RunAt(d: ItemLayerTypeData, n: nat, i: nat)
    requires d.incStep > 0.0 && i < n
    ensures Run(d, n)[i] ==
      var v := d.curValue + (i as real) * d.incStep;
      if v <= d.topLimit then Key(v) else Failed(Exhausted)
    decreases i
  {
    var a := AllocateFrom(d);
    if i > 0 {
      assert Run(d, n)[i] == Run(a.next, n - 1)[i - 1];
      RunAt(a.next, n - 1, i - 1);
      var j := (i - 1) as real;
      assert (i as real) * d.incStep == j * d.incStep + d.incStep;
      assert j * d.incStep >= 0.0;
    }
  }

  /** Successive allocations never hand out a z-level below the starting running value. */
  lemma {:induction false} RunAtLeastCursor(d: ItemLayerTypeData, n: nat)
    requires d.incStep > 0.0
    ensures forall k :: 0 <= k < n && Run(d, n)[k].Key? ==> d.curValue <= Run(d, n)[k].z
    decreases n
  {
    if n > 0 {
      var a := AllocateFrom(d);
      RunAtLeastCursor(a.next, n - 1);
      assert forall k :: 0 < k < n ==> Run(d, n)[k] == Run(a.next, n - 1)[k - 1];
    }
  }

  /** Successive allocations hand out strictly increasing z-levels. */
  lemma {:induction false} RunIncreasing(d: ItemLayerTypeData, n: nat)
    requires d.incStep > 0.0
    ensures forall i, j :: 0 <= i < j < n && Run(d, n)[i].Key? && Run(d, n)[j].Key? ==>
      Run(d, n)[i].z < Run(d, n)[j].z
    decreases n
  {
    if n > 0 {
      var a := AllocateFrom(d);
      RunIncreasing(a.next, n - 1);
      RunAtLeastCursor(a.next, n - 1);
      assert forall k :: 0 < k < n ==> Run(d, n)[k] == Run(a.next, n - 1)[k - 1];
    }
  }

  /** A layer whose running value has passed its top edge fails every allocation. */
  lemma {:induction false} RunFromExhausted(d: ItemLayerTypeData, n: nat)
    requires d.curValue > d.topLimit
    ensures forall k :: 0 <= k < n ==> Run(d, n)[k] == Failed(Exhausted)
    decreases n
  {
    if n > 0 {
      RunFromExhausted(d, n - 1);
      assert forall k :: 0 < k < n ==> Run(d, n)[k] == Run(d, n - 1)[k - 1];
    }
  }

  /** Once a layer is exhausted, every later allocation from it fails too. */
  lemma {:induction false} ExhaustionIsSticky(d: ItemLayerTypeData, n: nat)
    ensures forall i, j :: 0 <= i < j < n && Run(d, n)[i].Failed? ==> Run(d, n)[j] == Failed(Exhausted)
    decreases n
  {
    if n > 0 {
      var a := AllocateFrom(d);
      if a.result.Failed? {
        RunFromExhausted(d, n);
      } else {
        ExhaustionIsSticky(a.next, n - 1);
        assert forall k :: 0 < k < n ==> Run(d, n)[k] == Run(a.next, n - 1)[k - 1];
      }
    }
  }

  /** Every z-level successive allocations hand out lies between the layer's edges. */
  lemma {:induction false} RunInRange(d: ItemLayerTypeData, n: nat)
    requires WellFormed(d)
    ensures forall k :: 0 <= k < n && Run(d, n)[k].Key? ==>
      d.bottomLimit <= Run(d, n)[k].z <= d.topLimit
    decreases n
  {
    if n > 0 {
      var a := AllocateFrom(d);
      RunInRange(a.next, n - 1);
      assert forall k :: 0 < k < n ==> Run(d, n)[k] == Run(a.next, n - 1)[k - 1];
    }
  }

  /**
   * Layers whose ranges do not overlap: of any two distinct layers one lies
   * wholly below the other.
   */
  ghost predicate Disjoint(m: map<LayerType, ItemLayerTypeData>)
  {
    forall a, b :: a in m && b in m && a != b ==>
      m[a].topLimit < m[b].bottomLimit || m[b].topLimit < m[a].bottomLimit
  }

  /**
   * Z-levels from two distinct, disjoint layers never coincide, and they
   * compare in the order of the layers' ranges.
   */
  lemma DisjointLayersOrderKeys(m: map<LayerType, ItemLayerTypeData>, a: LayerType, b: LayerType, za: real, zb: real)
    requires Disjoint(m) && a in m && b in m && a != b
    requires m[a].bottomLimit <= za <= m[a].topLimit
    requires m[b].bottomLimit <= zb <= m[b].topLimit
    ensures za != zb
    ensures za < zb <==> m[a].topLimit < m[b].bottomLimit
  {
  }

  /**
   * When the shared error value lies outside a layer's range, a caller can
   * tell a failed allocation from a real z-level by comparing with it.
   */
  lemma ErrorValueIsUnambiguous(d: ItemLayerTypeData)
    requires WellFormed(d)
    requires ErrorNumber < d.bottomLimit || d.topLimit < ErrorNumber
    ensures ZValue(AllocateFrom(d).result) == ErrorNumber <==> AllocateFrom(d).result.Failed?
  {
  }
}
