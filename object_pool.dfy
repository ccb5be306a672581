// A pool of reusable game objects: a LIFO free list filled at construction,
// with a factory as fallback when it runs dry.  The factory and the reset
// hook are supplied by the caller; here the factory makes a fresh Item and
// the reset hook is recorded as a count on the item.
module ObjectPools {

  /** A poolable game object: only its active and visible flags matter to the
      pool. */
  class Item {
    var active: bool
    var visible: bool
    /** How often the pool's reset hook has been applied to this object. */
    var resets: nat

    constructor ()
      ensures active && visible && resets == 0
    {
      active, visible, resets := true, true, 0;
    }
  }

  class ObjectPool {
    var available: seq<Item>

    constructor (initialSize: nat)
      ensures |available| == initialSize
      ensures forall i :: 0 <= i < |available| ==> !available[i].active && !available[i].visible
      ensures forall i :: 0 <= i < |available| ==> fresh(available[i])
    {
      var pooled: seq<Item> := [];
      var i := 0;
      while i < initialSize
        invariant 0 <= i <= initialSize && |pooled| == i
        invariant forall k :: 0 <= k < |pooled| ==> fresh(pooled[k])
        invariant forall k :: 0 <= k < |pooled| ==> !pooled[k].active && !pooled[k].visible
      {
        var obj := new Item();
        obj.active, obj.visible := false, false;
        pooled := pooled + [obj];
        i := i + 1;
      }
      available := pooled;
    }

    /** Hands out the most recently released object, or a new one when none is
        left, switched on. */
    method Acquire() returns (obj: Item)
      modifies this, available
      ensures obj.active && obj.visible
      ensures old(|available|) > 0 ==>
        obj == old(available[|available| - 1]) && available == old(available[..|available| - 1]) &&
        obj.resets == old(available[|available| - 1].resets)
      ensures old(|available|) == 0 ==> fresh(obj) && available == [] && obj.resets == 0
      ensures forall x :: x in old(available) && x != obj ==> x.active == old(x.active) && x.visible == old(x.visible) && x.resets == old(x.resets)
    {
      if |available| > 0 {
        obj := available[|available| - 1];
        available := available[..|available| - 1];
      } else {
        obj := new Item();
      }
      obj.active, obj.visible := true, true;
    }

    /** Takes an object back: resets it, switches it off and pushes it, without
        checking whether it is already in the pool. */
    method Release(obj: Item)
      modifies this, obj
      ensures available == old(available) + [obj]
      ensures !obj.active && !obj.visible && obj.resets == old(obj.resets) + 1
    {
      obj.resets := obj.resets + 1;
      obj.active, obj.visible := false, false;
      available := available + [obj];
    }

    function Size(): (n: nat)
      reads this
      ensures n == |available|
    {
      |available|
    }
  }

  /** Releasing an object and acquiring again hands back that same object;
      releasing it twice puts it in the pool twice, so two acquisitions both
      hand it out. */
  method ReleaseTwiceAcquireTwice(pool: ObjectPool, obj: Item) returns (first: Item, second: Item)
    modifies pool, obj, pool.available
    ensures first == obj && second == obj
    ensures pool.available == old(pool.available)
    ensures obj.active && obj.visible
  {
    pool.Release(obj);
    pool.Release(obj);
    assert pool.Size() == old(pool.Size()) + 2;
    first := pool.Acquire();
    second := pool.Acquire();
    assert pool.available == old(pool.available);
  }
}
