/**
 * The price-range panel: two bounds, each handler clamping its bound against
 * the other and reporting the new pair to the parent's `onFilterChange`.
 */
module PriceFilter {

  import opened JsMath

  class PriceRange {

    var minPrice: int
    var maxPrice: int
    /** The `maxAvailable` prop. */
    var maxAvailable: int
    /** Every `(min, max)` pair passed to `onFilterChange`, oldest first. */
    var reported: seq<(int, int)>

    /** The range is not inverted. */
    ghost predicate Ordered()
      reads this
    {
      minPrice <= maxPrice
    }

    /** `useState(0)` and `useState(maxAvailable)`. */
    constructor (maxAvailable: int)
      ensures minPrice == 0 && maxPrice == maxAvailable
      ensures this.maxAvailable == maxAvailable && reported == []
    {
      minPrice := 0;
      maxPrice := maxAvailable;
      this.maxAvailable := maxAvailable;
      reported := [];
    }

    /** `handleMinChange`: the new minimum is capped at the current maximum. */
    method HandleMinChange(value: int)
      modifies this
      ensures minPrice == MathMin(value, old(maxPrice)) && maxPrice == old(maxPrice)
      ensures maxAvailable == old(maxAvailable)
      ensures Ordered()
      ensures reported == old(reported) + [(minPrice, maxPrice)]
    {
      var v := MathMin(value, maxPrice);
      minPrice := v;
      reported := reported + [(v, maxPrice)];
    }

    /** `handleMaxChange`: the new maximum is raised to at least the current minimum. */
    method HandleMaxChange(value: int)
      modifies this
      ensures maxPrice == MathMax(value, old(minPrice)) && minPrice == old(minPrice)
      ensures maxAvailable == old(maxAvailable)
      ensures Ordered()
      ensures reported == old(reported) + [(minPrice, maxPrice)]
    {
      var v := MathMax(value, minPrice);
      maxPrice := v;
      reported := reported + [(minPrice, v)];
    }

    /** The minimum number input's `onChange`, which repeats `handleMinChange`. */
    method HandleMinInput(value: int)
      modifies this
      ensures minPrice == MathMin(value, old(maxPrice)) && maxPrice == old(maxPrice)
      ensures maxAvailable == old(maxAvailable)
      ensures Ordered()
      ensures reported == old(reported) + [(minPrice, maxPrice)]
    {
      HandleMinChange(value);
    }

    /** The maximum number input's `onChange`, which repeats `handleMaxChange`. */
    method HandleMaxInput(value: int)
      modifies this
      ensures maxPrice == MathMax(value, old(minPrice)) && minPrice == old(minPrice)
      ensures maxAvailable == old(maxAvailable)
      ensures Ordered()
      ensures reported == old(reported) + [(minPrice, maxPrice)]
    {
      HandleMaxChange(value);
    }

    /** `handleReset`: back to the full range, which is reported. */
    method HandleReset()
      modifies this
      ensures minPrice == 0 && maxPrice == maxAvailable && maxAvailable == old(maxAvailable)
      ensures reported == old(reported) + [(0, maxAvailable)]
      ensures maxAvailable >= 0 ==> Ordered()
    {
      minPrice := 0;
      maxPrice := maxAvailable;
      reported := reported + [(0, maxAvailable)];
    }

    /**
     * A new `maxAvailable` prop and the effect it triggers: the maximum is
     * reset to it, the minimum is left as it was, and nothing is reported.
     */
    method ChangeMaxAvailable(newMax: int)
      modifies this
      ensures maxAvailable == newMax && maxPrice == newMax
      ensures minPrice == old(minPrice) && reported == old(reported)
      ensures Ordered() <==> old(minPrice) <= newMax
    {
      maxAvailable := newMax;
      maxPrice := newMax;
    }
  }

  /** A minimum of 5000 typed against a maximum of 2000 becomes 2000. */
  method ClampExample() returns (lo: int, hi: int, last: (int, int))
    ensures lo == 2000 && hi == 2000 && last == (2000, 2000)
  {
    var range := new PriceRange(2000);
    range.HandleMinChange(5000);
    lo, hi := range.minPrice, range.maxPrice;
    last := range.reported[|range.reported| - 1];
  }

  /**
   * The range can become inverted: after the minimum is moved to 1500, a
   * shrink of `maxAvailable` to 1000 leaves a minimum above the maximum.
   */
  method ShrinkingMaxAvailableInverts() returns (lo: int, hi: int)
    ensures lo == 1500 && hi == 1000 && lo > hi
  {
    var range := new PriceRange(2000);
    range.HandleMinChange(1500);
    range.ChangeMaxAvailable(1000);
    lo, hi := range.minPrice, range.maxPrice;
  }

}
