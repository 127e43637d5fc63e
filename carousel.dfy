/**
 * The looping carousel (qp-discovery-ui views/CarouselView.tsx). With
 * looping on, the items are laid out three times and the visible index is
 * kept in the middle copy: an index that drifts into the first or last copy
 * is moved by one copy length, once the scroll animation has ended.
 */
module Carousel {
  import opened Wrappers

  const DefaultAutoplayIntervalMs: int := 5000

  /** Looping (and autoplay) needs the `loop` prop and at least three items. */
  predicate CanLoopOrAutoplay(loop: bool, itemCount: nat)
  {
    loop && itemCount >= 3
  }

  /** Position i of three copies of the data is item i mod |data|. */
  lemma TripleIndex<T>(data: seq<T>, i: int)
    requires 0 <= i < 3 * |data|
    ensures (data + data + data)[i] == data[i % |data|]
  {
    var n := |data|;
    if i < n {
      ModUnique(i, n, 0, i);
      assert (data + data + data)[i] == data[i];
    } else if i < 2 * n {
      ModUnique(i, n, 1, i - n);
      assert (data + data + data)[i] == data[i - n];
    } else {
      ModUnique(i, n, 2, i - 2 * n);
      assert (data + data + data)[i] == data[i - 2 * n];
    }
  }

  lemma {:induction false} MulAtLeast(d: int, n: int)
    requires d >= 1 && n > 0
    ensures d * n >= n
  {
    if d > 1 {
      MulAtLeast(d - 1, n);
      assert d * n == (d - 1) * n + n;
    }
  }

  /** The remainder is the r of any division a == q * n + r with 0 <= r < n. */
  lemma ModUnique(a: int, n: int, q: int, r: int)
    requires n > 0 && 0 <= r < n && a == q * n + r
    ensures a % n == r
  {
    var q0 := a / n;
    var r0 := a % n;
    assert a == q0 * n + r0;
    assert (q - q0) * n == r0 - r;
    assert (q0 - q) * n == r - r0;
    if q - q0 >= 1 {
      MulAtLeast(q - q0, n);
      assert false;
    }
    if q0 - q >= 1 {
      MulAtLeast(q0 - q, n);
      assert false;
    }
  }

  /** The list handed to the FlatList: the items three times over when looping, else the items. */
  function LoopedResources<T>(data: seq<T>, loop: bool): (r: seq<T>)
    ensures CanLoopOrAutoplay(loop, |data|) ==> |r| == 3 * |data| && forall i :: 0 <= i < |r| ==> r[i] == data[i % |data|]
    ensures !CanLoopOrAutoplay(loop, |data|) ==> r == data
  {
    if CanLoopOrAutoplay(loop, |data|) then
      var r := data + data + data;
      forall i | 0 <= i < |r|
        ensures r[i] == data[i % |data|]
      {
        TripleIndex(data, i);
      }
      r
    else data
  }

  /** `newLoopIndex`: an index in the last copy moves back one copy, one in the first moves forward one. */
  function NormalisedLoopIndex(index: int, itemCount: nat): int
  {
    if index >= itemCount * 2 then index - itemCount
    else if index < itemCount then index + itemCount
    else index
  }

  /** Any index of the tripled list is normalised into the middle copy, onto the same item. */
  lemma NormalisedIntoMiddleCopy(index: int, itemCount: nat)
    requires 0 <= index < 3 * itemCount
    ensures itemCount <= NormalisedLoopIndex(index, itemCount) < 2 * itemCount
    ensures NormalisedLoopIndex(index, itemCount) % itemCount == index % itemCount
    ensures NormalisedLoopIndex(index, itemCount) == index <==> itemCount <= index < 2 * itemCount
  {
    var r := NormalisedLoopIndex(index, itemCount);
    if index >= 2 * itemCount {
      ModUnique(index, itemCount, 2, index - 2 * itemCount);
      ModUnique(r, itemCount, 1, r - itemCount);
    } else if index < itemCount {
      ModUnique(index, itemCount, 0, index);
      ModUnique(r, itemCount, 1, r - itemCount);
    }
  }

  /** The autoplay step: the next index, wrapping to the start past the end. */
  function AutoplayNext(index: int, length: nat): (r: int)
    ensures 0 <= index && index + 1 < length ==> r == index + 1
    ensures index + 1 >= length ==> r == 0
    ensures 0 <= index ==> (0 <= r < length || r == 0)
  {
    if index + 1 < length then index + 1 else 0
  }

  /** The autoplay interval: the given one, or 5 seconds when it is missing or 0. */
  function AutoplayInterval(autoplayInterval: Option<int>): (r: int)
    ensures autoplayInterval.None? || autoplayInterval == Some(0) ==> r == DefaultAutoplayIntervalMs
    ensures autoplayInterval.Some? && autoplayInterval.value != 0 ==> r == autoplayInterval.value
  {
    if autoplayInterval.Some? && autoplayInterval.value != 0 then autoplayInterval.value else DefaultAutoplayIntervalMs
  }

  predicate AutoplayTimerRuns(loop: bool, itemCount: nat, autoplayInterval: Option<int>)
  {
    CanLoopOrAutoplay(loop, itemCount) && AutoplayInterval(autoplayInterval) > 0
  }

  /** The autoplay timer runs only on a looping carousel of at least three items with a non-negative interval. */
  lemma AutoplayNeedsLooping(loop: bool, itemCount: nat, autoplayInterval: Option<int>)
    ensures AutoplayTimerRuns(loop, itemCount, autoplayInterval) <==>
            loop && itemCount >= 3 && (autoplayInterval.None? || autoplayInterval.value >= 0)
  {
  }

  /** The refs `currentIndex` and `swapToIndex` of one carousel, with the list they index. */
  class CarouselIndex {
    const itemCount: nat
    const looping: bool
    const length: nat
    var currentIndex: int
    var swapToIndex: int

    /** The list length matches the layout, the index lies in the list, and a pending swap targets the middle copy. */
    predicate Valid()
      reads this
    {
      length == (if looping then 3 * itemCount else itemCount) &&
      (looping ==> itemCount >= 3) &&
      0 <= currentIndex && (currentIndex < length || currentIndex == 0) &&
      (swapToIndex == -1 || (looping && itemCount <= swapToIndex < 2 * itemCount))
    }

    /**
     * A carousel over `itemCount` items. FlatList needs `initialScrollIndex`
     * to be an index of the list it is given.
     */
    constructor(itemCount: nat, loop: bool, initialScrollIndex: Option<int>)
      requires initialScrollIndex.Some? ==> (initialScrollIndex.value == 0 ||
               0 <= initialScrollIndex.value < (if CanLoopOrAutoplay(loop, itemCount) then 3 * itemCount else itemCount))
      ensures Valid()
      ensures this.itemCount == itemCount && looping == CanLoopOrAutoplay(loop, itemCount)
      ensures forall data: seq<int> :: |data| == itemCount ==> length == |LoopedResources(data, loop)|
      ensures currentIndex == (if initialScrollIndex.Some? then initialScrollIndex.value else 0) && swapToIndex == -1
    {
      this.itemCount := itemCount;
      looping := CanLoopOrAutoplay(loop, itemCount);
      length := if CanLoopOrAutoplay(loop, itemCount) then 3 * itemCount else itemCount;
      currentIndex := if initialScrollIndex.Some? then initialScrollIndex.value else 0;
      swapToIndex := -1;
    }

    /**
     * `onViewableItemsChanged`: takes the first viewable index (FlatList
     * reports indices of its list) and reports the current index to the
     * optional `onIndexChange` callback; when looping it then records the
     * swap into the middle copy and restarts autoplay. Without the callback
     * the unguarded call throws a TypeError once the index is taken, so
     * `reported` is `None` and neither the swap nor autoplay happens.
     */
    method OnViewableItemsChanged(firstViewable: Option<nat>, hasOnIndexChange: bool)
      returns (reported: Option<int>, restartAutoplay: bool)
      requires Valid()
      requires firstViewable.Some? ==> firstViewable.value < length
      modifies this
      ensures Valid()
      ensures currentIndex == (if firstViewable.Some? then firstViewable.value else old(currentIndex))
      ensures reported.Some? <==> hasOnIndexChange
      ensures reported.Some? ==> reported.value == currentIndex
      ensures restartAutoplay <==> hasOnIndexChange && looping
      ensures hasOnIndexChange && looping && NormalisedLoopIndex(currentIndex, itemCount) != currentIndex ==> swapToIndex == NormalisedLoopIndex(currentIndex, itemCount)
      ensures !(hasOnIndexChange && looping && NormalisedLoopIndex(currentIndex, itemCount) != currentIndex) ==> swapToIndex == old(swapToIndex)
    {
      if firstViewable.Some? {
        currentIndex := firstViewable.value;
      }
      restartAutoplay := false;
      if !hasOnIndexChange {
        reported := None;
        return;
      }
      reported := Some(currentIndex);
      if looping {
        var newLoopIndex := currentIndex;
        if currentIndex >= itemCount * 2 {
          newLoopIndex := currentIndex - itemCount;
        } else if currentIndex < itemCount {
          newLoopIndex := currentIndex + itemCount;
        }
        if newLoopIndex != currentIndex {
          NormalisedIntoMiddleCopy(currentIndex, itemCount);
          swapToIndex := newLoopIndex;
        }
        restartAutoplay := true;
      }
    }

    /** `onMomentumScrollEnd`: a pending swap is applied once (the list jumps there) and then cleared. */
    method OnMomentumScrollEnd() returns (jumpTo: Option<int>)
      requires Valid()
      modifies this
      ensures Valid() && swapToIndex == -1
      ensures old(swapToIndex) >= 0 ==> currentIndex == old(swapToIndex) && jumpTo == Some(old(swapToIndex))
      ensures old(swapToIndex) < 0 ==> currentIndex == old(currentIndex) && jumpTo == None
      ensures jumpTo.Some? ==> itemCount <= jumpTo.value < 2 * itemCount
    {
      jumpTo := None;
      if swapToIndex >= 0 {
        currentIndex := swapToIndex;
        swapToIndex := -1;
        jumpTo := Some(currentIndex);
      }
    }

    /** The autoplay timer's tick, and the advance on an orientation change: step to the next item, wrapping. */
    method Advance()
      requires Valid()
      modifies this`currentIndex
      ensures Valid()
      ensures currentIndex == AutoplayNext(old(currentIndex), length)
    {
      if currentIndex + 1 < length {
        currentIndex := currentIndex + 1;
      } else {
        currentIndex := 0;
      }
    }
  }
}
