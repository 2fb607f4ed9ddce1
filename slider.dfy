/** SimpleSlider: breakpoint lookup of the number of slides per view,
    cyclic index navigation over [0, n - k] (n children, k per view), drag
    navigation that never wraps, and the transition-speed choice.
    Pixel measurements (widths, translations, the drag threshold) are
    integers supplied by the caller. */
module Slider {
  import opened Js

  // ---------------------------------------------------------------------------
  // Breakpoints

  /** A `breakPoints` object: numeric key to the entry holding `slidesPerView`. */
  type Breakpoints = map<int, Value>

  predicate StrictlyIncreasing(s: seq<int>) {
    forall i, j :: 0 <= i < j < |s| ==> s[i] < s[j]
  }

  predicate IsMin(s: set<int>, m: int) {
    m in s && forall y :: y in s ==> m <= y
  }

  lemma {:induction false} MinExists(s: set<int>)
    requires s != {}
    ensures exists m :: IsMin(s, m)
    decreases s
  {
    if forall y :: y !in s {
      assert false;
    }
    var x :| x in s;
    if s == {x} {
      assert IsMin(s, x);
    } else {
      var rest := s - {x};
      MinExists(rest);
      var m :| IsMin(rest, m);
      var least := if x < m then x else m;
      forall y | y in s
        ensures least <= y
      {
        if y != x {
          assert y in rest;
        }
      }
      assert IsMin(s, least);
    }
  }

  /** `Object.keys(breakPoints).sort((a, b) => a - b)`. */
  function SortedKeys(s: set<int>): (r: seq<int>)
    ensures StrictlyIncreasing(r)
    ensures forall x :: x in r <==> x in s
    ensures |r| == |s|
    decreases s
  {
    if s == {} then []
    else
      MinExists(s);
      var m :| IsMin(s, m);
      [m] + SortedKeys(s - {m})
  }

  /** `breakPoints[key].slidesPerView`: throws when the entry is null. */
  function SlidesOf(entry: Value): Result<Value> {
    Get(entry, "slidesPerView")
  }

  /** `... .slidesPerView || 1` */
  function SlidesOrOne(res: Result<Value>): Result<Value> {
    if res.Ok? then Ok(Or(res.value, Num(1))) else res
  }

  predicate LeastKeyAbove(bp: Breakpoints, width: int, key: int) {
    key in bp && width < key && forall k :: k in bp && width < k ==> key <= k
  }

  predicate LargestKey(bp: Breakpoints, key: int) {
    key in bp && forall k :: k in bp ==> k <= key
  }

  /** `r` is what the entry of the least key above the width yields. */
  ghost predicate PicksLeastAbove(bp: Breakpoints, width: int, r: Result<Value>) {
    forall key :: LeastKeyAbove(bp, width, key) ==> r == SlidesOf(bp[key])
  }

  /** When no key lies above the width, `r` is what the largest key's entry
      yields, with 1 for a falsy count. */
  ghost predicate PicksLargest(bp: Breakpoints, width: int, r: Result<Value>) {
    (forall k :: k in bp ==> k <= width) ==>
      forall key :: LargestKey(bp, key) ==> r == SlidesOrOne(SlidesOf(bp[key]))
  }

  /** The key found by the loop is the one and only least key above the width. */
  lemma FoundLeastKeyAbove(bp: Breakpoints, keys: seq<int>, width: int, i: int)
    requires keys == SortedKeys(bp.Keys)
    requires 0 <= i < |keys| && width < keys[i]
    requires forall j :: 0 <= j < i ==> keys[j] <= width
    ensures forall key :: LeastKeyAbove(bp, width, key) <==> key == keys[i]
    ensures PicksLeastAbove(bp, width, SlidesOf(bp[keys[i]]))
    ensures PicksLargest(bp, width, SlidesOf(bp[keys[i]]))
    ensures bp != map[]
  {
    assert keys[i] in keys;
    forall k | k in bp && width < k
      ensures keys[i] <= k
    {
      var j :| 0 <= j < |keys| && keys[j] == k;
      assert i <= j;
    }
  }

  /** When the loop runs out, no key lies above the width, and no keys at all
      means an empty object. */
  lemma NoKeyAbove(bp: Breakpoints, keys: seq<int>, width: int)
    requires keys == SortedKeys(bp.Keys)
    requires forall j :: 0 <= j < |keys| ==> keys[j] <= width
    ensures forall k :: k in bp ==> k <= width
    ensures forall key :: !LeastKeyAbove(bp, width, key)
    ensures |keys| == 0 <==> bp == map[]
  {
    forall k | k in bp
      ensures k <= width
    {
      assert k in keys;
    }
    if |keys| == 0 {
      assert bp.Keys == {};
    } else {
      assert keys[0] in bp;
    }
  }

  /** Past every key the result is the entry of the last sorted key. */
  lemma PastEveryKey(bp: Breakpoints, keys: seq<int>, width: int)
    requires keys == SortedKeys(bp.Keys) && keys != []
    requires forall j :: 0 <= j < |keys| ==> keys[j] <= width
    ensures PicksLeastAbove(bp, width, SlidesOrOne(SlidesOf(bp[keys[|keys| - 1]])))
    ensures PicksLargest(bp, width, SlidesOrOne(SlidesOf(bp[keys[|keys| - 1]])))
    ensures bp != map[]
  {
    NoKeyAbove(bp, keys, width);
    LastIsLargestKey(bp, keys);
  }

  /** The last sorted key is the one and only largest key. */
  lemma LastIsLargestKey(bp: Breakpoints, keys: seq<int>)
    requires keys == SortedKeys(bp.Keys) && keys != []
    ensures forall key :: LargestKey(bp, key) <==> key == keys[|keys| - 1]
  {
    var last := |keys| - 1;
    assert keys[last] in keys;
    forall k | k in bp
      ensures k <= keys[last]
    {
      assert k in keys;
      var j :| 0 <= j < |keys| && keys[j] == k;
      if j < last {
        assert keys[j] < keys[last];
      }
    }
  }

  /** `getSlidePerView` with the viewport width as a parameter. The selected
      entry is that of the least key strictly above the width, so a width
      equal to a key does not select it; past every key the largest key's
      entry applies, with 1 for a falsy count. An empty object throws because
      `breakPoints[undefined]` is undefined. */
  method GetSlidePerView(breakPoints: Option<Breakpoints>, slidePerView: Value, width: int)
    returns (r: Result<Value>)
    ensures breakPoints.None? ==> r == Ok(slidePerView)
    ensures breakPoints.Some? ==> PicksLeastAbove(breakPoints.value, width, r)
    ensures breakPoints.Some? ==> PicksLargest(breakPoints.value, width, r)
    ensures breakPoints == Some(map[]) ==> r == TypeError
  {
    if breakPoints.None? {
      return Ok(slidePerView);
    }
    var bp := breakPoints.value;
    var keys := SortedKeys(bp.Keys);
    var i := FirstAbove(keys, width);
    if i < |keys| {
      FoundLeastKeyAbove(bp, keys, width, i);
      return SlidesOf(bp[keys[i]]);
    }
    if |keys| == 0 {
      NoKeyAbove(bp, keys, width);
      return TypeError;
    }
    PastEveryKey(bp, keys, width);
    r := SlidesOrOne(SlidesOf(bp[keys[|keys| - 1]]));
  }

  /** The loop over the sorted keys: the position of the first key above the
      width, or `|keys|` when there is none. */
  method FirstAbove(keys: seq<int>, width: int) returns (i: int)
    ensures 0 <= i <= |keys|
    ensures forall j :: 0 <= j < i ==> keys[j] <= width
    ensures i < |keys| ==> width < keys[i]
  {
    i := 0;
    while i < |keys|
      invariant 0 <= i <= |keys|
      invariant forall j :: 0 <= j < i ==> keys[j] <= width
    {
      if width < keys[i] {
        return;
      }
      i := i + 1;
    }
  }

  // ---------------------------------------------------------------------------
  // Index navigation

  /** `increaseIndex` over n children with k per view: within [0, n - k] it is
      a rotation by one step over n - k + 1 positions. */
  function Increase(index: int, n: int, k: int): (r: int)
    ensures 0 <= index <= n - k ==> 0 <= r <= n - k && r == (index + 1) % (n - k + 1)
    ensures index < n - k ==> r == index + 1
    ensures index >= n - k ==> r == 0
  {
    if index < n - k then index + 1 else 0
  }

  /** `decreaseIndex`: within [0, n - k] a rotation by one step backwards;
      from 0 with fewer children than slides per view it gives n - k < 0. */
  function Decrease(index: int, n: int, k: int): (r: int)
    ensures 0 <= index <= n - k ==> 0 <= r <= n - k && r == (index - 1) % (n - k + 1)
    ensures index > 0 ==> r == index - 1
    ensures index <= 0 ==> r == n - k
  {
    if index > 0 then index - 1 else n - k
  }

  /** On the valid range the two steps undo each other. */
  lemma IncreaseDecreaseInverse(index: int, n: int, k: int)
    requires k <= n && 0 <= index <= n - k
    ensures Decrease(Increase(index, n, k), n, k) == index
    ensures Increase(Decrease(index, n, k), n, k) == index
  {
  }

  /** `decreaseIndex` leaves the valid range exactly when there are fewer
      children than slides per view. */
  lemma DecreaseFromZero(n: int, k: int)
    ensures Decrease(0, n, k) < 0 <==> n < k
  {
  }

  /** `steps` presses of the next button. */
  function Advance(index: int, n: int, k: int, steps: nat): int
    decreases steps
  {
    if steps == 0 then index else Increase(Advance(index, n, k, steps - 1), n, k)
  }

  /** Pressing next a + b times is pressing it a times, then b times. */
  lemma {:induction false} AdvanceCompose(index: int, n: int, k: int, a: nat, b: nat)
    ensures Advance(index, n, k, a + b) == Advance(Advance(index, n, k, a), n, k, b)
    decreases b
  {
    if b > 0 {
      AdvanceCompose(index, n, k, a, b - 1);
    }
  }

  /** Below the last position each press moves one slide on. */
  lemma {:induction false} AdvanceStraight(index: int, n: int, k: int, steps: nat)
    requires 0 <= index && index + steps <= n - k
    ensures Advance(index, n, k, steps) == index + steps
    decreases steps
  {
    if steps > 0 {
      AdvanceStraight(index, n, k, steps - 1);
    }
  }

  /** n - k + 1 presses of next from a valid index return to it: the
      navigation is a rotation over n - k + 1 positions. */
  lemma {:induction false} FullCycle(index: int, n: int, k: int)
    requires k <= n && 0 <= index <= n - k
    ensures Advance(index, n, k, n - k + 1) == index
  {
    var toLast: nat := n - k - index;
    AdvanceCompose(index, n, k, toLast, index + 1);
    AdvanceStraight(index, n, k, toLast);
    AdvanceCompose(n - k, n, k, 1, index);
    assert Advance(n - k, n, k, 1) == 0;
    AdvanceStraight(0, n, k, index);
  }

  /** The position after m presses depends on m only modulo n - k + 1. */
  lemma {:induction false} AdvancePeriodic(index: int, n: int, k: int, steps: nat)
    requires k <= n && 0 <= index <= n - k
    ensures Advance(index, n, k, steps + (n - k + 1)) == Advance(index, n, k, steps)
  {
    AdvanceCompose(index, n, k, n - k + 1, steps);
    FullCycle(index, n, k);
  }

  // ---------------------------------------------------------------------------
  // Drag navigation

  /** The effect of one drag-move event on the index, read from the render in
      which the event arrives: `released` says that `isDown` is cleared. */
  datatype DragOutcome = DragOutcome(index: int, released: bool)

  /** The two guarded moves of `onDragDesktop` / `onDragMobile`, applied in
      source order to the same render-time `index`. `pointer` is the
      current client x coordinate, `offSet` the one where the drag began. */
  function DragMove(index: int, n: int, k: int, offSet: int, pointer: int, dragMovement: int): (r: DragOutcome)
    ensures r.released <==> r.index != index
    ensures r.index == index
            || (r.index == index + 1 && index < n - k && offSet - pointer > dragMovement)
            || (r.index == index - 1 && index > 0 && offSet - pointer < -dragMovement)
    ensures ((index < n - k && offSet - pointer > dragMovement) || (index > 0 && offSet - pointer < -dragMovement))
              ==> r.released
    ensures (index > 0 && offSet - pointer < -dragMovement) ==> r.index == index - 1
    ensures ((index < n - k && offSet - pointer > dragMovement) && !(index > 0 && offSet - pointer < -dragMovement))
              ==> r.index == index + 1
    ensures k <= n && 0 <= index <= n - k ==> 0 <= r.index <= n - k
  {
    var forward := index < n - k && offSet - pointer > dragMovement;
    var backward := index > 0 && offSet - pointer < -dragMovement;
    var afterForward := if forward then Increase(index, n, k) else index;
    var afterBoth := if backward then Decrease(index, n, k) else afterForward;
    DragOutcome(afterBoth, forward || backward)
  }

  /** A drag never wraps around: from the last slide it cannot reach the
      first, and from the first it cannot reach the last. */
  lemma {:induction false} DragNeverWraps(index: int, n: int, k: int, offSet: int, pointer: int, dragMovement: int)
    requires k <= n && 0 <= index <= n - k
    ensures index == n - k ==> DragMove(index, n, k, offSet, pointer, dragMovement).index != 0 || n - k <= 1
    ensures index == 0 ==> DragMove(index, n, k, offSet, pointer, dragMovement).index != n - k || n - k <= 1
    ensures index == n - k ==> DragMove(index, n, k, offSet, pointer, dragMovement).index <= index
    ensures index == 0 ==> DragMove(index, n, k, offSet, pointer, dragMovement).index >= index
  {
    var r := DragMove(index, n, k, offSet, pointer, dragMovement);
    assert r.index == index || r.index == index + 1 || r.index == index - 1;
  }

  /** `autoPlay || computedDisabledDrag ? autoPlayTransitionSpeed : animationDuration` */
  function TransitionSpeed(autoPlay: bool, disabledDrag: bool, autoPlayTransitionSpeed: int, animationDuration: int): (r: int)
    ensures autoPlay || disabledDrag ==> r == autoPlayTransitionSpeed
    ensures !autoPlay && !disabledDrag ==> r == animationDuration
  {
    if autoPlay || disabledDrag then autoPlayTransitionSpeed else animationDuration
  }

  /** The slider's drag and navigation state. `count` is the number of
      children, `perView` the slides per view, `dragMovement` the drag
      threshold in pixels and `disabledDrag` the computed `disableDrag ||
      isSafariDesktop()`. `pendingTimers` counts the scheduled timeouts that
      re-enable the animation after a touch move. */
  class SliderState {
    const count: int
    const perView: int
    const dragMovement: int
    const disabledDrag: bool
    var index: int
    var isDown: bool
    var offSet: int
    var disableAnimation: bool
    var pendingTimers: nat

    /** With at least as many children as slides per view the index stays in
        [0, n - k]; a disabled drag never holds the pointer down. */
    ghost predicate Valid()
      reads this
    {
      && (perView <= count ==> 0 <= index <= count - perView)
      && (disabledDrag ==> !isDown)
    }

    constructor (count: nat, perView: int, dragMovement: int, disabledDrag: bool)
      ensures Valid()
      ensures this.count == count && this.perView == perView
      ensures this.dragMovement == dragMovement && this.disabledDrag == disabledDrag
      ensures index == 0 && !isDown && offSet == 0 && !disableAnimation && pendingTimers == 0
    {
      this.count := count;
      this.perView := perView;
      this.dragMovement := dragMovement;
      this.disabledDrag := disabledDrag;
      index := 0;
      isDown := false;
      offSet := 0;
      disableAnimation := false;
      pendingTimers := 0;
    }

    /** The next pagination button (and each autoplay tick). */
    method Next()
      requires Valid()
      modifies this`index
      ensures Valid()
      ensures index == Increase(old(index), count, perView)
    {
      index := Increase(index, count, perView);
    }

    /** The previous pagination button. */
    method Prev()
      requires Valid()
      modifies this`index
      ensures Valid()
      ensures index == Decrease(old(index), count, perView)
    {
      index := Decrease(index, count, perView);
    }

    /** `onMouseDown` and `onTouchStart`: start a drag at `pointer`. */
    method PointerDown(pointer: int)
      requires Valid()
      modifies this`isDown, this`offSet
      ensures Valid()
      ensures disabledDrag ==> isDown == old(isDown) && offSet == old(offSet)
      ensures !disabledDrag ==> isDown && offSet == pointer
    {
      if !disabledDrag {
        isDown := true;
        offSet := pointer;
      }
    }

    /** `onMouseMove` calling `onDragDesktop`. */
    method MouseMove(pointer: int)
      requires Valid()
      modifies this`index, this`isDown
      ensures Valid()
      ensures !disabledDrag && old(isDown) && !disableAnimation ==>
        var o := DragMove(old(index), count, perView, offSet, pointer, dragMovement);
        index == o.index && isDown == !o.released
      ensures disabledDrag || !old(isDown) || disableAnimation ==>
        index == old(index) && isDown == old(isDown)
    {
      if !disabledDrag && isDown && !disableAnimation {
        var current := index;
        if current < count - perView {
          if offSet - pointer > dragMovement {
            index := Increase(current, count, perView);
            isDown := false;
          }
        }
        if current > 0 {
          if offSet - pointer < -dragMovement {
            index := Decrease(current, count, perView);
            isDown := false;
          }
        }
      }
    }

    /** `onTouchMove` calling `onDragMobile`: as the desktop move, and it also
        disables the animation, scheduling a re-enabling timeout in each
        branch that applies. With no branch applicable (n <= k at index 0)
        nothing re-enables it. */
    method TouchMove(pointer: int)
      requires Valid()
      modifies this`index, this`isDown, this`disableAnimation, this`pendingTimers
      ensures Valid()
      ensures !disabledDrag && old(isDown) && !old(disableAnimation) ==>
        var o := DragMove(old(index), count, perView, offSet, pointer, dragMovement);
        && index == o.index && isDown == !o.released && disableAnimation
        && pendingTimers == old(pendingTimers)
             + (if old(index) < count - perView then 1 else 0)
             + (if old(index) > 0 then 1 else 0)
      ensures disabledDrag || !old(isDown) || old(disableAnimation) ==>
        index == old(index) && isDown == old(isDown)
        && disableAnimation == old(disableAnimation) && pendingTimers == old(pendingTimers)
    {
      if !disabledDrag && isDown && !disableAnimation {
        disableAnimation := true;
        var current := index;
        if current < count - perView {
          if offSet - pointer > dragMovement {
            index := Increase(current, count, perView);
            isDown := false;
          }
          pendingTimers := pendingTimers + 1;
        }
        if current > 0 {
          if offSet - pointer < -dragMovement {
            index := Decrease(current, count, perView);
            isDown := false;
          }
          pendingTimers := pendingTimers + 1;
        }
      }
    }

    /** A scheduled `setDisableAnimation(false)` timeout fires. */
    method AnimationTimeout()
      requires Valid()
      modifies this`disableAnimation, this`pendingTimers
      ensures Valid()
      ensures old(pendingTimers) > 0 ==> !disableAnimation && pendingTimers == old(pendingTimers) - 1
      ensures old(pendingTimers) == 0 ==> disableAnimation == old(disableAnimation) && pendingTimers == 0
    {
      if pendingTimers > 0 {
        disableAnimation := false;
        pendingTimers := pendingTimers - 1;
      }
    }

    /** `dragRepositioning`, bound unguarded to `onMouseUp`. */
    method MouseUp()
      requires Valid()
      modifies this`isDown
      ensures Valid() && !isDown
    {
      isDown := false;
    }

    /** `onTouchEnd` and `onMouseLeave`: `dragRepositioning` unless the drag
        is disabled. */
    method PointerRelease()
      requires Valid()
      modifies this`isDown
      ensures Valid()
      ensures !disabledDrag ==> !isDown
      ensures disabledDrag ==> isDown == old(isDown)
    {
      if !disabledDrag {
        isDown := false;
      }
    }
  }
}
