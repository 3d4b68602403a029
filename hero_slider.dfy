/**
 * The home page carousel: a slide index that the interval timer and the
 * arrow buttons move cyclically and the indicator dots set directly.
 */
module HeroSlider {

  /** The carousel has three slides. */
  const SlideCount: nat := 3

  /** JavaScript's `%` on integers: the remainder takes the sign of the dividend. */
  function JsRem(a: int, n: int): (r: int)
    requires n > 0
    ensures a >= 0 ==> 0 <= r < n && r == a % n
    ensures a < 0 ==> -n < r <= 0
  {
    if a >= 0 then a % n else -((-a) % n)
  }

  /** The timer and the right arrow: `(prev + 1) % slides.length`. */
  function Next(i: int, n: int): (r: int)
    requires n > 0
    ensures 0 <= i < n ==> 0 <= r < n
  {
    JsRem(i + 1, n)
  }

  /** The left arrow: `(prev - 1 + slides.length) % slides.length`. */
  function Prev(i: int, n: int): (r: int)
    requires n > 0
    ensures 0 <= i < n ==> 0 <= r < n
  {
    JsRem(i - 1 + n, n)
  }

  /** Below twice the slide count, the remainder subtracts the count at most once. */
  lemma RemBelowTwice(a: int, n: int)
    requires n > 0 && 0 <= a < 2 * n
    ensures JsRem(a, n) == if a < n then a else a - n
  {
    if a >= n {
      assert a == n * 1 + (a - n);
    }
  }

  /** Both arrows keep the index among the slides. */
  lemma StepsStayInRange(i: int, n: int)
    requires n > 0 && 0 <= i < n
    ensures 0 <= Next(i, n) < n && 0 <= Prev(i, n) < n
    ensures Next(i, n) == if i == n - 1 then 0 else i + 1
    ensures Prev(i, n) == if i == 0 then n - 1 else i - 1
  {
    RemBelowTwice(i + 1, n);
    RemBelowTwice(i - 1 + n, n);
  }

  /** Previous after next, and next after previous, come back to the same slide. */
  lemma PrevUndoesNext(i: int, n: int)
    requires n > 0 && 0 <= i < n
    ensures Prev(Next(i, n), n) == i
    ensures Next(Prev(i, n), n) == i
  {
    StepsStayInRange(i, n);
    StepsStayInRange(Next(i, n), n);
    StepsStayInRange(Prev(i, n), n);
  }

  /** The index after `k` timer ticks. */
  function Advance(i: int, n: int, k: nat): int
    requires n > 0
  {
    if k == 0 then i else Next(Advance(i, n, k - 1), n)
  }

  /** Ticks compose: `a` ticks followed by `b` ticks are `a + b` ticks. */
  lemma {:induction false} AdvanceCompose(i: int, n: int, a: nat, b: nat)
    requires n > 0
    ensures Advance(i, n, a + b) == Advance(Advance(i, n, a), n, b)
  {
    if b > 0 {
      AdvanceCompose(i, n, a, b - 1);
    }
  }

  /** Before the last slide is passed, `k` ticks move exactly `k` slides forward. */
  lemma {:induction false} AdvanceClimbs(i: int, n: int, k: nat)
    requires n > 0 && 0 <= i && i + k < n
    ensures Advance(i, n, k) == i + k
  {
    if k > 0 {
      AdvanceClimbs(i, n, k - 1);
      StepsStayInRange(i + k - 1, n);
    }
  }

  /** A full round of `n` ticks shows the starting slide again. */
  lemma FullCycleReturns(i: int, n: int)
    requires n > 0 && 0 <= i < n
    ensures Advance(i, n, n) == i
  {
    AdvanceClimbs(i, n, n - 1 - i);
    StepsStayInRange(n - 1, n);
    assert Advance(i, n, n - i) == 0;
    AdvanceClimbs(0, n, i);
    AdvanceCompose(i, n, n - i, i);
  }

  /** The opacity the slide at `index` is animated to. */
  function Opacity(current: int, index: int): int {
    if current == index then 1 else 0
  }

  /** Exactly one slide, the current one, is fully visible. */
  lemma ExactlyOneVisible(current: int, n: int)
    requires 0 <= current < n
    ensures (set j | 0 <= j < n && Opacity(current, j) == 1) == {current}
    ensures |set j | 0 <= j < n && Opacity(current, j) == 1| == 1
  {
    var visible := set j | 0 <= j < n && Opacity(current, j) == 1;
    assert current in visible;
    assert visible == {current};
  }

  /** The carousel's `currentSlide` state. */
  class Slider {
    var currentSlide: int

    ghost predicate Valid()
      reads this
    {
      0 <= currentSlide < SlideCount
    }

    constructor ()
      ensures Valid() && currentSlide == 0
    {
      currentSlide := 0;
    }

    /** The interval timer's tick and the right arrow. */
    method NextSlide()
      requires Valid()
      modifies this
      ensures Valid()
      ensures currentSlide == Next(old(currentSlide), SlideCount)
    {
      StepsStayInRange(currentSlide, SlideCount);
      currentSlide := Next(currentSlide, SlideCount);
    }

    /** The left arrow. */
    method PrevSlide()
      requires Valid()
      modifies this
      ensures Valid()
      ensures currentSlide == Prev(old(currentSlide), SlideCount)
    {
      StepsStayInRange(currentSlide, SlideCount);
      currentSlide := Prev(currentSlide, SlideCount);
    }

    /** An indicator dot: `setCurrentSlide(index)`. */
    method GoTo(index: nat)
      requires Valid() && index < SlideCount
      modifies this
      ensures Valid() && currentSlide == index
    {
      currentSlide := index;
    }
  }
}
