/**
 * The testimonial carousel: a first-visible index moving between 0 and the last index that still
 * fills a view of three cards, by the arrows, the indicators and a timer while autoplay is on and
 * the section has been seen.
 */
module Testimonials {
  /** Cards shown side by side. */
  const ItemsPerView := 3

  /** The testimonials on the page. */
  const TestimonialCount := 5

  /** `Math.max(0, testimonials.length - itemsPerView)`: the last first-visible index. */
  function MaxIndex(count: int): (m: int)
    ensures m >= 0
    ensures count >= ItemsPerView ==> m + ItemsPerView == count
    ensures count <= ItemsPerView ==> m == 0
  {
    if count - ItemsPerView > 0 then count - ItemsPerView else 0
  }

  lemma {:induction false} PageMaxIndex(count: int)
    requires count == TestimonialCount
    ensures MaxIndex(count) == 2
  {
  }

  /** `nextSlide`: past the last index back to 0, otherwise one further. */
  function NextSlide(prev: int, maxIndex: int): (r: int)
    ensures maxIndex >= 0 ==> (0 <= r <= maxIndex <==> prev >= -1)
    ensures prev < maxIndex ==> r == prev + 1
    ensures prev >= maxIndex ==> r == 0
  {
    if prev >= maxIndex then 0 else prev + 1
  }

  /** `prevSlide`: from 0 or below to the last index, otherwise one back. */
  function PrevSlide(prev: int, maxIndex: int): (r: int)
    ensures maxIndex >= 0 ==> (0 <= r <= maxIndex <==> prev <= maxIndex + 1)
    ensures prev > 0 ==> r == prev - 1
    ensures prev <= 0 ==> r == maxIndex
  {
    if prev <= 0 then maxIndex else prev - 1
  }

  /** Within range the arrows undo each other. */
  lemma {:induction false} SlidesInverse(index: int, maxIndex: int)
    requires 0 <= index <= maxIndex
    ensures PrevSlide(NextSlide(index, maxIndex), maxIndex) == index
    ensures NextSlide(PrevSlide(index, maxIndex), maxIndex) == index
  {
  }

  /** The first-visible index after `ticks` steps of `nextSlide`. */
  function SlideAfter(index: int, maxIndex: int, ticks: nat): (r: int)
    requires 0 <= index <= maxIndex
    ensures 0 <= r <= maxIndex
  {
    if ticks == 0 then index else NextSlide(SlideAfter(index, maxIndex, ticks - 1), maxIndex)
  }

  lemma {:induction false} SlideAfterIsShift(index: int, maxIndex: int, ticks: nat)
    requires 0 <= index <= maxIndex && ticks <= maxIndex + 1
    ensures SlideAfter(index, maxIndex, ticks) ==
      if index + ticks <= maxIndex then index + ticks else index + ticks - (maxIndex + 1)
  {
    if ticks > 0 {
      SlideAfterIsShift(index, maxIndex, ticks - 1);
    }
  }

  /** Autoplay shows every view in turn and comes back to the first after one per index. */
  lemma {:induction false} AutoplayCycles(index: int, maxIndex: int)
    requires 0 <= index <= maxIndex
    ensures SlideAfter(index, maxIndex, maxIndex + 1) == index
    ensures forall t: nat :: t <= maxIndex ==> SlideAfter(0, maxIndex, t) == t
  {
    SlideAfterIsShift(index, maxIndex, maxIndex + 1);
    forall t: nat | t <= maxIndex
      ensures SlideAfter(0, maxIndex, t) == t
    {
      SlideAfterIsShift(0, maxIndex, t);
    }
  }

  /** The carousel's state. */
  class Carousel {
    var index: int
    var autoPlaying: bool
    var visible: bool
    const maxIndex: int

    ghost predicate Valid()
      reads this
    {
      maxIndex >= 0
    }

    /** Index 0, autoplay on, not yet scrolled into view. */
    constructor (count: int)
      ensures Valid() && maxIndex == MaxIndex(count)
      ensures index == 0 && autoPlaying && !visible
    {
      maxIndex := MaxIndex(count);
      index := 0;
      autoPlaying := true;
      visible := false;
    }

    method Next()
      requires Valid()
      modifies this
      ensures Valid() && index == NextSlide(old(index), maxIndex)
      ensures old(index) >= -1 ==> 0 <= index <= maxIndex
      ensures autoPlaying == old(autoPlaying) && visible == old(visible)
    {
      index := NextSlide(index, maxIndex);
    }

    method Prev()
      requires Valid()
      modifies this
      ensures Valid() && index == PrevSlide(old(index), maxIndex)
      ensures old(index) <= maxIndex + 1 ==> 0 <= index <= maxIndex
      ensures autoPlaying == old(autoPlaying) && visible == old(visible)
    {
      index := PrevSlide(index, maxIndex);
    }

    /** `goToSlide`: the index as given, unclamped. */
    method GoTo(target: int)
      requires Valid()
      modifies this
      ensures Valid() && index == target
      ensures autoPlaying == old(autoPlaying) && visible == old(visible)
    {
      index := target;
    }

    /** One autoplay interval: `nextSlide` while autoplay is on and the section has been seen. */
    method Tick()
      requires Valid()
      modifies this
      ensures Valid()
      ensures autoPlaying && visible ==> index == NextSlide(old(index), maxIndex)
      ensures !(autoPlaying && visible) ==> index == old(index)
      ensures autoPlaying == old(autoPlaying) && visible == old(visible)
    {
      if autoPlaying && visible {
        index := NextSlide(index, maxIndex);
      }
    }

    /** The intersection observer: once seen, the section stays visible. */
    method Observe(intersecting: bool)
      requires Valid()
      modifies this
      ensures Valid() && visible == (old(visible) || intersecting)
      ensures index == old(index) && autoPlaying == old(autoPlaying)
    {
      if intersecting {
        visible := true;
      }
    }

    /** Hovering a card pauses autoplay; leaving it resumes. */
    method Hover(entered: bool)
      requires Valid()
      modifies this
      ensures Valid() && autoPlaying == !entered
      ensures index == old(index) && visible == old(visible)
    {
      autoPlaying := !entered;
    }

    /** The pause/resume button. */
    method ToggleAutoPlay()
      requires Valid()
      modifies this
      ensures Valid() && autoPlaying == !old(autoPlaying)
      ensures index == old(index) && visible == old(visible)
    {
      autoPlaying := !autoPlaying;
    }
  }
}
