/**
 * The gallery lightbox: the index of the image on show moves forwards and backwards around the
 * image list, and the keyboard drives it.
 */
module GalleryLightbox {
  import opened Clock

  /** `handleNext`: `(prev + 1) % images.length`, with JavaScript's truncating remainder. */
  function NextIndex(index: int, count: int): (r: int)
    requires count > 0
    ensures index >= -1 ==> 0 <= r < count
    ensures 0 <= index < count - 1 ==> r == index + 1
    ensures index == count - 1 ==> r == 0
  {
    JsRem(index + 1, count)
  }

  /** `handlePrevious`: `(prev - 1 + images.length) % images.length`. */
  function PreviousIndex(index: int, count: int): (r: int)
    requires count > 0
    ensures index >= 1 - count ==> 0 <= r < count
    ensures 0 < index < count ==> r == index - 1
    ensures index == 0 ==> r == count - 1
  {
    JsRem(index - 1 + count, count)
  }

  /** From any image, next then previous, or previous then next, shows the same image again. */
  lemma {:induction false} NextPreviousInverse(index: int, count: int)
    requires count > 0 && 0 <= index < count
    ensures PreviousIndex(NextIndex(index, count), count) == index
    ensures NextIndex(PreviousIndex(index, count), count) == index
  {
    if index == count - 1 {
      assert NextIndex(index, count) == 0;
    }
    if index == 0 {
      assert PreviousIndex(index, count) == count - 1;
    }
  }

  /** The image on show after pressing next `steps` times. */
  function AdvanceBy(index: int, count: int, steps: nat): (r: int)
    requires count > 0 && 0 <= index < count
    ensures 0 <= r < count
  {
    if steps == 0 then index else NextIndex(AdvanceBy(index, count, steps - 1), count)
  }

  /** Pressing next up to `count` times moves that many places round the list, wrapping once. */
  lemma {:induction false} AdvanceByIsShift(index: int, count: int, steps: nat)
    requires count > 0 && 0 <= index < count && steps <= count
    ensures AdvanceBy(index, count, steps) == if index + steps < count then index + steps else index + steps - count
  {
    if steps > 0 {
      AdvanceByIsShift(index, count, steps - 1);
    }
  }

  /** Pressing next once per image comes back to the image shown first. */
  lemma {:induction false} FullCircle(index: int, count: int)
    requires count > 0 && 0 <= index < count
    ensures AdvanceBy(index, count, count) == index
  {
    AdvanceByIsShift(index, count, count);
  }

  /** What a key press does. */
  datatype KeyAction = Close | ShowPrevious | ShowNext | Ignore

  /** The keydown handler's three tests; a key meets at most one of them. */
  function ActionOf(key: string): (a: KeyAction)
    ensures a == Close <==> key == "Escape"
    ensures a == ShowPrevious <==> key == "ArrowLeft"
    ensures a == ShowNext <==> key == "ArrowRight"
  {
    if key == "Escape" then Close
    else if key == "ArrowLeft" then ShowPrevious
    else if key == "ArrowRight" then ShowNext
    else Ignore
  }

  /** The lightbox's state: the image on show, the number of images, and the close requests made. */
  class Lightbox {
    var index: int
    const count: int
    var closeRequests: nat

    ghost predicate Valid()
      reads this
    {
      count > 0 && 0 <= index < count
    }

    /** `useState(initialIndex)`. */
    constructor (initialIndex: int, imageCount: int)
      requires imageCount > 0 && 0 <= initialIndex < imageCount
      ensures Valid() && index == initialIndex && count == imageCount && closeRequests == 0
    {
      index := initialIndex;
      count := imageCount;
      closeRequests := 0;
    }

    method Next()
      requires Valid()
      modifies this
      ensures Valid() && index == NextIndex(old(index), count) && closeRequests == old(closeRequests)
    {
      index := NextIndex(index, count);
    }

    method Previous()
      requires Valid()
      modifies this
      ensures Valid() && index == PreviousIndex(old(index), count) && closeRequests == old(closeRequests)
    {
      index := PreviousIndex(index, count);
    }

    /** The keydown handler: Escape asks to close, the arrows move, other keys change nothing. */
    method KeyDown(key: string)
      requires Valid()
      modifies this
      ensures Valid()
      ensures key == "Escape" ==> index == old(index) && closeRequests == old(closeRequests) + 1
      ensures key == "ArrowLeft" ==> index == PreviousIndex(old(index), count) && closeRequests == old(closeRequests)
      ensures key == "ArrowRight" ==> index == NextIndex(old(index), count) && closeRequests == old(closeRequests)
      ensures ActionOf(key) == Ignore ==> index == old(index) && closeRequests == old(closeRequests)
    {
      if key == "Escape" {
        closeRequests := closeRequests + 1;
      }
      if key == "ArrowLeft" {
        Previous();
      }
      if key == "ArrowRight" {
        Next();
      }
    }
  }
}
