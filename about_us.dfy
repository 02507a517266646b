/**
 * The "About Us" carousel: three slides, an index that wraps around in both
 * directions, the direction of the last step, and one dot per slide.
 */
module Carousel {
  /** The slides' titles, in display order; descriptions and images carry no logic. */
  const Titles: seq<string> := ["Our History", "Our Mission", "Our Team"]

  /** `carouselItems.length` */
  const SlideCount: nat := |Titles|

  datatype Direction = Left | Right

  /** `(prev + 1) % carouselItems.length` */
  function NextIndex(i: nat): (j: nat)
    requires i < SlideCount
    ensures j < SlideCount
    ensures i < SlideCount - 1 ==> j == i + 1
    ensures i == SlideCount - 1 ==> j == 0
  {
    (i + 1) % SlideCount
  }

  /** `(prev - 1 + carouselItems.length) % carouselItems.length` */
  function PrevIndex(i: nat): (j: nat)
    requires i < SlideCount
    ensures j < SlideCount
    ensures 0 < i ==> j == i - 1
    ensures i == 0 ==> j == SlideCount - 1
  {
    (i - 1 + SlideCount) % SlideCount
  }

  /** Stepping back undoes stepping forward, and the reverse. */
  lemma StepsAreInverse(i: nat)
    requires i < SlideCount
    ensures PrevIndex(NextIndex(i)) == i
    ensures NextIndex(PrevIndex(i)) == i
  {
  }

  /** `k` steps forward from slide `i`. */
  function Advance(i: nat, k: nat): (j: nat)
    requires i < SlideCount
    ensures j < SlideCount
  {
    if k == 0 then i else NextIndex(Advance(i, k - 1))
  }

  /** `k` steps forward land on `(i + k) mod n`. */
  lemma {:induction false} AdvanceIsModular(i: nat, k: nat)
    requires i < SlideCount
    ensures Advance(i, k) == (i + k) % SlideCount
  {
    if k > 0 {
      AdvanceIsModular(i, k - 1);
      var m := (i + k - 1) % SlideCount;
      assert i + k - 1 == SlideCount * ((i + k - 1) / SlideCount) + m;
      assert i + k == SlideCount * ((i + k - 1) / SlideCount) + (m + 1);
      if m + 1 == SlideCount {
        assert i + k == SlideCount * ((i + k - 1) / SlideCount + 1);
      }
    }
  }

  /** A full turn of `n` steps, and any whole number of turns, comes back to the start. */
  lemma FullTurnReturns(i: nat, turns: nat)
    requires i < SlideCount
    ensures Advance(i, SlideCount) == i
    ensures Advance(i, turns * SlideCount) == i
  {
    AdvanceIsModular(i, SlideCount);
    AdvanceIsModular(i, turns * SlideCount);
    assert i + turns * SlideCount == turns * SlideCount + i;
  }

  class CarouselState {
    var currentSlide: nat
    var slideDirection: Direction

    /** The index names a slide. */
    predicate Valid()
      reads this
    {
      currentSlide < SlideCount
    }

    /** `useState(0)` and `useState('right')` */
    constructor ()
      ensures Valid()
      ensures currentSlide == 0 && slideDirection == Right
    {
      currentSlide := 0;
      slideDirection := Right;
    }

    method NextSlide()
      requires Valid()
      modifies this
      ensures Valid()
      ensures currentSlide == NextIndex(old(currentSlide)) && slideDirection == Right
    {
      slideDirection := Right;
      currentSlide := (currentSlide + 1) % SlideCount;
    }

    method PrevSlide()
      requires Valid()
      modifies this
      ensures Valid()
      ensures currentSlide == PrevIndex(old(currentSlide)) && slideDirection == Left
    {
      slideDirection := Left;
      currentSlide := (currentSlide - 1 + SlideCount) % SlideCount;
    }

    /** A dot's `onClick`: jump to its slide; the direction stays as it was. */
    method SelectDot(index: nat)
      requires index < SlideCount
      modifies this`currentSlide
      ensures Valid()
      ensures currentSlide == index
    {
      currentSlide := index;
    }

    /** The dot drawn in the active colour: exactly the one for the current slide. */
    function ActiveDot(index: nat): (active: bool)
      reads this
      requires Valid() && index < SlideCount
      ensures active <==> Titles[index] == Titles[currentSlide]
    {
      index == currentSlide
    }
  }
}
