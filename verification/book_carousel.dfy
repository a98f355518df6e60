/**
 * The related-books carousel: a scroll position counted in cards, moved four cards at a
 * time by two arrow buttons, and drawn as a horizontal offset of 280 pixels per card.
 */
module BookCarousel {
  import opened Wrappers

  const CardWidth: int := 280
  const VisibleCards: int := 4

  predicate CanScrollLeft(position: int) {
    position > 0
  }

  predicate CanScrollRight(position: int, count: nat) {
    position < count - VisibleCards
  }

  /** `Math.max(0, position - 4)` */
  function ScrollLeftTarget(position: int): (r: int)
    ensures r >= 0
    ensures position >= VisibleCards ==> r == position - VisibleCards
    ensures position > 0 ==> r < position
    ensures position < VisibleCards ==> r == 0
  {
    if position - VisibleCards > 0 then position - VisibleCards else 0
  }

  /** `Math.min(count - 4, position + 4)` */
  function ScrollRightTarget(position: int, count: nat): (r: int)
    ensures r <= count - VisibleCards
    ensures position + VisibleCards <= count - VisibleCards ==> r == position + VisibleCards
    ensures position < count - VisibleCards ==> r > position
    ensures position + VisibleCards > count - VisibleCards ==> r == count - VisibleCards
  {
    if count - VisibleCards < position + VisibleCards then count - VisibleCards else position + VisibleCards
  }

  /** The pixel distance of `translateX(-…px)`. */
  function Offset(position: int): (px: int)
    ensures position >= 0 ==> px >= 0
    ensures px == 0 <==> position == 0
  {
    position * CardWidth
  }

  function LastPosition(count: nat): nat {
    if count >= VisibleCards then count - VisibleCards else 0
  }

  /** The position stays between the first card and the last full page. */
  predicate InRange(position: int, count: nat) {
    0 <= position <= LastPosition(count)
  }

  /** Pressing an enabled button from a position in range lands in range again. */
  lemma EnabledPressesStayInRange(position: int, count: nat)
    requires InRange(position, count)
    ensures CanScrollLeft(position) ==> InRange(ScrollLeftTarget(position), count)
    ensures CanScrollRight(position, count) ==> InRange(ScrollRightTarget(position, count), count)
  {
  }

  /**
   * The "next" handler on its own is safe only for four or more books: with fewer it
   * would move to a negative position, which is why its button's guard matters.
   */
  lemma RightTargetNeedsFourBooks(position: int, count: nat)
    requires InRange(position, count)
    ensures ScrollRightTarget(position, count) >= 0 <==> count >= VisibleCards
  {
  }

  /** With at most four books neither button is enabled. */
  lemma FewBooksNoScrolling(count: nat)
    requires count <= VisibleCards
    ensures !CanScrollLeft(0) && !CanScrollRight(0, count)
  {
  }

  // ---- what the component renders ----

  datatype View =
    | Nothing
    | Shown(leftEnabled: bool, rightEnabled: bool, offset: int, cards: nat)

  datatype Crash = ReadLengthOfMissing

  /**
   * The component as written: `books.length` is read for the two flags before the
   * `!books` guard, so a missing list throws instead of rendering nothing.
   */
  function RenderAsWritten<T>(books: Option<seq<T>>, position: int): (r: Result<View, Crash>)
    ensures books.None? ==> r == Err(ReadLengthOfMissing)
  {
    if books.None? then Err(ReadLengthOfMissing)
    else if |books.value| == 0 then Ok(Nothing)
    else Ok(Shown(CanScrollLeft(position), CanScrollRight(position, |books.value|), Offset(position),
                  |books.value|))
  }

  /** The guard first, then the flags: a missing or empty list renders nothing. */
  function Render<T>(books: Option<seq<T>>, position: int): (r: View)
    ensures r == Nothing <==> books.None? || |books.value| == 0
    ensures r.Shown? ==> r.offset == position * CardWidth && r.cards == |books.value|
    ensures r.Shown? ==> (r.leftEnabled <==> position > 0)
    ensures r.Shown? ==> (r.rightEnabled <==> position < |books.value| - VisibleCards)
  {
    if books.None? || |books.value| == 0 then Nothing
    else Shown(CanScrollLeft(position), CanScrollRight(position, |books.value|), Offset(position),
               |books.value|)
  }

  /** The as-written component fails on a missing list, where the guard meant to render nothing. */
  lemma MissingListCrashes<T>(position: int)
    ensures RenderAsWritten<T>(None, position).Err?
    ensures Render<T>(None, position) == Nothing
  {
  }

  /** Wherever the as-written component does not fail, the corrected one renders the same. */
  lemma RenderAgreesWhenPresent<T>(books: seq<T>, position: int)
    ensures RenderAsWritten(Some(books), position) == Ok(Render(Some(books), position))
  {
  }

  class Carousel {
    /** `books.length` */
    const count: nat
    var position: int

    predicate Valid()
      reads this
    {
      InRange(position, count)
    }

    constructor (count: nat)
      ensures Valid() && this.count == count && position == 0
    {
      this.count := count;
      position := 0;
    }

    /** `scrollLeft` */
    method ScrollLeft()
      requires Valid()
      modifies this
      ensures Valid()
      ensures position == ScrollLeftTarget(old(position))
    {
      position := if 0 > position - VisibleCards then 0 else position - VisibleCards;
    }

    /** `scrollRight` on its own keeps the position in range only for four or more books. */
    method ScrollRight()
      requires Valid()
      modifies this
      ensures position == ScrollRightTarget(old(position), count)
      ensures Valid() <==> count >= VisibleCards
    {
      position := if count - VisibleCards < position + VisibleCards then count - VisibleCards
                  else position + VisibleCards;
    }

    /** A click on the "previous" button, which is disabled unless it can scroll. */
    method PressPrevious()
      requires Valid()
      modifies this
      ensures Valid()
      ensures position == if CanScrollLeft(old(position)) then ScrollLeftTarget(old(position)) else old(position)
    {
      if CanScrollLeft(position) {
        ScrollLeft();
      }
    }

    /** A click on the "next" button, which is disabled unless it can scroll. */
    method PressNext()
      requires Valid()
      modifies this
      ensures Valid()
      ensures position == if CanScrollRight(old(position), count) then ScrollRightTarget(old(position), count)
                          else old(position)
    {
      if CanScrollRight(position, count) {
        ScrollRight();
      }
    }
  }
}
