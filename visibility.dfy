/** The Visibility Controller of the cart reminder: whether the modal overlay
    is displayed, and the `scrolledDown` latch that lets a scroll into the
    bottom 10% of the page open the modal only once until the shopper scrolls
    back out of that zone. */
module Visibility {

  /** The controller's observable state: `visible` is `display:block` (as
      opposed to `display:none`) on the overlay, `scrolledDown` the latch. */
  datatype View = View(visible: bool, scrolledDown: bool)

  /** The events the script listens to. A scroll carries `window.scrollY` and
      the maximal scroll offset (`scrollHeight - clientHeight`); a window click
      says whether its target is the overlay itself. */
  datatype Event =
    | Scroll(position: real, maxHeight: real)
    | CloseClick
    | WindowClick(onOverlay: bool)

  /** At page load the modal is hidden and the latch is clear. */
  const Initial := View(false, false)

  /** The bottom-10% test, in exact arithmetic (0.9 is exactly 9/10 here). */
  function InBottomZone(position: real, maxHeight: real): (r: bool)
    ensures r <==> 10.0 * position >= 9.0 * maxHeight
    ensures maxHeight > 0.0 ==> (r <==> position / maxHeight >= 0.9)
  {
    position >= maxHeight * 0.9
  }

  /** The scroll handler's first branch: the latch is clear and the page is
      scrolled into the bottom zone. */
  predicate Fires(s: View, e: Event)
  {
    e.Scroll? && !s.scrolledDown && InBottomZone(e.position, e.maxHeight)
  }

  /** The scroll handler's second branch: the latch is set and the page is
      scrolled back above the bottom zone. */
  predicate Rearms(s: View, e: Event)
  {
    e.Scroll? && s.scrolledDown && !InBottomZone(e.position, e.maxHeight)
  }

  /** The effect of one event. The modal can only become visible through a
      firing scroll when at least two products were found, and the latch only
      moves in the two scroll branches. */
  function Step(s: View, e: Event, productCount: int): (r: View)
    ensures r.visible && !s.visible ==> Fires(s, e) && productCount > 1
    ensures r.scrolledDown != s.scrolledDown ==> Fires(s, e) || Rearms(s, e)
    ensures Fires(s, e) ==> r.scrolledDown
    ensures Rearms(s, e) ==> !r.scrolledDown
  {
    match e
    case Scroll(position, maxHeight) =>
      if !s.scrolledDown && InBottomZone(position, maxHeight) then
        View(if productCount > 1 then true else s.visible, true)
      else if s.scrolledDown && !InBottomZone(position, maxHeight) then
        s.(scrolledDown := false)
      else
        s
    case CloseClick => s.(visible := false)
    case WindowClick(onOverlay) => if onOverlay then s.(visible := false) else s
  }

  /** The state after a sequence of events, delivered in order. */
  function Run(s: View, events: seq<Event>, productCount: int): View
    decreases |events|
  {
    if events == [] then s else Run(Step(s, events[0], productCount), events[1..], productCount)
  }

  /** How many scroll events in the run took the firing branch. */
  function FireCount(s: View, events: seq<Event>, productCount: int): nat
    decreases |events|
  {
    if events == [] then 0
    else (if Fires(s, events[0]) then 1 else 0)
         + FireCount(Step(s, events[0], productCount), events[1..], productCount)
  }

  /** How many scroll events in the run cleared the latch. */
  function RearmCount(s: View, events: seq<Event>, productCount: int): nat
    decreases |events|
  {
    if events == [] then 0
    else (if Rearms(s, events[0]) then 1 else 0)
         + RearmCount(Step(s, events[0], productCount), events[1..], productCount)
  }

  function Bit(b: bool): nat
  {
    if b then 1 else 0
  }

  /** With fewer than two products, no sequence of events ever shows a hidden modal. */
  lemma {:induction false} FewProductsNeverShown(s: View, events: seq<Event>, productCount: int)
    requires productCount <= 1 && !s.visible
    ensures !Run(s, events, productCount).visible
    decreases |events|
  {
    if events != [] {
      FewProductsNeverShown(Step(s, events[0], productCount), events[1..], productCount);
    }
  }

  /** Every firing sets the latch and every re-arming clears it, so the two
      counts differ exactly by how the latch moved over the run. */
  lemma {:induction false} LatchBalance(s: View, events: seq<Event>, productCount: int)
    ensures FireCount(s, events, productCount) + Bit(s.scrolledDown)
         == RearmCount(s, events, productCount) + Bit(Run(s, events, productCount).scrolledDown)
    decreases |events|
  {
    if events != [] {
      LatchBalance(Step(s, events[0], productCount), events[1..], productCount);
    }
  }

  /** The modal fires at most once per "enter the bottom zone, leave it" cycle:
      from a clear latch, the run fires at most one time more than it re-arms. */
  lemma AtMostOncePerCycle(s: View, events: seq<Event>, productCount: int)
    ensures FireCount(s, events, productCount)
         <= RearmCount(s, events, productCount) + (if s.scrolledDown then 0 else 1)
  {
    LatchBalance(s, events, productCount);
  }

  /** No event in the sequence scrolls above the bottom zone. */
  predicate StaysInBottomZone(events: seq<Event>)
  {
    forall i :: 0 <= i < |events| && events[i].Scroll? ==> InBottomZone(events[i].position, events[i].maxHeight)
  }

  /** Once latched, staying in the bottom zone (with any clicks in between)
      keeps the latch set and never reopens the modal. */
  lemma {:induction false} LatchedNeverReopens(s: View, events: seq<Event>, productCount: int)
    requires s.scrolledDown && StaysInBottomZone(events)
    ensures Run(s, events, productCount).scrolledDown
    ensures Run(s, events, productCount).visible ==> s.visible
    decreases |events|
  {
    if events != [] {
      var rest := events[1..];
      assert forall i :: 0 <= i < |rest| ==> rest[i] == events[i + 1];
      LatchedNeverReopens(Step(s, events[0], productCount), rest, productCount);
    }
  }

  /** Closing (by the button or by clicking the overlay) twice is closing once. */
  lemma DismissIdempotent(s: View, e: Event, productCount: int)
    requires e.CloseClick? || e.WindowClick?
    ensures Step(Step(s, e, productCount), e, productCount) == Step(s, e, productCount)
  {
  }

  /** The controller object: the two flags the script keeps, and the product
      count it fixed at page load. */
  class Controller {
    var visible: bool
    var scrolledDown: bool
    const productCount: nat

    function Current(): View
      reads this
    {
      View(visible, scrolledDown)
    }

    constructor (productCount: nat)
      ensures this.productCount == productCount
      ensures Current() == Initial
    {
      this.productCount := productCount;
      visible := false;
      scrolledDown := false;
    }

    /** The helper the scroll handler calls to show the modal; no listener
        is registered for it. */
    method OpenModal()
      modifies this`visible
      ensures visible
    {
      visible := true;
    }

    /** The close button's handler: hides the modal, leaves the latch alone. */
    method CloseModal()
      modifies this`visible
      ensures !visible
      ensures Current() == Step(old(Current()), CloseClick, productCount)
    {
      visible := false;
    }

    /** The window click handler: hides the modal only when the click landed
      on the overlay itself. */
    method ClickAway(targetIsOverlay: bool)
      modifies this`visible
      ensures visible == (old(visible) && !targetIsOverlay)
      ensures Current() == Step(old(Current()), WindowClick(targetIsOverlay), productCount)
    {
      if targetIsOverlay {
        CloseModal();
      }
    }

    /** The scroll handler. */
    method OnScroll(scrollPosition: real, scrollMaxHeight: real)
      modifies this
      ensures Current() == Step(old(Current()), Scroll(scrollPosition, scrollMaxHeight), productCount)
      ensures !old(scrolledDown) && InBottomZone(scrollPosition, scrollMaxHeight) ==>
                scrolledDown && visible == (old(visible) || productCount > 1)
      ensures old(scrolledDown) && InBottomZone(scrollPosition, scrollMaxHeight) ==> unchanged(this)
      ensures !InBottomZone(scrollPosition, scrollMaxHeight) ==> !scrolledDown && visible == old(visible)
    {
      if !scrolledDown && scrollPosition >= scrollMaxHeight * 0.9 {
        if productCount > 1 {
          OpenModal();
        }
        scrolledDown := true;
      } else if scrolledDown && scrollPosition < scrollMaxHeight * 0.9 {
        scrolledDown := false;
      }
    }
  }
}
