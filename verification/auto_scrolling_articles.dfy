/** The self-scrolling article list (src/app/components/AutoScrollingArticles.tsx).
    Every animation frame runs one tick: the list scrolls down by half a pixel
    unless the pointer hovers over it, and jumps back to the top once it has
    reached the bottom. The browser's clamping and rounding of `scrollTop` are not
    modelled: offsets are reals and follow the arithmetic as written. */
module AutoScrollingArticles {

  /** Pixels scrolled per frame. */
  const Step: real := 0.5

  /** The scroll offset after one tick, for the given offset, content height,
      viewport height and hover flag. The bottom is recomputed from the heights
      passed in. */
  function NextTop(top: real, scrollHeight: real, clientHeight: real, isHovering: bool): (r: real)
    ensures 0.0 <= top ==> 0.0 <= r
  {
    if !isHovering && top < scrollHeight - clientHeight then top + Step
    else if top >= scrollHeight - clientHeight then 0.0
    else top
  }

  /** The offset after `n` ticks with fixed heights and a fixed hover flag. */
  function Frames(n: nat, top: real, scrollHeight: real, clientHeight: real, isHovering: bool): (r: real)
    ensures 0.0 <= top ==> 0.0 <= r
  {
    if n == 0 then top
    else NextTop(Frames(n - 1, top, scrollHeight, clientHeight, isHovering), scrollHeight, clientHeight, isHovering)
  }

  /** With fixed heights and content at least as tall as the viewport, the offset
      stays within [0, bottom + Step) for every number of ticks. No induction is
      needed: one tick from any non-negative offset already lands in that range. */
  lemma FramesStayInBounds(n: nat, top: real, scrollHeight: real, clientHeight: real, isHovering: bool)
    requires scrollHeight - clientHeight >= 0.0
    requires 0.0 <= top < scrollHeight - clientHeight + Step
    ensures 0.0 <= Frames(n, top, scrollHeight, clientHeight, isHovering) < scrollHeight - clientHeight + Step
  {
  }

  /** Content that fits in the viewport never scrolls: from the first tick on the
      offset is 0, hovering or not, because every non-negative offset is already
      at or past the bottom. */
  lemma FitsViewportStaysAtTop(n: nat, top: real, scrollHeight: real, clientHeight: real, isHovering: bool)
    requires scrollHeight <= clientHeight && 0.0 <= top && n >= 1
    ensures Frames(n, top, scrollHeight, clientHeight, isHovering) == 0.0
  {
  }

  /** While hovering above the bottom, any number of ticks leave the offset frozen. */
  lemma {:induction false} HoverFreezes(n: nat, top: real, scrollHeight: real, clientHeight: real)
    requires top < scrollHeight - clientHeight
    ensures Frames(n, top, scrollHeight, clientHeight, true) == top
  {
    if n > 0 {
      HoverFreezes(n - 1, top, scrollHeight, clientHeight);
    }
  }

  /** After any number of paused ticks, the first tick without hover continues
      from the frozen offset, not from the top. */
  lemma PauseThenResume(n: nat, top: real, scrollHeight: real, clientHeight: real)
    requires top < scrollHeight - clientHeight
    ensures NextTop(Frames(n, top, scrollHeight, clientHeight, true), scrollHeight, clientHeight, false) == top + Step
  {
    HoverFreezes(n, top, scrollHeight, clientHeight);
  }

  /** Starting at the top without hover, the offset grows by exactly one step per
      tick for as long as the previous offset was above the bottom. */
  lemma {:induction false} AdvancesFromTop(k: nat, scrollHeight: real, clientHeight: real)
    requires (k as real - 1.0) * Step < scrollHeight - clientHeight
    ensures Frames(k, 0.0, scrollHeight, clientHeight, false) == k as real * Step
  {
    if k > 0 {
      AdvancesFromTop(k - 1, scrollHeight, clientHeight);
    }
  }

  /** The first tick `k` whose offset reaches the bottom is followed by a jump back
      to the top; before it, every tick strictly increased the offset. */
  lemma WrapsAtBottom(k: nat, scrollHeight: real, clientHeight: real)
    requires (k as real - 1.0) * Step < scrollHeight - clientHeight <= k as real * Step
    ensures forall j: nat :: j < k ==>
      Frames(j, 0.0, scrollHeight, clientHeight, false) < Frames(j + 1, 0.0, scrollHeight, clientHeight, false)
    ensures Frames(k, 0.0, scrollHeight, clientHeight, false) >= scrollHeight - clientHeight
    ensures Frames(k + 1, 0.0, scrollHeight, clientHeight, false) == 0.0
  {
    forall j: nat | j < k
      ensures Frames(j, 0.0, scrollHeight, clientHeight, false) < Frames(j + 1, 0.0, scrollHeight, clientHeight, false)
    {
      AdvancesFromTop(j, scrollHeight, clientHeight);
      AdvancesFromTop(j + 1, scrollHeight, clientHeight);
    }
    AdvancesFromTop(k, scrollHeight, clientHeight);
  }

  /** Without hover and with fixed heights the animation repeats with period
      `k + 1`, where `k` is the first tick that reaches the bottom. */
  lemma {:induction false} ScrollIsPeriodic(k: nat, j: nat, scrollHeight: real, clientHeight: real)
    requires (k as real - 1.0) * Step < scrollHeight - clientHeight <= k as real * Step
    ensures Frames(k + 1 + j, 0.0, scrollHeight, clientHeight, false) == Frames(j, 0.0, scrollHeight, clientHeight, false)
  {
    if j == 0 {
      WrapsAtBottom(k, scrollHeight, clientHeight);
    } else {
      ScrollIsPeriodic(k, j - 1, scrollHeight, clientHeight);
    }
  }

  /** The scroll container together with the component's hover state. */
  class ScrollingArticles {
    var scrollTop: real
    var scrollHeight: real
    var clientHeight: real
    var isHovering: bool

    ghost predicate Valid()
      reads this
    {
      0.0 <= scrollTop
    }

    /** The offset lies below the bottom plus one step. */
    ghost predicate InBounds()
      reads this
    {
      scrollTop < scrollHeight - clientHeight + Step
    }

    /** A freshly mounted list: at the top and not hovered. */
    constructor (scrollHeight: real, clientHeight: real)
      ensures Valid() && scrollTop == 0.0 && !isHovering
      ensures this.scrollHeight == scrollHeight && this.clientHeight == clientHeight
    {
      scrollTop := 0.0;
      this.scrollHeight := scrollHeight;
      this.clientHeight := clientHeight;
      isHovering := false;
    }

    /** One animation frame. The bottom is computed from the current heights:
        below it the list advances by one step unless hovered; at or past it the
        list jumps to the top, hovered or not. */
    method Scroll()
      requires Valid()
      modifies this`scrollTop
      ensures Valid()
      ensures scrollTop == NextTop(old(scrollTop), scrollHeight, clientHeight, isHovering)
      ensures !isHovering && old(scrollTop) < scrollHeight - clientHeight ==> scrollTop == old(scrollTop) + Step
      ensures old(scrollTop) >= scrollHeight - clientHeight ==> scrollTop == 0.0
      ensures isHovering && old(scrollTop) < scrollHeight - clientHeight ==> scrollTop == old(scrollTop)
      ensures scrollHeight - clientHeight >= 0.0 && old(InBounds()) ==> InBounds()
    {
      if !isHovering && scrollTop < scrollHeight - clientHeight {
        scrollTop := scrollTop + Step;
      } else if scrollTop >= scrollHeight - clientHeight {
        scrollTop := 0.0;
      }
    }

    /** `n` consecutive frames with no event in between. */
    method RunFrames(n: nat)
      requires Valid()
      modifies this`scrollTop
      ensures Valid()
      ensures scrollTop == Frames(n, old(scrollTop), scrollHeight, clientHeight, isHovering)
    {
      var i := 0;
      while i < n
        invariant 0 <= i <= n && Valid()
        invariant scrollTop == Frames(i, old(scrollTop), scrollHeight, clientHeight, isHovering)
      {
        Scroll();
        i := i + 1;
      }
    }

    /** The pointer enters the list: scrolling pauses, the offset is kept. */
    method MouseEnter()
      modifies this`isHovering
      ensures isHovering
    {
      isHovering := true;
    }

    /** The pointer leaves the list: scrolling resumes from the current offset. */
    method MouseLeave()
      modifies this`isHovering
      ensures !isHovering
    {
      isHovering := false;
    }

    /** The layout changes, e.g. because a new article list was rendered; the next
        tick measures the new heights. */
    method Relayout(scrollHeight: real, clientHeight: real)
      modifies this`scrollHeight, this`clientHeight
      ensures this.scrollHeight == scrollHeight && this.clientHeight == clientHeight
    {
      this.scrollHeight := scrollHeight;
      this.clientHeight := clientHeight;
    }
  }

  /** Hovering over a scrolling list for `n` frames and leaving again: the offset
      is frozen during the hover and the next frame advances from it. */
  method HoverPauseAndResume(list: ScrollingArticles, n: nat)
    requires list.Valid() && list.scrollTop < list.scrollHeight - list.clientHeight
    modifies list
    ensures list.Valid() && !list.isHovering
    ensures list.scrollHeight == old(list.scrollHeight) && list.clientHeight == old(list.clientHeight)
    ensures list.scrollTop == old(list.scrollTop) + Step
  {
    list.MouseEnter();
    list.RunFrames(n);
    HoverFreezes(n, old(list.scrollTop), list.scrollHeight, list.clientHeight);
    list.MouseLeave();
    list.Scroll();
  }
}
