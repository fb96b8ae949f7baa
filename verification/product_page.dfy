/** The product page's script (assets/js/store-single-product.js): the image
    gallery with its arrows and thumbnails, and the quantity field with its
    minus and plus buttons and the check made before adding to the cart. */
module ProductPage {
  import opened Wrappers

  // ---------------------------------------------------------------------
  // Gallery navigation (store-single-product.js:24-38, 93-102, 130-146)
  // ---------------------------------------------------------------------

  /** The slide after `cur`, wrapping from the last to the first. */
  function NextIndex(cur: int, n: int): int {
    if cur < n - 1 then cur + 1 else 0
  }

  /** The slide before `cur`, wrapping from the first to the last. */
  function PrevIndex(cur: int, n: int): int {
    if cur > 0 then cur - 1 else n - 1
  }

  /** From any slide the arrows lead to a slide, and each arrow undoes the other. */
  lemma ArrowsStayInRangeAndInvert(cur: int, n: int)
    requires 0 <= cur < n
    ensures 0 <= NextIndex(cur, n) < n && 0 <= PrevIndex(cur, n) < n
    ensures PrevIndex(NextIndex(cur, n), n) == cur
    ensures NextIndex(PrevIndex(cur, n), n) == cur
  {
  }

  /** The slide on view after pressing "next" k times from slide `cur`. */
  function NextTimes(cur: int, n: int, k: nat): int
    decreases k
  {
    if k == 0 then cur else NextIndex(NextTimes(cur, n, k - 1), n)
  }

  /** Within one round of the gallery, "next" k times moves k slides on,
      wrapping past the last; a full round comes back to the start. */
  lemma {:induction false} NextTimesWraps(cur: int, n: int, k: nat)
    requires 0 <= cur < n && k <= n
    ensures NextTimes(cur, n, k) == if cur + k < n then cur + k else cur + k - n
    ensures k == n ==> NextTimes(cur, n, k) == cur
  {
    if k > 0 {
      NextTimesWraps(cur, n, k - 1);
    }
  }

  /** The slides and thumbnails of the gallery, each marked active or not. */
  class Gallery {
    const slides: array<bool>
    const thumbs: array<bool>
    /** The slide on view. */
    ghost var shown: int

    ghost predicate Valid()
      reads this, slides, thumbs
    {
      slides != thumbs &&
      (slides.Length > 0 ==> 0 <= shown < slides.Length) &&
      forall i :: 0 <= i < slides.Length ==> slides[i] == (i == shown)
    }

    /** The page as loaded: the first slide on view and the first thumbnail marked. */
    constructor (slideCount: nat, thumbCount: nat)
      ensures Valid() && fresh(slides) && fresh(thumbs)
      ensures slides.Length == slideCount && thumbs.Length == thumbCount
      ensures slideCount > 0 ==> shown == 0
      ensures forall i :: 0 <= i < thumbs.Length ==> thumbs[i] == (i == 0)
    {
      slides := new bool[slideCount](i => i == 0);
      thumbs := new bool[thumbCount](i => i == 0);
      shown := if slideCount > 0 then 0 else -1;
    }

    /** The index of the active slide, or 0 when none is. */
    method CurrentIndex() returns (cur: int)
      requires Valid()
      ensures slides.Length > 0 ==> cur == shown
      ensures slides.Length == 0 ==> cur == 0
    {
      var i := 0;
      while i < slides.Length && !slides[i]
        invariant 0 <= i <= slides.Length
        invariant slides.Length > 0 ==> i <= shown
      {
        i := i + 1;
      }
      cur := if i < slides.Length then i else 0;
    }

    /** Shows slide `index` and marks its thumbnail; an index outside the
        gallery changes nothing. */
    method ShowSlide(index: int)
      requires Valid()
      modifies this, slides, thumbs
      ensures Valid()
      ensures !(0 <= index < slides.Length) ==>
        shown == old(shown) && slides[..] == old(slides[..]) && thumbs[..] == old(thumbs[..])
      ensures 0 <= index < slides.Length ==>
        shown == index &&
        forall i :: 0 <= i < thumbs.Length ==> thumbs[i] == (i == index)
    {
      if index < 0 || index >= slides.Length {
        return;
      }
      for i := 0 to slides.Length
        invariant forall j :: 0 <= j < i ==> slides[j] == (j == index)
        invariant thumbs[..] == old(thumbs[..])
      {
        slides[i] := i == index;
      }
      for i := 0 to thumbs.Length
        invariant forall j :: 0 <= j < i ==> thumbs[j] == (j == index)
        invariant forall j :: 0 <= j < slides.Length ==> slides[j] == (j == index)
      {
        thumbs[i] := i == index;
      }
      shown := index;
    }

    /** The "next" arrow or the right arrow key. */
    method Next()
      requires Valid() && slides.Length > 0
      modifies this, slides, thumbs
      ensures Valid()
      ensures shown == NextIndex(old(shown), slides.Length)
      ensures forall i :: 0 <= i < thumbs.Length ==> thumbs[i] == (i == shown)
    {
      var cur := CurrentIndex();
      ShowSlide(NextIndex(cur, slides.Length));
    }

    /** The "previous" arrow or the left arrow key. */
    method Prev()
      requires Valid() && slides.Length > 0
      modifies this, slides, thumbs
      ensures Valid()
      ensures shown == PrevIndex(old(shown), slides.Length)
      ensures forall i :: 0 <= i < thumbs.Length ==> thumbs[i] == (i == shown)
    {
      var cur := CurrentIndex();
      ShowSlide(PrevIndex(cur, slides.Length));
    }
  }

  // ---------------------------------------------------------------------
  // Quantity field (store-single-product.js:165-258, 270-280)
  // ---------------------------------------------------------------------

  /** `parseInt(text) || fallback`: a text that is no number, or is zero,
      gives the fallback. `None` stands for the NaN of a text with no number. */
  function OrDefault(parsed: Option<int>, fallback: int): (r: int)
    ensures parsed.Some? && parsed.value != 0 ==> r == parsed.value
    ensures parsed.None? || parsed == Some(0) ==> r == fallback
  {
    if parsed.Some? && parsed.value != 0 then parsed.value else fallback
  }

  const DefaultMin: int := 1
  const DefaultMax: int := 9999
  const DefaultStep: int := 1

  /** The quantity input: its parsed value and its min, max and step attributes. */
  class QuantityInput {
    var value: Option<int>
    const minAttr: Option<int>
    const maxAttr: Option<int>
    const stepAttr: Option<int>

    function Min(): int
      reads this
    {
      OrDefault(minAttr, DefaultMin)
    }

    function Max(): int
      reads this
    {
      OrDefault(maxAttr, DefaultMax)
    }

    function Step(): int
      reads this
    {
      OrDefault(stepAttr, DefaultStep)
    }

    /** The value the buttons and the cart read. */
    function Current(): int
      reads this
    {
      OrDefault(value, 1)
    }

    /** The field holds a number within its bounds. */
    ghost predicate InRange()
      reads this
    {
      value.Some? && Min() <= value.value <= Max()
    }

    predicate MinusDisabled()
      reads this
    {
      Current() <= Min()
    }

    predicate PlusDisabled()
      reads this
    {
      Current() >= Max()
    }

    /** The page as loaded: the value read back as `parseInt || 1`. No
        change event follows, so the value is not clamped to the bounds. */
    constructor (initial: Option<int>, minAttr: Option<int>, maxAttr: Option<int>, stepAttr: Option<int>)
      ensures this.minAttr == minAttr && this.maxAttr == maxAttr && this.stepAttr == stepAttr
      ensures value == Some(OrDefault(initial, 1))
    {
      value := Some(OrDefault(initial, 1));
      this.minAttr := minAttr;
      this.maxAttr := maxAttr;
      this.stepAttr := stepAttr;
    }

    /** The change and input handler: a value that is no number or lies
        below the minimum becomes the minimum, one above the maximum the
        maximum. */
    method Settle()
      modifies this
      ensures value == if old(value).None? || old(value).value < Min() then Some(Min())
                       else if old(value).value > Max() then Some(Max())
                       else old(value)
      ensures Min() <= Max() ==> InRange()
    {
      if value.None? || value.value < Min() {
        value := Some(Min());
      } else if value.value > Max() {
        value := Some(Max());
      }
    }

    /** Typing into the field. */
    method Type(typed: Option<int>)
      modifies this
      ensures value == if typed.None? || typed.value < Min() then Some(Min())
                       else if typed.value > Max() then Some(Max())
                       else typed
      ensures Min() <= Max() ==> InRange()
      ensures typed.Some? && Min() <= typed.value <= Max() ==> value == typed
    {
      value := typed;
      Settle();
    }

    /** The minus button: steps down when that stays at or above the minimum. */
    method Minus()
      modifies this
      ensures var next := old(Current()) - Step();
        value == if next >= Min() then (if next > Max() then Some(Max()) else Some(next)) else old(value)
    {
      var next := Current() - Step();
      if next >= Min() {
        value := Some(next);
        Settle();
      }
    }

    /** The plus button: steps up when that stays at or below the maximum. */
    method Plus()
      modifies this
      ensures var next := old(Current()) + Step();
        value == if next <= Max() then (if next < Min() then Some(Min()) else Some(next)) else old(value)
    {
      var next := Current() + Step();
      if next <= Max() {
        value := Some(next);
        Settle();
      }
    }

    /** The check before adding to the cart: the quantity sent, when it may go. */
    method CheckSubmit() returns (r: Option<int>)
      ensures r.Some? <==> Min() <= Current() <= Max()
      ensures r.Some? ==> r.value == Current()
    {
      var quantity := Current();
      if quantity < Min() || quantity > Max() {
        return None;
      }
      return Some(quantity);
    }
  }

  /** With a positive step and a minimum below the maximum, the buttons keep
      the field within bounds, and a field within bounds may always be
      submitted. */
  method ButtonsKeepQuantityInRange(q: QuantityInput, presses: seq<bool>) returns (sent: Option<int>)
    requires q.InRange() && q.Min() > 0 && q.Step() > 0
    modifies q
    ensures q.InRange()
    ensures sent == Some(q.value.value)
  {
    for i := 0 to |presses|
      invariant q.InRange() && q.Min() > 0
    {
      if presses[i] {
        q.Plus();
      } else {
        q.Minus();
      }
    }
    sent := q.CheckSubmit();
  }
}
