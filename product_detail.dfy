/** The product page's image carousel: an index into the product's images
    that wraps around at both ends. */
module ProductDetail {

  /** The four images of the product shown on the page. */
  const ImageCount := 4

  /** `nextImage`'s updater. */
  function NextIndex(i: int, len: int): (r: int)
    ensures 0 <= i < len ==> 0 <= r < len && r == (i + 1) % len
  {
    if i == len - 1 then 0 else i + 1
  }

  /** `prevImage`'s updater. */
  function PrevIndex(i: int, len: int): (r: int)
    ensures 0 <= i < len ==> 0 <= r < len && r == (i - 1) % len
  {
    if i == 0 then len - 1 else i - 1
  }

  /** Back undoes forward and forward undoes back. */
  lemma NextPrevInverse(i: int, len: int)
    requires 0 <= i < len
    ensures PrevIndex(NextIndex(i, len), len) == i
    ensures NextIndex(PrevIndex(i, len), len) == i
  {
  }

  /** `k` presses of "next" from `i`. */
  function NextTimes(i: int, k: nat, len: int): int
    decreases k
  {
    if k == 0 then i else NextIndex(NextTimes(i, k - 1, len), len)
  }

  /** Up to one full turn, `k` presses of "next" add `k` and wrap past the end once. */
  lemma {:induction false} NextTimesWraps(i: int, k: nat, len: int)
    requires 0 <= i < len && k <= len
    ensures NextTimes(i, k, len) == if i + k < len then i + k else i + k - len
    decreases k
  {
    if k > 0 {
      NextTimesWraps(i, k - 1, len);
    }
  }

  /** Pressing "next" once per image comes back to the starting image. */
  lemma FullCycleReturns(i: int, len: int)
    requires 0 <= i < len
    ensures NextTimes(i, len, len) == i
  {
    NextTimesWraps(i, len, len);
  }

  /** The component's `currentImageIndex` state. */
  class Carousel {
    var currentImageIndex: int

    ghost predicate Valid()
      reads this
    {
      0 <= currentImageIndex < ImageCount
    }

    constructor ()
      ensures Valid() && currentImageIndex == 0
    {
      currentImageIndex := 0;
    }

    method NextImage()
      requires Valid()
      modifies this
      ensures Valid()
      ensures currentImageIndex == NextIndex(old(currentImageIndex), ImageCount)
    {
      currentImageIndex := NextIndex(currentImageIndex, ImageCount);
    }

    method PrevImage()
      requires Valid()
      modifies this
      ensures Valid()
      ensures currentImageIndex == PrevIndex(old(currentImageIndex), ImageCount)
    {
      currentImageIndex := PrevIndex(currentImageIndex, ImageCount);
    }

    /** The `n / 4` counter in the corner of the image. */
    function Counter(): (c: int)
      reads this
      requires Valid()
      ensures 1 <= c <= ImageCount
      ensures c - 1 == currentImageIndex
    {
      currentImageIndex + 1
    }
  }
}
