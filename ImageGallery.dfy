/** The circular image index of src/components/Product/ImageGallery.tsx. */
module ImageGallery {

  /** JavaScript's `a % n`: the remainder takes the sign of `a`. */
  function JsRem(a: int, n: int): (r: int)
    requires n > 0
  {
    if a >= 0 then a % n else -((-a) % n)
  }

  /** `(prev + 1) % images.length`: the next index, wrapping from the last
      image to the first. */
  function NextImage(i: int, n: int): (r: int)
    requires n > 0 && 0 <= i < n
    ensures 0 <= r < n
    ensures r == if i == n - 1 then 0 else i + 1
  {
    JsRem(i + 1, n)
  }

  /** `(prev - 1 + images.length) % images.length`: the previous index,
      wrapping from the first image to the last. */
  function PrevImage(i: int, n: int): (r: int)
    requires n > 0 && 0 <= i < n
    ensures 0 <= r < n
    ensures r == if i == 0 then n - 1 else i - 1
  {
    JsRem(i - 1 + n, n)
  }

  /** Previous undoes next, and next undoes previous. */
  lemma NextPrevInverse(i: int, n: int)
    requires n > 0 && 0 <= i < n
    ensures PrevImage(NextImage(i, n), n) == i
    ensures NextImage(PrevImage(i, n), n) == i
  {
  }

  /** `k` presses of the next button. */
  function NextTimes(i: int, n: int, k: nat): (r: int)
    requires n > 0 && 0 <= i < n
    ensures 0 <= r < n
  {
    if k == 0 then i else NextImage(NextTimes(i, n, k - 1), n)
  }

  /** Up to `n` presses of next from `i` land `k` places further on,
      wrapping past the last image. */
  lemma {:induction false} NextTimesIsRotation(i: int, n: int, k: nat)
    requires n > 0 && 0 <= i < n && k <= n
    ensures NextTimes(i, n, k) == if i + k < n then i + k else i + k - n
  {
    if k > 0 {
      NextTimesIsRotation(i, n, k - 1);
    }
  }

  /** Pressing next once per image comes back to the image one started on. */
  lemma FullCycle(i: int, n: int)
    requires n > 0 && 0 <= i < n
    ensures NextTimes(i, n, n) == i
  {
    NextTimesIsRotation(i, n, n);
  }

  /** The gallery's state: `selectedImage`, over `count` images. */
  class Gallery {
    var selectedImage: int
    const count: nat

    ghost predicate Valid()
      reads this
    {
      count == 0 || 0 <= selectedImage < count
    }

    constructor (n: nat)
      ensures selectedImage == 0 && count == n && Valid()
    {
      selectedImage := 0;
      count := n;
    }

    /** The arrows are rendered only when there is more than one image. */
    method Next()
      requires Valid() && count > 1
      modifies this
      ensures Valid() && selectedImage == NextImage(old(selectedImage), count)
    {
      selectedImage := NextImage(selectedImage, count);
    }

    method Prev()
      requires Valid() && count > 1
      modifies this
      ensures Valid() && selectedImage == PrevImage(old(selectedImage), count)
    {
      selectedImage := PrevImage(selectedImage, count);
    }

    /** A thumbnail click selects that image. */
    method Select(index: int)
      requires Valid() && 0 <= index < count
      modifies this
      ensures Valid() && selectedImage == index
    {
      selectedImage := index;
    }
  }
}
