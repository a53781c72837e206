/**
 * The image slider of a project card: while the card is hovered, every
 * interval tick moves to the next image, wrapping around; while it is not,
 * there is no interval and the index stays where it is.
 */
module Projects {

  datatype ProjectImage = ProjectImage(src: string, alt: string)

  /** `(prev + 1) % images.length`. */
  function NextIndex(i: nat, count: nat): (j: nat)
    requires count > 0
    ensures j < count
    ensures i + 1 < count ==> j == i + 1
    ensures i + 1 == count ==> j == 0
  {
    (i + 1) % count
  }

  /** The index after `n` hovered ticks. */
  function AfterTicks(i: nat, n: nat, count: nat): nat
    requires count > 0
    decreases n
  {
    if n == 0 then i else AfterTicks(NextIndex(i, count), n - 1, count)
  }

  /** Hovered ticks keep the index in range and advance it by one modulo the image count. */
  lemma {:induction false} AfterTicksIsShift(i: nat, n: nat, count: nat)
    requires count > 0 && i < count
    ensures AfterTicks(i, n, count) == (i + n) % count
    ensures AfterTicks(i, n, count) < count
    decreases n
  {
    if n > 0 {
      var j := NextIndex(i, count);
      AfterTicksIsShift(j, n - 1, count);
      if i + 1 == count {
        ModShift(n - 1, count);
      }
    }
  }

  /** Adding the modulus does not change a remainder. */
  lemma ModShift(x: nat, count: nat)
    requires count > 0
    ensures (x + count) % count == x % count
  {
    var q, r := x / count, x % count;
    assert x + count == (q + 1) * count + r;
    ModUnique(x + count, count, q + 1, r);
  }

  /** The remainder is the one `r` in `[0, c)` with `n == q * c + r`. */
  lemma ModUnique(n: int, c: int, q: int, r: int)
    requires c > 0 && 0 <= r < c && n == q * c + r
    ensures n % c == r
  {
    var q', r' := n / c, n % c;
    assert (q - q') * c == r' - r;
    MultipleBelowModulus(q - q', c);
  }

  /** A multiple of `c` strictly between `-c` and `c` is 0. */
  lemma MultipleBelowModulus(d: int, c: int)
    requires c > 0 && -c < d * c < c
    ensures d == 0
  {
    MulSign(d, c);
  }

  /** A non-zero multiple of `c` is at least `c` away from 0. */
  lemma MulSign(d: int, c: int)
    requires c >= 0
    ensures d >= 1 ==> d * c >= c
    ensures d <= -1 ==> d * c <= 0 - c
  {
    if d >= 1 {
      MulNonNegative(d - 1, c);
      assert d * c == (d - 1) * c + c;
    } else if d <= -1 {
      MulNonNegative(-d - 1, c);
      assert d * c == -((-d - 1) * c + c);
    }
  }

  /** A product of two non-negative numbers is non-negative. */
  lemma {:induction false} MulNonNegative(a: nat, b: nat)
    ensures a * b >= 0
  {
    if a > 0 {
      MulNonNegative(a - 1, b);
      assert a * b == (a - 1) * b + b;
    }
  }

  /** After as many hovered ticks as there are images, the index is back where it started. */
  lemma FullCycle(i: nat, count: nat)
    requires count > 0 && i < count
    ensures AfterTicks(i, count, count) == i
  {
    AfterTicksIsShift(i, count, count);
    ModUnique(i + count, count, 1, i);
  }

  class ImageSlider {
    const images: seq<ProjectImage>
    var currentIndex: nat
    var isHovered: bool

    /** The index points at an image. */
    ghost predicate Valid()
      reads this
    {
      currentIndex < |images|
    }

    /** The slider starts at the first image. */
    constructor (images: seq<ProjectImage>, isHovered: bool)
      requires |images| > 0
      ensures Valid() && this.images == images && this.isHovered == isHovered && currentIndex == 0
    {
      this.images := images;
      this.isHovered := isHovered;
      currentIndex := 0;
    }

    /** The image on show. */
    function CurrentImage(): (img: ProjectImage)
      reads this
      requires Valid()
      ensures img in images
    {
      images[currentIndex]
    }

    /** The card's mouse enters or leaves: the interval starts or stops; the index is kept. */
    method SetHovered(hovered: bool)
      modifies this`isHovered
      ensures isHovered == hovered
    {
      isHovered := hovered;
    }

    /** One interval period: advances only while hovered. */
    method Tick()
      requires Valid()
      modifies this`currentIndex
      ensures Valid()
      ensures isHovered ==> currentIndex == AfterTicks(old(currentIndex), 1, |images|)
      ensures !isHovered ==> currentIndex == old(currentIndex)
    {
      if isHovered {
        currentIndex := (currentIndex + 1) % |images|;
      }
    }
  }
}
