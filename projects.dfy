/** The project carousel of the portfolio (portfolio/src/components/Projects.js):
    an image index advanced every few seconds, a card index advanced less
    often, and navigation dots that jump to a card. */
module Projects {

  /** The number of images of each project, in the order the projects are
      listed: three projects with three images each. */
  const PortfolioImageCounts: seq<nat> := [3, 3, 3]

  /** `(prev + 1) % len`: the next index, wrapping to 0 after the last. */
  function Step(prev: nat, len: nat): (r: nat)
    requires len > 0
    ensures r < len
    ensures prev + 1 < len ==> r == prev + 1
    ensures prev + 1 == len ==> r == 0
  {
    (prev + 1) % len
  }

  /** The index after `n` steps from `start`. */
  function Ticks(start: nat, len: nat, n: nat): (r: nat)
    requires len > 0
    decreases n
  {
    if n == 0 then start else Step(Ticks(start, len, n - 1), len)
  }

  /** A positive multiple of `len` is at least `len`. */
  lemma {:induction false} MulGrows(d: int, len: int)
    requires d >= 1 && len > 0
    ensures d * len >= len
    decreases d
  {
    if d > 1 {
      MulGrows(d - 1, len);
      assert d * len == (d - 1) * len + len;
    }
  }

  /** `a % len` is the remainder of any division of `a` by `len`. */
  lemma ModUnique(a: int, len: int, q: int, r: int)
    requires len > 0 && a == q * len + r && 0 <= r < len
    ensures a % len == r
  {
    var q0 := a / len;
    if q0 > q {
      MulGrows(q0 - q, len);
      assert false;
    } else if q0 < q {
      MulGrows(q - q0, len);
      assert false;
    }
  }

  /** One more step from `k % len` lands on `(k + 1) % len`. */
  lemma StepMod(k: nat, len: nat)
    requires len > 0
    ensures Step(k % len, len) == (k + 1) % len
  {
    var q := k / len;
    var r := k % len;
    if r + 1 < len {
      ModUnique(k + 1, len, q, r + 1);
      ModUnique(r + 1, len, 0, r + 1);
    } else {
      assert (q + 1) * len == q * len + len;
      ModUnique(k + 1, len, q + 1, 0);
      ModUnique(r + 1, len, 1, 0);
    }
  }

  /** After `n` image ticks from 0 the image index is `n mod len`. */
  lemma {:induction false} TicksFromZero(len: nat, n: nat)
    requires len > 0
    ensures Ticks(0, len, n) == n % len
    decreases n
  {
    if n > 0 {
      TicksFromZero(len, n - 1);
      StepMod(n - 1, len);
    }
  }

  /** The number of set flags. */
  function CountTrue(flags: seq<bool>): nat
    decreases |flags|
  {
    if flags == [] then 0
    else (if flags[|flags| - 1] then 1 else 0) + CountTrue(flags[..|flags| - 1])
  }

  /** `index === current` for each of `n` positions. */
  function Marks(n: nat, current: nat): (flags: seq<bool>)
    ensures |flags| == n
    ensures forall i :: 0 <= i < n ==> (flags[i] <==> i == current)
  {
    seq(n, i => i == current)
  }

  /** Exactly one of `n` positions is marked when the current index is in
      range, and none when it is not. */
  lemma {:induction false} ExactlyOneMarked(n: nat, current: nat)
    ensures CountTrue(Marks(n, current)) == (if current < n then 1 else 0)
    decreases n
  {
    if n > 0 {
      assert Marks(n, current)[..n - 1] == Marks(n - 1, current);
      ExactlyOneMarked(n - 1, current);
    }
  }

  class Carousel {
    const imageCounts: seq<nat>
    var currentProject: nat
    var currentImage: nat

    /** Both indices point at something that exists. */
    ghost predicate Valid()
      reads this
    {
      && 0 < |imageCounts|
      && (forall p :: 0 <= p < |imageCounts| ==> imageCounts[p] > 0)
      && currentProject < |imageCounts|
      && currentImage < imageCounts[currentProject]
    }

    constructor (counts: seq<nat>)
      requires 0 < |counts| && forall p :: 0 <= p < |counts| ==> counts[p] > 0
      ensures Valid() && imageCounts == counts
      ensures currentProject == 0 && currentImage == 0
    {
      imageCounts := counts;
      currentProject := 0;
      currentImage := 0;
    }

    /** Which card is active (`index === currentProject`). */
    function ActiveCards(): (flags: seq<bool>)
      reads this
      ensures |flags| == |imageCounts|
      ensures forall i :: 0 <= i < |flags| ==> (flags[i] <==> i == currentProject)
    {
      Marks(|imageCounts|, currentProject)
    }

    /** Which image of the current project has opacity 1. */
    function VisibleImages(): (flags: seq<bool>)
      reads this
      requires currentProject < |imageCounts|
      ensures |flags| == imageCounts[currentProject]
      ensures forall i :: 0 <= i < |flags| ==> (flags[i] <==> i == currentImage)
    {
      Marks(imageCounts[currentProject], currentImage)
    }

    /** In a valid state exactly one card is active and exactly one image
        is shown. */
    lemma OneActiveCardOneImage()
      requires Valid()
      ensures CountTrue(ActiveCards()) == 1
      ensures CountTrue(VisibleImages()) == 1
      ensures ActiveCards()[currentProject] && VisibleImages()[currentImage]
    {
      ExactlyOneMarked(|imageCounts|, currentProject);
      ExactlyOneMarked(imageCounts[currentProject], currentImage);
    }

    /** The image interval's callback. */
    method ImageTick()
      requires Valid()
      modifies this
      ensures Valid()
      ensures currentProject == old(currentProject)
      ensures currentImage == Step(old(currentImage), imageCounts[currentProject])
    {
      currentImage := (currentImage + 1) % imageCounts[currentProject];
    }

    /** The card interval's callback: the next project, first image. */
    method CardTick()
      requires Valid()
      modifies this
      ensures Valid()
      ensures currentProject == Step(old(currentProject), |imageCounts|)
      ensures currentImage == 0
    {
      currentProject := (currentProject + 1) % |imageCounts|;
      currentImage := 0;
    }

    /** `handleDotClick(index)`; the dots are drawn one per project. */
    method DotClick(index: nat)
      requires Valid() && index < |imageCounts|
      modifies this
      ensures Valid()
      ensures currentProject == index && currentImage == 0
    {
      currentProject := index;
      currentImage := 0;
    }
  }

  /** The portfolio's own project list meets the carousel's requirement. */
  lemma PortfolioCountsUsable()
    ensures 0 < |PortfolioImageCounts|
    ensures forall p :: 0 <= p < |PortfolioImageCounts| ==> PortfolioImageCounts[p] > 0
  {
  }
}
