/** The image carousel: a `currentIndex` moved by arrows, dots and a timer. */
module ImageCarousel {

  import opened CyclicIndex

  class Carousel {

    const images: seq<string>
    const autoPlay: bool
    var currentIndex: int

    /** The index names an image, or is the initial 0 of an empty carousel. */
    ghost predicate Valid()
      reads this
    {
      0 <= currentIndex && (currentIndex < |images| || currentIndex == 0)
    }

    /** `useState(0)`; `autoPlay` defaults to true at the call site. */
    constructor (images: seq<string>, autoPlay: bool)
      ensures Valid() && this.images == images && this.autoPlay == autoPlay && currentIndex == 0
    {
      this.images := images;
      this.autoPlay := autoPlay;
      currentIndex := 0;
    }

    /** The effect starts the interval only with auto-play on and at least one image. */
    predicate AutoAdvances()
      reads this
    {
      autoPlay && |images| != 0
    }

    /** The right arrow, rendered only when there are images. */
    method Next()
      requires Valid() && |images| > 0
      modifies this
      ensures Valid() && 0 <= currentIndex < |images|
      ensures currentIndex == NextIndex(old(currentIndex), |images|)
    {
      currentIndex := NextIndex(currentIndex, |images|);
    }

    /** The left arrow, rendered only when there are images. */
    method Prev()
      requires Valid() && |images| > 0
      modifies this
      ensures Valid() && 0 <= currentIndex < |images|
      ensures currentIndex == PrevIndex(old(currentIndex), |images|)
    {
      currentIndex := PrevIndex(currentIndex, |images|);
    }

    /** The dot for image `index`; dots exist only for the images' positions. */
    method GoTo(index: int)
      requires Valid() && 0 <= index < |images|
      modifies this
      ensures Valid() && currentIndex == index
    {
      currentIndex := index;
    }

    /** One tick of the interval, which exists only when `AutoAdvances()`. */
    method Tick()
      requires Valid() && AutoAdvances()
      modifies this
      ensures Valid() && 0 <= currentIndex < |images|
      ensures currentIndex == NextIndex(old(currentIndex), |images|)
    {
      currentIndex := NextIndex(currentIndex, |images|);
    }

    /** Which images are drawn opaque: `index === currentIndex`. */
    function Opaque(): (r: seq<bool>)
      reads this
      ensures |r| == |images|
      ensures forall k :: 0 <= k < |images| ==> (r[k] <==> k == currentIndex)
    {
      var current := currentIndex;
      seq(|images|, k requires 0 <= k < |images| => k == current)
    }

    /** Exactly one image of a non-empty carousel is visible: the current one. */
    lemma ExactlyCurrentVisible()
      requires Valid() && |images| > 0
      ensures (set k | 0 <= k < |images| && Opaque()[k]) == {currentIndex}
    {
      var shown := set k | 0 <= k < |images| && Opaque()[k];
      assert currentIndex in shown;
    }
  }

}
