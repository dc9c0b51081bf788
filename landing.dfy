/** The landing page's two interval callbacks: the image slider, which
    steps through four images and wraps around, and the typing effect,
    which reveals the headline one character per tick and then stops. */
module Landing {
  const Images: seq<string> := ["/assets/b1.jpg", "/assets/b2.jpg", "/assets/b3.jpg", "/assets/b4.jpg"]
  const FullText: string := "Transform your raw footage into high-quality stock clips effortlessly. Upload, organize, and access your videos anytime, anywhere."

  /** The slider callback's update `(prevIndex + 1) % images.length`. */
  function NextIndex(i: int): (r: int)
    ensures 0 <= r < |Images|
    ensures 0 <= i < |Images| - 1 ==> r == i + 1
    ensures i == |Images| - 1 ==> r == 0
  {
    (i + 1) % |Images|
  }

  /** The index after `k` slider ticks from `start`. */
  function SlidesAfter(start: int, k: nat): int {
    if k == 0 then start else NextIndex(SlidesAfter(start, k - 1))
  }

  /** `k` ticks move the slider `k` places, modulo the number of images. */
  lemma {:induction false} SlidesAfterMod(start: int, k: nat)
    requires 0 <= start < |Images|
    ensures SlidesAfter(start, k) == (start + k) % |Images|
  {
    if k > 0 {
      SlidesAfterMod(start, k - 1);
      var p := SlidesAfter(start, k - 1);
      assert p == (start + k - 1) % 4;
      assert (p + 1) % 4 == (start + k) % 4;
    }
  }

  /** After one tick per image the slider is back where it started. */
  lemma SliderCycles(start: int)
    requires 0 <= start < |Images|
    ensures SlidesAfter(start, |Images|) == start
  {
    SlidesAfterMod(start, |Images|);
  }

  /** The typing effect's state: the counter `i`, the text shown, and
      whether the interval is still running. */
  datatype Typing = Typing(i: nat, shown: string, running: bool)

  /** The state right after mounting: nothing shown yet. */
  const TypingStart := Typing(0, "", true)

  /** One tick: show one more character; stop at the end of the text. */
  function TypeTick(t: Typing): (r: Typing)
    requires t.running && t.i < |FullText|
    ensures r.i == t.i + 1 && r.shown == FullText[..t.i + 1]
    ensures r.running <==> r.i < |FullText|
  {
    var i := t.i + 1;
    Typing(i, FullText[..t.i + 1], i != |FullText|)
  }

  /** The state after `k` ticks, for as long as the interval runs. */
  function TypingAfter(k: nat): (t: Typing)
    requires k <= |FullText|
    ensures t == Typing(k, FullText[..k], k < |FullText|)
  {
    if k == 0 then TypingStart
    else TypeTick(TypingAfter(k - 1))
  }

  /** The text shown is always a prefix of the headline; the interval stops
      exactly when the whole headline is shown, and never later. */
  lemma TypingStopsAtEnd()
    ensures TypingAfter(|FullText|) == Typing(|FullText|, FullText, false)
    ensures forall k :: 0 <= k < |FullText| ==> TypingAfter(k).running
  {
    assert FullText[..|FullText|] == FullText;
  }

  class LandingPage {
    var currentIndex: int
    var typing: Typing

    predicate Valid()
      reads this
    {
      0 <= currentIndex < |Images| && typing.i <= |FullText| && typing.shown == FullText[..typing.i]
      && (typing.running <==> typing.i < |FullText|)
    }

    /** Mounting: the first image, an empty headline, both intervals running. */
    constructor()
      ensures Valid() && currentIndex == 0 && typing == TypingStart
    {
      currentIndex := 0;
      typing := TypingStart;
    }

    /** The slider's interval callback. */
    method OnSlide()
      requires Valid()
      modifies this
      ensures Valid() && currentIndex == NextIndex(old(currentIndex)) && typing == old(typing)
    {
      currentIndex := (currentIndex + 1) % |Images|;
    }

    /** The typing interval's callback; it only fires while the interval runs. */
    method OnType()
      requires Valid() && typing.running
      modifies this
      ensures Valid() && typing == TypeTick(old(typing)) && currentIndex == old(currentIndex)
    {
      var i := typing.i;
      var shown := FullText[..i + 1];
      i := i + 1;
      typing := Typing(i, shown, i != |FullText|);
    }
  }
}
