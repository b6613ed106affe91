/** The slide navigator: a bounded index into a fixed list of slides. */
module SlideShow {

  datatype Slide = Slide(title: string, text: string)

  /** The `Slides` component: its `slides` prop and its `activeIndex` state. */
  class Slides {
    const slides: seq<Slide>
    var activeIndex: int

    /** The index never leaves `[0, |slides| - 1]`, and is 0 when there are no slides. */
    ghost predicate Valid()
      reads this
    {
      && 0 <= activeIndex
      && (|slides| == 0 ==> activeIndex == 0)
      && (|slides| > 0 ==> activeIndex < |slides|)
    }

    constructor (slides: seq<Slide>)
      ensures Valid()
      ensures this.slides == slides && activeIndex == 0
    {
      this.slides := slides;
      activeIndex := 0;
    }

    /** `slides[activeIndex]`: always one of the slides when there are any. */
    function CurrentSlide(): (s: Slide)
      reads this
      requires Valid() && |slides| > 0
      ensures s in slides
    {
      slides[activeIndex]
    }

    method HandleRestart()
      requires Valid()
      modifies this
      ensures Valid() && activeIndex == 0
    {
      activeIndex := 0;
    }

    method HandlePrev()
      requires Valid()
      modifies this
      ensures Valid()
      ensures activeIndex == if old(activeIndex) > 0 then old(activeIndex) - 1 else old(activeIndex)
    {
      if activeIndex > 0 {
        activeIndex := activeIndex - 1;
      }
    }

    method HandleNext()
      requires Valid()
      modifies this
      ensures Valid()
      ensures activeIndex == if old(activeIndex) < |slides| - 1 then old(activeIndex) + 1 else old(activeIndex)
    {
      if activeIndex < |slides| - 1 {
        activeIndex := activeIndex + 1;
      }
    }

    /** Next followed by Prev returns to any slide before the last. */
    method NextThenPrev()
      requires Valid() && activeIndex < |slides| - 1
      modifies this
      ensures Valid() && activeIndex == old(activeIndex)
    {
      HandleNext();
      HandlePrev();
    }
  }
}
