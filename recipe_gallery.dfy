/** The recipe picture carousel: none, one, or several images with arrows and dots. */
module RecipeGallery {

  import Cyclic

  /** The three renderings: the placeholder, a single viewer without controls, or the carousel. */
  datatype View = Placeholder | SingleImage | Carousel(shown: nat)

  class Gallery {
    const count: nat
    var currentIndex: nat

    ghost predicate Valid()
      reads this
    {
      count > 0 ==> currentIndex < count
    }

    constructor(count: nat)
      ensures this.count == count && currentIndex == 0
      ensures Valid()
    {
      this.count := count;
      currentIndex := 0;
    }

    /** The render: 0 images, exactly 1 (always the first, whatever the index), or 2 and more. */
    function Render(): (v: View)
      reads this
      requires Valid()
      ensures v == Placeholder <==> count == 0
      ensures v == SingleImage <==> count == 1
      ensures v.Carousel? <==> count >= 2
      ensures v.Carousel? ==> v.shown == currentIndex < count
    {
      if count == 0 then Placeholder else if count == 1 then SingleImage else Carousel(currentIndex)
    }

    /** `nextImage`, wired to the right arrow of the carousel. */
    method NextImage()
      requires Valid() && count >= 2
      modifies this
      ensures currentIndex == Cyclic.Next(old(currentIndex), count)
      ensures Valid()
    {
      currentIndex := (currentIndex + 1) % count;
    }

    /** `prevImage`, wired to the left arrow of the carousel. */
    method PrevImage()
      requires Valid() && count >= 2
      modifies this
      ensures currentIndex == Cyclic.Prev(old(currentIndex), count)
      ensures Valid()
    {
      currentIndex := (currentIndex - 1 + count) % count;
    }

    /** A dot selects its own image. */
    method SelectImage(index: nat)
      requires Valid() && count >= 2 && index < count
      modifies this
      ensures currentIndex == index
      ensures Valid()
    {
      currentIndex := index;
    }
  }
}
