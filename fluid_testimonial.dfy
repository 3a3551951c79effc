/** The testimonial carousel: four entries, a slide direction, arrows and dots. */
module FluidTestimonial {

  import Cyclic

  /** The carousel holds a fixed list of four testimonials. */
  const TestimonialCount: nat := 4

  class Carousel {
    var currentIndex: nat
    var direction: int

    ghost predicate Valid()
      reads this
    {
      currentIndex < TestimonialCount && -1 <= direction <= 1
    }

    constructor()
      ensures currentIndex == 0 && direction == 0
      ensures Valid()
    {
      currentIndex := 0;
      direction := 0;
    }

    /** `nextTestimonial`: slide forward and step to the next entry, wrapping around. */
    method NextTestimonial()
      requires Valid()
      modifies this
      ensures direction == 1 && currentIndex == Cyclic.Next(old(currentIndex), TestimonialCount)
      ensures Valid()
    {
      direction := 1;
      currentIndex := (currentIndex + 1) % TestimonialCount;
    }

    /** `prevTestimonial`: slide backward and step to the previous entry, wrapping around. */
    method PrevTestimonial()
      requires Valid()
      modifies this
      ensures direction == -1 && currentIndex == Cyclic.Prev(old(currentIndex), TestimonialCount)
      ensures Valid()
    {
      direction := -1;
      currentIndex := (currentIndex - 1 + TestimonialCount) % TestimonialCount;
    }

    /** A dot: forward when the target lies after the current entry, backward otherwise, even for the current one. */
    method SelectTestimonial(index: nat)
      requires Valid() && index < TestimonialCount
      modifies this
      ensures currentIndex == index
      ensures direction == 1 <==> index > old(currentIndex)
      ensures direction == -1 <==> index <= old(currentIndex)
      ensures Valid()
    {
      direction := if index > currentIndex then 1 else -1;
      currentIndex := index;
    }
  }

  /** `variants.enter`: the horizontal offset the new slide starts from. */
  function EnterOffset(direction: int): (x: int)
    ensures x == 1000 <==> direction > 0
    ensures x == 1000 || x == -1000
  {
    if direction > 0 then 1000 else -1000
  }

  /** `variants.exit`: the horizontal offset the old slide leaves towards. */
  function ExitOffset(direction: int): (x: int)
    ensures x == 1000 <==> direction < 0
    ensures x == 1000 || x == -1000
  {
    if direction < 0 then 1000 else -1000
  }

  /** After an arrow or a dot the slides move on opposite sides; only the initial direction 0 sends both left. */
  lemma OffsetsOpposite(direction: int)
    ensures direction != 0 <==> EnterOffset(direction) == -ExitOffset(direction)
  {
  }
}
