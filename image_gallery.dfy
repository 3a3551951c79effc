/**
 * The image gallery: a main picture, arrows, thumbnails, a full-screen dialog with dots,
 * and keyboard navigation, all driven by `currentIndex` and `isOpen`.
 */
module ImageGallery {

  import Cyclic

  /** What the gallery draws for a given number of images. */
  datatype Rendering = NoImagePlaceholder | Gallery(shown: nat, withControls: bool)

  /** The gallery state. `count` is the number of images passed in. */
  class Gallery {
    const count: nat
    var currentIndex: nat
    var isOpen: bool

    ghost predicate Valid()
      reads this
    {
      count > 0 ==> currentIndex < count
    }

    constructor(count: nat)
      ensures this.count == count && currentIndex == 0 && !isOpen
      ensures Valid()
    {
      this.count := count;
      currentIndex := 0;
      isOpen := false;
    }

    /**
     * The render: no images gives the placeholder and never reads `images[currentIndex]`;
     * otherwise the current image, with arrows, thumbnails and dots only for two or more.
     */
    function Render(): (r: Rendering)
      reads this
      requires Valid()
      ensures r.NoImagePlaceholder? <==> count == 0
      ensures r.Gallery? ==> r.shown < count && r.shown == currentIndex
      ensures r.Gallery? ==> (r.withControls <==> count > 1)
    {
      if count == 0 then NoImagePlaceholder else Gallery(currentIndex, count > 1)
    }

    /** `nextImage`: one step forward, wrapping from the last image to the first. */
    method NextImage()
      requires Valid() && count > 0
      modifies this
      ensures currentIndex == Cyclic.Next(old(currentIndex), count) && isOpen == old(isOpen)
      ensures Valid()
    {
      currentIndex := (currentIndex + 1) % count;
    }

    /** `prevImage`: one step back, wrapping from the first image to the last. */
    method PrevImage()
      requires Valid() && count > 0
      modifies this
      ensures currentIndex == Cyclic.Prev(old(currentIndex), count) && isOpen == old(isOpen)
      ensures Valid()
    {
      currentIndex := (currentIndex - 1 + count) % count;
    }

    /** `handleKeyDown`: the arrows move, Escape closes the dialog, any other key does nothing. */
    method HandleKeyDown(key: string)
      requires Valid() && count > 0
      modifies this
      ensures key == "ArrowRight" ==> currentIndex == Cyclic.Next(old(currentIndex), count) && isOpen == old(isOpen)
      ensures key == "ArrowLeft" ==> currentIndex == Cyclic.Prev(old(currentIndex), count) && isOpen == old(isOpen)
      ensures key == "Escape" ==> currentIndex == old(currentIndex) && !isOpen
      ensures key !in {"ArrowRight", "ArrowLeft", "Escape"} ==>
                currentIndex == old(currentIndex) && isOpen == old(isOpen)
      ensures Valid()
    {
      if key == "ArrowRight" {
        NextImage();
      }
      if key == "ArrowLeft" {
        PrevImage();
      }
      if key == "Escape" {
        isOpen := false;
      }
    }

    /** A thumbnail or a dot (drawn only for two or more images) selects its own image. */
    method SelectImage(index: nat)
      requires Valid() && count > 1 && index < count
      modifies this
      ensures currentIndex == index && isOpen == old(isOpen)
      ensures Valid()
    {
      currentIndex := index;
    }

    /** A click on the main picture or on the enlarge button opens the dialog. */
    method Open()
      requires Valid()
      modifies this
      ensures isOpen && currentIndex == old(currentIndex)
      ensures Valid()
    {
      isOpen := true;
    }

    /** The dialog's close button, or its `onOpenChange(false)`. */
    method Close()
      requires Valid()
      modifies this
      ensures !isOpen && currentIndex == old(currentIndex)
      ensures Valid()
    {
      isOpen := false;
    }
  }
}
