/**
 * The custom cursor: a ring and a dot that follow the pointer in place of
 * the page's own cursor. The ring has three looks, `default`, `link` and
 * `image`, chosen by the element the pointer last entered. On a touch
 * device the follower is switched off and the page's cursor restored.
 */
module CustomCursor {

  datatype Variant = Default | Link | Image

  /** The element a pointer event targets: its tag name and its ancestors' tag names, upper case. */
  datatype Element = Element(tagName: string, ancestorTags: seq<string>)

  const LinkTags: set<string> := {"A", "BUTTON"}
  const ImageTags: set<string> := {"IMG"}

  /** `el.closest(selector)` is non-null: the element itself or one of its ancestors matches. */
  predicate Closest(el: Element, tags: set<string>) {
    el.tagName in tags || exists i :: 0 <= i < |el.ancestorTags| && el.ancestorTags[i] in tags
  }

  /** The mouse-enter handler's choice of look, given the look before the event. */
  function EnterVariant(target: Element, current: Variant): (v: Variant)
    ensures v == Link <==> Closest(target, LinkTags) || (current == Link && !Closest(target, ImageTags))
    ensures Closest(target, LinkTags) ==> v == Link
    ensures !Closest(target, LinkTags) && Closest(target, ImageTags) ==> v == Image
    ensures !Closest(target, LinkTags) && !Closest(target, ImageTags) ==> v == current
  {
    if target.tagName == "A" || target.tagName == "BUTTON" || Closest(target, LinkTags) then Link
    else if target.tagName == "IMG" || Closest(target, ImageTags) then Image
    else current
  }

  /** A box on screen: its top-left corner and its size, in pixels. */
  datatype Box = Box(x: int, y: int, width: int, height: int)

  /** The ring's size for each look: 40, 60 and 50 pixels square. */
  function RingSize(v: Variant): int {
    match v
    case Default => 40
    case Link => 60
    case Image => 50
  }

  /** The ring's offset from the pointer for each look. */
  function RingOffset(v: Variant): int {
    match v
    case Default => -20
    case Link => -30
    case Image => -25
  }

  /** Where the ring is drawn for pointer position (mx, my). */
  function Ring(v: Variant, mx: int, my: int): Box {
    Box(mx + RingOffset(v), my + RingOffset(v), RingSize(v), RingSize(v))
  }

  /** The dot: 8 pixels square (the `w-2 h-2` classes) at offset -4. */
  const DotSize := 8
  const DotOffset := -4

  function Dot(mx: int, my: int): Box {
    Box(mx + DotOffset, my + DotOffset, DotSize, DotSize)
  }

  /** The centre of a box. */
  function Centre(b: Box): (int, int) {
    (b.x + b.width / 2, b.y + b.height / 2)
  }

  /** In every look the ring is a square centred on the pointer, and so is the dot. */
  lemma CentredOnPointer(v: Variant, mx: int, my: int)
    ensures Ring(v, mx, my).width == Ring(v, mx, my).height > 0
    ensures Centre(Ring(v, mx, my)) == (mx, my)
    ensures Centre(Dot(mx, my)) == (mx, my)
  {
  }

  /** The probe `'ontouchstart' in window || navigator.maxTouchPoints > 0`. */
  function IsTouch(hasOntouchstart: bool, maxTouchPoints: int): bool {
    hasOntouchstart || maxTouchPoints > 0
  }

  class CustomCursor {
    var x: int
    var y: int
    var variant: Variant
    var isTouchDevice: bool
    /** The mouse listeners are attached. */
    var listening: bool
    /** `document.body.style.cursor`. */
    var bodyCursor: string

    constructor ()
      ensures x == 0 && y == 0 && variant == Default
      ensures !isTouchDevice && !listening && bodyCursor == ""
    {
      x, y, variant := 0, 0, Default;
      isTouchDevice, listening, bodyCursor := false, false, "";
    }

    /**
     * One run of the effect. It records the touch probe, but decides from the
     * value of `isTouchDevice` the run was rendered with, so the first run
     * always attaches the listeners and hides the page cursor.
     */
    method RunEffect(touch: bool)
      modifies this
      ensures isTouchDevice == touch
      ensures listening == (old(listening) || !old(isTouchDevice))
      ensures bodyCursor == if old(isTouchDevice) then old(bodyCursor) else "none"
      ensures x == old(x) && y == old(y) && variant == old(variant)
    {
      var rendered := isTouchDevice;
      isTouchDevice := touch;
      if !rendered {
        listening := true;
        bodyCursor := "none";
      }
    }

    /** The cleanup of a run that attached listeners: detach them and restore the page cursor. */
    method Cleanup()
      modifies this
      ensures !listening
      ensures bodyCursor == if old(listening) then "auto" else old(bodyCursor)
      ensures x == old(x) && y == old(y) && variant == old(variant) && isTouchDevice == old(isTouchDevice)
    {
      if listening {
        listening := false;
        bodyCursor := "auto";
      }
    }

    /**
     * Mount: the first run of the effect, then, when the probe changed
     * `isTouchDevice`, the cleanup of that run and a second run.
     */
    method Mount(hasOntouchstart: bool, maxTouchPoints: int)
      requires !isTouchDevice && !listening
      modifies this
      ensures isTouchDevice == IsTouch(hasOntouchstart, maxTouchPoints)
      ensures listening == !isTouchDevice
      ensures bodyCursor == if isTouchDevice then "auto" else "none"
      ensures x == old(x) && y == old(y) && variant == old(variant)
    {
      var touch := IsTouch(hasOntouchstart, maxTouchPoints);
      RunEffect(touch);
      if isTouchDevice {
        Cleanup();
        RunEffect(touch);
      }
    }

    method MouseMove(clientX: int, clientY: int)
      modifies this
      ensures listening ==> x == clientX && y == clientY
      ensures !listening ==> x == old(x) && y == old(y)
      ensures variant == old(variant) && listening == old(listening)
      ensures isTouchDevice == old(isTouchDevice) && bodyCursor == old(bodyCursor)
    {
      if listening {
        x, y := clientX, clientY;
      }
    }

    method MouseEnter(target: Element)
      modifies this
      ensures variant == if listening then EnterVariant(target, old(variant)) else old(variant)
      ensures x == old(x) && y == old(y) && listening == old(listening)
      ensures isTouchDevice == old(isTouchDevice) && bodyCursor == old(bodyCursor)
    {
      if listening {
        variant := EnterVariant(target, variant);
      }
    }

    method MouseLeave()
      modifies this
      ensures variant == if listening then Default else old(variant)
      ensures x == old(x) && y == old(y) && listening == old(listening)
      ensures isTouchDevice == old(isTouchDevice) && bodyCursor == old(bodyCursor)
    {
      if listening {
        variant := Default;
      }
    }

    /** Unmounting runs the cleanup of the last run, if that run attached listeners. */
    method Unmount()
      modifies this
      ensures !listening
      ensures bodyCursor == if old(listening) then "auto" else old(bodyCursor)
      ensures x == old(x) && y == old(y) && variant == old(variant) && isTouchDevice == old(isTouchDevice)
    {
      Cleanup();
    }

    /** Nothing is drawn on a touch device. */
    predicate Rendered()
      reads this
    {
      !isTouchDevice
    }
  }
}
