/**
 * The hero field's response to the mouse: the pointer's client coordinates
 * are mapped to [-1, 1] on each axis (y flipped so that the top of the
 * window is +1) and the field's rotation is set directly from them.
 */
module PointerTilt {

  /** How far a pointer at the window edge tilts the field, in radians. */
  const TiltScale: real := 0.05

  /** The field's rotation about its x and y axes. */
  datatype Tilt = Tilt(x: real, y: real)

  /** The fraction of the window a coordinate lies at is in [0, 1] exactly inside the window. */
  lemma FractionRange(v: real, extent: real)
    requires extent > 0.0
    ensures 0.0 <= v / extent <= 1.0 <==> 0.0 <= v <= extent
    ensures v / extent == 0.0 <==> v == 0.0
    ensures v / extent == 1.0 <==> v == extent
  {
    var q := v / extent;
    assert q * extent == v;
    if q < 0.0 { assert q * extent < 0.0; }
    if q > 1.0 { assert (q - 1.0) * extent > 0.0; }
    if 0.0 <= q <= 1.0 {
      assert q * extent >= 0.0;
      assert (1.0 - q) * extent >= 0.0;
    }
  }

  /** `(clientX / innerWidth) * 2 - 1`: left edge -1, right edge +1. */
  function NormalizeX(clientX: real, width: real): (nx: real)
    requires width > 0.0
    ensures -1.0 <= nx <= 1.0 <==> 0.0 <= clientX <= width
    ensures nx == -1.0 <==> clientX == 0.0
    ensures nx == 1.0 <==> clientX == width
  {
    FractionRange(clientX, width);
    (clientX / width) * 2.0 - 1.0
  }

  /** `-(clientY / innerHeight) * 2 + 1`: top edge +1, bottom edge -1. */
  function NormalizeY(clientY: real, height: real): (ny: real)
    requires height > 0.0
    ensures -1.0 <= ny <= 1.0 <==> 0.0 <= clientY <= height
    ensures ny == 1.0 <==> clientY == 0.0
    ensures ny == -1.0 <==> clientY == height
  {
    FractionRange(clientY, height);
    -(clientY / height) * 2.0 + 1.0
  }

  /** The window coordinate a normalised x came from. */
  function DenormalizeX(nx: real, width: real): real {
    (nx + 1.0) / 2.0 * width
  }

  /** The window coordinate a normalised y came from. */
  function DenormalizeY(ny: real, height: real): real {
    (1.0 - ny) / 2.0 * height
  }

  /** Normalisation loses nothing: each axis maps back to the pointer coordinate. */
  lemma NormalizeRoundTrip(clientX: real, clientY: real, width: real, height: real)
    requires width > 0.0 && height > 0.0
    ensures DenormalizeX(NormalizeX(clientX, width), width) == clientX
    ensures DenormalizeY(NormalizeY(clientY, height), height) == clientY
  {
    assert (clientX / width) * width == clientX;
    assert (clientY / height) * height == clientY;
  }

  /** Moving the pointer right tilts more about y; moving it down tilts less about x. */
  lemma NormalizeMonotone(a: real, b: real, extent: real)
    requires extent > 0.0 && a < b
    ensures NormalizeX(a, extent) < NormalizeX(b, extent)
    ensures NormalizeY(a, extent) > NormalizeY(b, extent)
  {
    assert a / extent < b / extent by {
      assert (b / extent - a / extent) * extent == b - a;
    }
  }

  /** The rotation set by one mouse move: x from the normalised y, y from the normalised x. */
  function TiltFromPointer(clientX: real, clientY: real, width: real, height: real): (t: Tilt)
    requires width > 0.0 && height > 0.0
    ensures 0.0 <= clientX <= width && 0.0 <= clientY <= height ==>
              -TiltScale <= t.x <= TiltScale && -TiltScale <= t.y <= TiltScale
    ensures clientY == 0.0 ==> t.x == TiltScale
    ensures clientX == width ==> t.y == TiltScale
  {
    Tilt(NormalizeY(clientY, height) * TiltScale, NormalizeX(clientX, width) * TiltScale)
  }

  /** The hero field's points object, whose rotation the handler writes. */
  class StarPoints {
    var rotation: Tilt

    constructor ()
      ensures rotation == Tilt(0.0, 0.0)
    {
      rotation := Tilt(0.0, 0.0);
    }
  }

  /**
   * The mousemove handler: with the field mounted, its rotation is assigned
   * outright from this event alone (no easing, nothing kept from earlier
   * events); with no field mounted, nothing changes.
   */
  method HandleMouseMove(stars: StarPoints?, clientX: real, clientY: real, width: real, height: real)
    requires width > 0.0 && height > 0.0
    modifies stars
    ensures stars != null ==> stars.rotation == TiltFromPointer(clientX, clientY, width, height)
  {
    if stars != null {
      var x := (clientX / width) * 2.0 - 1.0;
      var y := -(clientY / height) * 2.0 + 1.0;
      stars.rotation := Tilt(y * 0.05, x * 0.05);
    }
  }
}
