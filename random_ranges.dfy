/**
 * The two affine shapes in which the star background turns a uniform draw
 * `r` from Math.random() into a coordinate, a speed or a duration:
 * `(r - 0.5) * width` (centred) and `r * span + low` (offset).
 * The draw itself is a parameter; its generator is not part of the model.
 */
module RandomRanges {

  /** A draw of Math.random(): a real in [0, 1). */
  predicate IsDraw(r: real) {
    0.0 <= r < 1.0
  }

  /** Every element of a block of draws lies in [0, 1). */
  predicate AreDraws(rs: seq<real>) {
    forall i :: 0 <= i < |rs| ==> IsDraw(rs[i])
  }

  /** `(Math.random() - 0.5) * width`. */
  function Centered(r: real, width: real): real {
    (r - 0.5) * width
  }

  /** `Math.random() * span + low`. */
  function Offset(r: real, span: real, low: real): real {
    r * span + low
  }

  /** For a positive width, a draw lands in [-width/2, width/2), and only a draw does. */
  lemma CenteredRange(r: real, width: real)
    requires width > 0.0
    ensures IsDraw(r) <==> -width / 2.0 <= Centered(r, width) < width / 2.0
  {
    var c := Centered(r, width);
    assert c == r * width - width / 2.0;
    if 0.0 <= r {
      assert r * width >= 0.0;
    } else {
      assert r * width < 0.0;
    }
    if r < 1.0 {
      assert r * width < width by { assert (1.0 - r) * width > 0.0; }
    } else {
      assert r * width >= width by { assert (r - 1.0) * width >= 0.0; }
    }
  }

  /** For a positive span, a draw lands in [low, low + span), and only a draw does. */
  lemma OffsetRange(r: real, span: real, low: real)
    requires span > 0.0
    ensures IsDraw(r) <==> low <= Offset(r, span, low) < low + span
  {
    if 0.0 <= r {
      assert r * span >= 0.0;
    } else {
      assert r * span < 0.0;
    }
    if r < 1.0 {
      assert r * span < span by { assert (1.0 - r) * span > 0.0; }
    } else {
      assert r * span >= span by { assert (r - 1.0) * span >= 0.0; }
    }
  }

  /** Every value of the centred range is reached by some draw. */
  lemma CenteredOnto(v: real, width: real)
    requires width > 0.0
    requires -width / 2.0 <= v < width / 2.0
    ensures IsDraw(v / width + 0.5) && Centered(v / width + 0.5, width) == v
  {
    CenteredRange(v / width + 0.5, width);
  }

  /** Every value of the offset range is reached by some draw. */
  lemma OffsetOnto(v: real, span: real, low: real)
    requires span > 0.0
    requires low <= v < low + span
    ensures IsDraw((v - low) / span) && Offset((v - low) / span, span, low) == v
  {
    OffsetRange((v - low) / span, span, low);
  }
}
