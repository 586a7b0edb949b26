/** The detector's input: the picture padded to a square in the top left corner, resampled bilinearly to
    320 by 320, BGR planes, values in [0, 1]. Arithmetic is over the reals. */
module ModelInput {

  const SIDE := 320
  const PLANE := SIDE * SIDE

  /** Decoded pixels; `at(x, y, c)` with c = 0 red, 1 green, 2 blue. */
  datatype Image = Image(width: nat, height: nat, at: (nat, nat, nat) -> nat)

  /** What the decoder lets through. */
  ghost predicate Valid(image: Image) {
    image.width > 0 && image.height > 0 && forall x, y, c :: image.at(x, y, c) <= 255
  }

  function SquareSide(image: Image): nat { if image.width >= image.height then image.width else image.height }

  /** A pixel of the padded square, as a plane of the output sees it. */
  function Pixel(image: Image, x: nat, y: nat, plane: nat): nat
    requires plane < 3
  {
    if x < image.width && y < image.height then image.at(x, y, 2 - plane) else 0
  }

  // ---------------------------------------------------------------------------
  // Sampling positions
  // ---------------------------------------------------------------------------

  function Clamp(v: real, lo: real, hi: real): real { if v < lo then lo else if v > hi then hi else v }

  /** Where sample `i` falls on an axis of `side` pixels: the centres are aligned. */
  function Position(side: nat, i: nat): (s: real)
    requires side > 0
    ensures 0.0 <= s <= (side - 1) as real
  {
    Clamp((i as real + 0.5) * (side as real / SIDE as real) - 0.5, 0.0, (side - 1) as real)
  }

  function Low(side: nat, i: nat): (p: nat)
    requires side > 0
    ensures p < side
  {
    Position(side, i).Floor
  }

  function High(side: nat, i: nat): (p: nat)
    requires side > 0
    ensures p < side
  {
    if Low(side, i) + 1 <= side - 1 then Low(side, i) + 1 else side - 1
  }

  function Weight(side: nat, i: nat): (f: real)
    requires side > 0
    ensures 0.0 <= f < 1.0
  {
    Position(side, i) - Low(side, i) as real
  }

  // ---------------------------------------------------------------------------
  // One output value
  // ---------------------------------------------------------------------------

  function Mix(a: real, b: real, f: real): real { a * (1.0 - f) + b * f }

  /** Rounds half away from zero; the argument is never negative here. */
  function Round(v: real): int { (v + 0.5).Floor }

  function Blend(image: Image, plane: nat, x: nat, y: nat): real
    requires plane < 3 && SquareSide(image) > 0
  {
    var side := SquareSide(image);
    var x0, x1, y0, y1 := Low(side, x), High(side, x), Low(side, y), High(side, y);
    Mix(Mix(Pixel(image, x0, y0, plane) as real, Pixel(image, x1, y0, plane) as real, Weight(side, x)),
        Mix(Pixel(image, x0, y1, plane) as real, Pixel(image, x1, y1, plane) as real, Weight(side, x)),
        Weight(side, y))
  }

  function Value(image: Image, plane: nat, x: nat, y: nat): real
    requires plane < 3 && SquareSide(image) > 0
  {
    Round(Blend(image, plane, x, y)) as real / 255.0
  }

  lemma NonNegative(a: real, f: real)
    requires 0.0 <= a && 0.0 <= f
    ensures 0.0 <= a * f
  {
  }

  lemma MixStaysBetween(a: real, b: real, f: real)
    requires 0.0 <= a <= 255.0 && 0.0 <= b <= 255.0 && 0.0 <= f < 1.0
    ensures 0.0 <= Mix(a, b, f) <= 255.0
  {
    NonNegative(a, 1.0 - f);
    NonNegative(b, f);
    NonNegative(255.0 - a, 1.0 - f);
    NonNegative(255.0 - b, f);
    calc {
      255.0 - Mix(a, b, f);
      (255.0 - a) * (1.0 - f) + (255.0 - b) * f;
    }
  }

  /** Every value lies in [0, 1], in steps of 1/255. */
  lemma ValuesAreNormalised(image: Image, plane: nat, x: nat, y: nat)
    requires Valid(image) && plane < 3
    ensures 0.0 <= Value(image, plane, x, y) <= 1.0
    ensures 0 <= Round(Blend(image, plane, x, y)) <= 255
  {
    var side := SquareSide(image);
    var x0, x1, y0, y1 := Low(side, x), High(side, x), Low(side, y), High(side, y);
    var fx, fy := Weight(side, x), Weight(side, y);
    var a, b := Pixel(image, x0, y0, plane) as real, Pixel(image, x1, y0, plane) as real;
    var c, d := Pixel(image, x0, y1, plane) as real, Pixel(image, x1, y1, plane) as real;
    MixStaysBetween(a, b, fx);
    MixStaysBetween(c, d, fx);
    MixStaysBetween(Mix(a, b, fx), Mix(c, d, fx), fy);
  }

  /** On an axis of 320 pixels every sample falls on its own pixel. */
  lemma UnitScale(i: nat)
    requires i < SIDE
    ensures Low(SIDE, i) == i && Weight(SIDE, i) == 0.0
  {
  }

  /** So for a picture whose longer side is 320, resampling changes nothing: it is a copy with padding. */
  lemma CopyIsExact(image: Image, plane: nat, x: nat, y: nat)
    requires Valid(image) && plane < 3 && x < SIDE && y < SIDE && SquareSide(image) == SIDE
    ensures Value(image, plane, x, y) == Pixel(image, x, y, plane) as real / 255.0
  {
    UnitScale(x);
    UnitScale(y);
    BlendOnThePixel(image, plane, x, y);
    assert Round(Pixel(image, x, y, plane) as real) == Pixel(image, x, y, plane);
  }

  lemma BlendOnThePixel(image: Image, plane: nat, x: nat, y: nat)
    requires plane < 3 && SquareSide(image) > 0
    requires Low(SquareSide(image), x) == x && Weight(SquareSide(image), x) == 0.0
    requires Low(SquareSide(image), y) == y && Weight(SquareSide(image), y) == 0.0
    ensures Blend(image, plane, x, y) == Pixel(image, x, y, plane) as real
  {
  }

  // ---------------------------------------------------------------------------
  // Filling the tensor
  // ---------------------------------------------------------------------------

  function Slot(plane: nat, x: nat, y: nat): (k: nat)
    requires plane < 3 && x < SIDE && y < SIDE
    ensures k < 3 * PLANE
  {
    plane * PLANE + y * SIDE + x
  }

  lemma SlotsAreDistinct(p: nat, x: nat, y: nat, q: nat, u: nat, v: nat)
    requires p < 3 && x < SIDE && y < SIDE && q < 3 && u < SIDE && v < SIDE && Slot(p, x, y) == Slot(q, u, v)
    ensures p == q && x == u && y == v
  {
  }

  lemma SlotsCoverTheTensor(k: nat)
    requires k < 3 * PLANE
    ensures k / PLANE < 3 && k % SIDE < SIDE && k % PLANE / SIDE < SIDE
    ensures Slot(k / PLANE, k % SIDE, k % PLANE / SIDE) == k
  {
  }

  ghost predicate PixelDone(image: Image, data: seq<real>, x: nat, y: nat)
    requires |data| == 3 * PLANE && x < SIDE && y < SIDE && SquareSide(image) > 0
  {
    forall c :: 0 <= c < 3 ==> data[Slot(c, x, y)] == Value(image, c, x, y)
  }

  /** Rows above `y` are done, and in row `y` the pixels before `x`. */
  ghost predicate DoneUpTo(image: Image, data: seq<real>, x: nat, y: nat)
    requires |data| == 3 * PLANE && SquareSide(image) > 0
  {
    forall u, v :: 0 <= u < SIDE && 0 <= v < SIDE && (v < y || (v == y && u < x)) ==> PixelDone(image, data, u, v)
  }

  lemma DoneStays(image: Image, before: seq<real>, after: seq<real>, x: nat, y: nat)
    requires |before| == |after| == 3 * PLANE && SquareSide(image) > 0 && x < SIDE && y < SIDE
    requires DoneUpTo(image, before, x, y) && PixelDone(image, after, x, y)
    requires forall k :: 0 <= k < 3 * PLANE && k !in {Slot(0, x, y), Slot(1, x, y), Slot(2, x, y)} ==> after[k] == before[k]
    ensures DoneUpTo(image, after, x + 1, y)
  {
    forall u, v | 0 <= u < SIDE && 0 <= v < SIDE && (v < y || (v == y && u < x + 1))
      ensures PixelDone(image, after, u, v)
    {
      if (u, v) != (x, y) {
        assert PixelDone(image, before, u, v);
      }
    }
  }

  method SetPixel(image: Image, data: array<real>, x: nat, y: nat, y0: nat, y1: nat, fy: real)
    requires SquareSide(image) > 0 && data.Length == 3 * PLANE && x < SIDE && y < SIDE
    requires y0 == Low(SquareSide(image), y) && y1 == High(SquareSide(image), y) && fy == Weight(SquareSide(image), y)
    modifies data
    ensures PixelDone(image, data[..], x, y)
    ensures forall k :: 0 <= k < 3 * PLANE && k !in {Slot(0, x, y), Slot(1, x, y), Slot(2, x, y)} ==> data[k] == old(data[k])
  {
    var side := SquareSide(image);
    var x0, x1, fx := Low(side, x), High(side, x), Weight(side, x);
    for c := 0 to 3
      invariant forall k :: 0 <= k < c ==> data[Slot(k, x, y)] == Value(image, k, x, y)
      invariant forall k :: 0 <= k < 3 * PLANE && k !in {Slot(0, x, y), Slot(1, x, y), Slot(2, x, y)} ==> data[k] == old(data[k])
    {
      var upper := Mix(Pixel(image, x0, y0, c) as real, Pixel(image, x1, y0, c) as real, fx);
      var lower := Mix(Pixel(image, x0, y1, c) as real, Pixel(image, x1, y1, c) as real, fx);
      data[Slot(c, x, y)] := Round(Mix(upper, lower, fy)) as real / 255.0;
    }
  }

  method Resample(image: Image, data: array<real>)
    requires SquareSide(image) > 0 && data.Length == 3 * PLANE
    modifies data
    ensures DoneUpTo(image, data[..], 0, SIDE)
  {
    var side := SquareSide(image);
    for y := 0 to SIDE
      invariant DoneUpTo(image, data[..], 0, y)
    {
      var y0, y1, fy := Low(side, y), High(side, y), Weight(side, y);
      for x := 0 to SIDE
        invariant DoneUpTo(image, data[..], x, y)
      {
        ghost var before := data[..];
        SetPixel(image, data, x, y, y0, y1, fy);
        DoneStays(image, before, data[..], x, y);
      }
      assert DoneUpTo(image, data[..], 0, y + 1);
    }
  }

  method CopyPixels(image: Image, data: array<real>)
    requires Valid(image) && SquareSide(image) == SIDE && data.Length == 3 * PLANE
    requires forall k :: 0 <= k < data.Length ==> data[k] == 0.0
    modifies data
    ensures DoneUpTo(image, data[..], 0, SIDE)
  {
    for y := 0 to image.height
      invariant forall c, u, v :: 0 <= c < 3 && 0 <= u < SIDE && 0 <= v < SIDE ==>
        data[Slot(c, u, v)] == if v < y then Pixel(image, u, v, c) as real / 255.0 else 0.0
    {
      for x := 0 to image.width
        invariant forall c, u, v :: 0 <= c < 3 && 0 <= u < SIDE && 0 <= v < SIDE ==>
          data[Slot(c, u, v)] == if v < y || (v == y && u < x) then Pixel(image, u, v, c) as real / 255.0 else 0.0
      {
        for c := 0 to 3
          invariant forall p, u, v :: 0 <= p < 3 && 0 <= u < SIDE && 0 <= v < SIDE ==>
            data[Slot(p, u, v)] == if v < y || (v == y && (u < x || (u == x && p < c)))
                                   then Pixel(image, u, v, p) as real / 255.0 else 0.0
        {
          data[Slot(c, x, y)] := image.at(x, y, 2 - c) as real / 255.0;
        }
      }
    }
    forall u, v | 0 <= u < SIDE && 0 <= v < SIDE
      ensures PixelDone(image, data[..], u, v)
    {
      forall c | 0 <= c < 3
        ensures data[Slot(c, u, v)] == Value(image, c, u, v)
      {
        CopyIsExact(image, c, u, v);
      }
    }
  }

  /** Whichever path is taken, every slot holds the resampled value. */
  method Input(image: Image) returns (data: array<real>)
    requires Valid(image)
    ensures fresh(data) && data.Length == 3 * PLANE
    ensures forall c, x, y :: 0 <= c < 3 && 0 <= x < SIDE && 0 <= y < SIDE ==>
              data[Slot(c, x, y)] == Value(image, c, x, y)
  {
    data := new real[3 * PLANE](_ => 0.0);
    if SquareSide(image) == SIDE {
      CopyPixels(image, data);
    } else {
      Resample(image, data);
    }
    forall c, x, y | 0 <= c < 3 && 0 <= x < SIDE && 0 <= y < SIDE
      ensures data[Slot(c, x, y)] == Value(image, c, x, y)
    {
      assert PixelDone(image, data[..], x, y);
    }
  }
}
