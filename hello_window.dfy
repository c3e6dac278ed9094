/** hw01/01_HelloWindow.js: a 500x500 canvas cleared to a background colour,
    then split into four quadrants each cleared to its own colour with the
    scissor test; on window resize the canvas becomes the largest square of
    side at most 500 that fits the window, and the quadrants are drawn again.

    WebGL is seen only through the state the program sets (viewport,
    scissor box, scissor test, clear colour) and the clears it issues: each
    clear is recorded with the region it paints (the scissor box when the
    scissor test is on, the whole canvas otherwise). Rectangles are over the
    reals because canvas.width / 2 is a JavaScript division. */
module HelloWindow {
  import opened Optional
  import opened Integers

  /** The size limit of both branches of the resize rule, and the initial size. */
  const MaxSize: nat := 500

  datatype Rect = Rect(x: real, y: real, width: real, height: real)

  datatype Rgba = Rgba(r: real, g: real, b: real, a: real)

  const Background: Rgba := Rgba(0.1, 0.2, 0.3, 1.0)
  const Red: Rgba := Rgba(1.0, 0.0, 0.0, 1.0)
  const Green: Rgba := Rgba(0.0, 1.0, 0.0, 1.0)
  const Blue: Rgba := Rgba(0.0, 0.0, 1.0, 1.0)
  const Yellow: Rgba := Rgba(1.0, 1.0, 0.0, 1.0)

  /** One gl.clear(COLOR_BUFFER_BIT): the region it paints, the viewport in
      force and the clear colour. */
  datatype Clear = Clear(region: Rect, viewport: Rect, color: Rgba)

  /** Pixel (px, py) lies in r; a rectangle covers [x, x + width) by [y, y + height). */
  predicate Contains(r: Rect, px: real, py: real) {
    r.x <= px < r.x + r.width && r.y <= py < r.y + r.height
  }

  /** The resize handler's choice of the new canvas side: the largest size
      that is at most 500 and fits both window dimensions. */
  function NewSize(innerWidth: nat, innerHeight: nat): (r: nat)
    ensures r <= MaxSize && r <= innerWidth && r <= innerHeight
    ensures r == MaxSize || r == innerWidth || r == innerHeight
  {
    if innerWidth > innerHeight then
      if innerHeight > 500 then 500 else innerHeight
    else
      if innerWidth > 500 then 500 else innerWidth
  }

  /** NewSize is min(500, innerWidth, innerHeight). */
  lemma NewSizeIsMinimum(innerWidth: nat, innerHeight: nat)
    ensures NewSize(innerWidth, innerHeight) == Min(MaxSize, Min(innerWidth, innerHeight))
  {
  }

  /** The four clears of render, in order: top-left red, top-right green,
      bottom-left blue, bottom-right yellow, each a square of side
      canvas.width / 2 with the scissor box equal to the viewport. */
  function Quadrants(width: nat, height: nat): (r: seq<Clear>)
    ensures |r| == 4
    ensures forall k :: 0 <= k < 4 ==>
      r[k].region == r[k].viewport &&
      r[k].region.width == r[k].region.height == width as real / 2.0
  {
    var side := width as real / 2.0;
    var w2 := width as real / 2.0;
    var h2 := height as real / 2.0;
    [ Clear(Rect(0.0, h2, side, side), Rect(0.0, h2, side, side), Red),
      Clear(Rect(w2, h2, side, side), Rect(w2, h2, side, side), Green),
      Clear(Rect(0.0, 0.0, side, side), Rect(0.0, 0.0, side, side), Blue),
      Clear(Rect(w2, 0.0, side, side), Rect(w2, 0.0, side, side), Yellow) ]
  }

  /** The colour a pixel shows after the clears, later clears painting over
      earlier ones; None when no clear reached it. */
  function PixelColor(clears: seq<Clear>, px: real, py: real): Option<Rgba>
    decreases |clears|
  {
    if clears == [] then None
    else if Contains(clears[|clears| - 1].region, px, py) then Some(clears[|clears| - 1].color)
    else PixelColor(clears[..|clears| - 1], px, py)
  }

  /** The colour render leaves on each part of a square canvas of side s:
      the top half (y >= s/2 in GL's bottom-up coordinates) red then green,
      the bottom half blue then yellow. */
  function QuadrantColor(s: nat, px: real, py: real): Rgba {
    var half := s as real / 2.0;
    if py >= half then (if px < half then Red else Green)
    else (if px < half then Blue else Yellow)
  }

  predicate OnCanvas(s: nat, px: real, py: real) {
    0.0 <= px < s as real && 0.0 <= py < s as real
  }

  /** On a square canvas the four regions of render tile the canvas: every
      canvas pixel lies in exactly one of them, and no other pixel in any. */
  lemma QuadrantsTileCanvas(s: nat, px: real, py: real)
    ensures var q := Quadrants(s, s);
      OnCanvas(s, px, py) <==>
        Contains(q[0].region, px, py) || Contains(q[1].region, px, py) ||
        Contains(q[2].region, px, py) || Contains(q[3].region, px, py)
    ensures forall j, k :: 0 <= j < k < 4 ==>
      !(Contains(Quadrants(s, s)[j].region, px, py) && Contains(Quadrants(s, s)[k].region, px, py))
  {
    var half := s as real / 2.0;
    assert half + half == s as real;
  }

  /** After render, whatever was drawn before, every pixel of a square canvas
      shows its quadrant's colour and no pixel off the canvas is painted by
      render. */
  lemma RenderPaintsQuadrants(before: seq<Clear>, s: nat, px: real, py: real)
    ensures OnCanvas(s, px, py) ==>
      PixelColor(before + Quadrants(s, s), px, py) == Some(QuadrantColor(s, px, py))
    ensures !OnCanvas(s, px, py) ==>
      PixelColor(before + Quadrants(s, s), px, py) == PixelColor(before, px, py)
  {
    var q := Quadrants(s, s);
    var half := s as real / 2.0;
    assert half + half == s as real;
    var b1 := before + [q[0]];
    var b2 := b1 + [q[1]];
    var b3 := b2 + [q[2]];
    assert before + q == b3 + [q[3]];
    PaintOver(before, q[0], px, py);
    PaintOver(b1, q[1], px, py);
    PaintOver(b2, q[2], px, py);
    PaintOver(b3, q[3], px, py);
  }

  /** A clear paints its region and leaves every other pixel as it was. */
  lemma PaintOver(clears: seq<Clear>, c: Clear, px: real, py: real)
    ensures PixelColor(clears + [c], px, py) ==
      if Contains(c.region, px, py) then Some(c.color) else PixelColor(clears, px, py)
  {
    assert (clears + [c])[..|clears|] == clears;
  }

  /** The canvas element and the WebGL state the program sets. */
  class GlCanvas {
    var width: nat
    var height: nat
    var viewport: Rect
    var scissor: Rect
    var scissorTest: bool
    var clearColor: Rgba
    /** Every clear issued so far, first first. */
    var clears: seq<Clear>

    /** The canvas stays square: the initial size and every resize set both
        sides to the same value. */
    ghost predicate Valid()
      reads this
    {
      width == height
    }

    /** gl.clear(COLOR_BUFFER_BIT) */
    method ClearColorBuffer()
      modifies this`clears
      ensures clears == old(clears) +
        [Clear(if scissorTest then scissor else Rect(0.0, 0.0, width as real, height as real),
               viewport, clearColor)]
    {
      var region := if scissorTest then scissor else Rect(0.0, 0.0, width as real, height as real);
      clears := clears + [Clear(region, viewport, clearColor)];
    }

    /** The top-level statements: size the canvas, set the viewport and the
        background colour, clear, render. */
    constructor ()
      ensures width == MaxSize && height == MaxSize && Valid()
      ensures clears ==
        [Clear(Rect(0.0, 0.0, 500.0, 500.0), Rect(0.0, 0.0, 500.0, 500.0), Background)] +
        Quadrants(MaxSize, MaxSize)
      ensures scissorTest && viewport == Quadrants(MaxSize, MaxSize)[3].viewport
      ensures scissor == viewport && clearColor == Yellow
    {
      width := 500;
      height := 500;
      viewport := Rect(0.0, 0.0, 500.0, 500.0);
      scissor := Rect(0.0, 0.0, 500.0, 500.0);
      scissorTest := false;
      clearColor := Background;
      clears := [];
      new;
      ClearColorBuffer();
      Render();
    }

    /** render: four scissored clears, one per quadrant. */
    method Render()
      requires Valid()
      modifies this`viewport, this`scissor, this`scissorTest, this`clearColor, this`clears
      ensures Valid()
      ensures clears == old(clears) + Quadrants(width, height)
      ensures scissorTest && viewport == Quadrants(width, height)[3].viewport
      ensures scissor == viewport && clearColor == Yellow
    {
      var viewportSize := width as real / 2.0;
      var w := width as real;
      var h := height as real;

      scissorTest := true;

      scissor := Rect(0.0, h / 2.0, viewportSize, viewportSize);
      viewport := Rect(0.0, h / 2.0, viewportSize, viewportSize);
      clearColor := Red;
      ClearColorBuffer();

      scissor := Rect(w / 2.0, h / 2.0, viewportSize, viewportSize);
      viewport := Rect(w / 2.0, h / 2.0, viewportSize, viewportSize);
      clearColor := Green;
      ClearColorBuffer();

      scissor := Rect(0.0, 0.0, viewportSize, viewportSize);
      viewport := Rect(0.0, 0.0, viewportSize, viewportSize);
      clearColor := Blue;
      ClearColorBuffer();

      scissor := Rect(w / 2.0, 0.0, viewportSize, viewportSize);
      viewport := Rect(w / 2.0, 0.0, viewportSize, viewportSize);
      clearColor := Yellow;
      ClearColorBuffer();
    }

    /** The window's resize listener. */
    method Resize(innerWidth: nat, innerHeight: nat)
      modifies this
      ensures width == height == NewSize(innerWidth, innerHeight) && Valid()
      ensures clears == old(clears) + Quadrants(width, height)
      ensures scissorTest && viewport == Quadrants(width, height)[3].viewport
      ensures scissor == viewport && clearColor == Yellow
    {
      var newSize;
      if innerWidth > innerHeight {
        if innerHeight > 500 {
          newSize := 500;
        } else {
          newSize := innerHeight;
        }
      } else {
        if innerWidth > 500 {
          newSize := 500;
        } else {
          newSize := innerWidth;
        }
      }

      width := newSize;
      height := newSize;
      viewport := Rect(0.0, 0.0, width as real, height as real);
      Render();
    }
  }
}
