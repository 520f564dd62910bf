/**
  The display's pixel buffer (apps/tiny-display-status/src/framebuffer.rs): drawing keeps the
  last colour per position, and flushing emits the raster turned by 180 degrees.
  */
module Display {

  const WIDTH := 240
  const HEIGHT := 240

  type Color = bv16
  const BLACK: Color := 0

  datatype Op = Clear | Plot(x: int, y: int, color: Color)

  /** The last colour drawn at a position since the last clearing, or black. */
  function ColorAt(history: seq<Op>, x: int, y: int): Color {
    if history == [] then BLACK
    else
      var last := history[|history| - 1];
      if last.Clear? then BLACK
      else if last.x == x && last.y == y then last.color
      else ColorAt(history[..|history| - 1], x, y)
  }

  lemma ColorAtAppend(history: seq<Op>, op: Op, x: int, y: int)
    ensures ColorAt(history + [op], x, y) ==
            if op.Clear? then BLACK
            else if op.x == x && op.y == y then op.color
            else ColorAt(history, x, y)
  {
    assert (history + [op])[..|history|] == history;
  }

  predicate OnScreen(x: int, y: int) {
    0 <= x < WIDTH && 0 <= y < HEIGHT
  }

  class FrameBuffer {
    var pixels: array<Color>
    ghost var history: seq<Op>

    ghost predicate Valid()
      reads this, pixels
    {
      && pixels.Length == WIDTH * HEIGHT
      && forall x, y :: OnScreen(x, y) ==> pixels[y * WIDTH + x] == ColorAt(history, x, y)
    }

    constructor ()
      ensures Valid() && fresh(pixels) && history == []
    {
      pixels := new Color[WIDTH * HEIGHT](_ => BLACK);
      history := [];
    }

    /** `clear_black` */
    method ClearBlack()
      requires Valid()
      modifies `history, pixels
      ensures Valid() && history == old(history) + [Clear]
    {
      for i := 0 to pixels.Length
        invariant forall k :: 0 <= k < i ==> pixels[k] == BLACK
        invariant history == old(history)
      {
        pixels[i] := BLACK;
      }
      history := history + [Clear];
    }

    method DrawPixel(x: int, y: int, color: Color)
      requires Valid()
      modifies `history, pixels
      ensures Valid() && history == old(history) + [Plot(x, y, color)]
    {
      if x >= 0 && y >= 0 && x < WIDTH && y < HEIGHT {
        pixels[y * WIDTH + x] := color;
      }
      history := history + [Plot(x, y, color)];
      forall a, b | OnScreen(a, b) ensures pixels[b * WIDTH + a] == ColorAt(history, a, b) {
        ColorAtAppend(old(history), Plot(x, y, color), a, b);
      }
    }

    /** `draw_iter` */
    method DrawIter(points: seq<Op>)
      requires Valid() && forall p :: p in points ==> p.Plot?
      modifies `history, pixels
      ensures Valid() && history == old(history) + points
    {
      for i := 0 to |points|
        invariant Valid() && history == old(history) + points[..i]
      {
        DrawPixel(points[i].x, points[i].y, points[i].color);
        assert points[..i + 1] == points[..i] + [points[i]];
      }
      assert points[..|points|] == points;
    }

    /** `flush`, up to writing the bytes; `encode` gives a pixel's two bytes in native order. */
    method Flush(encode: Color -> (bv8, bv8)) returns (bytes: seq<bv8>)
      requires Valid()
      ensures |bytes| == 2 * WIDTH * HEIGHT
      ensures forall x, y :: OnScreen(x, y) ==>
        (bytes[2 * (y * WIDTH + x)], bytes[2 * (y * WIDTH + x) + 1])
        == encode(ColorAt(history, WIDTH - 1 - x, HEIGHT - 1 - y))
    {
      bytes := [];
      var n := pixels.Length;
      for i := 0 to n
        invariant |bytes| == 2 * i
        invariant forall k :: 0 <= k < i ==> (bytes[2 * k], bytes[2 * k + 1]) == encode(pixels[n - 1 - k])
      {
        var (first, second) := encode(pixels[n - 1 - i]);
        bytes := bytes + [first, second];
      }
      forall x, y | OnScreen(x, y)
        ensures (bytes[2 * (y * WIDTH + x)], bytes[2 * (y * WIDTH + x) + 1])
                == encode(ColorAt(history, WIDTH - 1 - x, HEIGHT - 1 - y))
      {
        assert OnScreen(WIDTH - 1 - x, HEIGHT - 1 - y);
        assert n - 1 - (y * WIDTH + x) == (HEIGHT - 1 - y) * WIDTH + (WIDTH - 1 - x);
      }
    }
  }
}
