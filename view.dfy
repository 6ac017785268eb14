/** The window's view and parameter arithmetic over the reals: the zoom
    factor as a power of 0.8 of the zoom level, the drag pan, and the
    per-frame nudges of the zoom level and the dot mass by held keys. */
module View {
  import Input

  /** `b` to the power `n`. */
  function NatPow(b: real, n: nat): (r: real)
    requires b > 0.0
    ensures r > 0.0
  {
    if n == 0 then 1.0 else b * NatPow(b, n - 1)
  }

  /** 0.8 to the integer power `n`; a negative power is 1.25 to the power -n. */
  function ZoomAt(n: int): (r: real)
    ensures r > 0.0
  {
    if n >= 0 then NatPow(0.8, n) else NatPow(1.25, -n)
  }

  /** One more zoom step scales the factor by 0.8, for every integer level. */
  lemma ZoomAtStep(n: int)
    ensures ZoomAt(n + 1) == 0.8 * ZoomAt(n)
  {
    if n < -1 {
      var p := NatPow(1.25, -n - 1);
      assert ZoomAt(n + 1) == p;
      assert ZoomAt(n) == 1.25 * p;
      assert 0.8 * (1.25 * p) == p;
    } else if n == -1 {
      assert ZoomAt(n) == 1.25 * NatPow(1.25, 0);
    } else {
      assert ZoomAt(n + 1) == 0.8 * NatPow(0.8, n);
    }
  }

  /** The zoom factor strictly decreases as the integer level grows. */
  lemma {:induction false} ZoomAtDecreasing(m: int, n: int)
    requires m < n
    ensures ZoomAt(n) < ZoomAt(m)
    decreases n - m
  {
    ZoomAtStep(n - 1);
    if m < n - 1 {
      ZoomAtDecreasing(m, n - 1);
    }
  }

  /** The zoom factor of a real zoom level `x`: 0.8 to the power `x` at
      integer levels, and between two integer levels the straight line
      joining the neighbouring powers. */
  function ZoomOf(x: real): real
  {
    var n := x.Floor;
    ZoomAt(n) * (1.0 - (x - n as real) / 5.0)
  }

  /** At an integer level the factor is exactly 0.8 to that power. */
  lemma ZoomOfInteger(n: int)
    ensures ZoomOf(n as real) == ZoomAt(n)
  {
  }

  /** The factor lies in (0.8^(n+1), 0.8^n] where n is the floor of the
      level, as 0.8 to a real power does; in particular it is positive. */
  lemma ZoomOfBracket(x: real)
    ensures ZoomAt(x.Floor + 1) < ZoomOf(x) <= ZoomAt(x.Floor)
    ensures ZoomOf(x) > 0.0
  {
    var n := x.Floor;
    var f := x - n as real;
    assert 0.0 <= f < 1.0;
    ZoomAtStep(n);
    var z := ZoomAt(n);
    assert ZoomOf(x) == z * (1.0 - f / 5.0);
    var up, down := (1.0 - f) / 5.0, f / 5.0;
    assert z * up > 0.0;
    assert z * down >= 0.0;
    assert ZoomOf(x) == 0.8 * z + z * up;
    assert ZoomOf(x) == z - z * down;
  }

  /** A larger zoom level always gives a strictly smaller factor. */
  lemma ZoomOfDecreasing(x: real, y: real)
    requires x < y
    ensures ZoomOf(y) < ZoomOf(x)
  {
    var m, n := x.Floor, y.Floor;
    if m == n {
      var z := ZoomAt(n);
      assert ZoomOf(x) - ZoomOf(y) == z * ((y - x) / 5.0);
    } else {
      ZoomOfBracket(x);
      ZoomOfBracket(y);
      if m + 1 < n {
        ZoomAtDecreasing(m + 1, n);
      }
    }
  }

  /** World units per pixel of drag in a window `height` pixels tall. */
  function DragSpeed(zoom: real, height: nat): real
    requires height > 0
  {
    2.0 * zoom / height as real
  }

  /** The camera offset after a drag by (dx, dy) pixels: dragging right
      moves the camera left and dragging down moves it up. */
  function Pan(camX: real, camY: real, zoom: real, dx: int, dy: int, height: nat): (real, real)
    requires height > 0
  {
    var speed := DragSpeed(zoom, height);
    (camX - dx as real * speed, camY + dy as real * speed)
  }

  /** Sign law of the drag: with a positive zoom the horizontal offset moves
      against dx and the vertical one with dy. */
  lemma PanSigns(camX: real, camY: real, zoom: real, dx: int, dy: int, height: nat)
    requires height > 0 && zoom > 0.0
    ensures var p := Pan(camX, camY, zoom, dx, dy, height);
      (dx > 0 <==> p.0 < camX) && (dx < 0 <==> p.0 > camX) && (dy > 0 <==> p.1 > camY) && (dy < 0 <==> p.1 < camY)
  {
  }

  /** With zoom 1 in a window 2 pixels tall, a drag of 2 pixels moves the
      camera by exactly 2 world units: left for dx, up for dy. */
  lemma PanUnitExample(camX: real, camY: real)
    ensures Pan(camX, camY, 1.0, 2, 0, 2) == (camX - 2.0, camY)
    ensures Pan(camX, camY, 1.0, 0, 2, 2) == (camX, camY + 2.0)
  {
  }

  /** Two drags at the same zoom and window height add up to one drag by
      the summed deltas. */
  lemma PanAdditive(camX: real, camY: real, zoom: real, dx1: int, dy1: int, dx2: int, dy2: int, height: nat)
    requires height > 0
    ensures var p := Pan(camX, camY, zoom, dx1, dy1, height);
      Pan(p.0, p.1, zoom, dx2, dy2, height) == Pan(camX, camY, zoom, dx1 + dx2, dy1 + dy2, height)
  {
    var s := DragSpeed(zoom, height);
    var p := Pan(camX, camY, zoom, dx1, dy1, height);
    var q := Pan(p.0, p.1, zoom, dx2, dy2, height);
    var r := Pan(camX, camY, zoom, dx1 + dx2, dy1 + dy2, height);
    assert (dx1 + dx2) as real * s == dx1 as real * s + dx2 as real * s;
    assert (dy1 + dy2) as real * s == dy1 as real * s + dy2 as real * s;
    assert q.0 == camX - dx1 as real * s - dx2 as real * s;
    assert q.1 == camY + dy1 as real * s + dy2 as real * s;
    assert r.0 == camX - (dx1 + dx2) as real * s;
    assert q.0 == r.0;
    assert r.1 == camY + (dy1 + dy2) as real * s;
    assert q.1 == r.1;
  }

  /** Zoom levels gained per second while SPACE is held. */
  const ZoomRate: real := 5.0

  /** Dot mass gained (UP) or lost (DOWN) per second while the key is held. */
  const MassRate: real := 0.2

  /** The zoom level after one frame of `frameTime` seconds. */
  function ZoomLevelAfterFrame(level: real, held: set<int>, frameTime: real): real
  {
    if Input.Space in held then level + frameTime * ZoomRate else level
  }

  /** The dot mass after one frame: UP adds and DOWN subtracts frameTime / 5. */
  function DotMassAfterFrame(mass: real, held: set<int>, frameTime: real): real
  {
    var raised := if Input.Up in held then mass + frameTime / 5.0 else mass;
    if Input.Down in held then raised - frameTime / 5.0 else raised
  }

  /** Holding UP and DOWN together leaves the dot mass where it was; holding
      exactly one of them moves it by frameTime / 5 in that key's direction. */
  lemma DotMassNudge(mass: real, held: set<int>, frameTime: real)
    ensures Input.Up in held && Input.Down in held ==> DotMassAfterFrame(mass, held, frameTime) == mass
    ensures Input.Up in held && Input.Down !in held ==> DotMassAfterFrame(mass, held, frameTime) == mass + frameTime * MassRate
    ensures Input.Up !in held && Input.Down in held ==> DotMassAfterFrame(mass, held, frameTime) == mass - frameTime * MassRate
    ensures Input.Up !in held && Input.Down !in held ==> DotMassAfterFrame(mass, held, frameTime) == mass
  {
  }

  /** Holding SPACE for a frame of positive length zooms in: the factor
      shrinks. Without SPACE the factor stays, whatever the frame time. */
  lemma HoldingSpaceZoomsIn(level: real, held: set<int>, frameTime: real)
    ensures Input.Space in held && frameTime > 0.0 ==> ZoomOf(ZoomLevelAfterFrame(level, held, frameTime)) < ZoomOf(level)
    ensures Input.Space !in held ==> ZoomOf(ZoomLevelAfterFrame(level, held, frameTime)) == ZoomOf(level)
  {
    if Input.Space in held && frameTime > 0.0 {
      ZoomOfDecreasing(level, level + frameTime * ZoomRate);
    }
  }

  /** Scrolling by 3 from level 0 gives level 3 and factor 0.512. */
  lemma ScrollByThree()
    ensures ZoomOf(0.0 + 3.0) == 0.512
  {
  }
}
