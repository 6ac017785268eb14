/** The fractal window's controller: the view, the dot mass and the two key
    sets as fields of one object, updated in place by the event handlers and
    by the per-frame render step. */
module Fractal {
  import Input
  import View
  import Pipeline

  class Window {
    var camX: real
    var camY: real
    var zoom: real
    var dotMass: real
    var zoomLevel: real
    /** Keys currently held. */
    var inputs: set<int>
    /** Keys whose toggle is on. */
    var inputsToggled: set<int>

    /** The zoom factor is always the one derived from the zoom level. */
    ghost predicate Valid()
      reads this
    {
      zoom == View.ZoomOf(zoomLevel)
    }

    /** The two key sets as one value. */
    function Keys(): Input.KeyState
      reads this
    {
      Input.KeyState(inputs, inputsToggled)
    }

    /** A window at the initial view, with key sets of its own. */
    constructor ()
      ensures Valid()
      ensures camX == 0.0 && camY == 0.0 && zoom == 1.0 && dotMass == 0.1 && zoomLevel == 0.0
      ensures inputs == {} && inputsToggled == {}
    {
      camX, camY := 0.0, 0.0;
      zoom := 1.0;
      dotMass := 0.1;
      zoomLevel := 0.0;
      inputs, inputsToggled := {}, {};
      View.ZoomOfInteger(0);
    }

    /** Sets the zoom level and derives the zoom factor from it. */
    method SetZoom(level: real)
      modifies this`zoomLevel, this`zoom
      ensures Valid()
      ensures zoomLevel == level
    {
      zoomLevel := level;
      zoom := View.ZoomOf(level);
    }

    /** A scroll moves the zoom level by the vertical offset. */
    method MouseScrollEvent(xOffset: real, yOffset: real)
      modifies this`zoomLevel, this`zoom
      ensures Valid()
      ensures zoomLevel == old(zoomLevel) + yOffset
    {
      SetZoom(zoomLevel + yOffset);
    }

    /** A drag pans the camera. In a window of height 0 the speed is a
        division by zero: the handler fails (ok is false) before changing
        anything. */
    method MouseDragEvent(x: int, y: int, dx: int, dy: int, height: nat) returns (ok: bool)
      modifies this`camX, this`camY
      ensures ok <==> height > 0
      ensures ok ==> (camX, camY) == View.Pan(old(camX), old(camY), zoom, dx, dy, height)
      ensures !ok ==> camX == old(camX) && camY == old(camY)
    {
      if height == 0 {
        return false;
      }
      var speed := View.DragSpeed(zoom, height);
      camX := camX - dx as real * speed;
      camY := camY + dy as real * speed;
      ok := true;
      var panned := View.Pan(old(camX), old(camY), zoom, dx, dy, height);
      assert camX == panned.0 && camY == panned.1;
    }

    /** A key event updates the two key sets as Input.Step says. */
    method KeyEvent(key: int, action: Input.Action, modifiers: int)
      modifies this`inputs, this`inputsToggled
      ensures Keys() == Input.Step(old(Keys()), Input.Event(key, action))
    {
      if action == Input.Press {
        inputs := inputs + {key};
        if key in inputsToggled {
          inputsToggled := inputsToggled - {key};
        } else {
          inputsToggled := inputsToggled + {key};
        }
      } else if action == Input.Release {
        inputs := inputs - {key};
      }
    }

    /** One frame: held SPACE advances the zoom level, held UP and DOWN nudge
        the dot mass, and then the frame's GPU commands are issued with the
        updated view, the toggled keys and the window's actual size. */
    method Render(totalTime: real, frameTime: real, size: (int, int)) returns (commands: seq<Pipeline.Command>)
      requires Valid()
      modifies this`zoomLevel, this`zoom, this`dotMass
      ensures Valid()
      ensures zoomLevel == View.ZoomLevelAfterFrame(old(zoomLevel), inputs, frameTime)
      ensures dotMass == View.DotMassAfterFrame(old(dotMass), inputs, frameTime)
      ensures commands == Pipeline.Schedule(inputsToggled, size, (camX, camY), zoom, dotMass, totalTime)
    {
      if Input.Space in inputs {
        SetZoom(zoomLevel + frameTime * View.ZoomRate);
      }
      if Input.Up in inputs {
        dotMass := dotMass + frameTime / 5.0;
      }
      if Input.Down in inputs {
        dotMass := dotMass - frameTime / 5.0;
      }
      commands := Pipeline.Schedule(inputsToggled, size, (camX, camY), zoom, dotMass, totalTime);
    }
  }

  /** From a fresh window, scrolling by 3 reaches zoom level 3 and zoom
      factor 0.8^3 = 0.512. */
  method ScrollFromStart() returns (level: real, factor: real)
    ensures level == 3.0 && factor == 0.512
  {
    var w := new Window();
    w.MouseScrollEvent(0.0, 3.0);
    View.ScrollByThree();
    level, factor := w.zoomLevel, w.zoom;
  }

  /** From a fresh window (zoom 1) 2 pixels tall, dragging 2 pixels right
      moves the camera 2 units left, and then dragging 2 pixels down moves it
      2 units up. */
  method DragFromStart() returns (x: real, y: real)
    ensures x == -2.0 && y == 2.0
  {
    var w := new Window();
    var ok := w.MouseDragEvent(0, 0, 2, 0, 2);
    ok := w.MouseDragEvent(0, 0, 0, 2, 2);
    x, y := w.camX, w.camY;
  }

  /** Press, release, press of one key on a fresh window: the key ends up
      held, and its toggle, switched on by the first press, is off again. */
  method PressReleasePress(key: int) returns (held: bool, toggled: bool)
    ensures held && !toggled
  {
    var w := new Window();
    w.KeyEvent(key, Input.Press, 0);
    w.KeyEvent(key, Input.Release, 0);
    w.KeyEvent(key, Input.Press, 0);
    held, toggled := key in w.inputs, key in w.inputsToggled;
  }
}
