# Fractal window controller

A Dafny model of the controller inside the `Window` class of the gravity
fractal viewer (`main.py`). The viewer renders a procedurally generated
height/colour field on the GPU each frame. It can blur the field with a
separable two-pass blur. It then lights and draws the field to the screen.
Under the GPU plumbing sit four pieces, and the model covers each one:

- **Keyboard state machine** (`input.dfy`, module `Input`). The window keeps
  two key sets: `inputs` holds the keys currently down, and `inputs_toggled`
  holds the keys whose toggle is on. A press adds the key to `inputs` and
  flips its toggle. A release removes the key from `inputs`; when the key is
  absent the release is silently ignored. Any other action changes nothing.
  `Step` is one event. `Replay` is a sequence of events, with the toggle law
  and the held law proved over every sequence.
- **View and parameters** (`view.dfy`, module `View`), over `real`:
  - the zoom factor as 0.8 to the power of the zoom level: exact at integer
    levels, and the linear interpolation between the neighbouring integer
    powers in between (see "## Left out");
  - the drag pan, with its sign conventions;
  - the per-frame nudges from held keys: SPACE zooms in, and UP/DOWN raise or
    lower the dot mass.
- **Frame schedule** (`pipeline.dfy`, module `Pipeline`). `Schedule` gives
  the commands one frame issues, in order:
  - the fractal dispatch, with albedo on image unit 0 and heights on unit 1;
  - when the B toggle is on, two blur dispatches: axis 0 reads unit 1 and
    writes unit 2, then axis 1 reads unit 2 and writes unit 1;
  - the screen draw, with albedo on texture unit 0 and heights on image
    unit 1.

  Every dispatch uses `ceil(1280/32) x ceil(720/32)` = 40 x 23 groups. An
  abstract semantics `Run` records which pass produced each texture's
  contents. From it, `FrameDataflow` proves what the screen draw reads,
  assuming each command sees the writes of the commands before it (see
  "## Left out" on memory barriers).
- **The window object** (`window.dfy`, module `Fractal`). Class `Window`
  has the source's fields. Its methods update them in place:
  - `KeyEvent`, `MouseDragEvent` and `MouseScrollEvent` are the event
    handlers;
  - `SetZoom` sets the zoom level and derives the zoom factor;
  - `Render` does the per-frame updates and returns the frame's commands.

  Each method is specified against the functions above. Three small client
  methods replay concrete scenarios through the class.

Two places where the model follows the code as written:

- The dispatch grid is sized from the configured `window_size` (1280 x 720),
  not from the actual window size `wnd.size`. The actual size is only passed
  as the `resolution` uniform and used for the drag speed.
- The two key sets are declared at class level in the source (main.py:23-24),
  so all instances would share them. The model gives each `Window` its own
  sets, built in the constructor. The program creates only one window, so
  this changes no behaviour.

## Model

| member | source | states |
|---|---|---|
| Input.Step | main.py:108-119 | A press puts the key in `held` and flips its toggle. A release takes it out of `held` and leaves `toggled` alone, and is a no-op for an absent key. Any other action changes nothing. No other key's memberships change. |
| Input.ToggleLaw | main.py:111-114 | After any event sequence, a key is toggled iff it was toggled initially XOR it was pressed an odd number of times. Releases and other keys' events do not count. |
| Input.HeldLaw | main.py:108-119 | After any event sequence, a key is held iff its last press-or-release was a press. With no such event, it keeps its initial state. So `held` does not depend on how many presses there were. |
| Input.UntouchedKey | main.py:108-119 | Events that never name a key leave that key's held and toggled memberships as they were. |
| Input.DoublePressRestoresToggles | main.py:111-114 | Two presses of the same key give back the original toggle set. |
| Input.ReleaseOfAbsentKey | main.py:115-119 | Releasing a key that is not held leaves both sets unchanged. It raises no error. |
| View.ZoomOf | main.py:106 | No contract of its own. It is 0.8 to the power of the level at integer levels, and between them the linear interpolation between the neighbouring integer powers (0.9 at level 0.5, where `0.8 ** 0.5` is 0.8944). `View.ZoomOfInteger`, `View.ZoomOfBracket` and `View.ZoomOfDecreasing` state its properties. |
| View.ZoomAtStep | main.py:104-106 | At every integer level, one more zoom step multiplies the factor by 0.8. This includes negative levels. |
| View.ZoomAtDecreasing | main.py:104-106 | At integer levels the zoom factor strictly decreases as the level grows. |
| View.ZoomOfInteger | main.py:104-106 | At an integer level n the derived factor is exactly 0.8^n. |
| View.ZoomOfBracket | main.py:104-106 | At any real level x, the factor lies in (0.8^(floor x + 1), 0.8^(floor x)]. So it is always positive. |
| View.ZoomOfDecreasing | main.py:104-106 | Over all real levels, a larger zoom level gives a strictly smaller zoom factor. |
| View.ScrollByThree | main.py:101-106 | Scrolling by 3 from level 0 gives a zoom factor of exactly 0.512. |
| View.DragSpeed | main.py:97 | No contract of its own. It is `2 * zoom / height`, the world units per pixel of drag. `View.PanSigns` and `View.PanAdditive` state what a drag at this speed does. |
| View.Pan | main.py:97-99 | No contract of its own. It is the camera offset after a drag. `View.PanSigns`, `View.PanUnitExample` and `View.PanAdditive` state its properties. |
| View.PanSigns | main.py:96-99 | With a positive zoom, a drag moves `cam_x` against `dx` and `cam_y` with `dy`. It moves each one if and only if that delta is non-zero. |
| View.PanUnitExample | main.py:96-99 | With zoom 1 and window height 2, a 2-pixel drag moves the camera by exactly 2 units: left for `dx`, up for `dy`. |
| View.PanAdditive | main.py:96-99 | Two drags at the same zoom and height equal one drag by the summed deltas. |
| View.ZoomLevelAfterFrame | main.py:52-53 | No contract of its own. It is the zoom level after one frame of held keys. `View.HoldingSpaceZoomsIn` states its effect on the zoom factor. |
| View.DotMassAfterFrame | main.py:55-61 | No contract of its own. It is the dot mass after one frame of held keys. `View.DotMassNudge` states all four UP/DOWN cases. |
| View.HoldingSpaceZoomsIn | main.py:52-53 | Holding SPACE for a frame of positive length strictly shrinks the zoom factor. Without SPACE the factor stays the same. |
| View.DotMassNudge | main.py:55-61 | Holding UP and DOWN together leaves `dot_mass` unchanged. UP alone adds `frame_time/5`, DOWN alone subtracts it, and neither key changes nothing. |
| Pipeline.GroupCount | main.py:73 | The group count `ceil(size/32)` covers every texel: `groups*32 >= size`. No group lies wholly outside: `groups*32 < size + 32`. |
| Pipeline.CoversWindowIff | main.py:37-39 | A dispatch grid covers the 1280 x 720 textures exactly when it has at least `GroupCount` groups along each axis. `Apply` fails a dispatch whose grid does not cover them, so the dataflow lemmas rest on this coverage. |
| Pipeline.GenerateCommands | main.py:63-73 | No contract of its own. It is the fractal pass's commands. `Pipeline.GenerateRun` states their effect. |
| Pipeline.BlurCommands | main.py:75-85 | No contract of its own. It is the blur pass's commands. `Pipeline.BlurRun` states their effect. |
| Pipeline.CompositeCommands | main.py:87-94 | No contract of its own. It is the screen pass's commands. `Pipeline.CompositeRun` states their effect. |
| Pipeline.Schedule | main.py:63-94 | No contract of its own. It is the frame's commands in order. `Pipeline.ScheduleShape` and `Pipeline.FrameDataflow` state its shape and what it draws. |
| Pipeline.ScheduleShape | main.py:63-94 | The fractal dispatch is the first dispatch and writes unit 1; the only other dispatches are the blur dispatches. With blur on there are exactly two blur dispatches, axis 0 then axis 1, and the second swaps the first's units so it writes back into unit 1. With blur off there are none. The draw is last and reads unit 1 either way. Every dispatch is 40 x 23 groups. |
| Pipeline.GenerateRun | main.py:63-73 | The fractal pass binds albedo to unit 0 and heights to unit 1. It overwrites both textures with this frame's output, whatever was bound or stored before. |
| Pipeline.BlurRun | main.py:75-85 | With heights on unit 1, the blur leaves the axis-1 blur of the axis-0 blur of them in the height texture. The swap texture holds the axis-0 result, and its earlier contents are never read. |
| Pipeline.CompositeRun | main.py:87-94 | The screen pass draws exactly one frame, from the albedo texture on texture unit 0 and the height texture on image unit 1. It changes no texture. |
| Pipeline.FrameDataflow | main.py:63-94 | From any earlier GPU state, the frame's commands run without using an unbound unit. The draw shows this frame's albedo and this frame's heights. With blur on, the heights are blurred along axis 0 then axis 1. Nothing left from an earlier frame is read, including the swap texture; this rests on every dispatch's 40 x 23 grid covering the whole texture, since a dispatch that does not is a failure in the model. The height texture ends up holding what was drawn. |
| Fractal.Window.constructor | main.py:18-24 | A new window has `cam_x = cam_y = 0`, `zoom = 1`, `dot_mass = 0.1`, `zoom_level = 0` and empty key sets of its own. The zoom invariant holds. |
| Fractal.Window.SetZoom | main.py:104-106 | Sets `zoom_level` to the argument and `zoom` to the factor derived from it. |
| Fractal.Window.MouseScrollEvent | main.py:101-102 | Adds `y_offset` to `zoom_level` and re-derives `zoom`. |
| Fractal.Window.MouseDragEvent | main.py:96-99 | Moves the camera by `View.Pan` at the current zoom and window height. With height 0 the handler fails before changing anything. |
| Fractal.Window.KeyEvent | main.py:108-119 | The new key sets are `Input.Step` of the old ones and the event. |
| Fractal.Window.Render | main.py:50-94 | Updates `zoom_level` and `dot_mass` by the held-key nudges and keeps `zoom` derived from the level. Returns the `Schedule` for the toggled keys, the new view and the window size. |
| Fractal.ScrollFromStart | main.py:101-106 | A fresh window scrolled by 3 is at zoom level 3 with zoom factor 0.512. |
| Fractal.DragFromStart | main.py:96-99 | In a fresh window 2 pixels tall, a drag of 2 right and then 2 down leaves the camera at (-2, 2). |
| Fractal.PressReleasePress | main.py:108-119 | On a fresh window, press, release and press of one key leave it held with its toggle off. |

## Left out

- View.ZoomOf, Fractal.Window.SetZoom, Fractal.Window.Render: `0.8 ** zoom_level` for a fractional level is not computable over the reals in Dafny. Between two integer levels, `View.ZoomOf` takes the straight line joining the neighbouring powers of 0.8. The lemmas about `ZoomOf` state only facts that also hold of the true power: exact at integer levels, bracketed by the neighbouring powers, strictly decreasing. But `Valid()` pins the stored `zoom` to the interpolation itself. So at fractional levels, which SPACE frames make the usual case, the `zoom` that `SetZoom`, `MouseScrollEvent` and `Render` store, and that `Render` passes to the fractal kernel, is up to about 0.6% above `0.8 ** zoom_level` (0.9 instead of 0.8944 at level 0.5).
- Fractal.Window.SetZoom: in the source, `0.8 ** zoom_level` is a double. At levels of about -3181 and below it raises `OverflowError`. Line 105 has already stored the new level by then, so `zoom_level` and `zoom` disagree and the exception escapes the handler. From level 3340 on the power underflows to `0.0`, which is not positive (levels 3336 to 3339 give the smallest subnormal double, 5e-324). The model works over `real`, so it has neither the exception nor the zero. It keeps `zoom` derived from `zoom_level` at every level, and `View.ZoomOfBracket` keeps it positive.
- Fractal.Window.MouseScrollEvent: reaches the same overflow and underflow through `SetZoom`. `Render` does too while SPACE is held. The model does not capture them.
- Pipeline.FrameDataflow: `Apply` lets each command see every write of the commands before it. `main.py` issues no `memory_barrier()` call between the fractal dispatch (line 73), the two blur dispatches (lines 81 and 85) and the draw (line 94). OpenGL's rules for image load/store do not guarantee that those later reads see the earlier writes without one. The lemma holds for this idealised GPU; the missing barriers are not modelled.
- View.DotMassNudge: the model uses exact reals. In IEEE doubles, `(m + t/5) - t/5` need not give back `m` exactly.
- Floating-point rounding of every other update (pan, zoom, `frame_time` accumulation) is not modelled. The arithmetic is exact over `real`.
- The sun direction `(cos(t/5), sin(t/5), 1)` is not computed. The draw command records its angle `t/5`.
- The shader programs (`shaders/*.comp`, `.vert`, `.frag`) are not part of this model. A kernel's output is recorded only as the pass and inputs that produced it.
- The blur kernel's source is not available, so the model assumes its `height` uniform names the unit it reads and `height_swap` the unit it writes. It also assumes the screen shader reads `height` as image unit 1.
- Shader loading from files (`import_string`), shader compilation, and the creation of textures, the vertex buffer and the vertex array are left out. The GPU dispatch and draw calls themselves and the `Window.run()` event loop are left out too. All of these are I/O or calls into the GPU library.
- The `print` calls in `render` are console output and are left out.
- The key codes are the windowing backend's key symbols. The model fixes them to pyglet's values; only their distinctness matters.
- The mouse position `(x, y)`, the scroll `x_offset` and the key `modifiers` are accepted and ignored, as in the source.
- Fullscreen and resize handling do not appear in `main.py` and are not modelled.
