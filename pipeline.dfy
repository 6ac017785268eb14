/** The commands one frame of the window issues to the GPU: the fractal
    dispatch, the optional two-pass separable blur, and the screen draw,
    with their group counts and image-unit bindings; and an abstract
    semantics of those commands that tracks which pass produced the contents
    of each texture, so that what the screen pass reads can be stated. */
module Pipeline {
  import Input

  datatype Option<T> = None | Some(value: T)

  /** The configured window size, which the textures and the dispatch grid use. */
  const WindowWidth: nat := 1280
  const WindowHeight: nat := 720

  /** Edge of the square tile one work group covers. */
  const TileSize: nat := 32

  /** ceil(size / 32): the number of work groups that tile `size` texels.
      Every texel is covered, and no group lies wholly past the edge. */
  function GroupCount(size: nat): (r: nat)
    ensures r * TileSize >= size
    ensures r * TileSize < size + TileSize
  {
    (size + TileSize - 1) / TileSize
  }

  /** The textures the window allocates. */
  datatype Texture = Albedo | Height | HeightSwap

  /** The uniforms the fractal kernel is given. */
  datatype FractalInputs = FractalInputs(
    resolution: (int, int), camOffset: (real, real), zoom: real, dotMass: real, gridLines: bool)

  /** One GPU command, in the order the frame issues it. */
  datatype Command =
    | BindImage(texture: Texture, unit: nat)
    | UseTexture(texture: Texture, unit: nat)
    | RunFractal(groupsX: nat, groupsY: nat, albedoUnit: nat, heightUnit: nat, inputs: FractalInputs)
    | RunBlur(groupsX: nat, groupsY: nat, resolution: (int, int), axis: nat, sourceUnit: nat, targetUnit: nat)
    | DrawScreen(albedoUnit: nat, heightUnit: nat, resolution: (int, int), is3D: bool, isWhite: bool, sunAngle: real)

  /** The fractal pass: albedo on image unit 0, heights on image unit 1,
      then the dispatch over the window. */
  function GenerateCommands(inputs: FractalInputs): seq<Command>
  {
    [ BindImage(Albedo, 0), BindImage(Height, 1),
      RunFractal(GroupCount(WindowWidth), GroupCount(WindowHeight), 0, 1, inputs) ]
  }

  /** The blur's two dispatches: along axis 0 from unit 1 into unit 2, then
      along axis 1 from unit 2 back into unit 1. */
  function BlurCommands(resolution: (int, int)): seq<Command>
  {
    var gx, gy := GroupCount(WindowWidth), GroupCount(WindowHeight);
    [ BindImage(HeightSwap, 2),
      RunBlur(gx, gy, resolution, 0, 1, 2),
      RunBlur(gx, gy, resolution, 1, 2, 1) ]
  }

  /** The screen pass: albedo on texture unit 0, then the draw reading the
      heights through unit 1. */
  function CompositeCommands(resolution: (int, int), is3D: bool, isWhite: bool, sunAngle: real): seq<Command>
  {
    [ UseTexture(Albedo, 0), DrawScreen(0, 1, resolution, is3D, isWhite, sunAngle) ]
  }

  /** The commands of one frame, given the toggled keys, the window's actual
      size, the view, the dot mass and the total time. */
  function Schedule(toggled: set<int>, resolution: (int, int), camOffset: (real, real),
                    zoom: real, dotMass: real, totalTime: real): seq<Command>
  {
    var inputs := FractalInputs(resolution, camOffset, zoom, dotMass, Input.G in toggled);
    var blur := if Input.B in toggled then BlurCommands(resolution) else [];
    GenerateCommands(inputs) + blur
      + CompositeCommands(resolution, Input.Number3 in toggled, Input.W in toggled, totalTime / 5.0)
  }

  /** Whether a command is a compute dispatch. */
  predicate IsDispatch(c: Command)
  {
    c.RunFractal? || c.RunBlur?
  }

  /** The shape of a frame: one fractal dispatch first; with blur on exactly
      two blur dispatches, axis 0 then axis 1, the second writing back into
      the unit the first read; the draw last, reading unit 1 whether blur is
      on or off; and every dispatch covers the window in 40 x 23 groups. */
  lemma ScheduleShape(toggled: set<int>, resolution: (int, int), camOffset: (real, real),
                      zoom: real, dotMass: real, totalTime: real)
    ensures var cs := Schedule(toggled, resolution, camOffset, zoom, dotMass, totalTime);
      var blur := Input.B in toggled;
      && |cs| == (if blur then 8 else 5)
      && cs[2].RunFractal? && cs[2].heightUnit == 1
      && cs[|cs| - 1].DrawScreen? && cs[|cs| - 1].heightUnit == 1 && cs[|cs| - 1].albedoUnit == 0
      && (blur ==> cs[4].RunBlur? && cs[5].RunBlur?
                   && cs[4].axis == 0 && cs[5].axis == 1
                   && cs[5].sourceUnit == cs[4].targetUnit && cs[5].targetUnit == cs[4].sourceUnit
                   && cs[5].targetUnit == 1)
      && (forall i :: 0 <= i < |cs| && cs[i].RunBlur? ==> blur)
      && (forall i :: 0 <= i < |cs| && IsDispatch(cs[i]) ==> i == 2 || (blur && (i == 4 || i == 5)))
      && (forall i :: 0 <= i < |cs| && IsDispatch(cs[i]) ==> cs[i].groupsX == 40 && cs[i].groupsY == 23)
  {
  }

  /** The contents of a texture, as the pass that produced it. */
  datatype Field =
    | Previous(id: int)                 // left over from before this frame
    | Colour(inputs: FractalInputs)      // albedo written by the fractal kernel
    | Heights(inputs: FractalInputs)     // heights written by the fractal kernel
    | Blurred(axis: nat, source: Field)  // a blur pass along `axis` of `source`

  /** What the screen pass drew. */
  datatype Frame = Frame(albedo: Field, height: Field, resolution: (int, int), is3D: bool, isWhite: bool, sunAngle: real)

  /** The GPU state the commands act on: which texture each image unit and
      each texture unit holds, the contents of every texture, and the frames
      drawn so far. */
  datatype Gpu = Gpu(images: map<nat, Texture>, samplers: map<nat, Texture>, contents: map<Texture, Field>, shown: seq<Frame>)

  /** Whether a grid of work groups covers every texel of the textures,
      which all have the configured window size. */
  predicate CoversWindow(groupsX: nat, groupsY: nat)
  {
    groupsX * TileSize >= WindowWidth && groupsY * TileSize >= WindowHeight
  }

  /** The counts `GroupCount` gives for the window are the least grid that
      covers it: a grid covers the window exactly when it has at least that
      many groups along each axis. */
  lemma CoversWindowIff(groupsX: nat, groupsY: nat)
    ensures CoversWindow(groupsX, groupsY)
        <==> groupsX >= GroupCount(WindowWidth) && groupsY >= GroupCount(WindowHeight)
  {
  }

  /** The effect of one command; `None` when it uses a unit with no texture
      bound, reads a texture whose contents are unknown, or dispatches a grid
      that leaves part of the texture unwritten (those texels would keep
      their earlier contents, which a single `Field` cannot record). */
  function Apply(g: Gpu, c: Command): Option<Gpu>
  {
    match c
    case BindImage(t, u) => Some(g.(images := g.images[u := t]))
    case UseTexture(t, u) => Some(g.(samplers := g.samplers[u := t]))
    case RunFractal(gx, gy, a, h, p) =>
      if CoversWindow(gx, gy) && a in g.images && h in g.images then
        Some(g.(contents := g.contents[g.images[a] := Colour(p)][g.images[h] := Heights(p)]))
      else None
    case RunBlur(gx, gy, _, axis, s, t) =>
      if CoversWindow(gx, gy) && s in g.images && t in g.images && g.images[s] in g.contents then
        Some(g.(contents := g.contents[g.images[t] := Blurred(axis, g.contents[g.images[s]])]))
      else None
    case DrawScreen(a, h, res, is3D, isWhite, angle) =>
      if a in g.samplers && h in g.images && g.samplers[a] in g.contents && g.images[h] in g.contents then
        var frame := Frame(g.contents[g.samplers[a]], g.contents[g.images[h]], res, is3D, isWhite, angle);
        Some(g.(shown := g.shown + [frame]))
      else None
  }

  /** The effect of a sequence of commands. */
  function Run(g: Gpu, cs: seq<Command>): Option<Gpu>
    decreases |cs|
  {
    if cs == [] then Some(g)
    else
      match Apply(g, cs[0])
      case None => None
      case Some(next) => Run(next, cs[1..])
  }

  /** Running `a + b` is running `a`, then `b`. */
  lemma {:induction false} RunAppend(g: Gpu, a: seq<Command>, b: seq<Command>)
    ensures Run(g, a + b) == match Run(g, a) case None => None case Some(mid) => Run(mid, b)
    decreases |a|
  {
    if a != [] {
      assert (a + b)[0] == a[0] && (a + b)[1..] == a[1..] + b;
      match Apply(g, a[0])
      case None =>
      case Some(next) => RunAppend(next, a[1..], b);
    } else {
      assert a + b == b;
    }
  }

  /** The heights the screen pass should see: the fractal's own, or with
      blur on, the vertical blur of the horizontal blur of them. */
  function ExpectedHeights(p: FractalInputs, blur: bool): Field
  {
    if blur then Blurred(1, Blurred(0, Heights(p))) else Heights(p)
  }

  /** The fractal pass overwrites the albedo and height textures, whatever
      was bound or stored before. */
  lemma GenerateRun(g: Gpu, p: FractalInputs)
    ensures var r := Run(g, GenerateCommands(p));
      && r.Some?
      && r.value.images == g.images[0 := Albedo][1 := Height]
      && r.value.samplers == g.samplers && r.value.shown == g.shown
      && r.value.contents == g.contents[Albedo := Colour(p)][Height := Heights(p)]
  {
    var cs := GenerateCommands(p);
    var ga := g.(images := g.images[0 := Albedo]);
    var gb := ga.(images := ga.images[1 := Height]);
    var gc := gb.(contents := g.contents[Albedo := Colour(p)][Height := Heights(p)]);
    assert Apply(gb, cs[2]) == Some(gc);
    assert Run(gb, cs[2..]) == Some(gc) by { assert cs[2..][1..] == []; }
    assert Run(ga, cs[1..]) == Some(gc) by { assert cs[1..][1..] == cs[2..]; }
  }

  /** With heights on unit 1, the blur leaves the axis-1 blur of the axis-0
      blur of them in the height texture, without reading the swap texture's
      earlier contents. */
  lemma BlurRun(g: Gpu, resolution: (int, int))
    requires 1 in g.images && g.images[1] == Height && Height in g.contents
    ensures var r := Run(g, BlurCommands(resolution));
      && r.Some?
      && r.value.images == g.images[2 := HeightSwap]
      && r.value.samplers == g.samplers && r.value.shown == g.shown
      && r.value.contents == g.contents[HeightSwap := Blurred(0, g.contents[Height])]
                                       [Height := Blurred(1, Blurred(0, g.contents[Height]))]
  {
    var cs := BlurCommands(resolution);
    var h := g.contents[Height];
    var ga := g.(images := g.images[2 := HeightSwap]);
    var gb := ga.(contents := ga.contents[HeightSwap := Blurred(0, h)]);
    var gc := gb.(contents := gb.contents[Height := Blurred(1, Blurred(0, h))]);
    assert Apply(gb, cs[2]) == Some(gc);
    assert Run(gb, cs[2..]) == Some(gc) by { assert cs[2..][1..] == []; }
    assert Apply(ga, cs[1]) == Some(gb);
    assert Run(ga, cs[1..]) == Some(gc) by { assert cs[1..][1..] == cs[2..]; }
  }

  /** With albedo contents known and heights on image unit 1, the screen
      pass draws one frame from the albedo texture and the height texture. */
  lemma CompositeRun(g: Gpu, resolution: (int, int), is3D: bool, isWhite: bool, sunAngle: real)
    requires 1 in g.images && g.images[1] == Height && Height in g.contents && Albedo in g.contents
    ensures var r := Run(g, CompositeCommands(resolution, is3D, isWhite, sunAngle));
      && r.Some? && r.value.contents == g.contents
      && r.value.shown == g.shown + [Frame(g.contents[Albedo], g.contents[Height], resolution, is3D, isWhite, sunAngle)]
  {
    var cs := CompositeCommands(resolution, is3D, isWhite, sunAngle);
    var ga := g.(samplers := g.samplers[0 := Albedo]);
    var frame := Frame(g.contents[Albedo], g.contents[Height], resolution, is3D, isWhite, sunAngle);
    assert Apply(ga, cs[1]) == Some(ga.(shown := g.shown + [frame]));
    assert Run(ga, cs[1..]) == Some(ga.(shown := g.shown + [frame])) by { assert cs[1..][1..] == []; }
  }

  /** The frame's dataflow, from ANY earlier GPU state: the commands never
      fail, the screen pass draws exactly one frame from this frame's albedo
      and from this frame's heights (blurred along axis 0 then axis 1 when
      blur is on), so nothing left over from an earlier frame, the swap
      texture included, is ever read; and afterwards the height texture
      holds what was drawn. */
  lemma FrameDataflow(g: Gpu, toggled: set<int>, resolution: (int, int), camOffset: (real, real),
                      zoom: real, dotMass: real, totalTime: real)
    ensures var p := FractalInputs(resolution, camOffset, zoom, dotMass, Input.G in toggled);
      var heights := ExpectedHeights(p, Input.B in toggled);
      var r := Run(g, Schedule(toggled, resolution, camOffset, zoom, dotMass, totalTime));
      && r.Some?
      && r.value.shown == g.shown + [Frame(Colour(p), heights, resolution, Input.Number3 in toggled, Input.W in toggled, totalTime / 5.0)]
      && Height in r.value.contents && r.value.contents[Height] == heights
  {
    var p := FractalInputs(resolution, camOffset, zoom, dotMass, Input.G in toggled);
    var generate := GenerateCommands(p);
    var blur := if Input.B in toggled then BlurCommands(resolution) else [];
    var composite := CompositeCommands(resolution, Input.Number3 in toggled, Input.W in toggled, totalTime / 5.0);
    RunAppend(g, generate + blur, composite);
    RunAppend(g, generate, blur);
    GenerateRun(g, p);
    var g1 := Run(g, generate).value;
    assert g1.images[1] == Height && g1.contents[Height] == Heights(p) && g1.contents[Albedo] == Colour(p);
    if Input.B in toggled {
      BlurRun(g1, resolution);
    }
    var g2 := Run(g1, blur).value;
    assert g2.images[1] == Height && g2.contents[Albedo] == Colour(p) && g2.shown == g.shown;
    assert g2.contents[Height] == ExpectedHeights(p, Input.B in toggled);
    CompositeRun(g2, resolution, Input.Number3 in toggled, Input.W in toggled, totalTime / 5.0);
  }
}
