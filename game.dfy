/** The game's state and its event handlers: the view onto the global plane
    (screen size, origin, scale), the simulation step over the list of bodies,
    and the keyboard and mouse transitions of `GameInstance`.

    The engine's calls (screen coordinates, whether a mouse button is held,
    quitting) become parameters or are left out; `Body::update`, which
    integrates one body over a time step, is passed in as `bodyUpdate`. */
module Game {
  import opened Vectors
  import opened Bodies
  import opened Gravity

  datatype GameMode = Drag | Add

  /** The keys the handler distinguishes; `Other` stands for every other key. */
  datatype KeyCode = Q | P | Left | Right | Up | Down | A | D | Other

  // ---------------------------------------------------------------------
  // Screen ("local") and world ("global") coordinates

  /** The middle of a screen of the given (width, height). */
  function Center(size: (real, real)): Vec2 {
    Vec2(size.0 / 2.0, size.1 / 2.0)
  }

  /** The world point under screen point `pos`, for a view of the given size
      whose centre shows `origin` and where one pixel spans `scale` units. */
  function LocalToGlobal(size: (real, real), origin: Vec2, scale: real, pos: Vec2): (r: Vec2)
    ensures pos == Center(size) ==> r == origin
    ensures scale == 0.0 ==> r == origin
  {
    var c := Center(size);
    Vec2(origin.x + (pos.x - c.x) * scale, origin.y + (pos.y - c.y) * scale)
  }

  /** The screen point showing world point `pos`. */
  function GlobalToLocal(size: (real, real), origin: Vec2, scale: real, pos: Vec2): (r: Vec2)
    requires scale != 0.0
    ensures pos == origin ==> r == Center(size)
  {
    var c := Center(size);
    Vec2(c.x + (pos.x - origin.x) / scale, c.y + (pos.y - origin.y) / scale)
  }

  lemma MulDivCancel(q: real, s: real)
    requires s != 0.0
    ensures (q * s) / s == q && (q / s) * s == q
  {
  }

  /** Converting a screen point to the world and back gives the same point. */
  lemma LocalGlobalRoundTrip(size: (real, real), origin: Vec2, scale: real, pos: Vec2)
    requires scale != 0.0
    ensures GlobalToLocal(size, origin, scale, LocalToGlobal(size, origin, scale, pos)) == pos
  {
    var c := Center(size);
    MulDivCancel(pos.x - c.x, scale);
    MulDivCancel(pos.y - c.y, scale);
  }

  /** Converting a world point to the screen and back gives the same point. */
  lemma GlobalLocalRoundTrip(size: (real, real), origin: Vec2, scale: real, pos: Vec2)
    requires scale != 0.0
    ensures LocalToGlobal(size, origin, scale, GlobalToLocal(size, origin, scale, pos)) == pos
  {
    MulDivCancel(pos.x - origin.x, scale);
    MulDivCancel(pos.y - origin.y, scale);
  }

  lemma ShiftDiv(q: real, d: real, s: real)
    requires s != 0.0
    ensures (q - (-d * s)) / s == q / s + d
  {
    assert q - (-d * s) == q + d * s;
    assert (q + d * s) / s == q / s + (d * s) / s;
    MulDivCancel(d, s);
  }

  /** A drag by (dx, dy) pixels, which moves the origin by (-dx, -dy) times the
      scale, moves every world point by exactly (dx, dy) on the screen: the
      plane follows the mouse. */
  lemma DragFollowsMouse(size: (real, real), origin: Vec2, scale: real, dx: real, dy: real, pos: Vec2)
    requires scale != 0.0
    ensures GlobalToLocal(size, Vectors.Add(origin, Vec2(-dx * scale, -dy * scale)), scale, pos)
         == Vectors.Add(GlobalToLocal(size, origin, scale, pos), Vec2(dx, dy))
  {
    ShiftDiv(pos.x - origin.x, dx, scale);
    ShiftDiv(pos.y - origin.y, dy, scale);
  }

  /** Halving the scale zooms in about the screen centre: every screen point
      shows a world point half as far from the origin as before. */
  lemma HalvingScaleZoomsIn(size: (real, real), origin: Vec2, scale: real, pos: Vec2)
    ensures Sub(LocalToGlobal(size, origin, scale / 2.0, pos), origin)
         == Scale(0.5, Sub(LocalToGlobal(size, origin, scale, pos), origin))
  {
    var c := Center(size);
    assert (pos.x - c.x) * (scale / 2.0) == 0.5 * ((pos.x - c.x) * scale);
    assert (pos.y - c.y) * (scale / 2.0) == 0.5 * ((pos.y - c.y) * scale);
  }

  // ---------------------------------------------------------------------
  // Keyboard controls

  /** The part of the state the keyboard acts on: the game's mode, pause flag,
      time step and scale, and the UI's last zoom factor. */
  datatype Controls = Controls(mode: GameMode, paused: bool, dt: real, scale: real, scaleChange: real)

  /** The effect of one key press. */
  function OnKey(c: Controls, key: KeyCode): Controls {
    match key
    case P => if c.mode == Drag then c.(paused := !c.paused) else c
    case Left => c.(dt := c.dt / 2.0)
    case Right => c.(dt := c.dt * 2.0)
    case Up => c.(scale := c.scale / 2.0, scaleChange := 0.5)
    case Down => c.(scale := c.scale * 2.0, scaleChange := 2.0)
    case A => c.(paused := if c.mode != Add then true else c.paused, mode := Add)
    case D => c.(paused := if c.mode != Drag then false else c.paused, mode := Drag)
    case Q => c
    case Other => c
  }

  /** The effect of a sequence of key presses, first to last. */
  function OnKeys(c: Controls, keys: seq<KeyCode>): Controls
    decreases |keys|
  {
    if keys == [] then c else OnKeys(OnKey(c, keys[0]), keys[1..])
  }

  /** The state every handler keeps: a positive time step and scale, and a
      simulation that stands still while bodies are being added. */
  predicate Steady(c: Controls) {
    c.dt > 0.0 && c.scale > 0.0 && (c.mode == Add ==> c.paused)
  }

  /** Every key keeps the controls steady. */
  lemma OnKeyKeepsSteady(c: Controls, key: KeyCode)
    requires Steady(c)
    ensures Steady(OnKey(c, key))
  {
  }

  /** Any sequence of keys keeps the controls steady. */
  lemma {:induction false} OnKeysKeepsSteady(c: Controls, keys: seq<KeyCode>)
    requires Steady(c)
    ensures Steady(OnKeys(c, keys))
    decreases |keys|
  {
    if keys != [] {
      OnKeyKeepsSteady(c, keys[0]);
      OnKeysKeepsSteady(OnKey(c, keys[0]), keys[1..]);
    }
  }

  /** Keys that leave the controls as they are: pausing while adding bodies,
      quitting (which ends the program instead) and every key not bound. */
  lemma InertKeys(c: Controls)
    ensures OnKey(c, Q) == c && OnKey(c, Other) == c
    ensures c.mode == Add ==> OnKey(c, P) == c
  {
  }

  /** P toggles the pause flag in drag mode, so pressing it twice undoes it. */
  lemma PauseToggles(c: Controls)
    requires c.mode == Drag
    ensures OnKey(c, P).paused == !c.paused
    ensures OnKey(OnKey(c, P), P) == c
  {
  }

  /** Left halves and Right doubles the time step; each undoes the other. */
  lemma TimeStepKeysUndoEachOther(c: Controls)
    ensures OnKey(c, Left).dt * 2.0 == c.dt && OnKey(c, Right).dt == c.dt * 2.0
    ensures OnKey(OnKey(c, Left), Right) == c
    ensures OnKey(OnKey(c, Right), Left) == c
  {
  }

  /** Up halves and Down doubles the scale, recording the factor for the UI;
      each undoes the other's effect on the scale. */
  lemma ZoomKeysUndoEachOther(c: Controls)
    ensures OnKey(c, Up).scale * 2.0 == c.scale && OnKey(c, Up).scaleChange == 0.5
    ensures OnKey(c, Down).scale == c.scale * 2.0 && OnKey(c, Down).scaleChange == 2.0
    ensures OnKey(OnKey(c, Up), Down) == c.(scaleChange := 2.0)
    ensures OnKey(OnKey(c, Down), Up) == c.(scaleChange := 0.5)
  {
  }

  /** A enters add mode, pausing only on entry; D enters drag mode, resuming
      only on entry; pressing either twice is the same as pressing it once. */
  lemma ModeKeys(c: Controls)
    ensures OnKey(c, A).mode == Add && OnKey(c, D).mode == Drag
    ensures OnKey(c, A).paused == (c.mode == Drag || c.paused)
    ensures OnKey(c, D).paused == (c.mode == Drag && c.paused)
    ensures OnKey(OnKey(c, A), A) == OnKey(c, A)
    ensures OnKey(OnKey(c, D), D) == OnKey(c, D)
  {
  }

  /** Adding bodies from drag mode and returning leaves the simulation running,
      whether or not it was paused before. */
  lemma AddThenDragResumes(c: Controls)
    requires c.mode == Drag
    ensures OnKey(OnKey(c, A), D) == c.(paused := false)
  {
  }

  // ---------------------------------------------------------------------
  // The simulation step

  /** Every body advanced over `dt` by `bodyUpdate`, in order. */
  function Integrated(bodyUpdate: (Body, real) -> Body, bs: seq<Body>, dt: real): seq<Body> {
    seq(|bs|, k requires 0 <= k < |bs| => bodyUpdate(bs[k], dt))
  }

  /** The bodies once the accumulation loop has run outer iterations
      `0 .. i-1`: each of the first `i` bodies holds the pulls of the others
      among them. */
  ghost function RowsDone(pull: (Body, Body) -> Vec2, bs: seq<Body>, i: nat): seq<Body>
    requires i <= |bs|
  {
    seq(|bs|, k requires 0 <= k < |bs| =>
      bs[k].(a := Vectors.Add(bs[k].a, if k < i then NetPull(pull, bs, k, i) else Zero)))
  }

  /** The bodies once, in outer iteration `i`, inner steps `0 .. j-1` have run:
      bodies before `j` also hold the pull of body `i`, and body `i` holds the
      pulls of bodies before `j`. */
  ghost function PairsDone(pull: (Body, Body) -> Vec2, bs: seq<Body>, i: nat, j: nat): seq<Body>
    requires j <= i < |bs|
  {
    seq(|bs|, k requires 0 <= k < |bs| =>
      bs[k].(a := Vectors.Add(bs[k].a,
        if k < j then NetPull(pull, bs, k, i + 1)
        else if k < i then NetPull(pull, bs, k, i)
        else if k == i then NetPull(pull, bs, i, j)
        else Zero)))
  }

  lemma NoRowsDone(pull: (Body, Body) -> Vec2, bs: seq<Body>)
    ensures RowsDone(pull, bs, 0) == bs
  {
    var r := RowsDone(pull, bs, 0);
    forall k | 0 <= k < |bs| ensures r[k] == bs[k] {
      assert Vectors.Add(bs[k].a, Zero) == bs[k].a;
    }
  }

  lemma AllRowsDone(pull: (Body, Body) -> Vec2, bs: seq<Body>)
    ensures RowsDone(pull, bs, |bs|) == Accumulated(pull, bs)
  {
  }

  lemma RowStarts(pull: (Body, Body) -> Vec2, bs: seq<Body>, i: nat)
    requires i < |bs|
    ensures PairsDone(pull, bs, i, 0) == RowsDone(pull, bs, i)
  {
  }

  lemma RowEnds(pull: (Body, Body) -> Vec2, bs: seq<Body>, i: nat)
    requires i < |bs|
    ensures PairsDone(pull, bs, i, i) == RowsDone(pull, bs, i + 1)
  {
    NetPullSkipsSelf(pull, bs, i);
  }

  /** One inner step: body `i` gains its pull towards body `j`, then body `j`
      gains its pull towards (the updated) body `i`. */
  lemma PairStep(trig: Trig, bs: seq<Body>, i: nat, j: nat, cur: seq<Body>, bi: Body, bj: Body)
    requires j < i < |bs| && cur == PairsDone(PullLaw(trig), bs, i, j)
    requires bi == cur[i].(a := Vectors.Add(cur[i].a, AccelTowards(trig, cur[i], cur[j])))
    requires bj == cur[j].(a := Vectors.Add(cur[j].a, AccelTowards(trig, cur[j], bi)))
    ensures cur[i := bi][j := bj] == PairsDone(PullLaw(trig), bs, i, j + 1)
  {
    var next := PairsDone(PullLaw(trig), bs, i, j + 1);
    AccelReadsOnly(trig, bs[i], bs[j], cur[i], cur[j]);
    NetPullStep(trig, bs, i, j);
    assert bi == next[i];
    AccelReadsOnly(trig, bs[j], bs[i], cur[j], bi);
    NetPullStep(trig, bs, j, i);
    assert bj == next[j];
    var r := cur[i := bi][j := bj];
    forall k | 0 <= k < |bs| ensures r[k] == next[k] {
    }
  }

  class GameState {
    var size: (real, real)
    var origin: Vec2
    var scale: real
    var bodies: seq<Body>
    var dt: real
    var paused: bool
    var mode: GameMode

    /** A running drag-mode game with no bodies, its view centred on the
        world origin at 1e9 units per pixel and a time step of 8192 s. */
    constructor (screenWidth: real, screenHeight: real)
      ensures size == (screenWidth, screenHeight) && origin == Zero && scale == 1e9
      ensures bodies == [] && dt == 8192.0 && !paused && mode == Drag
    {
      size := (screenWidth, screenHeight);
      origin := Zero;
      scale := 1e9;
      bodies := [];
      dt := 8192.0;
      paused := false;
      mode := Drag;
    }

    /** Appends one white body at rest with respect to acceleration. */
    method AddBody(mass: real, pos: Vec2, v: Vec2)
      modifies this`bodies
      ensures bodies == old(bodies) + [Body(mass, pos, v, Zero, White)]
    {
      bodies := bodies + [Body(mass, pos, v, Zero, White)];
    }

    /** One simulation step: the accumulation pass, then every body advanced
        over `dt`. */
    method UpdateBodies(trig: Trig, bodyUpdate: (Body, real) -> Body)
      modifies this`bodies
      ensures bodies == Integrated(bodyUpdate, Accumulated(PullLaw(trig), old(bodies)), dt)
    {
      AccumulateAccelerations(trig);
      AdvanceBodies(bodyUpdate);
    }

    /** With at least two bodies, every unordered pair adds each body's pull
        towards the other to that body's acceleration. */
    method AccumulateAccelerations(trig: Trig)
      modifies this`bodies
      ensures bodies == Accumulated(PullLaw(trig), old(bodies))
    {
      ghost var b0 := bodies;
      var n := |bodies|;
      if n >= 2 {
        NoRowsDone(PullLaw(trig), b0);
        var i := 0;
        while i < n
          invariant i <= n && bodies == RowsDone(PullLaw(trig), b0, i)
        {
          PullRow(trig, i, b0);
          i := i + 1;
        }
        assert i == n;
        AllRowsDone(PullLaw(trig), b0);
      } else {
        FewerThanTwoAddsNothing(PullLaw(trig), b0);
        assert bodies == Accumulated(PullLaw(trig), b0);
      }
    }

    /** Outer iteration `i` of the accumulation pass: body `i` and each body
        before it add their pulls towards each other, in index order. */
    method PullRow(trig: Trig, i: nat, ghost b0: seq<Body>)
      requires i < |b0| && bodies == RowsDone(PullLaw(trig), b0, i)
      modifies this`bodies
      ensures bodies == RowsDone(PullLaw(trig), b0, i + 1)
    {
      RowStarts(PullLaw(trig), b0, i);
      var j := 0;
      while j < i
        invariant j <= i && bodies == PairsDone(PullLaw(trig), b0, i, j)
      {
        PullPair(trig, i, j, b0);
        j := j + 1;
      }
      RowEnds(PullLaw(trig), b0, i);
      assert bodies == RowsDone(PullLaw(trig), b0, i + 1);
    }

    /** Inner step `j` of outer iteration `i`: body `i` adds its pull towards
        body `j`, then body `j` its pull towards the updated body `i`. */
    method PullPair(trig: Trig, i: nat, j: nat, ghost b0: seq<Body>)
      requires j < i < |b0| && bodies == PairsDone(PullLaw(trig), b0, i, j)
      modifies this`bodies
      ensures bodies == PairsDone(PullLaw(trig), b0, i, j + 1)
    {
      ghost var cur := bodies;
      var b, b' := bodies[i], bodies[j];
      b := b.(a := Vectors.Add(b.a, AccelTowards(trig, b, b')));
      bodies := bodies[i := b];
      b' := b'.(a := Vectors.Add(b'.a, AccelTowards(trig, b', b)));
      bodies := bodies[j := b'];
      PairStep(trig, b0, i, j, cur, b, b');
    }

    /** Every body advanced over `dt` by `bodyUpdate`, in place. */
    method AdvanceBodies(bodyUpdate: (Body, real) -> Body)
      modifies this`bodies
      ensures bodies == Integrated(bodyUpdate, old(bodies), dt)
    {
      ghost var b0 := bodies;
      var k := 0;
      while k < |bodies|
        invariant k <= |bodies| == |b0|
        invariant forall m :: 0 <= m < |b0| ==> bodies[m] == if m < k then bodyUpdate(b0[m], dt) else b0[m]
      {
        bodies := bodies[k := bodyUpdate(bodies[k], dt)];
        k := k + 1;
      }
      assert bodies == Integrated(bodyUpdate, b0, dt);
    }
  }

  /** The fields of the UI state the game's handlers touch. */
  class UiState {
    var mousePos: Vec2
    var scaleChange: real
    var showAddBody: bool

    constructor ()
      ensures mousePos == Zero && scaleChange == 1.0 && !showAddBody
    {
      mousePos := Zero;
      scaleChange := 1.0;
      showAddBody := false;
    }
  }

  class GameInstance {
    const game: GameState
    const ui: UiState

    ghost predicate Valid()
      reads this, game, ui
    {
      Steady(ControlState())
    }

    function ControlState(): Controls
      reads this, game, ui
    {
      Controls(game.mode, game.paused, game.dt, game.scale, ui.scaleChange)
    }

    /** Where a world point is drawn on the screen, as `draw_body` places
        each body; the steady invariant keeps the scale positive, so the
        conversion is always defined. */
    function ScreenPosition(pos: Vec2): (r: Vec2)
      reads this, game, ui
      requires Valid()
      ensures pos == game.origin ==> r == Center(game.size)
      ensures LocalToGlobal(game.size, game.origin, game.scale, r) == pos
    {
      GlobalLocalRoundTrip(game.size, game.origin, game.scale, pos);
      GlobalToLocal(game.size, game.origin, game.scale, pos)
    }

    constructor (screenWidth: real, screenHeight: real)
      ensures Valid() && fresh(game) && fresh(ui)
      ensures game.size == (screenWidth, screenHeight) && game.origin == Zero && game.bodies == []
      ensures ControlState() == Controls(Drag, false, 8192.0, 1e9, 1.0)
      ensures ui.mousePos == Zero && !ui.showAddBody
    {
      game := new GameState(screenWidth, screenHeight);
      ui := new UiState();
    }

    /** Runs one simulation step unless paused; while paused the bodies do
        not move. */
    method Update(trig: Trig, bodyUpdate: (Body, real) -> Body)
      modifies game`bodies
      ensures old(Valid()) ==> Valid()
      ensures old(game.paused) ==> game.bodies == old(game.bodies)
      ensures !old(game.paused) ==> game.bodies == Integrated(bodyUpdate, Accumulated(PullLaw(trig), old(game.bodies)), game.dt)
    {
      if !game.paused {
        game.UpdateBodies(trig, bodyUpdate);
      }
    }

    /** A key press acts on the controls as `OnKey` says and on nothing else:
        the view's origin, the bodies and the rest of the UI state stay. */
    method KeyDown(key: KeyCode)
      modifies game`paused, game`mode, game`dt, game`scale, ui`scaleChange
      ensures ControlState() == OnKey(old(ControlState()), key)
      ensures old(Valid()) ==> Valid()
    {
      if Valid() {
        OnKeyKeepsSteady(ControlState(), key);
      }
      match key {
        case Q =>
        case P =>
          if game.mode == Drag {
            game.paused := !game.paused;
          }
        case Left => game.dt := game.dt / 2.0;
        case Right => game.dt := game.dt * 2.0;
        case Up =>
          game.scale := game.scale / 2.0;
          ui.scaleChange := 0.5;
        case Down =>
          game.scale := game.scale * 2.0;
          ui.scaleChange := 2.0;
        case A =>
          if game.mode != Add {
            game.paused := true;
          }
          game.mode := Add;
        case D =>
          if game.mode != Drag {
            game.paused := false;
          }
          game.mode := Drag;
        case Other =>
      }
    }

    /** In add mode, with no add-body dialog open, a click opens it and
        remembers where the click was; otherwise nothing changes. */
    method MouseButtonDown(x: real, y: real)
      modifies ui`showAddBody, ui`mousePos
      ensures old(Valid()) ==> Valid()
      ensures old(game.mode == Add && !ui.showAddBody) ==> ui.showAddBody && ui.mousePos == Vec2(x, y)
      ensures !old(game.mode == Add && !ui.showAddBody) ==> ui.showAddBody == old(ui.showAddBody) && ui.mousePos == old(ui.mousePos)
    {
      if game.mode == Add && !ui.showAddBody {
        ui.showAddBody := true;
        ui.mousePos := Vec2(x, y);
      }
    }

    /** Moving the mouse by (dx, dy) with the left button held in drag mode
        pans the view so that the plane follows the pointer (see
        `DragFollowsMouse`); otherwise the origin stays. */
    method MouseMotion(dx: real, dy: real, leftPressed: bool)
      modifies game`origin
      ensures old(Valid()) ==> Valid()
      ensures game.origin == if old(game.mode) == Drag && leftPressed
                             then Vectors.Add(old(game.origin), Vec2(-dx * game.scale, -dy * game.scale))
                             else old(game.origin)
    {
      if game.mode == Drag && leftPressed {
        game.origin := Vectors.Add(game.origin, Vec2(-dx * game.scale, -dy * game.scale));
      }
    }
  }
}
