/**
  The `GameEngine` class reduced to what its decision layer can see: which
  components exist, the look-at target of the primary camera controls, the
  aim and frustum of the orthographic camera, the character roots, the
  renderer sizes and the Input State. Scenes, materials, effects and the
  character loader are external collaborators and appear only as present
  or absent.
 */
module GameEngine {
  import opened Wrappers
  import opened Input
  import opened Director

  /** The camera-controls object of the primary view and the pose it was last sent to. */
  datatype CameraControls = CameraControls(target: LookAt)

  datatype PerspectiveCamera = PerspectiveCamera(aspect: real)

  /** The secondary camera: its frustum bounds and the point it looks at. */
  datatype OrthographicCamera = OrthographicCamera(left: real, right: real, top: real, bottom: real, aim: Vec3)

  datatype Renderer = Renderer(width: nat, height: nat)

  datatype Character = Character(root: Vec3)

  datatype Engine = Engine(
    input: InputState,
    listeners: nat,
    camera3D: Option<PerspectiveCamera>,
    renderer3D: Option<Renderer>,
    controls3D: Option<CameraControls>,
    cameraClock3D: bool,
    composer3D: bool,
    camera2D: Option<OrthographicCamera>,
    renderer2D: Option<Renderer>,
    composer2D: bool,
    character3D: Option<Character>,
    character2D: Option<Character>,
    character3DClock: bool,
    character2DClock: bool,
    stats: bool)

  // ---------------------------------------------------------------------------
  // Frame tick
  // ---------------------------------------------------------------------------

  /** What one frame can do, in the order `animateFrame` does it. */
  datatype Step =
    | ScheduleNext        // requestAnimationFrame(animateFrame)
    | AimPrimary          // setLookAt on the primary camera controls
    | AimSecondary        // lookAt on the orthographic camera
    | UpdateControls      // camera-controls easing by its clock's delta
    | UpdateCharacter3D
    | UpdateCharacter2D
    | UpdateStats
    | Render3D
    | Render2D

  /** The fixed order of the steps within a frame. */
  const StepOrder: seq<Step> :=
    [ScheduleNext, AimPrimary, AimSecondary, UpdateControls, UpdateCharacter3D,
     UpdateCharacter2D, UpdateStats, Render3D, Render2D]

  function Rank(st: Step): nat
  {
    match st
    case ScheduleNext => 0
    case AimPrimary => 1
    case AimSecondary => 2
    case UpdateControls => 3
    case UpdateCharacter3D => 4
    case UpdateCharacter2D => 5
    case UpdateStats => 6
    case Render3D => 7
    case Render2D => 8
  }

  /** The nullable fields of the engine that guard a step. */
  datatype Component =
    | ControlsC | CameraClockC | Camera2DC | Character3DC | Character2DC
    | Character3DClockC | Character2DClockC | StatsC | Composer3DC | Composer2DC

  function Present(e: Engine, c: Component): bool
  {
    match c
    case ControlsC => e.controls3D.Some?
    case CameraClockC => e.cameraClock3D
    case Camera2DC => e.camera2D.Some?
    case Character3DC => e.character3D.Some?
    case Character2DC => e.character2D.Some?
    case Character3DClockC => e.character3DClock
    case Character2DClockC => e.character2DClock
    case StatsC => e.stats
    case Composer3DC => e.composer3D
    case Composer2DC => e.composer2D
  }

  /**
    The components each step needs. Both camera steps read the root of
    `character3D`: the orthographic camera follows the 3D character, not
    the 2D one.
   */
  function Guards(st: Step): set<Component>
  {
    match st
    case ScheduleNext => {}
    case AimPrimary => {ControlsC, Character3DC}
    case AimSecondary => {Camera2DC, Character3DC}
    case UpdateControls => {ControlsC, CameraClockC}
    case UpdateCharacter3D => {Character3DC, Character3DClockC}
    case UpdateCharacter2D => {Character2DC, Character2DClockC}
    case UpdateStats => {StatsC}
    case Render3D => {Composer3DC}
    case Render2D => {Composer2DC}
  }

  /** The two camera steps are further gated on movement intent. */
  predicate NeedsMovement(st: Step)
  {
    st == AimPrimary || st == AimSecondary
  }

  /** Whether a step runs in a frame of `e`: every guard present, and movement if it needs it. */
  predicate Runs(e: Engine, st: Step)
  {
    (forall c :: c in Guards(st) ==> Present(e, c)) && (NeedsMovement(st) ==> IsMoving(e.input))
  }

  /** The steps of `order` that run in a frame of `e`, order kept. */
  function Filter(order: seq<Step>, e: Engine): seq<Step>
    decreases |order|
  {
    if order == [] then []
    else Filter(order[..|order| - 1], e) + (if Runs(e, order[|order| - 1]) then [order[|order| - 1]] else [])
  }

  /** The reference schedule of a frame: the fixed order with the skipped steps removed. */
  function Scheduled(e: Engine): seq<Step>
  {
    Filter(StepOrder, e)
  }

  /** The outcome of one frame: the new engine state and the steps that ran. */
  datatype Frame = Frame(engine: Engine, trace: seq<Step>)

  /**
    One call of `animateFrame`. The camera director reads the character
    root before the character steps run; the effects of the external steps
    (controls easing, character locomotion, stats, rendering) are recorded
    in the trace only.
   */
  function AnimateFrame(e: Engine): (r: Frame)
    ensures r.trace == Scheduled(e)
    ensures Runs(e, AimPrimary) ==>
      e.character3D.Some? && r.engine.controls3D == Some(CameraControls(FollowTarget(e.character3D.value.root)))
    ensures !Runs(e, AimPrimary) ==> r.engine.controls3D == e.controls3D
    ensures Runs(e, AimSecondary) ==>
      e.camera2D.Some? && e.character3D.Some? && r.engine.camera2D == Some(e.camera2D.value.(aim := e.character3D.value.root))
    ensures !Runs(e, AimSecondary) ==> r.engine.camera2D == e.camera2D
    ensures r.engine == e.(controls3D := r.engine.controls3D, camera2D := r.engine.camera2D)
  {
    var moving := IsMoving(e.input);
    var aimPrimary := e.controls3D.Some? && e.character3D.Some? && moving;
    var controls3D := if aimPrimary then Some(e.controls3D.value.(target := FollowTarget(e.character3D.value.root))) else e.controls3D;
    var aimSecondary := e.camera2D.Some? && e.character3D.Some? && moving;
    var camera2D := if aimSecondary then Some(e.camera2D.value.(aim := e.character3D.value.root)) else e.camera2D;
    var trace := [ScheduleNext]
      + (if aimPrimary then [AimPrimary] else [])
      + (if aimSecondary then [AimSecondary] else [])
      + (if e.controls3D.Some? && e.cameraClock3D then [UpdateControls] else [])
      + (if e.character3D.Some? && e.character3DClock then [UpdateCharacter3D] else [])
      + (if e.character2D.Some? && e.character2DClock then [UpdateCharacter2D] else [])
      + (if e.stats then [UpdateStats] else [])
      + (if e.composer3D then [Render3D] else [])
      + (if e.composer2D then [Render2D] else []);
    ScheduledUnfolds(e);
    RunsTable(e);
    Frame(e.(controls3D := controls3D, camera2D := camera2D), trace)
  }

  /** Whether each step runs, written out field by field. */
  lemma RunsTable(e: Engine)
    ensures Runs(e, ScheduleNext)
    ensures Runs(e, AimPrimary) <==> e.controls3D.Some? && e.character3D.Some? && IsMoving(e.input)
    ensures Runs(e, AimSecondary) <==> e.camera2D.Some? && e.character3D.Some? && IsMoving(e.input)
    ensures Runs(e, UpdateControls) <==> e.controls3D.Some? && e.cameraClock3D
    ensures Runs(e, UpdateCharacter3D) <==> e.character3D.Some? && e.character3DClock
    ensures Runs(e, UpdateCharacter2D) <==> e.character2D.Some? && e.character2DClock
    ensures Runs(e, UpdateStats) <==> e.stats
    ensures Runs(e, Render3D) <==> e.composer3D
    ensures Runs(e, Render2D) <==> e.composer2D
  {
    assert Guards(AimPrimary) == {ControlsC, Character3DC};
    assert Guards(AimSecondary) == {Camera2DC, Character3DC};
    assert Guards(UpdateControls) == {ControlsC, CameraClockC};
    assert Guards(UpdateCharacter3D) == {Character3DC, Character3DClockC};
    assert Guards(UpdateCharacter2D) == {Character2DC, Character2DClockC};
  }

  lemma FilterSnoc(order: seq<Step>, st: Step, e: Engine)
    ensures Filter(order + [st], e) == Filter(order, e) + (if Runs(e, st) then [st] else [])
  {
    assert (order + [st])[..|order|] == order;
  }

  /** The reference schedule spelled out one step at a time. */
  lemma ScheduledUnfolds(e: Engine)
    ensures Scheduled(e) ==
      [ScheduleNext]
      + (if e.controls3D.Some? && e.character3D.Some? && IsMoving(e.input) then [AimPrimary] else [])
      + (if e.camera2D.Some? && e.character3D.Some? && IsMoving(e.input) then [AimSecondary] else [])
      + (if e.controls3D.Some? && e.cameraClock3D then [UpdateControls] else [])
      + (if e.character3D.Some? && e.character3DClock then [UpdateCharacter3D] else [])
      + (if e.character2D.Some? && e.character2DClock then [UpdateCharacter2D] else [])
      + (if e.stats then [UpdateStats] else [])
      + (if e.composer3D then [Render3D] else [])
      + (if e.composer2D then [Render2D] else [])
  {
    RunsTable(e);
    var p0: seq<Step> := [];
    var p1 := p0 + [ScheduleNext];
    var p2 := p1 + [AimPrimary];
    var p3 := p2 + [AimSecondary];
    var p4 := p3 + [UpdateControls];
    var p5 := p4 + [UpdateCharacter3D];
    var p6 := p5 + [UpdateCharacter2D];
    var p7 := p6 + [UpdateStats];
    var p8 := p7 + [Render3D];
    var p9 := p8 + [Render2D];
    assert p9 == StepOrder;
    FilterSnoc(p0, ScheduleNext, e);
    FilterSnoc(p1, AimPrimary, e);
    FilterSnoc(p2, AimSecondary, e);
    FilterSnoc(p3, UpdateControls, e);
    FilterSnoc(p4, UpdateCharacter3D, e);
    FilterSnoc(p5, UpdateCharacter2D, e);
    FilterSnoc(p6, UpdateStats, e);
    FilterSnoc(p7, Render3D, e);
    FilterSnoc(p8, Render2D, e);
    assert Filter(p1, e) == [ScheduleNext];
  }

  /** Strictly increasing in the fixed step order. */
  predicate InOrder(t: seq<Step>)
  {
    forall i, j :: 0 <= i < j < |t| ==> Rank(t[i]) < Rank(t[j])
  }

  lemma StepOrderInOrder()
    ensures InOrder(StepOrder)
    ensures forall st: Step :: st in StepOrder
  {
    forall st: Step ensures st in StepOrder {
      assert StepOrder[Rank(st)] == st;
    }
  }

  /** The filter keeps exactly the steps of `order` that run. */
  lemma {:induction false} FilterMembers(order: seq<Step>, e: Engine, st: Step)
    ensures st in Filter(order, e) <==> st in order && Runs(e, st)
    decreases |order|
  {
    if order != [] {
      var init := order[..|order| - 1];
      assert order == init + [order[|order| - 1]];
      FilterMembers(init, e, st);
    }
  }

  /** The filter keeps the order of the steps it keeps. */
  lemma {:induction false} FilterInOrder(order: seq<Step>, e: Engine)
    requires InOrder(order)
    ensures InOrder(Filter(order, e))
    decreases |order|
  {
    if order != [] {
      var init, last := order[..|order| - 1], order[|order| - 1];
      assert InOrder(init);
      FilterInOrder(init, e);
      var t := Filter(order, e);
      if Runs(e, last) {
        forall i | 0 <= i < |t| - 1 ensures Rank(t[i]) < Rank(last) {
          FilterMembers(init, e, t[i]);
          var k :| 0 <= k < |init| && init[k] == t[i];
          assert order[k] == t[i];
        }
      }
    }
  }

  /**
    In one frame the steps run in the fixed order, and a step runs exactly
    when all of its guards are present (and, for the two camera steps, the
    character is moving). `AnimateFrame` returns this schedule as its trace.
   */
  lemma FrameStepsInFixedOrder(e: Engine)
    ensures InOrder(Scheduled(e))
    ensures forall st :: st in Scheduled(e) <==> Runs(e, st)
  {
    StepOrderInOrder();
    FilterInOrder(StepOrder, e);
    forall st ensures st in Scheduled(e) <==> Runs(e, st) {
      FilterMembers(StepOrder, e, st);
    }
  }

  /** The engine with one nullable component cleared. */
  function Without(e: Engine, c: Component): (r: Engine)
    ensures !Present(r, c)
    ensures forall d :: d != c ==> Present(r, d) == Present(e, d)
    ensures r.input == e.input
  {
    match c
    case ControlsC => e.(controls3D := None)
    case CameraClockC => e.(cameraClock3D := false)
    case Camera2DC => e.(camera2D := None)
    case Character3DC => e.(character3D := None)
    case Character2DC => e.(character2D := None)
    case Character3DClockC => e.(character3DClock := false)
    case Character2DClockC => e.(character2DClock := false)
    case StatsC => e.(stats := false)
    case Composer3DC => e.(composer3D := false)
    case Composer2DC => e.(composer2D := false)
  }

  /**
    A missing component skips only the steps it guards: every other step of
    the frame still runs, so a null component never aborts the rest.
   */
  lemma MissingComponentSkipsOnlyItsSteps(e: Engine, c: Component, st: Step)
    ensures st in Scheduled(Without(e, c)) <==> st in Scheduled(e) && c !in Guards(st)
  {
    FrameStepsInFixedOrder(e);
    FrameStepsInFixedOrder(Without(e, c));
    RunsWithout(e, c, st);
  }

  lemma RunsWithout(e: Engine, c: Component, st: Step)
    ensures Runs(Without(e, c), st) <==> Runs(e, st) && c !in Guards(st)
  {
    var w := Without(e, c);
    if c !in Guards(st) {
      assert forall d :: d in Guards(st) ==> Present(w, d) == Present(e, d);
    }
  }

  /**
    With no flag set a frame issues neither `setLookAt` nor `lookAt`: the
    controls' target and the orthographic camera's aim stay as they were.
    The controls' own easing step still runs; its effect is external.
   */
  lemma IdleFrameHoldsCameras(e: Engine)
    requires !IsMoving(e.input)
    ensures AnimateFrame(e).engine == e
    ensures AimPrimary !in AnimateFrame(e).trace && AimSecondary !in AnimateFrame(e).trace
  {
    FrameStepsInFixedOrder(e);
  }

  /**
    Only `character3D` is followed: the 2D character, present or not, has
    no influence on where either camera is sent.
   */
  lemma CamerasFollowCharacter3D(e: Engine, other: Option<Character>)
    ensures AnimateFrame(e.(character2D := other)).engine.controls3D == AnimateFrame(e).engine.controls3D
    ensures AnimateFrame(e.(character2D := other)).engine.camera2D == AnimateFrame(e).engine.camera2D
  {
    RunsTable(e);
    RunsTable(e.(character2D := other));
  }

  // ---------------------------------------------------------------------------
  // Construction
  // ---------------------------------------------------------------------------

  /** The frustum half-height of the orthographic camera. */
  const FrustumSize: real := 2.0

  /** The orthographic camera for a viewport of the given aspect ratio. */
  function OrthoFrustum(aspect: real, aim: Vec3): (r: OrthographicCamera)
    ensures r.left == -r.right
    ensures r.top == FrustumSize && r.bottom == -r.top
    ensures r.right - r.left == (r.top - r.bottom) * aspect
    ensures r.aim == aim
  {
    OrthographicCamera(-FrustumSize * aspect, FrustumSize * aspect, FrustumSize, -FrustumSize, aim)
  }

  /** The pose the primary camera controls are given when they are created. */
  const StartPose: LookAt := LookAt(Vec3(0.0, 270.0, -500.0), Origin)

  /**
    The state `initializeGame` has built when it starts the frame loop:
    both views complete, the orthographic camera aimed at the origin, and
    no character or stats yet. `w3`/`h3` and `w2`/`h2` are the client sizes
    of the two containers.
   */
  function InitialViews(w3: nat, h3: nat, w2: nat, h2: nat): (e: Engine)
    requires h3 > 0 && h2 > 0
    ensures e.camera3D.Some? && e.camera3D.value.aspect * (h3 as real) == w3 as real
    ensures e.renderer3D == Some(Renderer(w3, h3)) && e.renderer2D == Some(Renderer(w2, h2))
    ensures e.controls3D == Some(CameraControls(StartPose))
    ensures e.camera2D.Some? && e.camera2D.value.aim == Origin
    ensures (e.camera2D.value.right - e.camera2D.value.left) * (h2 as real) == (e.camera2D.value.top - e.camera2D.value.bottom) * (w2 as real)
    ensures e.character3D.None? && e.character2D.None? && !e.stats
    ensures e.input == Released && e.listeners == 0
  {
    Engine(
      input := Released,
      listeners := 0,
      camera3D := Some(PerspectiveCamera(w3 as real / h3 as real)),
      renderer3D := Some(Renderer(w3, h3)),
      controls3D := Some(CameraControls(StartPose)),
      cameraClock3D := true,
      composer3D := true,
      camera2D := Some(OrthoFrustum(w2 as real / h2 as real, Origin)),
      renderer2D := Some(Renderer(w2, h2)),
      composer2D := true,
      character3D := None,
      character2D := None,
      character3DClock := false,
      character2DClock := false,
      stats := false)
  }

  /** A character as created: root at the origin, its clock started. */
  const NewCharacter: Character := Character(Origin)

  /**
    The constructor: `initializeGame` (which already runs the first frame),
    then both characters and the stats panel. The result carries the
    engine after construction and the trace of that first frame.
   */
  function Construct(w3: nat, h3: nat, w2: nat, h2: nat): (r: Frame)
    requires h3 > 0 && h2 > 0
    ensures r.trace == [ScheduleNext, UpdateControls, Render3D, Render2D]
    ensures forall c :: Present(r.engine, c)
    ensures r.engine.controls3D == Some(CameraControls(StartPose))
    ensures r.engine.character3D == Some(Character(Origin)) && r.engine.character2D == Some(Character(Origin))
    ensures r.engine.input == Released && r.engine.listeners == 0
  {
    var first := AnimateFrame(InitialViews(w3, h3, w2, h2));
    RunsTable(InitialViews(w3, h3, w2, h2));
    var e := first.engine.(
      character3D := Some(NewCharacter), character3DClock := true,
      character2D := Some(NewCharacter), character2DClock := true,
      stats := true);
    Frame(e, first.trace)
  }

  // ---------------------------------------------------------------------------
  // Key listeners
  // ---------------------------------------------------------------------------

  /** `enableControls`: registers one more keydown and one more keyup listener. */
  function EnableControls(e: Engine): (r: Engine)
    ensures r.listeners == e.listeners + 1
    ensures r.(listeners := e.listeners) == e
  {
    e.(listeners := e.listeners + 1)
  }

  /** The registered listeners of the event's kind handle it one after another. */
  function Repeat(s: InputState, ev: KeyEvent, n: nat): InputState
  {
    if n == 0 then s else Apply(Repeat(s, ev, n - 1), ev)
  }

  /** Because each handler is idempotent, any number of listeners acts like one. */
  lemma {:induction false} RepeatCollapses(s: InputState, ev: KeyEvent, n: nat)
    ensures Repeat(s, ev, n) == if n == 0 then s else Apply(s, ev)
  {
    if n > 1 {
      RepeatCollapses(s, ev, n - 1);
      HandlersIdempotent(s, ev.key);
    }
  }

  /**
    A key event delivered to the document: nothing happens before
    `enableControls` has been called; afterwards only the Input State
    changes, as one handler call would change it, however many times
    `enableControls` ran.
   */
  function OnKeyEvent(e: Engine, ev: KeyEvent): (r: Engine)
    ensures e.listeners == 0 ==> r == e
    ensures e.listeners > 0 ==> r.input == Apply(e.input, ev)
    ensures r == e.(input := r.input)
  {
    RepeatCollapses(e.input, ev, e.listeners);
    e.(input := Repeat(e.input, ev, e.listeners))
  }

  /**
    Holding `w` after construction: the next frame sends the primary camera
    to (0, 200, -500) looking at the origin and aims the orthographic camera
    at the origin.
   */
  lemma ForwardFromOriginScenario(w3: nat, h3: nat, w2: nat, h2: nat)
    requires h3 > 0 && h2 > 0
    ensures var e := OnKeyEvent(EnableControls(Construct(w3, h3, w2, h2).engine), Down("w"));
      && AnimateFrame(e).engine.controls3D == Some(CameraControls(LookAt(Vec3(0.0, 200.0, -500.0), Vec3(0.0, 0.0, 0.0))))
      && AnimateFrame(e).engine.camera2D.Some? && AnimateFrame(e).engine.camera2D.value.aim == Origin
  {
    var e := OnKeyEvent(EnableControls(Construct(w3, h3, w2, h2).engine), Down("w"));
    assert Get(e.input, MoveForward);
    RunsTable(e);
  }
}
