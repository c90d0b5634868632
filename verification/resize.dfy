/**
  The Resize Coordinator: `resize3DView` recomputes the perspective aspect
  ratio, `resize2DView` recomputes the orthographic frustum; each resizes
  its renderer and does nothing while its camera or renderer is missing.
  `w` and `h` are the container's client width and height at the call.
 */
module Resize {
  import opened Wrappers
  import opened Director
  import opened GameEngine

  /** Whether `resize3DView` does anything. */
  predicate Can3D(e: Engine)
  {
    e.camera3D.Some? && e.renderer3D.Some?
  }

  /** Whether `resize2DView` does anything. */
  predicate Can2D(e: Engine)
  {
    e.camera2D.Some? && e.renderer2D.Some?
  }

  /** `resize3DView`. The source divides by the height unguarded; a zero height is excluded here. */
  function Resize3D(e: Engine, w: nat, h: nat): (r: Engine)
    requires Can3D(e) ==> h > 0
    ensures Can3D(e) ==>
      && r.camera3D.Some? && r.camera3D.value.aspect * (h as real) == w as real
      && r.renderer3D == Some(Renderer(w, h))
    ensures !Can3D(e) ==> r == e
    ensures r == e.(camera3D := r.camera3D, renderer3D := r.renderer3D)
  {
    if e.camera3D.Some? && e.renderer3D.Some? then
      e.(camera3D := Some(e.camera3D.value.(aspect := w as real / h as real)),
         renderer3D := Some(Renderer(w, h)))
    else
      e
  }

  /**
    `resize2DView`, with its deferred half applied at once: the frustum for
    the new aspect ratio keeps the camera's aim, and the renderer takes the
    new size.
   */
  function Resize2D(e: Engine, w: nat, h: nat): (r: Engine)
    requires Can2D(e) ==> h > 0
    ensures Can2D(e) ==>
      && r.camera2D.Some?
      && r.camera2D.value.left == -r.camera2D.value.right
      && r.camera2D.value.top == FrustumSize && r.camera2D.value.bottom == -FrustumSize
      && (r.camera2D.value.right - r.camera2D.value.left) * (h as real) == (r.camera2D.value.top - r.camera2D.value.bottom) * (w as real)
      && r.camera2D.value.aim == e.camera2D.value.aim
      && r.renderer2D == Some(Renderer(w, h))
    ensures !Can2D(e) ==> r == e
    ensures r == e.(camera2D := r.camera2D, renderer2D := r.renderer2D)
  {
    if e.camera2D.Some? && e.renderer2D.Some? then
      var aspect := w as real / h as real;
      e.(camera2D := Some(OrthoFrustum(aspect, e.camera2D.value.aim)),
         renderer2D := Some(Renderer(w, h)))
    else
      e
  }

  /** Resizing twice to the same size gives the same cameras and renderers as resizing once. */
  lemma ResizeIdempotent(e: Engine, w: nat, h: nat)
    requires h > 0
    ensures Resize3D(Resize3D(e, w, h), w, h) == Resize3D(e, w, h)
    ensures Resize2D(Resize2D(e, w, h), w, h) == Resize2D(e, w, h)
  {
  }

  /** Only the last of several resizes matters. */
  lemma ResizeLastWins(e: Engine, w1: nat, h1: nat, w2: nat, h2: nat)
    requires h1 > 0 && h2 > 0
    ensures Resize3D(Resize3D(e, w1, h1), w2, h2) == Resize3D(e, w2, h2)
    ensures Resize2D(Resize2D(e, w1, h1), w2, h2) == Resize2D(e, w2, h2)
  {
  }

  /**
    Construction and resizing compute the same geometry: resizing a freshly
    built engine to the sizes it was built with changes nothing.
   */
  lemma ResizeAgreesWithConstruction(w3: nat, h3: nat, w2: nat, h2: nat)
    requires h3 > 0 && h2 > 0
    ensures var e := Construct(w3, h3, w2, h2).engine;
      Resize3D(e, w3, h3) == e && Resize2D(e, w2, h2) == e
  {
  }

  /**
    A resize and a frame touch disjoint parts of the state, so it does not
    matter on which side of a frame a resize event lands.
   */
  lemma Resize3DCommutesWithFrame(e: Engine, w: nat, h: nat)
    requires Can3D(e) ==> h > 0
    ensures AnimateFrame(Resize3D(e, w, h)).engine == Resize3D(AnimateFrame(e).engine, w, h)
  {
    SamePresenceSameSteps(e, Resize3D(e, w, h));
  }

  lemma Resize2DCommutesWithFrame(e: Engine, w: nat, h: nat)
    requires Can2D(e) ==> h > 0
    ensures AnimateFrame(Resize2D(e, w, h)).engine == Resize2D(AnimateFrame(e).engine, w, h)
  {
    var r := Resize2D(e, w, h);
    SamePresenceSameSteps(e, r);
    if Can2D(e) {
      var f := AnimateFrame(e).engine;
      var aspect := w as real / h as real;
      assert f.camera2D.Some? && f.renderer2D == e.renderer2D;
      if Runs(e, AimSecondary) {
        var root := e.character3D.value.root;
        assert AnimateFrame(r).engine.camera2D == Some(OrthoFrustum(aspect, root));
        assert Resize2D(f, w, h).camera2D == Some(OrthoFrustum(aspect, root));
      } else {
        assert AnimateFrame(r).engine.camera2D == r.camera2D;
      }
    }
  }

  /** Which steps run depends only on which components are present and on the flags. */
  lemma SamePresenceSameSteps(e1: Engine, e2: Engine)
    requires forall c :: Present(e1, c) == Present(e2, c)
    requires e1.input == e2.input
    ensures forall st :: Runs(e1, st) == Runs(e2, st)
  {
  }

  /** A perspective view resized from 800x600 to 400x300 has aspect ratio 4/3. */
  lemma ResizeScenario()
    ensures var e := Resize3D(Construct(800, 600, 800, 600).engine, 400, 300);
      e.camera3D.Some? && e.camera3D.value.aspect == 4.0 / 3.0 && e.renderer3D == Some(Renderer(400, 300))
  {
  }
}
