/**
 * The frame loop of the Metal view (OSX/MacGUI/MetalView.swift together with
 * setupMetal from OSX/MacGUI/MetalSetup.swift).
 *
 * Every GPU-side call (filling a uniform buffer, building the depth texture,
 * encoding a draw call, presenting, committing) is recorded as an Event; the
 * view's own bookkeeping (layer size, dirty flag, frame counter, display
 * flags, the alpha of the C64 texture) is a ViewState. Each operation is
 * first given as a pair of pure functions of the state (the new state and
 * the events it issues), and the class MetalView performs the same
 * operation in place and is proved to agree with that function.
 *
 * The one-permit DispatchSemaphore that keeps at most one frame on the GPU
 * is the pair (permits, inFlight): inFlight counts committed command buffers
 * whose completion handler (which signals the semaphore) has not run yet.
 */
module MetalView {
  import opened Wrappers
  import MetalSetup

  // ---------------------------------------------------------------------------
  // State, inputs, events
  // ---------------------------------------------------------------------------

  /** The three transform uniform buffers. */
  datatype UniformSlot = BgUniforms | Uniforms2D | Uniforms3D

  datatype Event =
    | FillBuffer(slot: UniformSlot, alpha: real)       // buildMatricesBg / 2D / 3D
    | BuildDepthBuffer(width: nat, height: nat)
    | SemaphoreWait
    | SemaphoreSignal
    | UpdateTexture                                    // copy the emulator screen buffer
    | UpdateAngles
    | StartFrame                                       // command buffer, kernel passes, render encoder
    | FillAlpha(slot: UniformSlot, alpha: real)
    | DrawPrimitives(slot: UniformSlot, vertexStart: nat, vertexCount: nat)
    | EndEncoding
    | AddCompletedHandler                              // the handler signals the semaphore
    | Present
    | Commit
    | BuildMetal | BuildTextures | BuildKernels | BuildBuffers | BuildPipeline

  /**
   * What one draw() call observes from outside the view: the metal layer's
   * drawable size, whether nextDrawable() returned a drawable, whether the
   * cube animates, whether the emulator is halted, and the alpha that
   * updateAngles() leaves in currentAlpha when it runs.
   */
  datatype FrameInput = FrameInput(
    drawableWidth: nat, drawableHeight: nat, drawableAvailable: bool,
    animates: bool, halted: bool, animatedAlpha: real)

  /** The metal layer's size as last seen by reshape(), and the flag setFrameSize sets. */
  datatype Layer = Layer(width: nat, height: nat, dirty: bool)

  /** The one-permit semaphore: free permits, and committed frames whose handler has not signalled yet. */
  datatype Gate = Gate(permits: nat, inFlight: nat)

  /** The switches the GUI sets on the view. */
  datatype Display = Display(enableMetal: bool, fullscreen: bool, fullscreenKeepAspectRatio: bool, drawC64texture: bool)

  datatype ViewState = ViewState(
    layer: Layer, gate: Gate, display: Display,
    frames: nat,
    currentAlpha: real,
    hasDrawable: bool)

  /** The state after awakeFromNib: one permit, zero-sized layer, marked dirty. */
  function Initial(): ViewState
  {
    ViewState(Layer(0, 0, true), Gate(1, 0), Display(false, false, true, false), 0, 0.0, false)
  }

  // ---------------------------------------------------------------------------
  // The operations as functions: the state each leaves and the events it issues
  // ---------------------------------------------------------------------------

  function SetFrameSizeState(s: ViewState): ViewState
  {
    s.(layer := s.layer.(dirty := true))
  }

  predicate SizeChanged(s: ViewState, w: nat, h: nat)
  {
    s.layer.width != w || s.layer.height != h
  }

  /** The four rebuild steps of reshape() for a layer of size w x h. */
  function RebuildEvents(w: nat, h: nat, alpha3D: real): seq<Event>
  {
    [FillBuffer(BgUniforms, 1.0), FillBuffer(Uniforms2D, 1.0), FillBuffer(Uniforms3D, alpha3D), BuildDepthBuffer(w, h)]
  }

  /** reshape() against a drawable of size w x h. */
  function ReshapeState(s: ViewState, w: nat, h: nat): ViewState
  {
    if SizeChanged(s, w, h) then s.(layer := s.layer.(width := w, height := h)) else s
  }

  function ReshapeEvents(s: ViewState, w: nat, h: nat): seq<Event>
  {
    if SizeChanged(s, w, h) then RebuildEvents(w, h, s.currentAlpha) else []
  }

  /** endFrame(): the frame is counted; with a drawable it is presented and committed. */
  function EndFrameState(s: ViewState): ViewState
  {
    s.(frames := s.frames + 1, gate := s.gate.(inFlight := s.gate.inFlight + if s.hasDrawable then 1 else 0))
  }

  function EndFrameEvents(s: ViewState): seq<Event>
  {
    [EndEncoding, AddCompletedHandler] + (if s.hasDrawable then [Present, Commit] else [])
  }

  /** What drawScene2D() issues before endFrame(): the flat quad, vertices 42..47. */
  function Scene2DPasses(): seq<Event>
  {
    [StartFrame, DrawPrimitives(Uniforms2D, 42, 6)]
  }

  function Scene2DEvents(s: ViewState): seq<Event>
  {
    Scene2DPasses() + EndFrameEvents(s)
  }

  /** The state after drawScene3D's animation step: updateAngles() leaves the animated alpha. */
  function AnimatedState(s: ViewState, input: FrameInput): ViewState
  {
    if input.animates then s.(currentAlpha := input.animatedAlpha) else s
  }

  /** The alpha drawScene3D writes into the 3D uniforms: 0.5 while the emulator is halted. */
  function SceneAlpha(s: ViewState, input: FrameInput): real
  {
    if input.halted then 0.5 else AnimatedState(s, input).currentAlpha
  }

  /** drawScene3D() up to the draw calls: the animation step, the frame start and the alpha. */
  function Scene3DPrologue(s: ViewState, input: FrameInput): seq<Event>
  {
    (if input.animates then [UpdateAngles, FillBuffer(Uniforms3D, input.animatedAlpha)] else [])
      + [StartFrame, FillAlpha(Uniforms3D, SceneAlpha(s, input))]
  }

  /** The background quad, drawn when not in fullscreen and the cube animates or the C64 texture is hidden. */
  function BackgroundDraw(s: ViewState, input: FrameInput): seq<Event>
  {
    if !s.display.fullscreen && (input.animates || !s.display.drawC64texture) then [DrawPrimitives(BgUniforms, 0, 6)] else []
  }

  /** The cube, drawn when the C64 texture is shown: four faces while animating, the front face otherwise. */
  function CubeDraw(s: ViewState, input: FrameInput): seq<Event>
  {
    if s.display.drawC64texture then [DrawPrimitives(Uniforms3D, 6, if input.animates then 24 else 6)] else []
  }

  /** What drawScene3D() issues before endFrame(). */
  function Scene3DPasses(s: ViewState, input: FrameInput): seq<Event>
  {
    Scene3DPrologue(s, input) + BackgroundDraw(s, input) + CubeDraw(s, input)
  }

  function Scene3DState(s: ViewState, input: FrameInput): ViewState
  {
    EndFrameState(AnimatedState(s, input))
  }

  function Scene3DEvents(s: ViewState, input: FrameInput): seq<Event>
  {
    Scene3DPasses(s, input) + EndFrameEvents(AnimatedState(s, input))
  }

  /** Fullscreen without keeping the aspect ratio: the 2D renderer is used. */
  predicate Stretched(s: ViewState)
  {
    s.display.fullscreen && !s.display.fullscreenKeepAspectRatio
  }

  /** The first block of draw(): reshape when the layer is dirty, then clear the flag. */
  function RefreshState(s: ViewState, input: FrameInput): ViewState
  {
    var r := if s.layer.dirty then ReshapeState(s, input.drawableWidth, input.drawableHeight) else s;
    r.(layer := r.layer.(dirty := false))
  }

  function RefreshEvents(s: ViewState, input: FrameInput): seq<Event>
  {
    if s.layer.dirty then ReshapeEvents(s, input.drawableWidth, input.drawableHeight) else []
  }

  /** Take the next drawable; with one, update the texture and draw the 2D or the 3D scene. */
  function FrameState(s: ViewState, input: FrameInput): ViewState
  {
    var s1 := s.(hasDrawable := input.drawableAvailable);
    if !input.drawableAvailable then s1
    else if Stretched(s1) then EndFrameState(s1)
    else Scene3DState(s1, input)
  }

  function FrameEvents(s: ViewState, input: FrameInput): seq<Event>
  {
    var s1 := s.(hasDrawable := input.drawableAvailable);
    if !input.drawableAvailable then []
    else [UpdateTexture] + (if Stretched(s1) then Scene2DEvents(s1) else Scene3DEvents(s1, input))
  }

  /** draw() gets past semaphore.wait(): Metal is enabled and a permit is free. */
  predicate Admitted(s: ViewState)
  {
    s.display.enableMetal && s.gate.permits > 0
  }

  function Acquired(s: ViewState): ViewState
    requires s.gate.permits > 0
  {
    s.(gate := s.gate.(permits := s.gate.permits - 1))
  }

  /**
   * draw() as written. With no permit the calling thread waits inside
   * semaphore.wait(); the state and the trace do not change until a
   * completion handler runs, so that case leaves the state as it is.
   */
  function DrawState(s: ViewState, input: FrameInput): ViewState
  {
    if !Admitted(s) then s
    else FrameState(RefreshState(Acquired(s), input), input)
  }

  function DrawEvents(s: ViewState, input: FrameInput): seq<Event>
  {
    if !Admitted(s) then []
    else [SemaphoreWait] + RefreshEvents(Acquired(s), input) + FrameEvents(RefreshState(Acquired(s), input), input)
  }

  /** The nil-drawable path of draw(): the permit was taken and no frame will give it back. */
  predicate LosesPermit(s: ViewState, input: FrameInput)
  {
    Admitted(s) && !input.drawableAvailable
  }

  /**
   * draw() with the permit given back when nextDrawable() returns nil: the
   * same as DrawState/DrawEvents except for a semaphore.signal() on that path.
   */
  function DrawReleasingState(s: ViewState, input: FrameInput): ViewState
  {
    var d := DrawState(s, input);
    if LosesPermit(s, input) then d.(gate := d.gate.(permits := d.gate.permits + 1)) else d
  }

  function DrawReleasingEvents(s: ViewState, input: FrameInput): seq<Event>
  {
    DrawEvents(s, input) + if LosesPermit(s, input) then [SemaphoreSignal] else []
  }

  /** The GPU finishes one committed command buffer; its completion handler signals the semaphore. */
  function CompletionState(s: ViewState): ViewState
  {
    if s.gate.inFlight > 0 then s.(gate := Gate(s.gate.permits + 1, s.gate.inFlight - 1)) else s
  }

  function BuildEvents(): seq<Event>
  {
    [BuildMetal, BuildTextures, BuildKernels, BuildBuffers, BuildPipeline]
  }

  /** setupMetal(): build everything (buildMetal records the drawable size w x h), reshape, enable drawing. */
  function SetupState(s: ViewState, w: nat, h: nat): ViewState
  {
    ReshapeState(s.(layer := s.layer.(width := w, height := h)), w, h).(display := s.display.(enableMetal := true))
  }

  function SetupEvents(s: ViewState, w: nat, h: nat): seq<Event>
  {
    BuildEvents() + ReshapeEvents(s.(layer := s.layer.(width := w, height := h)), w, h)
  }

  /** draw() would wait on the semaphore for ever: no permit and nothing on the GPU to give one back. */
  predicate Deadlocked(s: ViewState)
  {
    s.display.enableMetal && s.gate.permits == 0 && s.gate.inFlight == 0
  }

  // ---------------------------------------------------------------------------
  // Filtering and counting traces
  // ---------------------------------------------------------------------------

  /** The draw calls of a trace, in order. */
  function Draws(events: seq<Event>): seq<Event>
  {
    if events == [] then []
    else (if events[0].DrawPrimitives? then [events[0]] else []) + Draws(events[1..])
  }

  lemma {:induction false} DrawsAppend(a: seq<Event>, b: seq<Event>)
    ensures Draws(a + b) == Draws(a) + Draws(b)
  {
    if a == [] {
      assert a + b == b;
    } else {
      assert (a + b)[0] == a[0];
      assert (a + b)[1..] == a[1..] + b;
      DrawsAppend(a[1..], b);
      assert Draws(a + b) == Draws([a[0]]) + Draws(a[1..] + b);
      assert Draws(a) == Draws([a[0]]) + Draws(a[1..]);
    }
  }

  lemma {:induction false} DrawsOfDraws(events: seq<Event>)
    requires forall x :: x in events ==> x.DrawPrimitives?
    ensures Draws(events) == events
  {
    if events != [] {
      assert forall x :: x in events[1..] ==> x in events;
      DrawsOfDraws(events[1..]);
    }
  }

  lemma {:induction false} NoDraws(events: seq<Event>)
    requires forall x :: x in events ==> !x.DrawPrimitives?
    ensures Draws(events) == []
  {
    if events != [] {
      assert forall x :: x in events[1..] ==> x in events;
      NoDraws(events[1..]);
    }
  }

  function CountOf(events: seq<Event>, e: Event): nat
  {
    if events == [] then 0 else (if events[0] == e then 1 else 0) + CountOf(events[1..], e)
  }

  lemma {:induction false} CountOfAppend(a: seq<Event>, b: seq<Event>, e: Event)
    ensures CountOf(a + b, e) == CountOf(a, e) + CountOf(b, e)
  {
    if a == [] {
      assert a + b == b;
    } else {
      assert (a + b)[1..] == a[1..] + b;
      CountOfAppend(a[1..], b, e);
    }
  }

  lemma {:induction false} CountOfAbsent(events: seq<Event>, e: Event)
    requires e !in events
    ensures CountOf(events, e) == 0
  {
    if events != [] {
      assert forall x :: x in events[1..] ==> x in events;
      CountOfAbsent(events[1..], e);
    }
  }

  lemma {:induction false} CountOfPresent(events: seq<Event>, e: Event)
    requires e in events
    ensures CountOf(events, e) >= 1
  {
    if events[0] != e {
      CountOfPresent(events[1..], e);
    }
  }

  lemma CountOfOnce(a: seq<Event>, e: Event, b: seq<Event>)
    requires e !in a && e !in b
    ensures CountOf(a + [e] + b, e) == 1
  {
    CountOfAbsent(a, e);
    CountOfAbsent(b, e);
    CountOfAppend(a, [e], e);
    CountOfAppend(a + [e], b, e);
  }

  /** Only reshape() rebuilds the background and 2D matrices and the depth texture. */
  predicate IsReshapeEvent(e: Event)
  {
    e.BuildDepthBuffer? || (e.FillBuffer? && e.slot != Uniforms3D)
  }

  predicate NoReshape(events: seq<Event>)
  {
    forall e :: e in events ==> !IsReshapeEvent(e)
  }

  // ---------------------------------------------------------------------------
  // Facts about the parts of a frame
  // ---------------------------------------------------------------------------

  lemma EndFrameEventFacts(s: ViewState)
    ensures var e := EndFrameEvents(s);
      Draws(e) == [] && NoReshape(e) && (forall x :: x in e ==> !x.FillAlpha?)
  {
    NoDraws(EndFrameEvents(s));
  }

  lemma EndFrameCounts(s: ViewState)
    ensures CountOf(EndFrameEvents(s), EndEncoding) == 1
    ensures CountOf(EndFrameEvents(s), Commit) == if s.hasDrawable then 1 else 0
  {
    var events := EndFrameEvents(s);
    if s.hasDrawable {
      assert events == [] + [EndEncoding] + [AddCompletedHandler, Present, Commit];
      CountOfOnce([], EndEncoding, [AddCompletedHandler, Present, Commit]);
      assert events == [EndEncoding, AddCompletedHandler, Present] + [Commit] + [];
      CountOfOnce([EndEncoding, AddCompletedHandler, Present], Commit, []);
    } else {
      assert events == [] + [EndEncoding] + [AddCompletedHandler];
      CountOfOnce([], EndEncoding, [AddCompletedHandler]);
      CountOfAbsent(events, Commit);
    }
  }

  /** The scene passes neither reshape, end the frame nor commit. */
  lemma PassesFacts(s: ViewState, input: FrameInput)
    ensures NoReshape(Scene2DPasses()) && EndEncoding !in Scene2DPasses() && Commit !in Scene2DPasses()
    ensures var p := Scene3DPasses(s, input);
      NoReshape(p) && EndEncoding !in p && Commit !in p
  {
  }

  lemma ReshapeEventFacts(s: ViewState, w: nat, h: nat)
    ensures var r := ReshapeEvents(s, w, h);
      (NoReshape(r) <==> !SizeChanged(s, w, h)) && Draws(r) == [] && (forall x :: x in r ==> !x.FillAlpha?)
      && EndEncoding !in r && Commit !in r
  {
    var r := ReshapeEvents(s, w, h);
    NoDraws(r);
    if SizeChanged(s, w, h) {
      assert IsReshapeEvent(r[3]);
    }
  }

  lemma RefreshEventFacts(s: ViewState, input: FrameInput)
    ensures var r := RefreshEvents(s, input);
      (NoReshape(r) <==> !s.layer.dirty || !SizeChanged(s, input.drawableWidth, input.drawableHeight))
      && Draws(r) == [] && (forall x :: x in r ==> !x.FillAlpha?)
      && CountOf(r, EndEncoding) == 0 && CountOf(r, Commit) == 0
  {
    ReshapeEventFacts(s, input.drawableWidth, input.drawableHeight);
    CountOfAbsent(RefreshEvents(s, input), EndEncoding);
    CountOfAbsent(RefreshEvents(s, input), Commit);
  }

  /** Refreshing clears the dirty flag and changes nothing but the layer size. */
  lemma RefreshStateFacts(s: ViewState, input: FrameInput)
    ensures var t := RefreshState(s, input);
      !t.layer.dirty && t.(layer := s.layer) == s
  {
  }

  lemma FrameNoReshape(s: ViewState, input: FrameInput)
    ensures NoReshape(FrameEvents(s, input))
  {
    var s1 := s.(hasDrawable := input.drawableAvailable);
    if input.drawableAvailable {
      EndFrameEventFacts(if Stretched(s1) then s1 else AnimatedState(s1, input));
      PassesFacts(s1, input);
    }
  }

  /** Drawing a frame keeps the layer, the dirty flag and the permits. */
  lemma FrameStateFacts(s: ViewState, input: FrameInput)
    ensures var t := FrameState(s, input);
      t.layer == s.layer && t.gate.permits == s.gate.permits && t.display == s.display
  {
  }

  /** A frame with a drawable ends and commits exactly once; without one nothing happens. */
  lemma FrameCounts(s: ViewState, input: FrameInput)
    ensures var f := FrameEvents(s, input);
      CountOf(f, EndEncoding) == CountOf(f, Commit) == (if input.drawableAvailable then 1 else 0)
      && FrameState(s, input).frames == s.frames + CountOf(f, EndEncoding)
      && FrameState(s, input).gate.inFlight == s.gate.inFlight + CountOf(f, Commit)
  {
    var s1 := s.(hasDrawable := input.drawableAvailable);
    if input.drawableAvailable {
      var s3 := if Stretched(s1) then s1 else AnimatedState(s1, input);
      EndFrameCounts(s3);
      PassesFacts(s1, input);
      var pre := [UpdateTexture] + (if Stretched(s1) then Scene2DPasses() else Scene3DPasses(s1, input));
      assert FrameEvents(s, input) == pre + EndFrameEvents(s3);
      CountOfAbsent(pre, EndEncoding);
      CountOfAbsent(pre, Commit);
      CountOfAppend(pre, EndFrameEvents(s3), EndEncoding);
      CountOfAppend(pre, EndFrameEvents(s3), Commit);
    }
  }

  /** What a draw that gets the permit does to the counters. */
  lemma DrawCounts(s: ViewState, input: FrameInput)
    requires Admitted(s)
    ensures var d := DrawState(s, input);
      d.gate.permits == s.gate.permits - 1 && !d.layer.dirty && d.display.enableMetal
      && d.frames == s.frames + CountOf(DrawEvents(s, input), EndEncoding)
      && d.gate.inFlight == s.gate.inFlight + CountOf(DrawEvents(s, input), Commit)
      && CountOf(DrawEvents(s, input), Commit) == if input.drawableAvailable then 1 else 0
  {
    var s1 := Acquired(s);
    var r := RefreshEvents(s1, input);
    var t := RefreshState(s1, input);
    RefreshEventFacts(s1, input);
    RefreshStateFacts(s1, input);
    FrameCounts(t, input);
    FrameStateFacts(t, input);
    CountOfAppend([SemaphoreWait], r, EndEncoding);
    CountOfAppend([SemaphoreWait], r, Commit);
    CountOfAppend([SemaphoreWait] + r, FrameEvents(t, input), EndEncoding);
    CountOfAppend([SemaphoreWait] + r, FrameEvents(t, input), Commit);
  }

  // ---------------------------------------------------------------------------
  // Properties
  // ---------------------------------------------------------------------------

  /** reshape() rebuilds exactly when the drawable size changed, and a second reshape at the same size does nothing. */
  lemma ReshapeIdempotent(s: ViewState, w: nat, h: nat)
    ensures var t := ReshapeState(s, w, h);
      t.layer.width == w && t.layer.height == h
      && (ReshapeEvents(s, w, h) != [] <==> SizeChanged(s, w, h))
      && t.(layer := s.layer.(width := s.layer.width, height := s.layer.height)) == s
      && ReshapeState(t, w, h) == t && ReshapeEvents(t, w, h) == []
  {
  }

  /**
   * A reshape at a new size rebuilds each of the background and 2D matrices
   * (alpha 1.0), the 3D matrix (current alpha) and the depth texture once.
   */
  lemma ReshapeRebuildsOnce(s: ViewState, w: nat, h: nat)
    requires SizeChanged(s, w, h)
    ensures var r := ReshapeEvents(s, w, h);
      CountOf(r, FillBuffer(BgUniforms, 1.0)) == 1 && CountOf(r, FillBuffer(Uniforms2D, 1.0)) == 1
      && CountOf(r, FillBuffer(Uniforms3D, s.currentAlpha)) == 1 && CountOf(r, BuildDepthBuffer(w, h)) == 1
      && (forall x :: x in r && x.FillBuffer? ==> x.alpha == if x.slot == Uniforms3D then s.currentAlpha else 1.0)
  {
    var a, b, c, d := FillBuffer(BgUniforms, 1.0), FillBuffer(Uniforms2D, 1.0),
                      FillBuffer(Uniforms3D, s.currentAlpha), BuildDepthBuffer(w, h);
    assert ReshapeEvents(s, w, h) == [] + [a] + [b, c, d];
    CountOfOnce([], a, [b, c, d]);
    assert ReshapeEvents(s, w, h) == [a] + [b] + [c, d];
    CountOfOnce([a], b, [c, d]);
    assert ReshapeEvents(s, w, h) == [a, b] + [c] + [d];
    CountOfOnce([a, b], c, [d]);
    assert ReshapeEvents(s, w, h) == [a, b, c] + [d] + [];
    CountOfOnce([a, b, c], d, []);
  }

  /** A draw that gets past the enable check waits on the semaphore exactly once; any other draw not at all. */
  lemma WaitsOncePerDraw(s: ViewState, input: FrameInput)
    ensures CountOf(DrawEvents(s, input), SemaphoreWait) == if Admitted(s) then 1 else 0
  {
    if Admitted(s) {
      var s1 := Acquired(s);
      var r := RefreshEvents(s1, input);
      var f := FrameEvents(RefreshState(s1, input), input);
      NoWaitInFrame(RefreshState(s1, input), input);
      assert SemaphoreWait !in r;
      assert SemaphoreWait !in r + f;
      assert DrawEvents(s, input) == [] + [SemaphoreWait] + (r + f);
      CountOfOnce([], SemaphoreWait, r + f);
    }
  }

  /** Drawing the frame itself never waits on the semaphore. */
  lemma NoWaitInFrame(s: ViewState, input: FrameInput)
    ensures SemaphoreWait !in FrameEvents(s, input)
  {
    var s1 := s.(hasDrawable := input.drawableAvailable);
    if input.drawableAvailable {
      var s3 := if Stretched(s1) then s1 else AnimatedState(s1, input);
      var p := if Stretched(s1) then Scene2DPasses() else Scene3DPasses(s1, input);
      assert SemaphoreWait !in p;
      assert SemaphoreWait !in EndFrameEvents(s3);
      assert FrameEvents(s, input) == [UpdateTexture] + p + EndFrameEvents(s3);
    }
  }

  /** Nothing is drawn, waited for or counted while Metal is disabled. */
  lemma DisabledDrawIsNoOp(s: ViewState, input: FrameInput)
    requires !s.display.enableMetal
    ensures DrawState(s, input) == s && DrawEvents(s, input) == []
    ensures DrawReleasingState(s, input) == s && DrawReleasingEvents(s, input) == []
  {
  }

  /** The first draw after setFrameSize reshapes, rebuilding iff the drawable size differs from the layer's. */
  lemma FirstFrameAfterResizeReshapes(s: ViewState, input: FrameInput)
    requires Admitted(s)
    ensures !DrawState(SetFrameSizeState(s), input).layer.dirty
    ensures NoReshape(DrawEvents(SetFrameSizeState(s), input)) <==> !SizeChanged(s, input.drawableWidth, input.drawableHeight)
  {
    var s1 := Acquired(SetFrameSizeState(s));
    var t := RefreshState(s1, input);
    RefreshEventFacts(s1, input);
    RefreshStateFacts(s1, input);
    FrameNoReshape(t, input);
    FrameStateFacts(t, input);
  }

  /** A draw on a clean layer (no resize since the last draw) rebuilds nothing, whatever the drawable size. */
  lemma CleanLayerDrawDoesNotReshape(s: ViewState, input: FrameInput)
    requires !s.layer.dirty
    ensures NoReshape(DrawEvents(s, input))
    ensures !DrawState(s, input).layer.dirty
  {
    if Admitted(s) {
      var t := RefreshState(Acquired(s), input);
      FrameNoReshape(t, input);
      FrameStateFacts(t, input);
    }
  }

  /** The draw calls of a draw() are those of its frame. */
  lemma DrawsOfDraw(s: ViewState, input: FrameInput)
    requires Admitted(s)
    ensures Draws(DrawEvents(s, input)) == Draws(FrameEvents(RefreshState(Acquired(s), input), input))
  {
    var s1 := Acquired(s);
    var r := RefreshEvents(s1, input);
    RefreshEventFacts(s1, input);
    NoDraws([SemaphoreWait]);
    DrawsAppend([SemaphoreWait], r);
    DrawsAppend([SemaphoreWait] + r, FrameEvents(RefreshState(s1, input), input));
  }

  /** Draw calls between two stretches without any are all the draw calls. */
  lemma DrawsBetween(a: seq<Event>, p: seq<Event>, e: seq<Event>)
    requires Draws(a) == [] && Draws(e) == []
    ensures Draws(a + (p + e)) == Draws(p)
  {
    DrawsAppend(a, p + e);
    DrawsAppend(p, e);
  }

  /** The draw calls of a frame with a drawable are those of its scene. */
  lemma DrawsOfFrame(s: ViewState, input: FrameInput)
    requires input.drawableAvailable
    ensures Draws(FrameEvents(s, input))
      == if Stretched(s) then Draws(Scene2DPasses()) else Draws(Scene3DPasses(s.(hasDrawable := true), input))
  {
    var s1 := s.(hasDrawable := true);
    NoDraws([UpdateTexture]);
    if Stretched(s) {
      EndFrameEventFacts(s1);
      DrawsBetween([UpdateTexture], Scene2DPasses(), EndFrameEvents(s1));
    } else {
      EndFrameEventFacts(AnimatedState(s1, input));
      DrawsBetween([UpdateTexture], Scene3DPasses(s1, input), EndFrameEvents(AnimatedState(s1, input)));
    }
  }

  /** In stretched fullscreen mode exactly the flat quad (vertices 42..47) is drawn with the 2D uniforms. */
  lemma TwoDimensionalPath(s: ViewState, input: FrameInput)
    requires Admitted(s) && input.drawableAvailable && Stretched(s)
    ensures Draws(DrawEvents(s, input)) == [DrawPrimitives(Uniforms2D, 42, 6)]
  {
    var t := RefreshState(Acquired(s), input);
    DrawsOfDraw(s, input);
    RefreshStateFacts(Acquired(s), input);
    DrawsOfFrame(t, input);
    NoDraws([StartFrame]);
    DrawsOfDraws([DrawPrimitives(Uniforms2D, 42, 6)]);
    DrawsAppend([StartFrame], [DrawPrimitives(Uniforms2D, 42, 6)]);
    assert Scene2DPasses() == [StartFrame] + [DrawPrimitives(Uniforms2D, 42, 6)];
  }

  /** Draw calls of the 3D scene: the background first, when drawn, then the cube. */
  lemma DrawsOf3DScene(s: ViewState, input: FrameInput)
    ensures Draws(Scene3DPasses(s, input)) == BackgroundDraw(s, input) + CubeDraw(s, input)
  {
    NoDraws(Scene3DPrologue(s, input));
    DrawsOfDraws(BackgroundDraw(s, input));
    DrawsOfDraws(CubeDraw(s, input));
    DrawsAppend(Scene3DPrologue(s, input), BackgroundDraw(s, input));
    DrawsAppend(Scene3DPrologue(s, input) + BackgroundDraw(s, input), CubeDraw(s, input));
  }

  /**
   * Otherwise the 3D scene: the background quad (vertices 0..5) exactly when
   * not in fullscreen and the cube animates or the C64 texture is hidden; the
   * cube exactly when the C64 texture is shown, from vertex 6 with 24
   * vertices (faces -Z, +Z, -X, +X) while animating and 6 (face -Z) otherwise.
   */
  lemma ThreeDimensionalPath(s: ViewState, input: FrameInput)
    requires Admitted(s) && input.drawableAvailable && !Stretched(s)
    ensures var draws := Draws(DrawEvents(s, input));
      (DrawPrimitives(BgUniforms, 0, 6) in draws <==> !s.display.fullscreen && (input.animates || !s.display.drawC64texture))
      && (DrawPrimitives(Uniforms3D, 6, if input.animates then 24 else 6) in draws <==> s.display.drawC64texture)
      && (forall x :: x in draws ==> x.DrawPrimitives? && x.slot != Uniforms2D && x.vertexStart + x.vertexCount <= 30)
      && (|draws| == 2 ==> draws[0].slot == BgUniforms && draws[1].slot == Uniforms3D)
  {
    ThreeDimensionalDraws(s, input);
    SceneDraws(s, input);
  }

  /** The draw calls of a 3D frame are the background's followed by the cube's. */
  lemma ThreeDimensionalDraws(s: ViewState, input: FrameInput)
    requires Admitted(s) && input.drawableAvailable && !Stretched(s)
    ensures Draws(DrawEvents(s, input)) == BackgroundDraw(s, input) + CubeDraw(s, input)
  {
    var t := RefreshState(Acquired(s), input);
    DrawsOfDraw(s, input);
    RefreshStateFacts(Acquired(s), input);
    DrawsOfFrame(t, input);
    var s2 := t.(hasDrawable := true);
    DrawsOf3DScene(s2, input);
    assert s2.display == s.display;
  }

  /** What the background and cube draws of the 3D scene consist of. */
  lemma SceneDraws(s: ViewState, input: FrameInput)
    ensures var draws := BackgroundDraw(s, input) + CubeDraw(s, input);
      (DrawPrimitives(BgUniforms, 0, 6) in draws <==> !s.display.fullscreen && (input.animates || !s.display.drawC64texture))
      && (DrawPrimitives(Uniforms3D, 6, if input.animates then 24 else 6) in draws <==> s.display.drawC64texture)
      && (forall x :: x in draws ==> x.DrawPrimitives? && x.slot != Uniforms2D && x.vertexStart + x.vertexCount <= 30)
      && (|draws| == 2 ==> draws[0].slot == BgUniforms && draws[1].slot == Uniforms3D)
  {
  }

  /** The only alpha fillAlpha writes into the 3D uniforms during the scene passes is SceneAlpha. */
  lemma SceneAlphaIsTheOnlyAlpha(s: ViewState, input: FrameInput)
    ensures forall a :: FillAlpha(Uniforms3D, a) in Scene3DPasses(s, input) <==> a == SceneAlpha(s, input)
  {
  }

  /** Whether an event writes the alpha of the 3D uniforms: fillBuffer writes it after the matrix, fillAlpha alone. */
  predicate WritesAlpha3D(e: Event)
  {
    (e.FillBuffer? || e.FillAlpha?) && e.slot == Uniforms3D
  }

  /** The alpha the 3D uniforms hold after a trace: the value of its last write to them, if any. */
  function LastAlpha3D(events: seq<Event>): Option<real>
    decreases |events|
  {
    if events == [] then None
    else if WritesAlpha3D(events[|events| - 1]) then Some(events[|events| - 1].alpha)
    else LastAlpha3D(events[..|events| - 1])
  }

  lemma {:induction false} LastAlphaAppend(a: seq<Event>, b: seq<Event>)
    ensures LastAlpha3D(a + b) == if LastAlpha3D(b).Some? then LastAlpha3D(b) else LastAlpha3D(a)
    decreases |b|
  {
    if b == [] {
      assert a + b == a;
    } else {
      var n := |b| - 1;
      assert (a + b)[|a + b| - 1] == b[n];
      assert (a + b)[..|a + b| - 1] == a + b[..n];
      if !WritesAlpha3D(b[n]) {
        LastAlphaAppend(a, b[..n]);
      }
    }
  }

  lemma {:induction false} NoAlphaWrites(events: seq<Event>)
    requires forall e :: e in events ==> !WritesAlpha3D(e)
    ensures LastAlpha3D(events) == None
    decreases |events|
  {
    if events != [] {
      assert events[|events| - 1] in events;
      assert forall e :: e in events[..|events| - 1] ==> e in events;
      NoAlphaWrites(events[..|events| - 1]);
    }
  }

  /**
   * When the cube is drawn, the 3D uniforms hold SceneAlpha: the fillAlpha
   * after startFrame overwrites the alpha an animation step's fillBuffer
   * wrote, and the draw calls write none.
   */
  lemma SceneAlphaIsLast(s: ViewState, input: FrameInput)
    ensures LastAlpha3D(Scene3DPrologue(s, input) + BackgroundDraw(s, input)) == Some(SceneAlpha(s, input))
    ensures LastAlpha3D(Scene3DPasses(s, input)) == Some(SceneAlpha(s, input))
  {
    var p := Scene3DPrologue(s, input);
    assert p[|p| - 1] == FillAlpha(Uniforms3D, SceneAlpha(s, input));
    NoAlphaWrites(BackgroundDraw(s, input));
    NoAlphaWrites(CubeDraw(s, input));
    LastAlphaAppend(p, BackgroundDraw(s, input));
    LastAlphaAppend(p + BackgroundDraw(s, input), CubeDraw(s, input));
  }

  /** A halted emulator has fillAlpha write 0.5; otherwise the (possibly animated) current alpha. */
  lemma HaltedTextureIsTranslucent(s: ViewState, input: FrameInput)
    requires Admitted(s) && input.drawableAvailable && !Stretched(s)
    ensures forall a :: FillAlpha(Uniforms3D, a) in DrawEvents(s, input) <==>
      a == (if input.halted then 0.5 else if input.animates then input.animatedAlpha else s.currentAlpha)
  {
    var s1 := Acquired(s);
    var r := RefreshEvents(s1, input);
    var t := RefreshState(s1, input);
    RefreshEventFacts(s1, input);
    RefreshStateFacts(s1, input);
    var s2 := t.(hasDrawable := true);
    EndFrameEventFacts(AnimatedState(s2, input));
    SceneAlphaIsTheOnlyAlpha(s2, input);
    assert FrameEvents(t, input) == [UpdateTexture] + Scene3DPasses(s2, input) + EndFrameEvents(AnimatedState(s2, input));
    assert DrawEvents(s, input) == [SemaphoreWait] + r + FrameEvents(t, input);
  }

  /**
   * The alpha the 3D uniforms hold when a 3D draw() ends, and so when its cube
   * is drawn: 0.5 while halted, whatever an animation step wrote before.
   */
  lemma HaltedAlphaIsLast(s: ViewState, input: FrameInput)
    requires Admitted(s) && input.drawableAvailable && !Stretched(s)
    ensures LastAlpha3D(DrawEvents(s, input)) ==
      Some(if input.halted then 0.5 else if input.animates then input.animatedAlpha else s.currentAlpha)
  {
    var s1 := Acquired(s);
    var t := RefreshState(s1, input);
    RefreshStateFacts(s1, input);
    var s2 := t.(hasDrawable := true);
    var front := [SemaphoreWait] + RefreshEvents(s1, input) + [UpdateTexture];
    var passes := Scene3DPasses(s2, input);
    var tail := EndFrameEvents(AnimatedState(s2, input));
    assert DrawEvents(s, input) == front + passes + tail;
    SceneAlphaIsLast(s2, input);
    NoAlphaWrites(tail);
    LastAlphaAppend(front + passes, tail);
    LastAlphaAppend(front, passes);
  }

  /** The frame counter counts endFrame calls and inFlight counts commits; a draw ends at most one frame. */
  lemma FramesCountEndFrames(s: ViewState, input: FrameInput)
    ensures DrawState(s, input).frames == s.frames + CountOf(DrawEvents(s, input), EndEncoding)
    ensures DrawState(s, input).gate.inFlight == s.gate.inFlight + CountOf(DrawEvents(s, input), Commit)
    ensures DrawState(s, input).frames <= s.frames + 1
  {
    if Admitted(s) {
      DrawCounts(s, input);
      var s1 := Acquired(s);
      var r := RefreshEvents(s1, input);
      var t := RefreshState(s1, input);
      FrameCounts(t, input);
      RefreshEventFacts(s1, input);
      CountOfAppend([SemaphoreWait], r, EndEncoding);
      CountOfAppend([SemaphoreWait] + r, FrameEvents(t, input), EndEncoding);
    }
  }

  /** At most one frame is ever on the GPU: permits and in-flight frames never exceed one together. */
  predicate GateBounded(s: ViewState)
  {
    s.gate.permits + s.gate.inFlight <= 1
  }

  lemma GateBoundedPreserved(s: ViewState, input: FrameInput, w: nat, h: nat)
    requires GateBounded(s)
    ensures GateBounded(Initial())
    ensures GateBounded(DrawState(s, input))
    ensures GateBounded(DrawReleasingState(s, input))
    ensures GateBounded(CompletionState(s))
    ensures GateBounded(SetFrameSizeState(s))
    ensures GateBounded(SetupState(s, w, h))
  {
    if Admitted(s) {
      DrawCounts(s, input);
    }
  }

  /** A draw commits only when no frame is on the GPU, and then exactly one is. */
  lemma CommitOnlyWhenIdle(s: ViewState, input: FrameInput)
    requires GateBounded(s)
    requires Commit in DrawEvents(s, input)
    ensures s.gate.inFlight == 0 && DrawState(s, input).gate.inFlight == 1
  {
    CountOfPresent(DrawEvents(s, input), Commit);
    DrawCounts(s, input);
  }

  /** setupMetal's reshape never rebuilds: buildMetal has just recorded the same drawable size. */
  lemma SetupReshapeIsNoOp(s: ViewState, w: nat, h: nat)
    ensures SetupEvents(s, w, h) == BuildEvents()
    ensures var t := SetupState(s, w, h);
      t.display.enableMetal && t.layer.width == w && t.layer.height == h
      && t.layer.dirty == s.layer.dirty && t.gate.permits == s.gate.permits
  {
  }

  // ---------------------------------------------------------------------------
  // The lost permit
  // ---------------------------------------------------------------------------

  /** As written: a draw whose nextDrawable() is nil keeps the only permit, and the view deadlocks. */
  lemma DrawWithoutDrawableDeadlocks(s: ViewState, input: FrameInput)
    requires s.display.enableMetal && s.gate.permits == 1 && s.gate.inFlight == 0 && !input.drawableAvailable
    ensures Deadlocked(DrawState(s, input))
  {
    var t := RefreshState(Acquired(s), input);
    RefreshStateFacts(Acquired(s), input);
  }

  /** A deadlocked view stays deadlocked: every later draw waits and no completion will ever signal. */
  lemma DeadlockIsPermanent(t: ViewState, input: FrameInput)
    requires Deadlocked(t)
    ensures DrawState(t, input) == t && DrawEvents(t, input) == []
    ensures CompletionState(t) == t
    ensures Deadlocked(SetFrameSizeState(t))
  {
  }

  /** The permit is either available or held by the one frame on the GPU. */
  predicate GateLive(s: ViewState)
  {
    s.gate.permits + s.gate.inFlight == 1
  }

  /** Corrected: giving the permit back on the nil-drawable path keeps the gate live, so the view never deadlocks. */
  lemma ReleasingDrawKeepsGateLive(s: ViewState, input: FrameInput)
    requires GateLive(s)
    ensures GateLive(DrawReleasingState(s, input))
    ensures !Deadlocked(DrawReleasingState(s, input))
  {
    if Admitted(s) {
      DrawCounts(s, input);
    }
  }

  /** The other steps keep the gate live too, starting from the initial state. */
  lemma GateLiveSteps(s: ViewState, w: nat, h: nat)
    requires GateLive(s)
    ensures GateLive(Initial())
    ensures GateLive(CompletionState(s))
    ensures GateLive(SetFrameSizeState(s))
    ensures GateLive(SetupState(s, w, h))
  {
  }

  // ---------------------------------------------------------------------------
  // Texture cut-out
  // ---------------------------------------------------------------------------

  /** Width and height of the emulator texture the cut-out is taken from. */
  const TextureSize: real := 512.0

  /** Border and canvas geometry of one video standard, in pixels. */
  datatype CanvasGeometry = CanvasGeometry(leftBorderWidth: int, upperBorderHeight: int, canvasWidth: int, canvasHeight: int)

  /** Visible border kept around the canvas: PAL 36 x 34 pixels, NTSC 42 x 9 pixels. */
  function BorderWidth(isPAL: bool): int { if isPAL then 36 else 42 }
  function BorderHeight(isPAL: bool): int { if isPAL then 34 else 9 }

  /** The visible area of the emulator texture, in pixels. */
  function VisibleArea(isPAL: bool, pal: CanvasGeometry, ntsc: CanvasGeometry): MetalSetup.Rect
  {
    var g := if isPAL then pal else ntsc;
    var bw, bh := BorderWidth(isPAL), BorderHeight(isPAL);
    MetalSetup.Rect((g.leftBorderWidth - bw) as real, (g.upperBorderHeight - bh) as real,
                    (g.canvasWidth + 2 * bw) as real, (g.canvasHeight + 2 * bh) as real)
  }

  /** The visible area normalised by the texture size (minX, minY and the standardized width and height). */
  function TextureCutout(area: MetalSetup.Rect): MetalSetup.Rect
  {
    MetalSetup.Rect(area.MinX() / TextureSize, area.MinY() / TextureSize, area.Width() / TextureSize, area.Height() / TextureSize)
  }

  /** The cut-out keeps the chosen border on every side of the canvas and lies inside the unit square when the area lies inside the texture. */
  lemma CutoutGeometry(isPAL: bool, pal: CanvasGeometry, ntsc: CanvasGeometry)
    ensures var g := if isPAL then pal else ntsc;
      var r := TextureCutout(VisibleArea(isPAL, pal, ntsc));
      (g.canvasWidth + 2 * BorderWidth(isPAL) >= 0 ==>
        r.x * 512.0 == (g.leftBorderWidth - BorderWidth(isPAL)) as real
        && (r.x + r.width) * 512.0 == (g.leftBorderWidth + g.canvasWidth + BorderWidth(isPAL)) as real)
      && (g.canvasHeight + 2 * BorderHeight(isPAL) >= 0 ==>
        r.y * 512.0 == (g.upperBorderHeight - BorderHeight(isPAL)) as real
        && (r.y + r.height) * 512.0 == (g.upperBorderHeight + g.canvasHeight + BorderHeight(isPAL)) as real)
  {
  }

  lemma CutoutInUnitSquare(area: MetalSetup.Rect)
    requires 0.0 <= area.x && 0.0 <= area.width && area.x + area.width <= TextureSize
    requires 0.0 <= area.y && 0.0 <= area.height && area.y + area.height <= TextureSize
    ensures var r := TextureCutout(area);
      0.0 <= r.MinX() <= r.MaxX() <= 1.0 && 0.0 <= r.MinY() <= r.MaxY() <= 1.0
  {
  }

  /** Two appends to a trace make one append of the two parts. */
  lemma AppendTwo(t: seq<Event>, a: seq<Event>, b: seq<Event>)
    ensures t + a + b == t + (a + b)
  {
  }

  /** Three appends to a trace make one append of the three parts. */
  lemma AppendSteps(t: seq<Event>, a: seq<Event>, b: seq<Event>, c: seq<Event>)
    ensures t + a + b + c == t + (a + b + c)
  {
  }

  // ---------------------------------------------------------------------------
  // The view
  // ---------------------------------------------------------------------------

  class MetalView {
    /** layerWidth, layerHeight and layerIsDirty. */
    var layer: Layer
    /** The semaphore, with the command buffers that will signal it. */
    var gate: Gate
    /** enableMetal, fullscreen, fullscreenKeepAspectRatio and drawC64texture. */
    var display: Display
    var frames: nat
    var currentAlpha: real
    /** Whether the current frame has a drawable to present. */
    var hasDrawable: bool
    /** Device, texture cut-out and vertex data. */
    var hasDevice: bool
    var textureRect: MetalSetup.Rect
    var positionBuffer: Option<seq<real>>
    /** Everything sent to Metal so far. */
    var trace: seq<Event>

    function State(): ViewState
      reads this
    {
      ViewState(layer, gate, display, frames, currentAlpha, hasDrawable)
    }

    function Resources(): (bool, MetalSetup.Rect, Option<seq<real>>)
      reads this
    {
      (hasDevice, textureRect, positionBuffer)
    }

    /** init + awakeFromNib: the semaphore starts with one permit. */
    constructor ()
      ensures State() == Initial() && trace == []
      ensures !hasDevice && positionBuffer.None?
    {
      layer, gate, display := Layer(0, 0, true), Gate(1, 0), Display(false, false, true, false);
      frames, currentAlpha, hasDrawable := 0, 0.0, false;
      hasDevice, textureRect, positionBuffer := false, MetalSetup.Rect(0.0, 0.0, 0.0, 0.0), None;
      trace := [];
    }

    method SetFrameSize()
      modifies this
      ensures State() == SetFrameSizeState(old(State()))
      ensures trace == old(trace) && Resources() == old(Resources())
    {
      layer := layer.(dirty := true);
    }

    method Reshape(w: nat, h: nat)
      modifies this
      ensures State() == ReshapeState(old(State()), w, h)
      ensures trace == old(trace) + ReshapeEvents(old(State()), w, h)
      ensures Resources() == old(Resources())
    {
      if layer.width == w && layer.height == h {
        return;
      }
      layer := layer.(width := w, height := h);
      trace := trace + [FillBuffer(BgUniforms, 1.0), FillBuffer(Uniforms2D, 1.0), FillBuffer(Uniforms3D, currentAlpha)];
      trace := trace + [BuildDepthBuffer(layer.width, layer.height)];
    }

    method EndFrame()
      modifies this
      ensures State() == EndFrameState(old(State()))
      ensures trace == old(trace) + EndFrameEvents(old(State()))
      ensures Resources() == old(Resources())
    {
      trace := trace + [EndEncoding, AddCompletedHandler];
      if hasDrawable {
        trace := trace + [Present, Commit];
        gate := gate.(inFlight := gate.inFlight + 1);
      }
      frames := frames + 1;
    }

    method DrawScene2D()
      modifies this
      ensures State() == EndFrameState(old(State()))
      ensures trace == old(trace) + Scene2DEvents(old(State()))
      ensures Resources() == old(Resources())
    {
      trace := trace + [StartFrame, DrawPrimitives(Uniforms2D, 42, 6)];
      EndFrame();
    }

    method DrawScene3D(input: FrameInput)
      modifies this
      ensures State() == Scene3DState(old(State()), input)
      ensures trace == old(trace) + Scene3DEvents(old(State()), input)
      ensures Resources() == old(Resources())
    {
      ghost var s0 := State();
      var passes := [];
      if input.animates {
        currentAlpha := input.animatedAlpha;
        passes := [UpdateAngles, FillBuffer(Uniforms3D, currentAlpha)];
      }
      var alpha := if input.halted then 0.5 else currentAlpha;
      passes := passes + [StartFrame, FillAlpha(Uniforms3D, alpha)];
      assert passes == Scene3DPrologue(s0, input);
      if !display.fullscreen && (input.animates || !display.drawC64texture) {
        passes := passes + [DrawPrimitives(BgUniforms, 0, 6)];
      }
      assert passes == Scene3DPrologue(s0, input) + BackgroundDraw(s0, input);
      if display.drawC64texture {
        passes := passes + [DrawPrimitives(Uniforms3D, 6, if input.animates then 24 else 6)];
      }
      assert passes == Scene3DPasses(s0, input);
      ghost var t0 := trace;
      trace := trace + passes;
      assert State() == AnimatedState(s0, input);
      EndFrame();
      AppendTwo(t0, passes, EndFrameEvents(AnimatedState(s0, input)));
    }

    /** The first block of draw(_:): rebuild the size-dependent items if the layer is dirty. */
    method Refresh(input: FrameInput)
      modifies this
      ensures State() == RefreshState(old(State()), input)
      ensures trace == old(trace) + RefreshEvents(old(State()), input)
      ensures Resources() == old(Resources())
    {
      if layer.dirty {
        Reshape(input.drawableWidth, input.drawableHeight);
      }
      layer := layer.(dirty := false);
    }

    /** The rest of draw(_:): take the next drawable and, with one, update the texture and draw a scene. */
    method DrawFrame(input: FrameInput)
      modifies this
      ensures State() == FrameState(old(State()), input)
      ensures trace == old(trace) + FrameEvents(old(State()), input)
      ensures Resources() == old(Resources())
    {
      hasDrawable := input.drawableAvailable;
      if !hasDrawable {
        return;
      }
      ghost var s1, t0 := State(), trace;
      trace := trace + [UpdateTexture];
      if display.fullscreen && !display.fullscreenKeepAspectRatio {
        DrawScene2D();
        AppendTwo(t0, [UpdateTexture], Scene2DEvents(s1));
      } else {
        DrawScene3D(input);
        AppendTwo(t0, [UpdateTexture], Scene3DEvents(s1, input));
      }
    }

    /**
     * draw(_:). With no permit left the call returns at once where the
     * source's thread would wait. When nextDrawable() yields nothing the
     * permit is given back (see DrawReleasingState).
     */
    method Draw(input: FrameInput)
      modifies this
      ensures State() == DrawReleasingState(old(State()), input)
      ensures trace == old(trace) + DrawReleasingEvents(old(State()), input)
      ensures Resources() == old(Resources())
    {
      if !display.enableMetal || gate.permits == 0 {
        return;
      }
      ghost var s0, t0 := State(), trace;
      gate := gate.(permits := gate.permits - 1);
      trace := trace + [SemaphoreWait];
      ghost var s1, t1 := State(), trace;
      assert s1 == Acquired(s0);
      Refresh(input);
      ghost var s2, t2 := State(), trace;
      DrawFrame(input);
      ghost var s3, t3 := State(), trace;
      assert s3 == DrawState(s0, input);
      AppendSteps(t0, [SemaphoreWait], RefreshEvents(s1, input), FrameEvents(s2, input));
      if !hasDrawable {
        gate := gate.(permits := gate.permits + 1);
        trace := trace + [SemaphoreSignal];
      }
    }

    /** The completion handler of a committed command buffer runs. */
    method CompleteFrame()
      modifies this
      ensures State() == CompletionState(old(State()))
      ensures trace == old(trace) && Resources() == old(Resources())
    {
      if gate.inFlight > 0 {
        gate := Gate(gate.permits + 1, gate.inFlight - 1);
      }
    }

    /** setupMetal(), with w x h the drawable size the metal layer reports. */
    method SetupMetal(w: nat, h: nat)
      modifies this
      ensures State() == SetupState(old(State()), w, h)
      ensures trace == old(trace) + SetupEvents(old(State()), w, h)
      ensures hasDevice && textureRect == old(textureRect)
      ensures positionBuffer.Some? && |positionBuffer.value| == MetalSetup.VertexCapacity
      ensures forall v :: 0 <= v < MetalSetup.VertexCount ==>
        positionBuffer.value[v * 8..v * 8 + 8] == MetalSetup.Record(MetalSetup.VertexTable(textureRect)[v])
    {
      ghost var t0 := trace;
      hasDevice := true;
      layer := layer.(width := w, height := h);
      var positions, u2, u3, ubg, uf := MetalSetup.BuildBuffers(textureRect);
      positionBuffer := positions;
      trace := trace + BuildEvents();
      ghost var s1 := State();
      Reshape(w, h);
      AppendTwo(t0, BuildEvents(), ReshapeEvents(s1, w, h));
      display := display.(enableMetal := true);
    }

    /** updateScreenGeometry(): choose the cut-out for the video standard and rewrite the vertex buffer. */
    method UpdateScreenGeometry(isPAL: bool, pal: CanvasGeometry, ntsc: CanvasGeometry)
      modifies this
      ensures textureRect == TextureCutout(VisibleArea(isPAL, pal, ntsc))
      ensures hasDevice == old(hasDevice)
      ensures hasDevice ==> positionBuffer.Some? && |positionBuffer.value| == MetalSetup.VertexCapacity
      ensures hasDevice ==>
        forall v :: 0 <= v < MetalSetup.VertexCount ==>
          positionBuffer.value[v * 8..v * 8 + 8] == MetalSetup.Record(MetalSetup.VertexTable(textureRect)[v])
      ensures !hasDevice ==> positionBuffer == old(positionBuffer)
      ensures State() == old(State()) && trace == old(trace)
    {
      var rect := VisibleArea(isPAL, pal, ntsc);
      textureRect := TextureCutout(rect);
      var buffer := MetalSetup.BuildVertexBuffer(hasDevice, textureRect);
      if buffer.Some? {
        positionBuffer := buffer;
      }
    }
  }
}
