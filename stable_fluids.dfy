/**
 * The host-side frame scheduler of StableFluids: on each animation frame it waits for the
 * seed image, initialises the simulation buffers once, primes the clock, and from then on
 * issues the fixed ping-pong sequence advect, copy, Jacobi sweeps, present.
 *
 * The scheduler is specified by pure functions from an abstract state and a timestamp to the
 * next state and the WebGL calls issued (Frame); the class StableFluids carries the same
 * state in fields and its methods are proved to follow those functions.
 */
module Fluids {
  import opened Wrappers
  import opened GLTrace

  const SimSizeH: nat := 512
  const Viscosity: real := 0.002478
  /** How many times the diffusion loop of a simulating tick runs: once. */
  const JacobiIterations: nat := 1

  /** Grid spacing, one cell of the 512-cell-high grid. */
  const Dx: real := 1.0 / (SimSizeH as real)

  /** The diffusion precursor dx*dx/viscosity, computed once at initialisation. */
  const DifAlphaPrec: real := Dx * Dx / Viscosity

  /** The buffers InitSimulator allocates, in order, with their formats. */
  const FieldAllocs: seq<Call> := [Alloc(V1, RG32F), Alloc(V2, RG32F), Alloc(V3, RG32F),
                                   Alloc(P1, R32F), Alloc(P2, R32F),
                                   Alloc(Col1, RGBA4), Alloc(Col2, RGBA4)]

  const FieldBuffers: set<Buffer> := {V1, V2, V3, P1, P2, Col1, Col2}

  // ---------------------------------------------------------------------------------------
  // DrawTexture and RenderToTexture

  /** The two uniform callbacks onFrame hands to DrawTexture. */
  datatype UniformSetter = SetDeltaTime(dt: real) | SetAlphaBeta(alpha: real, beta: real)

  function CallbackWrites(u: Option<UniformSetter>): seq<UniformWrite>
  {
    match u
    case None => []
    case Some(SetDeltaTime(dt)) => [UniformWrite(DeltaTime, dt)]
    case Some(SetAlphaBeta(a, b)) => [UniformWrite(Alpha, a), UniformWrite(Beta, b)]
  }

  function CallbackCalls(u: Option<UniformSetter>): seq<Call>
  {
    match u
    case None => []
    case Some(SetDeltaTime(dt)) => [SetUniform(UniformWrite(DeltaTime, dt))]
    case Some(SetAlphaBeta(a, b)) => [SetUniform(UniformWrite(Alpha, a)), SetUniform(UniformWrite(Beta, b))]
  }

  function Bound(unit: nat, tex: Option<Buffer>): seq<SamplerBinding>
  {
    if tex.Some? then [SamplerBinding(unit, tex.value)] else []
  }

  function SamplerCalls(unit: nat, tex: Option<Buffer>): seq<Call>
  {
    if tex.Some? then [BindSampler(SamplerBinding(unit, tex.value))] else []
  }

  /** The sampler bindings DrawTexture makes for its three inputs. */
  function Bindings(tex0: Option<Buffer>, tex1: Option<Buffer>, tex2: Option<Buffer>): seq<SamplerBinding>
  {
    Bound(0, tex0) + Bound(1, tex1) + Bound(2, tex2)
  }

  function ProgramOrDefault(program: Option<Program>): Program
  {
    if program.None? then Default else program.value
  }

  /** The calls DrawTexture issues. */
  function DrawCalls(tex0: Option<Buffer>, tex1: Option<Buffer>, tex2: Option<Buffer>,
                     program: Option<Program>, setUniform: Option<UniformSetter>): seq<Call>
  {
    [UseProgram(ProgramOrDefault(program))]
      + SamplerCalls(0, tex0) + SamplerCalls(1, tex1) + SamplerCalls(2, tex2)
      + CallbackCalls(setUniform)
      + [DrawElements(6)]
  }

  /** The calls RenderToTexture issues: none at all for a copy onto itself. */
  function CopyCalls(src: Buffer, dest: Buffer): seq<Call>
  {
    if src == dest then []
    else [SetTarget(Tex(dest))] + DrawCalls(Some(src), None, None, Some(Default), None)
  }

  lemma SamplerReplay(st: Pending, unit: nat, tex: Option<Buffer>)
    ensures Replay(st, SamplerCalls(unit, tex)) == Replayed(st.(inputs := st.inputs + Bound(unit, tex)), [])
  {
    if tex.None? {
      assert st.inputs + [] == st.inputs;
    } else {
      ReplayOne(st, BindSampler(SamplerBinding(unit, tex.value)));
    }
  }

  lemma CallbackReplay(st: Pending, u: Option<UniformSetter>)
    ensures Replay(st, CallbackCalls(u)) == Replayed(st.(uniforms := st.uniforms + CallbackWrites(u)), [])
  {
    match u
    case None =>
      assert st.uniforms + [] == st.uniforms;
    case Some(SetDeltaTime(dt)) =>
      ReplayOne(st, SetUniform(UniformWrite(DeltaTime, dt)));
    case Some(SetAlphaBeta(a, b)) =>
      var x, y := SetUniform(UniformWrite(Alpha, a)), SetUniform(UniformWrite(Beta, b));
      assert CallbackCalls(u) == [x] + [y];
      ReplayOne(st, x);
      ReplayAppend(st, [x], [y]);
      ReplayOne(Step(st, x).state, y);
      assert st.uniforms + [UniformWrite(Alpha, a)] + [UniformWrite(Beta, b)] == st.uniforms + CallbackWrites(u);
  }

  /** useProgram followed by the sampler bindings: the program is in use and exactly the
      non-null inputs are bound, nothing is drawn yet. */
  lemma {:induction false} BindReplay(st: Pending, p: Program, tex0: Option<Buffer>, tex1: Option<Buffer>, tex2: Option<Buffer>)
    ensures Replay(st, [UseProgram(p)] + SamplerCalls(0, tex0) + SamplerCalls(1, tex1) + SamplerCalls(2, tex2)) ==
            Replayed(Pending(st.target, Some(p), Bindings(tex0, tex1, tex2), []), [])
  {
    var u := [UseProgram(p)];
    var s0, s1, s2 := SamplerCalls(0, tex0), SamplerCalls(1, tex1), SamplerCalls(2, tex2);
    var st0 := Pending(st.target, Some(p), [], []);
    ReplayOne(st, UseProgram(p));
    ReplayAppend(st, u, s0);
    SamplerReplay(st0, 0, tex0);
    var st1 := st0.(inputs := Bound(0, tex0));
    assert [] + Bound(0, tex0) == Bound(0, tex0);
    assert Replay(st, u + s0) == Replayed(st1, []);
    ReplayAppend(st, u + s0, s1);
    SamplerReplay(st1, 1, tex1);
    var st2 := st1.(inputs := Bound(0, tex0) + Bound(1, tex1));
    assert Replay(st, u + s0 + s1) == Replayed(st2, []);
    ReplayAppend(st, u + s0 + s1, s2);
    SamplerReplay(st2, 2, tex2);
  }

  /** A DrawTexture call draws exactly one pass, into whatever target is bound: with the given
      program or the default one, sampling exactly the non-null inputs, with exactly the writes
      of the callback (if any) made before the draw, over the 6 indices of the quad. */
  lemma {:induction false} DrawReplay(st: Pending, tex0: Option<Buffer>, tex1: Option<Buffer>, tex2: Option<Buffer>,
                                      program: Option<Program>, setUniform: Option<UniformSetter>)
    ensures Replay(st, DrawCalls(tex0, tex1, tex2, program, setUniform)) ==
            Replayed(Pending(st.target, Some(ProgramOrDefault(program)), Bindings(tex0, tex1, tex2), CallbackWrites(setUniform)),
                     [Pass(st.target, ProgramOrDefault(program), Bindings(tex0, tex1, tex2), CallbackWrites(setUniform), 6)])
  {
    var p := ProgramOrDefault(program);
    var b := [UseProgram(p)] + SamplerCalls(0, tex0) + SamplerCalls(1, tex1) + SamplerCalls(2, tex2);
    var c := CallbackCalls(setUniform);
    var st3 := Pending(st.target, Some(p), Bindings(tex0, tex1, tex2), []);
    BindReplay(st, p, tex0, tex1, tex2);
    ReplayAppend(st, b, c);
    CallbackReplay(st3, setUniform);
    var st4 := st3.(uniforms := CallbackWrites(setUniform));
    assert [] + CallbackWrites(setUniform) == CallbackWrites(setUniform);
    assert Replay(st, b + c) == Replayed(st4, []);
    ReplayAppend(st, b + c, [DrawElements(6)]);
    ReplayOne(st4, DrawElements(6));
    assert DrawCalls(tex0, tex1, tex2, program, setUniform) == b + c + [DrawElements(6)];
  }

  /** Sampler unit k is bound exactly when input k is non-null, and then to that input. */
  lemma BindingsOnlyNonNull(tex0: Option<Buffer>, tex1: Option<Buffer>, tex2: Option<Buffer>)
    ensures forall b: SamplerBinding :: b in Bindings(tex0, tex1, tex2) <==>
      (b.unit == 0 && tex0 == Some(b.buf)) || (b.unit == 1 && tex1 == Some(b.buf)) || (b.unit == 2 && tex2 == Some(b.buf))
  {
  }

  /** The shape of a DrawTexture call sequence: first the program, last the single draw of 6
      indices, and every uniform write of the callback in between. */
  lemma DrawCallsShape(tex0: Option<Buffer>, tex1: Option<Buffer>, tex2: Option<Buffer>,
                       program: Option<Program>, setUniform: Option<UniformSetter>)
    ensures var calls := DrawCalls(tex0, tex1, tex2, program, setUniform);
      && calls[0] == UseProgram(if program.None? then Default else program.value)
      && calls[|calls| - 1] == DrawElements(|QuadIndices|)
      && (forall i :: 0 <= i < |calls| - 1 ==> !calls[i].DrawElements?)
      && |calls| == 2 + |Bindings(tex0, tex1, tex2)| + |CallbackWrites(setUniform)|
  {
  }

  /** Copying a buffer onto a different one draws one default-program pass into the
      destination that samples only the source. */
  lemma CopyReplay(st: Pending, src: Buffer, dest: Buffer)
    requires src != dest
    ensures Replay(st, CopyCalls(src, dest)).state.target == Tex(dest)
    ensures Replay(st, CopyCalls(src, dest)).passes == [CopyPass(src, dest)]
    ensures SafePass(CopyPass(src, dest))
  {
    TargetedDraw(st, Tex(dest), Some(src), None, None, Some(Default), None);
    assert Bindings(Some(src), None, None) == [SamplerBinding(0, src)];
  }

  function CopyPass(src: Buffer, dest: Buffer): Pass
  {
    Pass(Tex(dest), Default, [SamplerBinding(0, src)], [], 6)
  }

  /** Binding a target and then drawing draws one pass into that target, whatever was bound before. */
  lemma TargetedDraw(st: Pending, t: Target, tex0: Option<Buffer>, tex1: Option<Buffer>, tex2: Option<Buffer>,
                     program: Option<Program>, setUniform: Option<UniformSetter>)
    ensures var r := Replay(st, [SetTarget(t)] + DrawCalls(tex0, tex1, tex2, program, setUniform));
      && r.state.target == t
      && r.passes == [Pass(t, ProgramOrDefault(program), Bindings(tex0, tex1, tex2), CallbackWrites(setUniform), 6)]
  {
    var head := [SetTarget(t)];
    ReplayOne(st, SetTarget(t));
    ReplayAppend(st, head, DrawCalls(tex0, tex1, tex2, program, setUniform));
    DrawReplay(st.(target := t), tex0, tex1, tex2, program, setUniform);
  }

  // ---------------------------------------------------------------------------------------
  // The simulating tick

  /** Elapsed time in seconds between two millisecond timestamps. */
  function ElapsedSeconds(last: real, ts: real): (dt: real)
    requires ts != last
    ensures dt != 0.0
    ensures dt * 1000.0 == ts - last
    ensures ts > last ==> dt > 0.0
  {
    (ts - last) / 1000.0
  }

  datatype Coefficients = Coefficients(alpha: real, beta: real)

  /** The Jacobi coefficients of one implicit diffusion step: alpha scaled so that
      alpha * deltaTime is the precomputed dx*dx/viscosity, and beta = alpha + 4, where 4 is
      the number of neighbours of a cell. */
  function JacobiCoefficients(difAlphaPrec: real, deltaTime: real): (c: Coefficients)
    requires deltaTime != 0.0
    ensures c.alpha * deltaTime == difAlphaPrec
    ensures c.beta - c.alpha == 4.0
  {
    var alpha := difAlphaPrec / deltaTime;
    Coefficients(alpha, alpha + 4.0)
  }

  function AdvectCalls(dt: real): seq<Call>
  {
    [SetTarget(Tex(V2))] + DrawCalls(Some(V1), None, None, Some(Advect), Some(SetDeltaTime(dt)))
  }

  function JacobiCalls(dest: Buffer, src: Buffer, alpha: real, beta: real): seq<Call>
  {
    [SetTarget(Tex(dest))] + DrawCalls(Some(src), Some(V1), None, Some(Jacobi2D), Some(SetAlphaBeta(alpha, beta)))
  }

  /** One iteration of the diffusion loop: V3 from V2, then V2 from V3, both against V1. */
  function SweepCalls(alpha: real, beta: real): seq<Call>
  {
    JacobiCalls(V3, V2, alpha, beta) + JacobiCalls(V2, V3, alpha, beta)
  }

  function Sweeps(n: nat, alpha: real, beta: real): seq<Call>
  {
    if n == 0 then [] else Sweeps(n - 1, alpha, beta) + SweepCalls(alpha, beta)
  }

  function PresentCalls(): seq<Call>
  {
    [SetTarget(Screen)] + DrawCalls(Some(V2), None, None, Some(Default), None)
  }

  /** Everything a simulating tick issues. */
  function SimCalls(dt: real, alpha: real, beta: real): seq<Call>
  {
    AdvectCalls(dt) + CopyCalls(V2, V1) + Sweeps(JacobiIterations, alpha, beta) + PresentCalls()
  }

  function JacobiPass(dest: Buffer, src: Buffer, alpha: real, beta: real): Pass
  {
    Pass(Tex(dest), Jacobi2D, [SamplerBinding(0, src), SamplerBinding(1, V1)],
         [UniformWrite(Alpha, alpha), UniformWrite(Beta, beta)], 6)
  }

  function SweepPasses(n: nat, alpha: real, beta: real): seq<Pass>
  {
    if n == 0 then [] else SweepPasses(n - 1, alpha, beta) + [JacobiPass(V3, V2, alpha, beta), JacobiPass(V2, V3, alpha, beta)]
  }

  /** However many sweeps the loop runs, they draw alternately into V3 and V2, never sampling
      the buffer being written. */
  lemma {:induction false} SweepsReplay(st: Pending, n: nat, alpha: real, beta: real)
    ensures Replay(st, Sweeps(n, alpha, beta)).passes == SweepPasses(n, alpha, beta)
    ensures n > 0 ==> Replay(st, Sweeps(n, alpha, beta)).state.target == Tex(V2)
    ensures AllSafe(SweepPasses(n, alpha, beta))
  {
    if n > 0 {
      var prev := Sweeps(n - 1, alpha, beta);
      SweepsReplay(st, n - 1, alpha, beta);
      ReplayAppend(st, prev, SweepCalls(alpha, beta));
      var mid := Replay(st, prev).state;
      var a := SetAlphaBeta(alpha, beta);
      assert Bindings(Some(V2), Some(V1), None) == [SamplerBinding(0, V2), SamplerBinding(1, V1)];
      assert Bindings(Some(V3), Some(V1), None) == [SamplerBinding(0, V3), SamplerBinding(1, V1)];
      TargetedDraw(mid, Tex(V3), Some(V2), Some(V1), None, Some(Jacobi2D), Some(a));
      ReplayAppend(mid, JacobiCalls(V3, V2, alpha, beta), JacobiCalls(V2, V3, alpha, beta));
      TargetedDraw(Replay(mid, JacobiCalls(V3, V2, alpha, beta)).state, Tex(V2), Some(V3), Some(V1), None, Some(Jacobi2D), Some(a));
      AllSafeAppend(SweepPasses(n - 1, alpha, beta), [JacobiPass(V3, V2, alpha, beta), JacobiPass(V2, V3, alpha, beta)]);
    }
  }

  /** The passes of a simulating tick for the loop bound in the source; the proof holds for
      any start state, so the passes do not depend on what the previous tick left bound. */
  lemma {:induction false} SimReplay(st: Pending, dt: real, alpha: real, beta: real)
    ensures Replay(st, SimCalls(dt, alpha, beta)).state.target == Screen
    ensures Passes(SimCalls(dt, alpha, beta)) == Replay(st, SimCalls(dt, alpha, beta)).passes
    ensures Replay(st, SimCalls(dt, alpha, beta)).passes ==
      [ Pass(Tex(V2), Advect, [SamplerBinding(0, V1)], [UniformWrite(DeltaTime, dt)], 6),
        Pass(Tex(V1), Default, [SamplerBinding(0, V2)], [], 6),
        Pass(Tex(V3), Jacobi2D, [SamplerBinding(0, V2), SamplerBinding(1, V1)], [UniformWrite(Alpha, alpha), UniformWrite(Beta, beta)], 6),
        Pass(Tex(V2), Jacobi2D, [SamplerBinding(0, V3), SamplerBinding(1, V1)], [UniformWrite(Alpha, alpha), UniformWrite(Beta, beta)], 6),
        Pass(Screen, Default, [SamplerBinding(0, V2)], [], 6) ]
    ensures AllSafe(Replay(st, SimCalls(dt, alpha, beta)).passes)
  {
    SimReplayFrom(st, dt, alpha, beta);
    SimReplayFrom(Start, dt, alpha, beta);
  }

  lemma {:induction false} SimReplayFrom(st: Pending, dt: real, alpha: real, beta: real)
    ensures Replay(st, SimCalls(dt, alpha, beta)).state.target == Screen
    ensures Replay(st, SimCalls(dt, alpha, beta)).passes ==
      [AdvectPass(dt), CopyPass(V2, V1)] + SweepPasses(JacobiIterations, alpha, beta) + [PresentPass()]
    ensures AllSafe(Replay(st, SimCalls(dt, alpha, beta)).passes)
  {
    var a, c, w, p := AdvectCalls(dt), CopyCalls(V2, V1), Sweeps(JacobiIterations, alpha, beta), PresentCalls();
    var sw := SweepPasses(JacobiIterations, alpha, beta);
    assert Replay(st, a).passes == [AdvectPass(dt)] by {
      TargetedDraw(st, Tex(V2), Some(V1), None, None, Some(Advect), Some(SetDeltaTime(dt)));
      assert Bindings(Some(V1), None, None) == [SamplerBinding(0, V1)];
    }
    assert Replay(st, a + c).passes == [AdvectPass(dt), CopyPass(V2, V1)] by {
      ReplayAppend(st, a, c);
      CopyReplay(Replay(st, a).state, V2, V1);
    }
    assert Replay(st, a + c + w).passes == [AdvectPass(dt), CopyPass(V2, V1)] + sw by {
      ReplayAppend(st, a + c, w);
      SweepsReplay(Replay(st, a + c).state, JacobiIterations, alpha, beta);
    }
    ReplayAppend(st, a + c + w, p);
    assert Replay(Replay(st, a + c + w).state, p).passes == [PresentPass()] by {
      TargetedDraw(Replay(st, a + c + w).state, Screen, Some(V2), None, None, Some(Default), None);
      assert Bindings(Some(V2), None, None) == [SamplerBinding(0, V2)];
    }
    TargetedDraw(Replay(st, a + c + w).state, Screen, Some(V2), None, None, Some(Default), None);
    SweepsReplay(st, JacobiIterations, alpha, beta);
    AllSafeAppend([AdvectPass(dt), CopyPass(V2, V1)], sw);
    AllSafeAppend([AdvectPass(dt), CopyPass(V2, V1)] + sw, [PresentPass()]);
  }

  function AdvectPass(dt: real): Pass
  {
    Pass(Tex(V2), Advect, [SamplerBinding(0, V1)], [UniformWrite(DeltaTime, dt)], 6)
  }

  function PresentPass(): Pass
  {
    Pass(Screen, Default, [SamplerBinding(0, V2)], [], 6)
  }

  lemma {:induction false} SweepsAllocateNothing(n: nat, alpha: real, beta: real)
    ensures Allocated(Sweeps(n, alpha, beta)) == {}
  {
    if n > 0 {
      SweepsAllocateNothing(n - 1, alpha, beta);
      AllocatedAppend(Sweeps(n - 1, alpha, beta), SweepCalls(alpha, beta));
      AllocatedAppend(JacobiCalls(V3, V2, alpha, beta), JacobiCalls(V2, V3, alpha, beta));
      DrawAllocatesNothing(Some(V2), Some(V1), None, Some(Jacobi2D), Some(SetAlphaBeta(alpha, beta)));
      DrawAllocatesNothing(Some(V3), Some(V1), None, Some(Jacobi2D), Some(SetAlphaBeta(alpha, beta)));
      AllocatedAppend([SetTarget(Tex(V3))], DrawCalls(Some(V2), Some(V1), None, Some(Jacobi2D), Some(SetAlphaBeta(alpha, beta))));
      AllocatedAppend([SetTarget(Tex(V2))], DrawCalls(Some(V3), Some(V1), None, Some(Jacobi2D), Some(SetAlphaBeta(alpha, beta))));
    }
  }

  lemma DrawAllocatesNothing(tex0: Option<Buffer>, tex1: Option<Buffer>, tex2: Option<Buffer>,
                             program: Option<Program>, setUniform: Option<UniformSetter>)
    ensures Allocated(DrawCalls(tex0, tex1, tex2, program, setUniform)) == {}
  {
    var calls := DrawCalls(tex0, tex1, tex2, program, setUniform);
    NoAllocNoAllocated(calls);
  }

  lemma {:induction false} NoAllocNoAllocated(calls: seq<Call>)
    requires forall i :: 0 <= i < |calls| ==> !calls[i].Alloc?
    ensures Allocated(calls) == {}
    decreases |calls|
  {
    if calls != [] {
      NoAllocNoAllocated(calls[1..]);
    }
  }

  lemma SimAllocatesNothing(dt: real, alpha: real, beta: real)
    ensures Allocated(SimCalls(dt, alpha, beta)) == {}
  {
    var a, c, w, p := AdvectCalls(dt), CopyCalls(V2, V1), Sweeps(JacobiIterations, alpha, beta), PresentCalls();
    AllocatedAppend(a + c + w, p);
    AllocatedAppend(a + c, w);
    AllocatedAppend(a, c);
    SweepsAllocateNothing(JacobiIterations, alpha, beta);
    NoAllocNoAllocated(a);
    NoAllocNoAllocated(c);
    NoAllocNoAllocated(p);
  }

  // ---------------------------------------------------------------------------------------
  // The scheduler state machine

  /** The scheduler's fields: m_textureLoaded, m_inited, m_lastTimestamp, m_dx,
      m_difAlpha_prec, and the render target currently bound. */
  datatype Sched = Sched(textureLoaded: bool, inited: bool, lastTimestamp: real,
                         dx: real, difAlphaPrec: real, target: Target)

  /** The state right after construction: the image is still loading. */
  const Initial := Sched(false, false, 0.0, 0.0, 0.0, Screen)

  /** A tick's effect: the next state and the calls issued, in order. */
  datatype Effect = Effect(next: Sched, calls: seq<Call>)

  /** Allocate the buffers, copy the image into V1, go back to the canvas. */
  function InitCalls(): seq<Call>
  {
    FieldAllocs + CopyCalls(Image, V1) + [SetTarget(Screen)]
  }

  function InitSimulatorSpec(s: Sched): Effect
  {
    if !s.textureLoaded then Effect(s, [])
    else Effect(s.(inited := true, dx := Dx, difAlphaPrec := DifAlphaPrec, target := Screen), InitCalls())
  }

  /** The source divides by the elapsed time without a guard; a simulating tick is only
      modelled when its timestamp differs from the previous one. */
  predicate Admits(s: Sched, ts: real)
  {
    s.inited && s.lastTimestamp != 0.0 ==> ts != s.lastTimestamp
  }

  /** One onFrame(ts). */
  function Frame(s: Sched, ts: real): Effect
    requires Admits(s, ts)
  {
    if !s.inited then InitSimulatorSpec(s)
    else if s.lastTimestamp == 0.0 then Effect(s.(lastTimestamp := ts), [])
    else
      var dt := ElapsedSeconds(s.lastTimestamp, ts);
      var c := JacobiCoefficients(s.difAlphaPrec, dt);
      Effect(s.(lastTimestamp := ts, target := Screen), SimCalls(dt, c.alpha, c.beta))
  }

  /** What the host does to the scheduler: the image's load callback, or an animation frame. */
  datatype HostEvent = ImageDecoded | AnimationFrame(ts: real)

  predicate Admissible(s: Sched, evs: seq<HostEvent>)
    decreases |evs|
  {
    evs == [] ||
    match evs[0]
    case ImageDecoded => Admissible(s.(textureLoaded := true), evs[1..])
    case AnimationFrame(ts) => Admits(s, ts) && Admissible(Frame(s, ts).next, evs[1..])
  }

  /** The effect of a whole run of host events. */
  function Run(s: Sched, evs: seq<HostEvent>): Effect
    requires Admissible(s, evs)
    decreases |evs|
  {
    if evs == [] then Effect(s, [])
    else
      match evs[0]
      case ImageDecoded => Run(s.(textureLoaded := true), evs[1..])
      case AnimationFrame(ts) =>
        var e := Frame(s, ts);
        var r := Run(e.next, evs[1..]);
        Effect(r.next, e.calls + r.calls)
  }

  /** The invariant of the scheduler relating its fields to the calls issued so far:
      nothing is issued before initialisation, initialisation happens only after the image has
      loaded and allocates every simulation buffer exactly then, the derived constants hold from
      then on, the target field is the target the calls leave bound, and no pass ever samples
      the texture it renders into. */
  ghost predicate Consistent(s: Sched, trace: seq<Call>)
  {
    && (!s.textureLoaded ==> !s.inited)
    && (!s.inited ==> trace == [] && s.lastTimestamp == 0.0 && s.target == Screen)
    && (s.inited ==> s.dx == Dx && s.difAlphaPrec == DifAlphaPrec && Allocated(trace) == FieldBuffers)
    && Replay(Start, trace).state.target == s.target
    && AllSafe(Passes(trace))
  }

  lemma InitialConsistent()
    ensures Consistent(Initial, [])
  {
  }

  lemma InitReplay(st: Pending)
    ensures Replay(st, InitCalls()).state.target == Screen
    ensures Replay(st, InitCalls()).passes == [CopyPass(Image, V1)]
    ensures AllSafe(Replay(st, InitCalls()).passes)
    ensures Allocated(InitCalls()) == FieldBuffers
  {
    var ac, r := FieldAllocs + CopyCalls(Image, V1), [SetTarget(Screen)];
    InitCopyReplay(st);
    ReplayAppend(st, ac, r);
    ReplayOne(Replay(st, ac).state, SetTarget(Screen));
    InitAllocated();
    assert AllSafe([CopyPass(Image, V1)]);
  }

  lemma InitCopyReplay(st: Pending)
    ensures Replay(st, FieldAllocs + CopyCalls(Image, V1)).passes == [CopyPass(Image, V1)]
    ensures Replay(st, FieldAllocs + CopyCalls(Image, V1)).state.target == Tex(V1)
  {
    FieldAllocsReplay(st);
    ReplayAppend(st, FieldAllocs, CopyCalls(Image, V1));
    CopyReplay(st, Image, V1);
  }

  lemma InitAllocated()
    ensures Allocated(InitCalls()) == FieldBuffers
  {
    var a, c, r := FieldAllocs, CopyCalls(Image, V1), [SetTarget(Screen)];
    FieldAllocsAllocated();
    AllocatedAppend(a + c, r);
    AllocatedAppend(a, c);
    NoAllocNoAllocated(c);
    NoAllocNoAllocated(r);
  }

  lemma FieldAllocsReplay(st: Pending)
    ensures Replay(st, FieldAllocs) == Replayed(st, [])
  {
    NoDrawReplay(st, FieldAllocs);
  }

  lemma FieldAllocsAllocated()
    ensures Allocated(FieldAllocs) == FieldBuffers
  {
    var x := FieldAllocs;
    assert x[1..][1..][1..][1..][1..][1..][1..] == [];
  }

  /** Allocations change nothing a draw depends on. */
  lemma {:induction false} NoDrawReplay(st: Pending, calls: seq<Call>)
    requires forall i :: 0 <= i < |calls| ==> calls[i].Alloc?
    ensures Replay(st, calls) == Replayed(st, [])
    decreases |calls|
  {
    if calls != [] {
      NoDrawReplay(st, calls[1..]);
    }
  }

  /** Every tick keeps the invariant. */
  lemma {:induction false} FramePreservesConsistent(s: Sched, trace: seq<Call>, ts: real)
    requires Consistent(s, trace) && Admits(s, ts)
    ensures Consistent(Frame(s, ts).next, trace + Frame(s, ts).calls)
  {
    var e := Frame(s, ts);
    if !s.inited {
      assert trace + e.calls == e.calls;
      if s.textureLoaded {
        InitReplay(Start);
      }
    } else if s.lastTimestamp == 0.0 {
      assert trace + e.calls == trace;
    } else {
      var dt := ElapsedSeconds(s.lastTimestamp, ts);
      var c := JacobiCoefficients(s.difAlphaPrec, dt);
      var sim := SimCalls(dt, c.alpha, c.beta);
      ReplayAppend(Start, trace, sim);
      SimReplayFrom(Replay(Start, trace).state, dt, c.alpha, c.beta);
      AllSafeAppend(Passes(trace), Replay(Replay(Start, trace).state, sim).passes);
      AllocatedAppend(trace, sim);
      SimAllocatesNothing(dt, c.alpha, c.beta);
    }
  }

  /** Every run of host events keeps the invariant. */
  lemma {:induction false} RunPreservesConsistent(s: Sched, trace: seq<Call>, evs: seq<HostEvent>)
    requires Consistent(s, trace) && Admissible(s, evs)
    ensures Consistent(Run(s, evs).next, trace + Run(s, evs).calls)
    decreases |evs|
  {
    if evs == [] {
      assert trace + [] == trace;
    } else {
      match evs[0]
      case ImageDecoded =>
        assert Consistent(s.(textureLoaded := true), trace);
        RunPreservesConsistent(s.(textureLoaded := true), trace, evs[1..]);
      case AnimationFrame(ts) =>
        var e := Frame(s, ts);
        FramePreservesConsistent(s, trace, ts);
        RunPreservesConsistent(e.next, trace + e.calls, evs[1..]);
        assert trace + e.calls + Run(e.next, evs[1..]).calls == trace + Run(s, evs).calls;
    }
  }

  /** No draw of any run ever samples the texture it renders into, every draw covers the quad,
      and the buffers allocated are the simulation buffers or none. */
  lemma NoPassSamplesItsTarget(evs: seq<HostEvent>)
    requires Admissible(Initial, evs)
    ensures AllSafe(Passes(Run(Initial, evs).calls))
    ensures Allocated(Run(Initial, evs).calls) == (if Run(Initial, evs).next.inited then FieldBuffers else {})
  {
    RunPreservesConsistent(Initial, [], evs);
    assert [] + Run(Initial, evs).calls == Run(Initial, evs).calls;
  }

  /** Readiness gating: as long as the image has not loaded, any number of animation frames
      leave the scheduler exactly as it was and issue no call at all. */
  lemma {:induction false} WaitingForImage(s: Sched, evs: seq<HostEvent>)
    requires !s.textureLoaded && !s.inited
    requires forall i :: 0 <= i < |evs| ==> evs[i].AnimationFrame?
    ensures Admissible(s, evs)
    ensures Run(s, evs) == Effect(s, [])
    decreases |evs|
  {
    if evs != [] {
      assert Frame(s, evs[0].ts) == Effect(s, []);
      WaitingForImage(s, evs[1..]);
    }
  }

  /** The tick that completes initialisation allocates the seven simulation buffers, copies
      the image into V1 with the default program, goes back to the canvas, sets the derived
      constants, and neither simulates nor touches the timestamp. */
  lemma InitialisingTick(s: Sched, ts: real, st: Pending)
    requires s.textureLoaded && !s.inited
    ensures Frame(s, ts).next.inited
    ensures Frame(s, ts).next.lastTimestamp == s.lastTimestamp
    ensures Frame(s, ts).next.dx == Dx && Frame(s, ts).next.difAlphaPrec == DifAlphaPrec
    ensures Frame(s, ts).next.target == Screen
    ensures Allocated(Frame(s, ts).calls) == {V1, V2, V3, P1, P2, Col1, Col2}
    ensures |Frame(s, ts).calls| > 7 && Frame(s, ts).calls[..7] == FieldAllocs
    ensures Frame(s, ts).calls[|Frame(s, ts).calls| - 1] == SetTarget(Screen)
    ensures Replay(st, Frame(s, ts).calls).passes == [Pass(Tex(V1), Default, [SamplerBinding(0, Image)], [], 6)]
  {
    InitTickState(s, ts);
    InitTickCalls(s, ts, st);
  }

  lemma InitTickCalls(s: Sched, ts: real, st: Pending)
    requires s.textureLoaded && !s.inited
    ensures Allocated(Frame(s, ts).calls) == FieldBuffers
    ensures |Frame(s, ts).calls| > 7 && Frame(s, ts).calls[..7] == FieldAllocs
    ensures Frame(s, ts).calls[|Frame(s, ts).calls| - 1] == SetTarget(Screen)
    ensures Replay(st, Frame(s, ts).calls).passes == [CopyPass(Image, V1)]
  {
    InitTickState(s, ts);
    InitReplay(st);
    InitCallsShape();
  }

  lemma InitTickState(s: Sched, ts: real)
    requires s.textureLoaded && !s.inited
    ensures Frame(s, ts).calls == InitCalls()
    ensures Frame(s, ts).next == s.(inited := true, dx := Dx, difAlphaPrec := DifAlphaPrec, target := Screen)
  {
  }

  lemma InitCallsShape()
    ensures |InitCalls()| > 7 && InitCalls()[..7] == FieldAllocs
    ensures InitCalls()[|InitCalls()| - 1] == SetTarget(Screen)
  {
    var ac := FieldAllocs + CopyCalls(Image, V1);
    assert InitCalls() == ac + [SetTarget(Screen)];
    assert (ac + [SetTarget(Screen)])[..7] == FieldAllocs;
  }

  /** Once initialised, a tick with no timestamp recorded only records this one. */
  lemma PrimingTick(s: Sched, ts: real)
    requires s.inited && s.lastTimestamp == 0.0
    ensures Frame(s, ts) == Effect(s.(lastTimestamp := ts), [])
  {
  }

  /** Because the check is for zero, a tick at timestamp 0 primes again: the tick after it
      primes too instead of simulating. */
  lemma ZeroTimestampPrimesAgain(s: Sched, ts: real)
    requires s.inited && s.lastTimestamp == 0.0
    ensures Frame(s, 0.0).calls == []
    ensures Frame(Frame(s, 0.0).next, ts) == Effect(s.(lastTimestamp := ts), [])
  {
  }

  /** A simulating tick: the elapsed time in seconds, the Jacobi coefficients derived from it,
      the timestamp recorded, nothing allocated, and exactly the five passes advect, copy,
      two Jacobi sweeps and present, none sampling its own target. */
  lemma SimulatingTick(s: Sched, ts: real, st: Pending)
    requires s.inited && s.lastTimestamp != 0.0 && ts != s.lastTimestamp
    ensures var dt := (ts - s.lastTimestamp) / 1000.0;
            var alpha := s.difAlphaPrec / dt;
            var beta := alpha + 4.0;
      && Frame(s, ts).next == s.(lastTimestamp := ts, target := Screen)
      && Allocated(Frame(s, ts).calls) == {}
      && Replay(st, Frame(s, ts).calls).passes ==
         [ Pass(Tex(V2), Advect, [SamplerBinding(0, V1)], [UniformWrite(DeltaTime, dt)], 6),
           Pass(Tex(V1), Default, [SamplerBinding(0, V2)], [], 6),
           Pass(Tex(V3), Jacobi2D, [SamplerBinding(0, V2), SamplerBinding(1, V1)], [UniformWrite(Alpha, alpha), UniformWrite(Beta, beta)], 6),
           Pass(Tex(V2), Jacobi2D, [SamplerBinding(0, V3), SamplerBinding(1, V1)], [UniformWrite(Alpha, alpha), UniformWrite(Beta, beta)], 6),
           Pass(Screen, Default, [SamplerBinding(0, V2)], [], 6) ]
      && AllSafe(Replay(st, Frame(s, ts).calls).passes)
  {
    var dt := ElapsedSeconds(s.lastTimestamp, ts);
    var c := JacobiCoefficients(s.difAlphaPrec, dt);
    SimReplay(st, dt, c.alpha, c.beta);
    SimAllocatesNothing(dt, c.alpha, c.beta);
  }

  /** For timestamps t0, t1, t2 seen on consecutive simulating ticks, the advection at t1 uses
      (t1 - t0)/1000 seconds and the one at t2 uses (t2 - t1)/1000. */
  lemma ConsecutiveDeltas(s: Sched, t1: real, t2: real)
    requires s.inited && s.lastTimestamp != 0.0
    requires s.lastTimestamp < t1 < t2 && t1 != 0.0
    ensures Admits(s, t1) && Admits(Frame(s, t1).next, t2)
    ensures |Passes(Frame(s, t1).calls)| == 5 && |Passes(Frame(Frame(s, t1).next, t2).calls)| == 5
    ensures Passes(Frame(s, t1).calls)[0].uniforms == [UniformWrite(DeltaTime, (t1 - s.lastTimestamp) / 1000.0)]
    ensures Passes(Frame(Frame(s, t1).next, t2).calls)[0].uniforms == [UniformWrite(DeltaTime, (t2 - t1) / 1000.0)]
    ensures Frame(Frame(s, t1).next, t2).next.lastTimestamp == t2
  {
    SimulatingTick(s, t1, Start);
    SimulatingTick(Frame(s, t1).next, t2, Start);
  }

  /** The Jacobi coefficient law on a consistent scheduler: alpha is (dx*dx/viscosity)/deltaTime
      with dx = 1/512, and beta is alpha + 4. */
  lemma JacobiLaw(s: Sched, trace: seq<Call>, ts: real)
    requires Consistent(s, trace)
    requires s.inited && s.lastTimestamp != 0.0 && ts != s.lastTimestamp
    ensures |Passes(Frame(s, ts).calls)| == 5
    ensures var dt := (ts - s.lastTimestamp) / 1000.0;
            var alpha := ((1.0 / 512.0) * (1.0 / 512.0) / 0.002478) / dt;
      Passes(Frame(s, ts).calls)[2].uniforms == [UniformWrite(Alpha, alpha), UniformWrite(Beta, alpha + 4.0)]
  {
    SimulatingTick(s, ts, Start);
  }

  // ---------------------------------------------------------------------------------------
  // The scheduler object

  /** The StableFluids scheduler: its fields, the render target bound on its framebuffer,
      and the WebGL calls it has issued so far. */
  class StableFluids {
    var textureLoaded: bool
    var inited: bool
    var lastTimestamp: real
    var dx: real
    var difAlphaPrec: real
    var boundTarget: Target
    var trace: seq<Call>

    function State(): Sched
      reads this
    {
      Sched(textureLoaded, inited, lastTimestamp, dx, difAlphaPrec, boundTarget)
    }

    ghost predicate Valid()
      reads this
    {
      Consistent(State(), trace)
    }

    /** Construction as far as the scheduler is concerned: the canvas is bound, the image has
        started loading, and nothing has been allocated for the simulation yet. */
    constructor ()
      ensures Valid()
      ensures State() == Initial && trace == []
    {
      textureLoaded, inited, lastTimestamp := false, false, 0.0;
      dx, difAlphaPrec := 0.0, 0.0;
      boundTarget := Screen;
      trace := [];
    }

    /** The image's onload callback. */
    method OnImageLoaded()
      requires Valid()
      modifies this`textureLoaded
      ensures Valid()
      ensures State() == old(State()).(textureLoaded := true)
    {
      textureLoaded := true;
    }

    method CreateTexture(buf: Buffer, format: Format)
      modifies this`trace
      ensures trace == old(trace) + [Alloc(buf, format)]
    {
      trace := trace + [Alloc(buf, format)];
    }

    method SetRenderTarget(buf: Buffer)
      modifies this`trace, this`boundTarget
      ensures boundTarget == Tex(buf)
      ensures trace == old(trace) + [SetTarget(Tex(buf))]
    {
      boundTarget := Tex(buf);
      trace := trace + [SetTarget(Tex(buf))];
    }

    method ResetFrameBuffer()
      modifies this`trace, this`boundTarget
      ensures boundTarget == Screen
      ensures trace == old(trace) + [SetTarget(Screen)]
    {
      boundTarget := Screen;
      trace := trace + [SetTarget(Screen)];
    }

    /** One full-screen quad draw into the bound target. */
    method DrawTexture(tex0: Option<Buffer>, tex1: Option<Buffer>, tex2: Option<Buffer>,
                       program: Option<Program>, setUniform: Option<UniformSetter>)
      modifies this`trace
      ensures trace == old(trace) + DrawCalls(tex0, tex1, tex2, program, setUniform)
    {
      var p := if program.None? then Default else program.value;
      trace := trace + [UseProgram(p)];
      if tex0.Some? {
        trace := trace + [BindSampler(SamplerBinding(0, tex0.value))];
      }
      assert trace == old(trace) + [UseProgram(p)] + SamplerCalls(0, tex0);
      if tex1.Some? {
        trace := trace + [BindSampler(SamplerBinding(1, tex1.value))];
      }
      assert trace == old(trace) + [UseProgram(p)] + SamplerCalls(0, tex0) + SamplerCalls(1, tex1);
      if tex2.Some? {
        trace := trace + [BindSampler(SamplerBinding(2, tex2.value))];
      }
      ghost var bound := trace;
      assert bound == old(trace) + [UseProgram(p)] + SamplerCalls(0, tex0) + SamplerCalls(1, tex1) + SamplerCalls(2, tex2);
      if setUniform.Some? {
        match setUniform.value
        case SetDeltaTime(dt) =>
          trace := trace + [SetUniform(UniformWrite(DeltaTime, dt))];
        case SetAlphaBeta(alpha, beta) =>
          trace := trace + [SetUniform(UniformWrite(Alpha, alpha))];
          trace := trace + [SetUniform(UniformWrite(Beta, beta))];
      }
      assert trace == bound + CallbackCalls(setUniform);
      trace := trace + [DrawElements(6)];
      ghost var u, s0, s1, s2 := [UseProgram(p)], SamplerCalls(0, tex0), SamplerCalls(1, tex1), SamplerCalls(2, tex2);
      ghost var c, d := CallbackCalls(setUniform), [DrawElements(6)];
      Assoc(old(trace), u + s0 + s1 + s2 + c, d);
      Assoc(old(trace), u + s0 + s1 + s2, c);
      Assoc(old(trace), u + s0 + s1, s2);
      Assoc(old(trace), u + s0, s1);
      Assoc(old(trace), u, s0);
    }

    method DrawTextureDefault(tex0: Buffer)
      modifies this`trace
      ensures trace == old(trace) + DrawCalls(Some(tex0), None, None, Some(Default), None)
    {
      DrawTexture(Some(tex0), None, None, Some(Default), None);
    }

    /** Copies src into dest through the default program; refuses a copy onto itself. */
    method RenderToTexture(src: Buffer, dest: Buffer)
      modifies this`trace, this`boundTarget
      ensures boundTarget == if src == dest then old(boundTarget) else Tex(dest)
      ensures trace == old(trace) + CopyCalls(src, dest)
    {
      if src == dest {
        return;
      }
      SetRenderTarget(dest);
      DrawTexture(Some(src), None, None, Some(Default), None);
    }

    method InitSimulator()
      requires Valid() && !inited
      modifies this
      ensures Valid()
      ensures State() == InitSimulatorSpec(old(State())).next
      ensures trace == old(trace) + InitSimulatorSpec(old(State())).calls
    {
      if !textureLoaded {
        assert trace + [] == trace;
        return;
      }
      CreateTexture(V1, RG32F);
      CreateTexture(V2, RG32F);
      CreateTexture(V3, RG32F);
      CreateTexture(P1, R32F);
      CreateTexture(P2, R32F);
      CreateTexture(Col1, RGBA4);
      CreateTexture(Col2, RGBA4);
      assert trace == old(trace) + FieldAllocs;

      RenderToTexture(Image, V1);
      ResetFrameBuffer();
      assert trace == old(trace) + InitCalls();

      inited := true;

      var d := 1.0 / (SimSizeH as real);
      dx := d;
      difAlphaPrec := d * d / Viscosity;
      assert State() == InitSimulatorSpec(old(State())).next;
      FramePreservesConsistent(old(State()), old(trace), 0.0);
    }

    method OnFrame(ts: real)
      requires Valid() && Admits(State(), ts)
      modifies this
      ensures Valid()
      ensures State() == Frame(old(State()), ts).next
      ensures trace == old(trace) + Frame(old(State()), ts).calls
    {
      if !inited {
        InitSimulator();
        return;
      }
      if lastTimestamp == 0.0 {
        lastTimestamp := ts;
        assert trace + [] == trace;
        return;
      }
      var deltaTime := (ts - lastTimestamp) / 1000.0;
      lastTimestamp := ts;
      ghost var t0 := trace;

      // advection
      SetRenderTarget(V2);
      DrawTexture(Some(V1), None, None, Some(Advect), Some(SetDeltaTime(deltaTime)));
      Assoc(t0, [SetTarget(Tex(V2))], DrawCalls(Some(V1), None, None, Some(Advect), Some(SetDeltaTime(deltaTime))));
      assert trace == t0 + AdvectCalls(deltaTime);

      // diffusion setup
      var alpha := difAlphaPrec / deltaTime;
      var beta := alpha + 4.0;

      // copy V2 to V1
      RenderToTexture(V2, V1);

      ghost var beforeSweeps := trace;
      for i := 0 to JacobiIterations
        invariant trace == beforeSweeps + Sweeps(i, alpha, beta)
        modifies this`trace, this`boundTarget
      {
        ghost var t1 := trace;
        SetRenderTarget(V3);
        DrawTexture(Some(V2), Some(V1), None, Some(Jacobi2D), Some(SetAlphaBeta(alpha, beta)));
        Assoc(t1, [SetTarget(Tex(V3))], DrawCalls(Some(V2), Some(V1), None, Some(Jacobi2D), Some(SetAlphaBeta(alpha, beta))));
        ghost var t2 := trace;
        assert t2 == t1 + JacobiCalls(V3, V2, alpha, beta);

        SetRenderTarget(V2);
        DrawTexture(Some(V3), Some(V1), None, Some(Jacobi2D), Some(SetAlphaBeta(alpha, beta)));
        Assoc(t2, [SetTarget(Tex(V2))], DrawCalls(Some(V3), Some(V1), None, Some(Jacobi2D), Some(SetAlphaBeta(alpha, beta))));
        assert trace == t2 + JacobiCalls(V2, V3, alpha, beta);
        Assoc(t1, JacobiCalls(V3, V2, alpha, beta), JacobiCalls(V2, V3, alpha, beta));
        Assoc(beforeSweeps, Sweeps(i, alpha, beta), SweepCalls(alpha, beta));
      }

      ghost var t3 := trace;
      ResetFrameBuffer();
      DrawTextureDefault(V2);
      Assoc(t3, [SetTarget(Screen)], DrawCalls(Some(V2), None, None, Some(Default), None));
      assert trace == t3 + PresentCalls();

      ghost var a, c, w, pr := AdvectCalls(deltaTime), CopyCalls(V2, V1), Sweeps(JacobiIterations, alpha, beta), PresentCalls();
      Assoc(t0, a + c + w, pr);
      Assoc(t0, a + c, w);
      Assoc(t0, a, c);
      assert deltaTime == ElapsedSeconds(old(lastTimestamp), ts);
      assert alpha == JacobiCoefficients(old(difAlphaPrec), deltaTime).alpha;
      assert trace == old(trace) + Frame(old(State()), ts).calls;
      FramePreservesConsistent(old(State()), old(trace), ts);
    }
  }
}
