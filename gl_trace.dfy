/**
 * The WebGL calls the fluid scheduler issues, recorded as an abstract trace,
 * and the pass-level reading of such a trace: which target each draw writes,
 * which program it runs, which textures it samples and which uniforms it sets.
 */
module GLTrace {
  import opened Wrappers

  /** The textures the scheduler owns: the seed image and the seven simulation buffers. */
  datatype Buffer = Image | V1 | V2 | V3 | P1 | P2 | Col1 | Col2

  /** Internal formats handed to texStorage2D. */
  datatype Format = RG32F | R32F | RGBA4

  /** Where a draw lands: the shared framebuffer with a texture attached, or the canvas. */
  datatype Target = Screen | Tex(buf: Buffer)

  /** The fragment programs, as opaque tags. */
  datatype Program = Color | Default | Advect | Force | Jacobi1D | Jacobi2D | ProjSetup | ProjFinish

  /** The scalar uniforms the draw callbacks write. */
  datatype Slot = DeltaTime | Alpha | Beta

  datatype UniformWrite = UniformWrite(slot: Slot, value: real)

  /** A texture bound to a texture unit, with the program's sampler pointed at that unit. */
  datatype SamplerBinding = SamplerBinding(unit: nat, buf: Buffer)

  datatype Call =
    | Alloc(buf: Buffer, format: Format)         // createTexture + texStorage2D
    | SetTarget(target: Target)                  // bindFramebuffer (+ framebufferTexture2D)
    | UseProgram(program: Program)               // useProgram
    | BindSampler(binding: SamplerBinding)       // activeTexture + bindTexture + uniform1i
    | SetUniform(write: UniformWrite)            // uniform1f from a draw callback
    | DrawElements(count: nat)                   // drawElements(TRIANGLES, count, ...)

  /** One draw as the device sees it. */
  datatype Pass = Pass(target: Target, program: Program, inputs: seq<SamplerBinding>,
                       uniforms: seq<UniformWrite>, count: nat)

  /** What has been set up since the last useProgram, waiting for a draw. */
  datatype Pending = Pending(target: Target, program: Option<Program>,
                             inputs: seq<SamplerBinding>, uniforms: seq<UniformWrite>)

  datatype Replayed = Replayed(state: Pending, passes: seq<Pass>)

  /** The device state right after setup: the canvas is bound, no program is in use. */
  const Start := Pending(Screen, None, [], [])

  function Step(st: Pending, c: Call): Replayed
  {
    match c
    case Alloc(_, _) => Replayed(st, [])
    case SetTarget(t) => Replayed(st.(target := t), [])
    case UseProgram(p) => Replayed(Pending(st.target, Some(p), [], []), [])
    case BindSampler(b) => Replayed(st.(inputs := st.inputs + [b]), [])
    case SetUniform(w) => Replayed(st.(uniforms := st.uniforms + [w]), [])
    case DrawElements(n) =>
      if st.program.Some? then Replayed(st, [Pass(st.target, st.program.value, st.inputs, st.uniforms, n)])
      else Replayed(st, [])
  }

  /** Replays a trace from a device state: the state it ends in and the passes it draws. */
  function Replay(st: Pending, calls: seq<Call>): Replayed
    decreases |calls|
  {
    if calls == [] then Replayed(st, [])
    else
      var first := Step(st, calls[0]);
      var rest := Replay(first.state, calls[1..]);
      Replayed(rest.state, first.passes + rest.passes)
  }

  lemma Assoc<T>(a: seq<T>, b: seq<T>, c: seq<T>)
    ensures a + (b + c) == (a + b) + c
  {
  }

  lemma ReplayOne(st: Pending, c: Call)
    ensures Replay(st, [c]) == Step(st, c)
  {
    assert [c][1..] == [];
  }

  function Passes(calls: seq<Call>): seq<Pass>
  {
    Replay(Start, calls).passes
  }

  /** Replaying a concatenation is replaying the first part and then the second from where it ended. */
  lemma {:induction false} ReplayAppend(st: Pending, a: seq<Call>, b: seq<Call>)
    ensures Replay(st, a + b).state == Replay(Replay(st, a).state, b).state
    ensures Replay(st, a + b).passes == Replay(st, a).passes + Replay(Replay(st, a).state, b).passes
    decreases |a|
  {
    if a == [] {
      assert a + b == b;
    } else {
      assert (a + b)[0] == a[0];
      assert (a + b)[1..] == a[1..] + b;
      ReplayAppend(Step(st, a[0]).state, a[1..], b);
    }
  }

  /** The buffers a trace allocates. */
  function Allocated(calls: seq<Call>): set<Buffer>
    decreases |calls|
  {
    if calls == [] then {}
    else (if calls[0].Alloc? then {calls[0].buf} else {}) + Allocated(calls[1..])
  }

  lemma {:induction false} AllocatedAppend(a: seq<Call>, b: seq<Call>)
    ensures Allocated(a + b) == Allocated(a) + Allocated(b)
    decreases |a|
  {
    if a == [] {
      assert a + b == b;
    } else {
      assert (a + b)[0] == a[0];
      assert (a + b)[1..] == a[1..] + b;
      AllocatedAppend(a[1..], b);
    }
  }

  /** The vertex data of the full-screen quad: four corners, two coordinates each. */
  const QuadVertices: seq<(real, real)> := [(0.0, 0.0), (0.0, 1.0), (1.0, 1.0), (1.0, 0.0)]

  /** The index data of the quad: two triangles sharing the diagonal 0-2. */
  const QuadIndices: seq<nat> := [0, 1, 2, 0, 2, 3]

  /** Twice the signed area of the triangle with the given corner indices. */
  function TwiceSignedArea(i: nat, j: nat, k: nat): real
    requires i < |QuadVertices| && j < |QuadVertices| && k < |QuadVertices|
  {
    var a, b, c := QuadVertices[i], QuadVertices[j], QuadVertices[k];
    (b.0 - a.0) * (c.1 - a.1) - (c.0 - a.0) * (b.1 - a.1)
  }

  /** Every index names one of the four vertices, six indices make two triangles, and the two
      triangles have the same winding and together cover the unit square exactly once. */
  lemma QuadIsWellFormed()
    ensures |QuadIndices| == 6 && |QuadIndices| % 3 == 0
    ensures forall i :: 0 <= i < |QuadIndices| ==> QuadIndices[i] < |QuadVertices|
    ensures TwiceSignedArea(QuadIndices[0], QuadIndices[1], QuadIndices[2]) ==
            TwiceSignedArea(QuadIndices[3], QuadIndices[4], QuadIndices[5])
    ensures TwiceSignedArea(QuadIndices[0], QuadIndices[1], QuadIndices[2]) +
            TwiceSignedArea(QuadIndices[3], QuadIndices[4], QuadIndices[5]) == -2.0
  {
  }

  /** A pass that draws the whole quad and does not sample the texture it renders into. */
  predicate SafePass(p: Pass)
  {
    && p.count == |QuadIndices|
    && (p.target.Tex? ==> forall k :: 0 <= k < |p.inputs| ==> p.inputs[k].buf != p.target.buf)
  }

  predicate AllSafe(ps: seq<Pass>)
  {
    forall i :: 0 <= i < |ps| ==> SafePass(ps[i])
  }

  lemma AllSafeAppend(a: seq<Pass>, b: seq<Pass>)
    requires AllSafe(a) && AllSafe(b)
    ensures AllSafe(a + b)
  {
    forall i | 0 <= i < |a + b| ensures SafePass((a + b)[i]) {
      if i < |a| { assert (a + b)[i] == a[i]; } else { assert (a + b)[i] == b[i - |a|]; }
    }
  }
}
