# Stable Fluids frame scheduler — a Dafny model

This project models the host side of a WebGL2 "stable fluids" demo. The `StableFluids` class
waits for a seed image to decode and then, on one animation frame, allocates the simulation
grids. It then primes its timestamp on the next frame. On every frame after that it issues a
fixed ping-pong sequence of GPU passes: advect, copy, a Jacobi diffusion sweep, and present.
A second, smaller piece is `ShaderProgram`. Its `LoadShader` compiles a vertex/fragment pair
and links it, giving up at the first failing step. Its constructor builds name-to-slot tables
from the program's active attributes and uniforms.

Every WebGL call becomes an event appended to an abstract trace.

- `GLTrace.Call` covers texture allocation, render-target binding, `useProgram`, sampler
  binding, uniform writes and `drawElements`.
- `GLTrace.Replay` parses a trace into draw passes. Each pass records its target, program,
  bound inputs, uniform writes and index count.
- The scheduler is a pure transition function, `Fluids.Frame`, over the state `Fluids.Sched`.
- The class `Fluids.StableFluids` holds the same fields and appends to a `trace` field. Each of
  its methods is proved to produce exactly the state and trace that the pure specification
  computes.

The shader programs are opaque tags, and buffers form the enumeration
`Image | V1 | V2 | V3 | P1 | P2 | Col1 | Col2`.

Files:

- `wrappers.dfy` — `Option` and a map lookup.
- `gl_trace.dfy` — buffers, calls, the replay of a trace into passes, the quad geometry, and
  the "no pass samples its own target" predicate.
- `stable_fluids.dfy` — the draw helpers, the frame scheduler specification, its invariant and
  its properties, and the class `StableFluids`.
- `shader_program.dfy` — the failure cascade of `LoadShader` and the slot tables.

## Model

| member | source | states |
|---|---|---|
| Fluids.StableFluids.OnFrame | src/script/StableFluids.ts:164-219 | One tick changes the state to `Frame(old state, ts).next` and appends exactly `Frame(...).calls` to the trace, keeping the invariant `Consistent`. The loop at lines 200-214 is proved against `Sweeps`. |
| Fluids.StableFluids.InitSimulator | src/script/StableFluids.ts:140-162 | Once the image is loaded, it allocates the seven grids in source order with their formats, copies the image into V1, resets to the screen, sets `inited`, `dx` and `difAlphaPrec`, and keeps the invariant. |
| Fluids.StableFluids.OnImageLoaded | src/script/StableFluids.ts:110 | The image callback sets `textureLoaded` and nothing else, and keeps the invariant. |
| Fluids.StableFluids.constructor | src/script/StableFluids.ts:29-31 | The scheduler starts not loaded, not inited, with timestamp 0 and an empty trace. |
| Fluids.StableFluids.CreateTexture | src/script/StableFluids.ts:283-292 | Appends one allocation of the given grid with the given format. |
| Fluids.StableFluids.SetRenderTarget | src/script/StableFluids.ts:232-236 | Binds the framebuffer to the given texture and records that target. |
| Fluids.StableFluids.ResetFrameBuffer | src/script/StableFluids.ts:227-230 | Rebinds the screen as the target. |
| Fluids.StableFluids.DrawTexture | src/script/StableFluids.ts:252-278 | Appends `DrawCalls`: use the program (or the default one when given none), bind sampler k only for a non-null input k, run the uniform callback if present, then draw 6 indices. |
| Fluids.StableFluids.DrawTextureDefault | src/script/StableFluids.ts:248-250 | Appends a draw of one input through the default program with no callback. |
| Fluids.StableFluids.RenderToTexture | src/script/StableFluids.ts:238-246 | Appends `CopyCalls`. When source and destination are equal, it appends nothing and leaves the bound target unchanged. |
| Fluids.DrawReplay | src/script/StableFluids.ts:252-278 | A `DrawTexture` call produces exactly one pass. That pass has the current target, the substituted program, exactly the non-null inputs on their units, the callback's writes, and 6 indices. |
| Fluids.BindingsOnlyNonNull | src/script/StableFluids.ts:259-273 | A sampler binding is recorded if and only if its unit's input is non-null and names that grid. |
| Fluids.DrawCallsShape | src/script/StableFluids.ts:253-278 | The program is selected first and the draw comes last. Nothing before it draws, so the callback runs at most once and before the draw. |
| Fluids.CallbackReplay | src/script/StableFluids.ts:275-277 | The uniform callback adds its writes to the pending pass and draws nothing. |
| Fluids.SamplerReplay | src/script/StableFluids.ts:259-273 | Binding one unit adds at most that one input and draws nothing. |
| Fluids.BindReplay | src/script/StableFluids.ts:257-273 | Selecting a program resets the pending inputs, which then become exactly the non-null bindings. |
| Fluids.CopyReplay | src/script/StableFluids.ts:238-246 | For distinct source and destination, the copy targets the destination and yields exactly one safe pass reading only the source through the default program. |
| Fluids.TargetedDraw | src/script/StableFluids.ts:232-236 | A target binding followed by a draw yields one pass aimed at that target. |
| Fluids.ElapsedSeconds | src/script/StableFluids.ts:173 | The delta time times 1000 equals the timestamp difference. It is nonzero, and positive when time advances. |
| Fluids.JacobiCoefficients | src/script/StableFluids.ts:193-195 | `alpha * deltaTime == difAlphaPrec` and `beta == alpha + 4`. |
| Fluids.SimulatingTick | src/script/StableFluids.ts:173-217 | A simulating tick stores the new timestamp, allocates nothing, ends on the screen, and emits exactly five passes. They are V2←advect(V1, dt), V1←default(V2), V3←jacobi2D(V2,V1; alpha, beta), V2←jacobi2D(V3,V1; alpha, beta) and Screen←default(V2), with dt = (ts-last)/1000, alpha = difAlphaPrec/dt and beta = alpha+4. None of them samples its target. |
| Fluids.SimReplayFrom | src/script/StableFluids.ts:186-217 | The simulating call sequence is advect, the V2→V1 copy, `JacobiIterations` sweeps, then present, from any starting pass state. |
| Fluids.SimReplay | src/script/StableFluids.ts:186-217 | The same five passes listed out, independent of what came before in the trace. |
| Fluids.SweepsReplay | src/script/StableFluids.ts:200-214 | n iterations of the loop yield n pairs of Jacobi passes, V3←(V2,V1) and V2←(V3,V1), all safe, ending with V2 as the target. |
| Fluids.SweepsAllocateNothing | src/script/StableFluids.ts:200-214 | The Jacobi loop allocates no grid. |
| Fluids.SimAllocatesNothing | src/script/StableFluids.ts:186-217 | A simulating tick allocates no grid. |
| Fluids.DrawAllocatesNothing | src/script/StableFluids.ts:252-278 | A draw allocates no grid. |
| Fluids.NoAllocNoAllocated | src/script/StableFluids.ts:283-292 | A trace with no allocation call allocates nothing. |
| Fluids.JacobiLaw | src/script/StableFluids.ts:159-161 | From a consistent state, the first Jacobi pass receives alpha = ((1/512)²/0.002478)/dt and beta = alpha+4. The lemma combines the constants set at initialisation with the per-tick formulas at lines 173 and 193-195. |
| Fluids.ConsecutiveDeltas | src/script/StableFluids.ts:173-174 | Over two successive ticks, each advect pass receives the time since the previous tick, not since priming. |
| Fluids.PrimingTick | src/script/StableFluids.ts:169-172 | When inited with timestamp 0, a tick only stores the timestamp and draws nothing. |
| Fluids.ZeroTimestampPrimesAgain | src/script/StableFluids.ts:169-172 | Because the test is `== 0`, a tick at time 0 leaves the scheduler priming, so the next tick primes again. |
| Fluids.InitialisingTick | src/script/StableFluids.ts:144-161 | The initialising tick allocates exactly V1, V2, V3, P1, P2, Col1 and Col2 (first, in that order). Its only pass is V1←default(Image). It ends on the screen, sets `inited`, `dx = 1/512` and `difAlphaPrec = dx*dx/viscosity`, and leaves the timestamp alone. |
| Fluids.InitTickState | src/script/StableFluids.ts:157-167 | The initialising tick's new state: inited, with the derived constants, on the screen. Nothing else changes. |
| Fluids.InitTickCalls | src/script/StableFluids.ts:144-155 | The initialising tick's calls: the seven allocations first, the screen reset last, and one copy pass. |
| Fluids.InitCallsShape | src/script/StableFluids.ts:144-155 | The initialisation trace begins with the seven allocations and ends with the screen reset. |
| Fluids.InitReplay | src/script/StableFluids.ts:144-155 | Initialisation yields one safe copy pass and allocates exactly the seven field grids. |
| Fluids.InitCopyReplay | src/script/StableFluids.ts:144-154 | After the allocations, the image-to-V1 copy is the only pass and leaves V1 bound. |
| Fluids.InitAllocated | src/script/StableFluids.ts:144-152 | Initialisation allocates exactly the seven field grids. |
| Fluids.FieldAllocsReplay | src/script/StableFluids.ts:144-152 | The allocations draw nothing and leave the pass state unchanged. |
| Fluids.FieldAllocsAllocated | src/script/StableFluids.ts:144-152 | The seven allocations allocate exactly V1, V2, V3, P1, P2, Col1 and Col2. |
| Fluids.NoDrawReplay | src/script/StableFluids.ts:283-292 | A trace made only of allocations leaves the pass state unchanged. |
| Fluids.WaitingForImage | src/script/StableFluids.ts:141-167 | While the image is not loaded, any number of ticks leaves the state unchanged: not inited, nothing allocated, nothing drawn. |
| Fluids.InitialConsistent | src/script/StableFluids.ts:29-31 | The initial state with an empty trace satisfies the invariant. |
| Fluids.FramePreservesConsistent | src/script/StableFluids.ts:164-219 | Every admissible tick preserves the invariant. The invariant covers three facts: the derived constants once inited, exactly the field grids allocated, and no pass in the whole trace sampling its own target. |
| Fluids.RunPreservesConsistent | src/script/StableFluids.ts:164-219 | Any admissible sequence of image and frame events preserves the invariant. |
| Fluids.NoPassSamplesItsTarget | src/script/StableFluids.ts:164-281 | Over any admissible run from the start, no draw reads the grid it writes. Grids are allocated only by initialisation, and then exactly the seven field grids. |
| GLTrace.QuadIsWellFormed | src/script/StableFluids.ts:69-80 | The index data has 6 entries, all below the 4-vertex count. They form two triangles of equal orientation whose areas sum to the unit square's area. |
| GLTrace.ReplayAppend | src/script/StableFluids.ts:252-278 | Trace infrastructure, about how the abstract device reads the calls: replaying a concatenated trace equals replaying the two parts in turn. |
| GLTrace.ReplayOne | src/script/StableFluids.ts:252-278 | Trace infrastructure: replaying one call is one step of the device. |
| GLTrace.AllocatedAppend | src/script/StableFluids.ts:283-292 | Trace infrastructure: the set of allocated grids of a concatenated trace is the union of the two parts' sets. |
| GLTrace.AllSafeAppend | src/script/StableFluids.ts:252-278 | Trace infrastructure: concatenating two safe pass lists gives a safe pass list. |
| Shaders.FirstFailure | src/script/StableFluids.ts:369-405 | The failing step is the vertex compile if it fails, else the fragment compile if it fails, else the link if it fails. There is none exactly when all three succeed. |
| Shaders.LoadCalls | src/script/StableFluids.ts:369-403 | The fragment stage runs if and only if the vertex shader compiled, and the link if and only if both did. Deletion depends on where loading stops. A vertex failure deletes the vertex shader. A fragment failure deletes only the fragment shader. A link failure deletes the program and both shaders. Success deletes nothing. |
| Shaders.ShaderProgram.LoadShader | src/script/StableFluids.ts:369-405 | The result is null if and only if a step failed, and the error names the first failing step. The calls are `LoadCalls`. On success, the uniform table's keys are exactly the active uniform names, and every named slot comes from the table. |
| Shaders.ShaderProgram.constructor | src/script/StableFluids.ts:336-367 | The loops build `Table` of the non-null active attributes and uniforms. Each named slot (`aPosition`, `aUV`, `uColor`, `uSampler`, `uSampler1`, `uSampler2`, `uDeltaTime`, `uAlpha`, `uBeta`) is the table's entry for that name. |
| Shaders.TableKeys | src/script/StableFluids.ts:339-353 | The table's keys are exactly the non-null active names, each mapped to its own location. |
| Shaders.SlotOf | src/script/StableFluids.ts:355-366 | A slot is absent if and only if its name is not active. Otherwise it is that program's location for that name. |

## Left out

- Shader mathematics: advection, the Jacobi stencil, force and projection all run on the GPU in `ShaderLibs`, which is not part of this model. Programs are opaque tags.
- Texture contents, pixel formats beyond the allocation tag, mipmaps and sampler edge behaviour are GPU state and are not modelled.
- Texture sizes are not recorded in `Alloc`. Every grid is allocated at 512×512 (lines 144-152). Only the height enters the model, through `Dx`.
- The projection, force and color programs and the P1/P2/Col grids are allocated or compiled but never drawn. No projection step is modelled.
- Canvas and context acquisition (lines 41-45), extension queries (lines 62-64), vertex-buffer setup (lines 67-75), VAO setup (lines 96-107), framebuffer creation and viewport (lines 113-119) and `Clear` are library plumbing. They are not in the trace, and `SetRenderTarget` does not model the framebuffer object itself.
- `LoadImage` (lines 294-310) is modelled only by its effect: the callback sets `textureLoaded`. Decoding and upload are left out.
- The mouse handler (lines 53-56) is left out, because its input is never consumed.
- Console diagnostics (`console.error`, `console.log`) are I/O and are left out. `LoadShader` instead returns the failing step, and a self-copy in `RenderToTexture` simply emits nothing.
- Timestamps and coefficients are `real`, not IEEE doubles. A simulating tick requires `ts != lastTimestamp` (see `Admits`), because the source divides by the delta time without a guard.
- GL keeps a texture bound to a unit across draws. A pass's inputs are the samplers bound since its own `useProgram`, so a unit bound by an earlier draw is not counted. For example, on every simulating tick after the first, unit 1 still holds V1 during the V2→V1 copy.
- The scheduler draws with program tags. The null handle that a failed `LoadShader` would leave in a program field is not carried into the scheduler.
- `uniform1i` writes of sampler unit numbers are folded into the sampler binding. Writes to an absent uniform location are silently ignored by GL and are not modelled as distinct events.
- `m_dx` and `m_difAlpha_prec` are undefined in the source until initialisation. They are modelled as 0.0.
- `DrawTexture` binds sampler unit k whenever input k is non-null, whatever the program (lines 259-273). A `uniform1i` on a location the program lacks is ignored by GL. The model follows the code and records the binding.
- The `ShaderSource`/`AttachShader` events carry the shader kind, not a shader object handle. Outcomes of compile and link are abstract booleans, and `getAttribLocation` and the program handle are parameters.
