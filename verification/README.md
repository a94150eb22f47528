# Birds: a Dafny model of the flocking particle setup

This project models the CPU-side core of a GPU boids simulation
(`src/scripts/Birds.js`). A flock of W x W birds lives in two W x W
floating-point textures, one for position and one for velocity. The CPU
side of that file does three things, and the model covers each one:

- **Geometry** (`geometry.dfy`) — `BirdGeometry` builds the static mesh.
  Each bird is three triangles (body, left wing, right wing): nine vertices
  and 27 position floats. Each vertex also gets a colour, a reference
  coordinate into the textures and a role index. The model has the three
  loops (`verts_push`'s copy loop, the per-bird template loop and the
  per-vertex attribute loop)
  as methods over flat buffers, with loop invariants. Lemmas state the
  layout: the template per bird, roles 0..8, references shared per triangle,
  injective references, and the range of the row index. Under the textures'
  repeat wrapping, each reference addresses particle `(v div 3) mod W^2`.
- **Textures** (`textures.dfy`) — `fillPositionTexture` and
  `fillVelocityTexture` are stride-4 loops over an RGBA texel array.
  `Math.random` becomes a parameter: the sequence of values it returns.
- **Frame** (`frame.dfy`) — the scalar state that `update` and
  `onDocumentMouseMove` change: the clock, the clamped step `delta`, the
  pointer offset, the predator uniform and the 10000 sentinel.
  `Run`/`RunAsWritten` replay a sequence of pointer moves and frames.
- `buffers.dfy` holds the typed-array write: an index past the end is
  silently dropped.

Float32 and JavaScript doubles are modelled as exact reals. For the source's
width of 32, every value written to the position, reference and role buffers
is exactly representable. The colour components are not: the conversion
parameter of the colour buffer stands for `THREE.Color`'s conversion followed
by Float32 rounding.
`~~(x / n)` on the non-negative indices is floor division. That holds while
the indices stay below 2^31 (`Geometry.ValidWidth`).

## Model

| member | source | states |
|---|---|---|
| Geometry.SourceWidthValid | src/scripts/Birds.js:10-11 | the source's width 32 meets the builders' requirement; it gives 1024 birds and 9216 vertices, and 1024 mod 3 = 1 |
| Buffers.Store | src/scripts/Birds.js:39 | a typed-array write `a[i] = x`: the length never changes, entry i becomes x when i is inside the array, and a write past the end is dropped |
| Geometry.VertsPush | src/scripts/Birds.js:33-43 | writes the arguments, in order, at the shared cursor; advances the cursor by their count; leaves every other float as it was |
| Geometry.PushTemplates | src/scripts/Birds.js:45-70 | the position buffer holds 9*W^2*3 floats; the cursor ends exactly at its end (no overrun, no gap); the 27 floats of every bird f are the body/left-wing/right-wing template |
| Geometry.FillVertexAttributes | src/scripts/Birds.js:72-92 | buffer sizes 3, 2 and 1 floats per vertex; for every vertex, the colour of its colour number, the reference of its triangle and the role v mod 9 |
| Geometry.BuildGeometry | src/scripts/Birds.js:13-92 | triangles = 3*W^2 and points = 9*W^2; position and colour buffers hold 3*points floats, references 2*points, roles points; contents as in the two loops |
| Geometry.BirdRoles | src/scripts/Birds.js:90 | bird f's nine vertices carry roles 0,1,...,8 in order, all below 9 |
| Geometry.TriangleSharesReference | src/scripts/Birds.js:74-76 | vertices 3t, 3t+1 and 3t+2 get the same reference |
| Geometry.ReferenceInRange | src/scripts/Birds.js:72-76 | for every vertex of the mesh, the x reference is in [0,1), y is non-negative, and the row index (v div 3) div W is below 3W |
| Geometry.GridCoordinateInjective | src/scripts/Birds.js:75-76 | distinct flat indices give distinct (i mod W, i div W)/W coordinates |
| Geometry.TrianglesHaveDistinctReferences | src/scripts/Birds.js:74-76 | vertices of different triangles never share a reference |
| Geometry.ReferenceAddressesParticle | src/scripts/Birds.js:181-184 | with repeat wrapping on both axes, the reference of vertex v addresses particle (v div 3) mod W^2 |
| Geometry.ParticleAddressedThrice | src/scripts/Birds.js:181-184 | under that wrapping, particle p is addressed by exactly the triangles p, p+W^2 and p+2W^2 |
| Geometry.ColorHexPerBird | src/scripts/Birds.js:78-81 | the colour number is the same for all nine vertices of a bird and lies in [0x444444, 0xAAAAAA) |
| Geometry.TriangleReferenceSplitsBird | src/scripts/Birds.js:74 | as written, for every width, vertices 0 and 3 belong to bird 0 but get different references |
| Geometry.ParticleGetsEveryPart | src/scripts/Birds.js:74-76 | when W^2 mod 3 = 1 (true for W = 32), the three triangles that address one particle are a body, a left wing and a right wing, from three different birds when W > 1 |
| Geometry.BirdVerticesShareReference | src/scripts/Birds.js:74-76 | with a per-bird index v div 9, all nine vertices of bird f share the grid coordinate of f |
| Geometry.BirdReferenceCoversGrid | src/scripts/Birds.js:74-76 | with a per-bird index, every W x W grid cell is the reference of exactly one bird |
| Textures.FillTexture | src/scripts/Birds.js:222-233 | the stride-4 loop: every alpha is 1, and channel c of texel t is the component map of random draw 3t+c; the length is unchanged |
| Textures.FillPositionTexture | src/scripts/Birds.js:219-234 | each x, y, z is r*BOUNDS - BOUNDS_HALF for its own draw r, so it lies in [-400, 400); alpha is 1 |
| Textures.FillVelocityTexture | src/scripts/Birds.js:236-251 | each x, y, z is (r - 0.5)*10 for its own draw r, so it lies in [-5, 5); alpha is 1 |
| Textures.PositionComponentOnto | src/scripts/Birds.js:224-226 | every value in [-400, 400) is the position component of some draw in [0,1) |
| Textures.VelocityComponentOnto | src/scripts/Birds.js:241-247 | every value in [-5, 5) is the velocity component of some draw in [0,1) |
| Frame.Init | src/scripts/Birds.js:112-127 | half-extents are half the window size; last is the start time; the pointer is 0; also the uniform start values set at lines 169-172, 178 and 200-201: predator (0,0,0), position time/delta (0,0), velocity and bird time/delta (1,0) |
| Frame.OnMouseMove | src/scripts/Birds.js:253-256 | stores the pointer as an offset from the window centre and changes nothing else |
| Frame.ClampedDelta | src/scripts/Birds.js:259-262 | the step is min((now - last)/1000, 1): never above 1, and equal to the raw step whenever that is at most 1 |
| Frame.Div | src/scripts/Birds.js:272 | JavaScript `a / b` for finite operands: finite exactly when the divisor is non-zero, and then the quotient times the divisor is the dividend |
| Frame.PredatorFor | src/scripts/Birds.js:272 | predator = (0.5*mouseX/halfX, -0.5*mouseY/halfY, 0); z is always 0; a component is non-finite exactly when its half-extent is 0 |
| Frame.Update | src/scripts/Birds.js:258-276 | last and now become the given time; delta is clamped to at most 1; all three materials get the same time/delta; the predator comes from the pointer; the pointer is reset to 10000 |
| Frame.StallIsClamped | src/scripts/Birds.js:262 | a wall-clock gap of five time units gives a step of exactly 1 |
| Frame.ConsecutiveFrames | src/scripts/Birds.js:259-263 | a frame's step is measured from the previous frame's time, and lies in [0,1] when time does not run backwards |
| Frame.PredatorInsideWindow | src/scripts/Birds.js:272 | a pointer inside the window gives a finite predator in [-0.5,0.5]^2 with z = 0 |
| Frame.PredatorIsMomentary | src/scripts/Birds.js:272-275 | the frame after a consumed pointer sees the sentinel predator, whatever the pointer was |
| Frame.SentinelIsFarAway | src/scripts/Birds.js:274-275 | for a window narrower than 20000 pixels, the sentinel predator's x lies outside [-0.5, 0.5] |
| Frame.Run | src/scripts/Birds.js:253-275 | replays moves (handler bound) and frames: the half-extents never change; after a final frame, last is its time and the pointer is the sentinel; after a final move, the pointer is that move's offset from the centre |
| Frame.RunAsWritten | src/scripts/Birds.js:135 | replays moves and frames with the listener registered unbound: moves alone leave the instance unchanged, and after any frame its pointer is the sentinel |
| Frame.AsWrittenIgnoresPointer | src/scripts/Birds.js:135 | with the listener registered unbound, any sequence of moves and frames acts on the Birds instance exactly as its frames alone do |
| Frame.UnboundListenerLosesPointer | src/scripts/Birds.js:135 | a move to the centre of an 800x600 window between two frames: the bound handler gives predator (0,0,0), the unbound one the sentinel predator (12.5, -16.67, 0) |
| Frame.BoundHandlerDeliversPointer | src/scripts/Birds.js:253-256 | with the handler bound, after any non-empty run of pointer moves the next frame's predator is computed from the last move's offset |

## Left out

- The GPU compute pass is not part of this model, because that component's source is not available. This covers `GPUComputationRenderer`, texture creation, the variables and their dependency graph, the ping-pong swap and `init` (lines 153-156, 159-168, 173-177, 179-180, 185-190 and 277-280). Only the start values of the time, delta and predator uniforms (lines 169-172 and 178) are modelled, in `Frame.Init`. The two fills called at lines 157-158 are `Textures.FillPositionTexture` and `Textures.FillVelocityTexture`. The repeat wrapping of lines 181-184 is modelled only through its effect on sampling, in `Geometry.WrappedParticle`. That function assumes the lookup at (col/W, row/W) lands on texel (col mod W, row mod W). The lookup itself happens in a shader, which is not shown.
- The flocking, integration and rendering rules live in the shaders `velocity.frag`, `position.frag`, `bird.vert` and `bird.frag`. They are not part of this model, so separation, alignment, cohesion, the speed clamp, soft walls and predator repulsion are not modelled.
- The colour conversion done by `THREE.Color` (lines 78-85) is a library routine. `FillVertexAttributes` takes it as a function parameter. The model states only the number passed to it.
- Geometry.BuildGeometry: `m.position` is the position buffer before line 94. That line, `this.scale(0.2, 0.2, 0.2)`, is the constructor's last statement. It multiplies every position by 0.2 through a library matrix transform with Float32 rounding, which is not modelled. The source's final buffer is therefore 0.2 times the template.
- Scene wiring (material, mesh, rotation, `bgScene.add`, lines 196-199 and 202-217), `setAttribute` calls, the `effectController` values (lines 137-147) and the `console.error` report of a failed `init` are not modelled. Line 194 builds the mesh modelled by `Geometry.BuildGeometry`. The start values at lines 200-201 are in `Frame.Init`.
- `performance.now`, `Math.random`, `window.innerWidth/innerHeight` and pointer events are parameters.
- Textures.FillPositionTexture: the half-open bound [-400, 400) holds in exact arithmetic. A draw just below 1 can round to exactly 400 when the value is stored as a Float32.
- Textures.FillVelocityTexture: likewise, the bound 5 can be reached after Float32 rounding.
- Frame.Init: the source leaves `now` and `delta` undefined until the first `update`. The model starts them at the start time and 0. Nothing reads them before `update` writes them.
- Frame.Update: the model uses exact reals. It does not model rounding of the double-precision division by 1000.
- The width is a parameter of the geometry model. The source fixes it at 32 (`Geometry.Width`). For widths that are not powers of two, the Float32 rounding of the reference coordinates is not modelled.

## Findings

| source | as written | input that shows it | evidently intended | confidence | as-written member | corrected member |
|---|---|---|---|---|---|---|
| src/scripts/Birds.js:74 | the reference index is `~~(v / 3)`, the triangle, so a bird's three triangles read three different particles and the row index runs up to 3W-1; for W = 32 each particle ends up drawn as a body and two wings taken from three different birds | W = 32: vertices 0 and 3 both belong to bird 0 but get references (0, 0) and (1/32, 0) | index by bird, `~~(v / 9)`: all nine vertices share one reference and the W x W grid is covered exactly once | medium, not executed | Geometry.TriangleReferenceSplitsBird | Geometry.BirdReferenceCoversGrid |
| src/scripts/Birds.js:135 | `this.onDocumentMouseMove` is passed to `addEventListener` unbound, so the handler's `this` is `document` and the instance's `mouseX`/`mouseY` never change | 800x600 window, frames at 16 and 32 ms with a move to (400, 300) between them: predator (12.5, -16.67, 0) instead of (0, 0, 0) | register `this.onDocumentMouseMove.bind(this)`, so the predator follows the pointer | high, not executed | Frame.RunAsWritten, Frame.UnboundListenerLosesPointer | Frame.BoundHandlerDeliversPointer |

The mesh builder `Geometry.BuildGeometry` follows the code as written,
because that is the buffer the renderer receives. The per-bird layout is
stated beside it as `Geometry.BirdReference`. The as-written listener is
`Frame.RunAsWritten`. The frame driver's lemmas about
pointer input (`PredatorInsideWindow`, `PredatorIsMomentary`) use the bound
handler `Frame.OnMouseMove`.
