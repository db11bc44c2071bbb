# World viewer core: meshes, cameras and the model transform

A Dafny model of the sequential core of a small OpenGL world viewer:

- `Meshes` (`mesh.dfy`): `nsi::Mesh`, its vertex and texture records, and `draw`.
  `draw` binds texture *i* to texture unit *i*. It names each sampler uniform after
  the texture's type followed by a 1-based counter kept per type
  (`texture_diffuse1`, `texture_diffuse2`, `texture_specular1`, ...). It then issues
  one indexed draw and makes unit 0 active again. The method is a loop with the
  source's four counters. It appends the exact OpenGL call sequence to a call log
  (`Gl.Context`). The lemmas run that log through a small semantics of the OpenGL
  state (`Gl.Exec`, in `gl.dfy`) and prove what the context holds afterwards.
- `Fps` (`fps.dfy`): `FPSCamera`. Grounded, Airborne and Flying are implicit in two
  flags and change through `jump`, `toggleFly` and `updatePhysics`. The physics step
  integrates gravity and clamps to the stand height. Mouse movement turns yaw and
  pitch and clamps pitch. `Jump`, `ToggleFly` and `UpdatePhysics` are each specified
  by a function on the vertical state. Lemmas prove, among other things, that a camera that is not flying comes to
  rest at exactly the stand height after finitely many steps.
- `Orbit` (`orbit.dfy`): `OrbitCamera`. Yaw and pitch accumulate, with an optional
  pitch clamp. Scrolling changes the radius, clamped to [1, 100]. `setTarget` moves
  the centre. The class invariant is that the position is always
  `target + radius * (cos p cos y, sin p, cos p sin y)`. Cosine and sine come from
  the maths library, so they are parameters (`Geometry.Trig`). The squared distance
  from the target is proved to be radius² using only the Pythagorean identity, so
  the camera lies the absolute value of radius from the target.
- `Models` (`model.dfy`): `nsi::Model`, with its constructor defaults, getters,
  setters and model matrix. Matrices are kept as the product that built them
  (`Models.Mat`), so the proofs check the order of translate, the three rotations
  and scale, not the entries.
- `Geometry` (`geometry.dfy`): vectors, the clamp both cameras use, glm's
  degree-to-radian constant and the trigonometric parameter.

All arithmetic is over `real`. The clamp results are exact over the reals.

## Model

| member | source | states |
|---|---|---|
| `Geometry.Clamp` | lib/camera/fps.h:116-119 | The two sequential guards give a value in [lo, hi]. The value is unchanged when already inside, and below or above maps to the nearer bound. |
| `Meshes.Mesh.constructor` | src/mesh/mesh.h:34-37 | Stores vertices, indices and textures exactly as given. Both lists must be non-empty because buffer setup reads their first element. |
| `Meshes.Mesh.Draw` | src/mesh/mesh.h:46-89 | Appends exactly the call sequence `DrawCalls`: per texture in list order, activate unit *i*, set its sampler name to *i* and bind its id. Then bind the mesh's vertex array, draw as many elements as there are indices, unbind, and activate unit 0. The mesh is unchanged. |
| `Meshes.SamplerName` | src/mesh/mesh.h:57-77 | The uniform name of texture *i*. A recognised type is followed by the decimal count of textures of that type up to and including *i*; any other type is used bare. Its properties are the naming lemmas below. |
| `Meshes.SamplerNameFromCounter` | src/mesh/mesh.h:57-77 | A name built from the loop's running counter (count of earlier textures of that type plus one) equals the closed-form `SamplerName`. Unrecognised types get an empty suffix. |
| `Meshes.NatToString` | src/mesh/mesh.h:62 | The counter's decimal text is non-empty and all digits. It is a single digit exactly when the counter is below 10. |
| `Meshes.NatToStringInjective` | src/mesh/mesh.h:62-74 | Different counters never give the same text. |
| `Meshes.SamplerNameShape` | src/mesh/mesh.h:57-77 | A recognised type's name is the type followed by a digit. Any other type is used bare, with no number. |
| `Meshes.FirstOfKindIsOne` | src/mesh/mesh.h:48-62 | Each counter starts at 1: the first texture of a recognised type is named type + "1". |
| `Meshes.OtherKindDoesNotAdvance` | src/mesh/mesh.h:60-75 | The four counters are independent. A texture of any other type, recognised or not, inserted at any position before texture *i* leaves its name unchanged, so an unrecognised type advances no counter. |
| `Meshes.LaterTexturesKeepNames` | src/mesh/mesh.h:53-77 | Textures appended later never change the name of an earlier texture. |
| `Meshes.TwoDiffuseOneSpecular` | src/mesh/mesh.h:48-77 | `[diffuse, diffuse, specular]` is named `texture_diffuse1`, `texture_diffuse2`, `texture_specular1`. |
| `Meshes.RecognisedKindsDiffer` | src/mesh/mesh.h:60-72 | The four recognised type names differ at their ninth character, just past `texture_`. |
| `Meshes.SameKindNamesDistinct` | src/mesh/mesh.h:60-77 | Two textures of the same recognised type get different names, because the later one has a larger count. |
| `Meshes.RecognisedNamesDistinct` | src/mesh/mesh.h:57-77 | No two textures of recognised types share a sampler name. |
| `Meshes.CountKindGrows` | src/mesh/mesh.h:60-75 | A later texture of a type has a strictly larger count of that type than any earlier one. |
| `Meshes.BindCalls` | src/mesh/mesh.h:53-81 | The calls the texture loop issues for textures 0 .. n-1: activate the unit, set the sampler name, bind the id. Its shape is stated by `BindCallsLayout` and `BindCallsDrawNothing`. |
| `Meshes.BindCallsLayout` | src/mesh/mesh.h:53-81 | The loop issues exactly three calls per texture, in list order. Call 3i activates unit i, call 3i+1 sets texture i's sampler name to i, and call 3i+2 binds texture i's id. |
| `Meshes.BindCallsDrawNothing` | src/mesh/mesh.h:53-81 | The texture loop never draws and never binds a vertex array. |
| `Meshes.DrawCalls` | src/mesh/mesh.h:53-88 | Every call one `draw` issues: the texture loop, then bind the vertex array, draw, unbind, and activate unit 0. |
| `Meshes.DrawCallsLayout` | src/mesh/mesh.h:53-88 | `draw` issues three calls per texture plus four. It contains exactly one draw, of `count` elements, right after binding the mesh's vertex array and right before binding 0. Its last call makes unit 0 active. |
| `Meshes.BindCallsNext` | src/mesh/mesh.h:55-80 | One loop iteration makes unit *i* active and binds texture *i*'s id to it. It sets *i*'s sampler name to *i* and changes nothing else in the context. |
| `Meshes.BindCallsActive` | src/mesh/mesh.h:53-55 | After the loop the last unit set is active. The vertex array and the list of draws are untouched. |
| `Meshes.BindCallsUnits` | src/mesh/mesh.h:53-80 | After the loop, unit *i* holds texture *i*'s id for every *i*. Units beyond the texture count keep their previous bindings. |
| `Meshes.BindCallsSamplers` | src/mesh/mesh.h:77-78 | After the loop, each sampler name holds the unit of the last texture bound under that name. |
| `Meshes.DrawEffect` | src/mesh/mesh.h:53-88 | After `draw`, unit *i* holds texture *i* for every *i* and unit 0 is active, whatever the texture count. No vertex array is bound, and exactly one draw over `count` elements was added. |
| `Meshes.DrawSamplers` | src/mesh/mesh.h:53-81 | When every texture has a recognised type, after `draw` each texture's sampler name holds exactly that texture's unit. |
| `Fps.JumpStep` | lib/camera/fps.h:73-80 | A grounded camera that is not flying takes off: climb becomes 5 and grounded is cleared, with the height kept. In every other state a jump changes nothing. A jump never makes a state both flying and grounded. |
| `Fps.ToggleFlyStep` | lib/camera/fps.h:82-90 | The flying flag flips and the height is kept. Entering flight sets the climb to 0 and clears grounded. Leaving flight keeps climb and grounded as they were. The camera is never flying and grounded at once afterwards. |
| `Fps.PhysicsStep` | lib/camera/fps.h:92-106 | Flying: nothing changes. Not flying: the height afterwards is at least the stand height. When the integrated height `height + (climb + g·dt)·dt` is at or below the stand height, the camera ends exactly at rest (height 1, climb 0, grounded). Above it, the grounded flag is kept as it was. The step never changes the flying flag. |
| `Fps.Frames` | main.cpp:354-379 | The frame loop's `updatePhysics(deltaTime)` once per frame, with each frame's own time step. For any sequence of time steps, the flying flag never changes, and nothing changes while flying. After at least one frame, a camera that is not flying is at or above the stand height. Flying and grounded stay exclusive. |
| `Fps.RestingFramesForever` | lib/camera/fps.h:96-104 | A camera at rest stays at rest over any sequence of frame times. |
| `Fps.GroundedOnlyAtRest` | lib/camera/fps.h:92-106 | A camera off the ground becomes grounded only by landing exactly at rest (height 1, climb 0), whatever the frame times. |
| `Fps.JumpBeforeLanding` | lib/camera/fps.h:73-106 | After a jump from the ground and any number of frames, the camera has either landed exactly at rest, or is still airborne and a further jump changes nothing. |
| `Fps.Steps` | lib/camera/fps.h:92-106 | *n* physics steps with one fixed time step never change the flying flag and change nothing while flying. After at least one step, a camera that is not flying is at or above the stand height. Flying and grounded stay exclusive. |
| `Fps.JumpTwiceIsJumpOnce` | lib/camera/fps.h:73-80 | A second jump right after a jump changes nothing. |
| `Fps.ToggleFlyTwice` | lib/camera/fps.h:82-90 | Entering and leaving flight cancels any fall and leaves the camera airborne with climb 0. |
| `Fps.RestingIsStable` | lib/camera/fps.h:96-104 | A camera at rest on the floor stays at rest after a step of any length. |
| `Fps.RestingForever` | lib/camera/fps.h:96-104 | ... and after any number of steps. |
| `Fps.DescentLands` | lib/camera/fps.h:96-104 | A camera that is not rising and starts at most *n* minimal drops above the floor comes to rest on the floor. |
| `Fps.AscentLands` | lib/camera/fps.h:96-104 | A camera that is not flying, whose climb is at most *n* times the speed lost per step, reaches the rest state after finitely many steps, for a positive time step. |
| `Fps.EventuallyRests` | lib/camera/fps.h:92-106 | With a positive time step and flight off, repeated physics steps from any height and climb reach exactly the stand height, at rest and grounded. |
| `Fps.FPSCamera.constructor` | lib/camera/fps.h:51-66 | Stores position, world up, yaw and pitch as given (pitch unclamped). Sets speed 10, sensitivity 0.1, grounded and not flying. Says nothing about velocity. |
| `Fps.FPSCamera.Jump` | lib/camera/fps.h:73-80 | The vertical state becomes `JumpStep` of the old one. Position and every other field are unchanged. The invariant holds that no state is flying and grounded at once. |
| `Fps.FPSCamera.ToggleFly` | lib/camera/fps.h:82-90 | The vertical state becomes `ToggleFlyStep` of the old one. Position and every other field are unchanged. |
| `Fps.FPSCamera.UpdatePhysics` | lib/camera/fps.h:92-106 | The vertical state becomes `PhysicsStep(old, dt)`. Position x and z, the other velocity components, yaw, pitch, speed and the flying flag are unchanged. |
| `Fps.FPSCamera.ProcessMouseMovement` | lib/camera/fps.h:108-122 | Yaw grows by `xoffset * sensitivity`, unclamped. Pitch becomes the clamp of `pitch + yoffset * sensitivity` to [-89, 89]. Nothing else changes. |
| `Orbit.Offset` | src/camera/orbit.h:100-102 | The spherical-to-Cartesian offset `radius·(cos p·cos y, sin p, cos p·sin y)` with the angles converted from degrees. Its length is stated by `SphericalLength`. |
| `Orbit.OrbitPosition` | src/camera/orbit.h:104 | The target plus the offset. The class invariant is stated with it, and `OrbitDistance` gives its distance from the target. |
| `Orbit.AfterSetTarget` | src/camera/orbit.h:90-94 | `setTarget` as a function on the whole camera state: the target moves, the position is recomputed, nothing else changes. |
| `Orbit.SetTargetIdempotent` | src/camera/orbit.h:90-94 | Setting the same target twice leaves every field as setting it once does. |
| `Orbit.OrbitDistance` | src/camera/orbit.h:97-104 | The squared distance from the computed position to the target is radius², given only the Pythagorean identity at the two angles. The camera therefore lies the absolute value of radius from the target; the constructor does not clamp a negative radius. |
| `Orbit.SphericalLength` | src/camera/orbit.h:100-102 | The spherical-to-Cartesian offset has squared length `radius²` whenever both angle pairs lie on the unit circle. |
| `Orbit.OrbitCamera.constructor` | src/camera/orbit.h:34-52 | Stores target, radius, yaw and pitch unclamped. Fixes world up (0,1,0), sensitivity 0.1, zoom 45 and speed 10. Establishes the position invariant. |
| `Orbit.OrbitCamera.ProcessMouseMovement` | src/camera/orbit.h:59-77 | Yaw accumulates `xoffset * sensitivity`, unclamped. With `constrainPitch`, pitch is clamped to [-89, 89]; without it, pitch is exactly the old value plus `yoffset * sensitivity`. Radius and target are unchanged, and the position invariant holds. |
| `Orbit.OrbitCamera.ProcessMouseScroll` | src/camera/orbit.h:79-88 | Radius becomes `clamp(radius - yoffset, 1, 100)`, so it lies in [1, 100]. Yaw, pitch and target are unchanged, and the position invariant holds. |
| `Orbit.OrbitCamera.SetTarget` | src/camera/orbit.h:90-94 | The camera's new state is `AfterSetTarget` of its old state: the target is replaced and the position recomputed around it. Yaw, pitch, radius and every other field are unchanged, and the position invariant holds. |
| `Orbit.OrbitCamera.UpdateCameraVectors` | src/camera/orbit.h:97-104 | Position becomes target plus the spherical offset of radius, yaw and pitch. |
| `Models.Model.constructor` | src/model/model.h:17-23 | Stores file path, position, rotation and scale. Defaults are position 0, rotation 0 and scale 1. |
| `Models.Model.GetFilePath` | src/model/model.h:30 | Returns the stored file path. `SetFilePath` is stated through it. |
| `Models.Model.GetPosition` | src/model/model.h:31 | Returns the stored position. `SetPosition` is stated through it. |
| `Models.Model.GetRotation` | src/model/model.h:32 | Returns the stored rotation. `SetRotation` is stated through it. |
| `Models.Model.GetScale` | src/model/model.h:33 | Returns the stored scale. `SetScale` is stated through it. |
| `Models.Model.SetFilePath` | src/model/model.h:36 | Only the file path changes, and the getter returns the new value. The model matrix is unchanged. |
| `Models.Model.SetPosition` | src/model/model.h:37 | Only the position changes, and the getter returns the new value. |
| `Models.Model.SetRotation` | src/model/model.h:38 | Only the rotation changes, and the getter returns the new value. |
| `Models.Model.SetScale` | src/model/model.h:39 | Only the scale changes, and the getter returns the new value. |
| `Models.Model.ModelMatrix` | src/model/model.h:41-50 | Reads the fields and changes nothing. Starting from the identity, the matrix is the product of translate(position), rotate x, y, z (in radians) and scale(scale), in exactly that order. |
| `Models.TransformOrderInjective` | src/model/model.h:41-50 | Two model matrices have the same factors exactly when their positions, rotations and scales are equal. |
| `Models.ExampleModelMatrix` | src/model/model.h:43-49 | Position (1,0,0), rotation (0,90,0) and scale (2,2,2) give translate, rotate 0 about x, rotate 90 times glm's degree-to-radian constant about y, rotate 0 about z, then scale 2. |

## Left out

- `Mesh::setupMesh` and the destructor (src/mesh/mesh.h:39-44, 94-129) are left out. They only create and delete OpenGL buffers. The vertex array handle that `draw` binds is therefore a field with no promised value.
- Meshes.Mesh.Draw: `glUniform1i` applies to the program in use. The model files the sampler under the `shader` argument, because the frame loop makes that program current before calling `draw` (main.cpp:294-307). A name the shader does not declare gets location -1, which OpenGL silently ignores. The model records such a name anyway.
- Fps.Steps: repeats one fixed time step. The frame loop passes each frame's measured duration, so `Fps.EventuallyRests`, `Fps.DescentLands` and `Fps.AscentLands` cover a constant frame time only. The per-frame properties for varying frame times are stated by `Fps.Frames`, `Fps.RestingFramesForever` and `Fps.GroundedOnlyAtRest`.
- Meshes.DrawEffect: `Gl.Apply` accepts every texture unit. In OpenGL, `glActiveTexture(GL_TEXTURE0 + i)` with *i* at or above `GL_MAX_COMBINED_TEXTURE_IMAGE_UNITS` raises `GL_INVALID_ENUM` and leaves the previous unit active. The following `glBindTexture` (src/mesh/mesh.h:80) then overwrites that unit. "Unit *i* holds texture *i*" therefore holds only for meshes with fewer textures than that limit, which the model does not bound.
- Meshes.Mesh.Draw: the `uint` counters and the unit index are unbounded naturals. A 32-bit wrap-around would need more than four billion textures.
- A texture whose unrecognised type happens to equal a generated name (for example `texture_diffuse1`) collides with that sampler. This follows from the code as written. That is why `Meshes.DrawSamplers` assumes every type is recognised.
- `FPSCamera::processKeyboard`, `getViewMatrix` and `updateCameraVectors` (lib/camera/fps.h:68-71, 124-156) are left out. They need `normalize`, `cross` and `lookAt` over floats, and an unmatched direction string normalises a zero vector. The FPS model therefore has no front, right or up vectors. The unused `crouchOffset` constant is also left out.
- Fps.FPSCamera.constructor: `velocity = velocity;` (lib/camera/fps.h:61) assigns the parameter to itself, so the member velocity is never initialised. The model promises nothing about it.
- The FPS constructor sets grounded whatever the start height. A physics step that does not reach the floor keeps the previous grounded flag. The model keeps both behaviours as written.
- Orbit.OrbitCamera.UpdateCameraVectors: only the position is recomputed. Front, right and up (src/camera/orbit.h:106-108) need `normalize` and `cross` over floats and are not modelled. `getViewMatrix` is left out for the same reason.
- Cosine and sine are parameters of the orbit camera rather than the real functions. The distance lemma uses only their Pythagorean identity.
- Models.Model.ModelMatrix: `glm::translate`, `rotate` and `scale` are kept symbolic, so only the composition order is checked, not the matrix entries.
- `Model::draw` is pure virtual (src/model/model.h:26). `AssimpModel` only forwards its constructor to `Model` (src/assimpModel/AssimpModel.h:17). `World` forwards its constructors and `draw(shader)` to `AssimpModel` (src/models/world/world.h:13-19). The older `World` in src/world/world.h:21-28 has empty `draw` and `update` bodies. The scene importer and the texture cache do not appear in the source files, so they are not modelled.
- Float rounding is not modelled. Constants such as `-9.81f` and `0.1f` are the exact reals written in the source.
- Pitch and radius are bounded only after mouse-movement and scroll calls. Both constructors store their arguments unclamped (lib/camera/fps.h:56, src/camera/orbit.h:41-43). `OrbitCamera::processMouseMovement` skips the pitch clamp when `constrainPitch` is false (src/camera/orbit.h:68-74).
- The type strings compared are the literals `texture_diffuse`, `texture_specular`, `texture_normal` and `texture_height` (src/mesh/mesh.h:60-72). Any other string gets no number.
