# LearnOpenGL renderer abstraction, modelled in Dafny

This project models the small renderer-abstraction layer of the LearnOpenGL
sandbox:

- **Vertex layout description** (`buffer.dfy`, module `Buffer`). It covers
  the shader data types and their byte-size and component-count tables.
  `Buffer_Element` is a value. `Buffer_Layout` is a class whose constructor
  runs the one-pass offset/stride loop in place. `Vertex_Buffer` and
  `Index_Buffer` are classes that hold a driver handle plus a layout or an
  index count.
- **Vertex-array attribute binding** (`vertex_array.dfy`, module
  `VertexArray`). It covers the type → GL component type table.
  `Vertex_Array::add_vertex_buffer` walks the buffer's layout and issues one
  `glEnableVertexAttribArray` / `glVertexAttribPointer` pair per element, then
  attaches the buffer. `set_index_buffer` records the index buffer.
- **The driver** (`gl.dfy`, module `Gl`). This is not a source file. The
  OpenGL entry points the renderer calls are modelled as appending one record
  per call, in order, to the `calls` log of a `GlContext` object. That object
  stands for the process-wide graphics context. Every method and constructor
  that issues GL calls states exactly which records it appends. `uint32_t` is the newtype
  `u32`, and its wrap-around addition is written out (`Add32`, `Wrap32`).
- **Perspective camera** (`camera.dfy`, module `Camera`). This covers the
  discrete update rules of `Perspective_Camera`: the key, mouse and scroll
  events, the setters and the getters. Scalars are `real`. glm vectors the
  camera only combines are symbolic terms: sum, difference, scaling,
  normalisation, cross product, and the spherical direction of (pitch, yaw).
  The view and projection matrices are the terms `LookAt`, `Perspective` and
  `Product`. So the trigonometry and the matrix arithmetic are not
  interpreted. What is proved is which values each matrix and basis vector is
  computed from, and when they are recomputed. The Euler angles are the one
  vector the camera does arithmetic on, so they are a concrete triple `Euler`
  (x = pitch, y = yaw).

Main results:

- The layout loop (`CalculateOffsetAndStride`) is proved against
  `WithOffsets`/`StrideOf`. Each offset is the 32-bit running sum of the
  earlier sizes, the stride is the 32-bit total, and nothing else about an
  element changes.
- When the total size fits in 32 bits, offsets are exact prefix sums. The
  first offset is 0, each element starts where the previous one ends, no two
  elements overlap, and the last element ends exactly at the stride.
- Elements built by the element constructor never wrap for fewer than 2^26
  elements.
- `AddVertexBuffer` is proved against `AttributeCalls`. Calls `2i` and
  `2i + 1` enable and describe attribute `i` from element `i`, with indices
  restarting at 0 and one stride for all of them.
- Camera events keep pitch in [-89, 89] (when constrained) and zoom = fov in
  [1, 45]. Every event stamps the matrices from the current state.

## Model

| member | source | states |
|---|---|---|
| `Buffer.ShaderDataTypeSize` | LearnOpenGL/src/Renderer/buffer.h:11-29 | byte size of a type is at most 64 and is 0 exactly for the unknown type None |
| `Buffer.BufferElement.ValueCount` | LearnOpenGL/src/Renderer/buffer.h:45-63 | component count is at most 16 and is 0 exactly for None |
| `Buffer.SizeIsFourBytesPerValue` | LearnOpenGL/src/Renderer/buffer.h:11-63 | the two tables agree: size = 4 × component count for every type but Bool; Bool has size 1 and one component |
| `Buffer.NewBufferElement` | LearnOpenGL/src/Renderer/buffer.h:40-43 | a new element keeps type, name and flag (normalized defaults to false), takes the size of its type and has offset 0 |
| `Buffer.WithOffsets` | LearnOpenGL/src/Renderer/buffer.h:83-93 | placing elements keeps their number and order and every field but the offset |
| `Buffer.BufferLayout.CalculateOffsetAndStride` | LearnOpenGL/src/Renderer/buffer.h:83-93 | the in-place loop leaves the elements equal to `WithOffsets` of the old elements, with offsets as 32-bit running sums, and the stride equal to the 32-bit total of the sizes |
| `Buffer.BufferLayout.constructor` | LearnOpenGL/src/Renderer/buffer.h:70-74 | the layout holds the given elements placed by `WithOffsets`, its stride is `StrideOf` them, and the layout invariant `IsLaidOut` holds |
| `Buffer.BufferLayout.Empty` | LearnOpenGL/src/Renderer/buffer.h:69 | the default layout has no elements and stride 0, and satisfies the layout invariant |
| `Buffer.BufferLayout.GetStride` | LearnOpenGL/src/Renderer/buffer.h:76 | returns the stored stride |
| `Buffer.BufferLayout.GetElements` | LearnOpenGL/src/Renderer/buffer.h:77 | returns the stored elements |
| `Buffer.WithOffsetsIsLaidOut` | LearnOpenGL/src/Renderer/buffer.h:85-92 | placed elements with the computed stride satisfy the invariant: every offset is the 32-bit sum of the sizes before it, and the stride is the 32-bit sum of all sizes |
| `Buffer.OffsetIsExactPrefixSum` | LearnOpenGL/src/Renderer/buffer.h:85-90 | without wrap-around, the offset of element i is exactly the sum of the earlier sizes, and element 0 sits at offset 0 |
| `Buffer.ConsecutiveOffsets` | LearnOpenGL/src/Renderer/buffer.h:89-90 | without wrap-around, element i+1 starts where element i ends |
| `Buffer.LastElementEndsAtStride` | LearnOpenGL/src/Renderer/buffer.h:85-92 | without wrap-around, in a non-empty layout the last offset plus the last size equals the stride |
| `Buffer.ElementsDoNotOverlap` | LearnOpenGL/src/Renderer/buffer.h:83-93 | without wrap-around, every earlier element ends at or before the start of a later one, and every element ends within the stride |
| `Buffer.ConstructedElementsDoNotWrap` | LearnOpenGL/src/Renderer/buffer.h:85-92 | if every size comes from the type table, the total is at most 64 × n, so fewer than 2^26 elements never wrap the `uint32_t` offset or stride |
| `Gl.Add32` | LearnOpenGL/src/Renderer/buffer.h:90-91 | `uint32_t` addition is the sum reduced modulo 2^32, and it is exact when the sum fits |
| `Buffer.VertexBuffer.constructor` | LearnOpenGL/src/Renderer/buffer.cpp:8-13 | a new vertex buffer keeps the driver's handle, has a default (empty, stride 0) layout, and appends exactly one call: bind the buffer to GL_ARRAY_BUFFER |
| `Buffer.VertexBuffer.Bind` | LearnOpenGL/src/Renderer/buffer.cpp:20-23 | appends exactly one call: bind the buffer to GL_ARRAY_BUFFER |
| `Buffer.VertexBuffer.Unbind` | LearnOpenGL/src/Renderer/buffer.cpp:25-28 | appends exactly one call: bind 0 to GL_ARRAY_BUFFER |
| `Buffer.VertexBuffer.GetLayout` | LearnOpenGL/src/Renderer/buffer.h:109 | returns the stored layout, so after `SetLayout(l)` it returns `l` |
| `Buffer.VertexBuffer.SetLayout` | LearnOpenGL/src/Renderer/buffer.h:110 | the stored layout becomes the given one, and no other field changes |
| `Buffer.IndexBuffer.constructor` | LearnOpenGL/src/Renderer/buffer.cpp:30-35 | a new index buffer keeps the driver's handle and the index count, and appends exactly one call: bind the buffer to GL_ELEMENT_ARRAY_BUFFER |
| `Buffer.IndexBuffer.Bind` | LearnOpenGL/src/Renderer/buffer.cpp:42-45 | appends exactly one call: bind the buffer to GL_ELEMENT_ARRAY_BUFFER |
| `Buffer.IndexBuffer.Unbind` | LearnOpenGL/src/Renderer/buffer.cpp:47-50 | appends exactly one call: bind 0 to GL_ELEMENT_ARRAY_BUFFER |
| `Buffer.IndexBuffer.GetIndicesCount` | LearnOpenGL/src/Renderer/buffer.h:128 | returns the stored index count |
| `VertexArray.ShaderDataTypeToOpenGLType` | LearnOpenGL/src/Renderer/vertex-array.cpp:5-24 | GL_FLOAT exactly for the float and matrix types, GL_INT exactly for the int types, GL_BOOL exactly for Bool, 0 exactly for None |
| `VertexArray.SizeMatchesAttributeFormat` | LearnOpenGL/src/Renderer/vertex-array.cpp:57-59 | all three tables agree: the byte size of a type = its component count × the byte width of its GL component type (4 for GLfloat and GLint, 1 for GLboolean) |
| `VertexArray.AttributeCallsLength` | LearnOpenGL/src/Renderer/vertex-array.cpp:54-64 | a layout of n elements issues exactly 2n attribute calls |
| `VertexArray.AttributeCallsAt` | LearnOpenGL/src/Renderer/vertex-array.cpp:54-64 | call 2i enables attribute i. Call 2i+1 describes attribute i from element i: its count, GL type, normalized flag (GL_TRUE/GL_FALSE) and offset. Every description uses the same layout stride, and indices run 0..n−1 in layout order |
| `VertexArray.AttributeOfLaidOutElement` | LearnOpenGL/src/Renderer/vertex-array.cpp:57-62 | for any layout keeping the invariant `IsLaidOut` (which every constructed layout does) without wrap-around, attribute i points at the exact sum of the sizes before element i, and its stride is the sum of all sizes |
| `VertexArray.VertexArray.constructor` | LearnOpenGL/src/Renderer/vertex-array.cpp:26-29 | a new vertex array keeps the driver's handle and has no vertex buffers and no index buffer |
| `VertexArray.VertexArray.Bind` | LearnOpenGL/src/Renderer/vertex-array.cpp:36-39 | appends exactly one call: bind this vertex array |
| `VertexArray.VertexArray.Unbind` | LearnOpenGL/src/Renderer/vertex-array.cpp:41-44 | appends exactly one call: bind vertex array 0 |
| `VertexArray.VertexArray.AddVertexBuffer` | LearnOpenGL/src/Renderer/vertex-array.cpp:46-66 | the calls issued are: bind the array, bind the buffer, then `AttributeCalls` of the buffer's layout (indices restart at 0). The buffer list grows by exactly this buffer at the end. The index buffer is unchanged |
| `VertexArray.VertexArray.SetIndexBuffer` | LearnOpenGL/src/Renderer/vertex-array.cpp:68-74 | issues bind-array then bind-index-buffer. The stored index buffer becomes the given one, and the vertex-buffer list is unchanged |
| `VertexArray.VertexArray.GetVertexBuffers` | LearnOpenGL/src/Renderer/vertex-array.h:18 | returns the attached vertex buffers |
| `VertexArray.VertexArray.GetIndexBuffer` | LearnOpenGL/src/Renderer/vertex-array.h:19 | returns the stored index buffer (null until one is set) |
| `Camera.ConstrainPitch` | LearnOpenGL/src/Renderer/camera.cpp:36-42 | the constrained pitch lies in [−89, 89]. A pitch in range is kept, and one out of range goes to the nearer bound |
| `Camera.ClampZoom` | LearnOpenGL/src/Renderer/camera.cpp:50-54 | the clamped zoom lies in [1, 45]. A zoom in range is kept, and one out of range goes to the nearer bound |
| `Camera.PerspectiveCamera.constructor` | LearnOpenGL/src/Renderer/camera.cpp:3-10 | stores position, Euler angles, world-up and fov, sets zoom = fov (unclamped), speed 2.5 and sensitivity 0.01, then derives the basis and matrices. The defaults are position (0,0,0), euler (0,−90,0), up (0,1,0) and fov 45, as declared in camera.h:14 |
| `Camera.PerspectiveCamera.ProcessKeyEvent` | LearnOpenGL/src/Renderer/camera.cpp:12-25 | the position moves by ± front or ± right scaled by speed × delta time, depending on the direction. Only the position and the matrices may change. Matrices become current. Basis currency, the pitch bound and the zoom clamp are preserved |
| `Camera.PerspectiveCamera.ProcessMouseEvent` | LearnOpenGL/src/Renderer/camera.cpp:27-46 | yaw += x × sensitivity with no clamp. Pitch becomes `ConstrainPitch(old + y × sensitivity)` when constrained, which is the default, and is then in [−89, 89]. Otherwise pitch is exactly old + y × sensitivity. The basis and matrices are recomputed. Position, zoom and fov are unchanged |
| `Camera.PerspectiveCamera.ProcessScrollEvent` | LearnOpenGL/src/Renderer/camera.cpp:48-59 | zoom becomes `ClampZoom(old zoom − y)` and fov = zoom, so zoom = fov ∈ [1, 45] afterwards. Position and Euler angles are unchanged. Matrices become current |
| `Camera.PerspectiveCamera.UpdateViewMatrix` | LearnOpenGL/src/Renderer/camera.cpp:61-67 | view = lookAt(position, position + front, up), and view-projection = perspective(fov, 800/600, 0.1, 100) × view |
| `Camera.PerspectiveCamera.UpdateCameraSpaceVector` | LearnOpenGL/src/Renderer/camera.cpp:69-79 | front = normalize(direction(pitch, yaw)), right = normalize(front × world-up), up = normalize(right × front) |
| `Camera.PerspectiveCamera.SetCameraSpeed` | LearnOpenGL/src/Renderer/camera.h:20 | overwrites the speed and no other field |
| `Camera.PerspectiveCamera.SetMouseSensitivity` | LearnOpenGL/src/Renderer/camera.h:21 | overwrites the sensitivity and no other field |
| `Camera.PerspectiveCamera.SetPosition` | LearnOpenGL/src/Renderer/camera.h:22 | `set_possition` overwrites the position and no other field. The matrices are not recomputed and go stale |
| `Camera.PerspectiveCamera.SetEuler` | LearnOpenGL/src/Renderer/camera.h:23 | overwrites the Euler angles and no other field. Basis and matrices are not recomputed and go stale |
| `Camera.PerspectiveCamera.GetViewMatrix` | LearnOpenGL/src/Renderer/camera.h:25 | returns the stored view matrix |
| `Camera.PerspectiveCamera.GetViewProjectionMatrix` | LearnOpenGL/src/Renderer/camera.h:26 | returns the stored view-projection matrix |
| `Camera.PerspectiveCamera.GetEuler` | LearnOpenGL/src/Renderer/camera.h:27 | returns the current Euler angles unchanged |

The camera's state predicates are `BasisCurrent`, `MatricesCurrent`,
`PitchConstrained` and `ZoomClamped`. Each event method says which of them
it establishes and which it preserves. The field-level `modifies` clause of
each method and setter lists exactly the fields it may change. Together they
give the bounds for every sequence of events:

- Once a scroll event has happened, zoom = fov ∈ [1, 45] holds for the rest
  of the run, because nothing else writes zoom or fov.
- After a constrained mouse event, pitch ∈ [−89, 89] holds until an
  unconstrained mouse event or `SetEuler`.

## Left out

- GL driver semantics: buffer creation and upload (`glGenBuffers`,
  `glBufferData`, `glGenVertexArrays`), destructors, and what a binding or
  attribute pointer does on the GPU. Handles are constructor parameters, and
  calls are only recorded; of the buffer constructors' calls only their
  `glBindBuffer` is recorded.
- The `VertexAttribPointer` record keeps the component count and the stride
  as `uint32_t`. The driver receives them as `GLint` and `GLsizei`, so a
  stride of 2^31 or more would arrive negative; the model does not capture
  that conversion.
- The shader classes (file reading, compile/link decided by the driver,
  uniform setters) and the demo programs' window and render loop. These are
  I/O or driver calls.
- Floating point. Camera scalars are reals, so `float` rounding is not
  modelled. The constants 0.01 and 0.1 are taken as exact decimals.
- glm numerics. Trigonometry, normalisation, cross products, `lookAt` and
  `perspective` are kept as uninterpreted terms. So "front has unit length"
  and the matrix values are not stated.
- The console message printed for an unknown shader data type. Only the
  returned 0 is modelled.
- `Buffer_Element() = default` leaves size and offset uninitialised. The
  model has no such element. A layout may still hold elements of any size,
  and the layout lemmas do not assume sizes come from the type table.
- Buffer.VertexBuffer.SetLayout: the source copies the layout by value. The
  model stores a reference to it. A layout is never changed after its
  constructor, so nothing observable differs.
- VertexArray.VertexArray.AddVertexBuffer: the attribute index is `nat`
  rather than `uint32_t`. It would only wrap for a layout of 2^32 elements.
  `shared_ptr` ownership is reference sharing, and null pointers are excluded
  by non-null types.
- Camera.PerspectiveCamera.ProcessMouseEvent: the `GLboolean` flag is a
  `bool`. Every non-zero value counts as true.
