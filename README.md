# threedy wireframe demo, modelled in Dafny

The demo shows a cube as a wireframe. The user moves it with the keys W, A, S and D.
This project models the parts with logic in them:

- **Cube geometry** (module `Polytopes`, `polytopes.dfy`). A cube is given by its centre and
  its side length (`height`). `Edges` lists its 12 edges over the 8 corners
  `centre ± height/2`, in the program's fixed order: the four edges of the lower face, with
  the vertical edges and upper face edges after them.
- **Input flags** (module `InputStates`, `input_state.dfy`). Six two-valued button states
  (left, right, front, back, up, down), with `New` and `Reset`.
- **The demo** (module `Demo`, `demo.dfy`). The `DemoModel` class holds the cube.
  `Update` moves its centre by `dt` according to the flags. The `DemoView` class holds the
  flags. `HandleButtonEvent` maps W/A/S/D to up/left/down/right. `HandleFocusEvent` releases
  every flag. `RenderPolytope` turns each edge into a screen segment through the fixed map
  `(x, y, z) ↦ (50(x − 0.3z), 50(y − 0.3z))`.

Arithmetic is over Dafny's exact `real`, not IEEE doubles. Every lemma and postcondition is
a statement about this exact-real idealisation of the program, and none is promised for
doubles; "## Left out" gives the ones known to fail for doubles, with examples.

The input record is a copyable value in the program, compared field by field. It is a
`datatype` here, and Dafny's structural equality is its derived equality. So the flags that
`DemoModel.Update` receives are a snapshot: later key events cannot change them. `reset`
overwrites all six fields of that value. It is modelled as `InputState.Reset`, which
returns the overwritten record, and `DemoView.HandleFocusEvent` assigns that record back
into the view's field. `DemoModel` and `DemoView` are classes whose methods reassign their
field (`modifies this`). Their postconditions tie the new state to the specification
functions `Advance` and `ApplyButton`. The lemmas are stated about those functions.

`Edges` is a pure function of the cube, so it leaves the cube unchanged, as `&self` does in
the program.

The program has no rotation, scale, perspective projection, clipping or viewport mapping.
The cube's position is baked into its edges through `center`, the screen map is the fixed
oblique projection above, and only W, A, S and D are bound.

## Model

| member | source | states |
|---|---|---|
| `Polytopes.Corners` | src/polytopes.rs:21-31 | the eight corners l1..u4 are each `centre ± height/2` on every axis; u1..u4 lie directly above l1..l4, on the lower and upper planes `z = cz ∓ height/2` |
| `Polytopes.Edges` | src/polytopes.rs:19-47 | `edges` returns exactly 12 edges, and both endpoints of every edge are corners of the cube |
| `Polytopes.CornersComplete` | src/polytopes.rs:21-31 | a point is a corner (each coordinate `c ± h/2`) if and only if it is one of the eight listed corners |
| `Polytopes.CornersDistinct` | src/polytopes.rs:24-31 | when `height ≠ 0` the eight corners are pairwise distinct |
| `Polytopes.EdgesAxisAligned` | src/polytopes.rs:21-46 | every edge is a step of `±height` along one axis, with squared length `height²`; when `height ≠ 0` its endpoints differ in exactly one coordinate |
| `Polytopes.AxisStepMeasures` | src/polytopes.rs:33-46 | an edge that is a step of `±h` along one axis has squared length `h²`, and when `h ≠ 0` exactly one differing coordinate |
| `Polytopes.BottomFace` | src/polytopes.rs:34-37 | edges 0–3 lie in the plane `z = cz − height/2` |
| `Polytopes.TopFace` | src/polytopes.rs:39-43 | edges 5, 7, 8 and 9 lie in the plane `z = cz + height/2` |
| `Polytopes.VerticalEdges` | src/polytopes.rs:38-45 | edges 4, 6, 10 and 11 are l1u1, l2u2, l3u3 and l4u4, differing only in z, by `+height` |
| `Polytopes.CornerDegree` | src/polytopes.rs:24-46 | when `height ≠ 0` each corner is an endpoint of exactly three edges |
| `Polytopes.EdgesDistinct` | src/polytopes.rs:33-46 | when `height ≠ 0` no edge appears twice, in either orientation |
| `Polytopes.EdgesComplete` | src/polytopes.rs:24-46 | every pair of corners that differ in exactly one coordinate is joined by a listed edge, so the list is the whole edge set of the cube |
| `Polytopes.EdgesTranslate` | src/polytopes.rs:21-31 | moving the centre by `d` moves every endpoint of every edge by `d`, order kept |
| `InputStates.New` | src/input_state.rs:15-24 | `new()` has all six flags released |
| `InputStates.InputState.Reset` | src/input_state.rs:26-33 | after `reset()` all six flags are released whatever they were, and the record equals `new()` |
| `InputStates.EqualIffSameFlags` | src/input_state.rs:4-12 | the derived equality: two records are equal exactly when all six flags agree |
| `InputStates.AllReleasedIsNew` | src/input_state.rs:15-24 | a record has every flag released if and only if it equals `new()` |
| `InputStates.ResetIdempotent` | src/input_state.rs:26-33 | resetting twice equals resetting once |
| `Demo.Pressed` | src/demo.rs:26-29 | the factor a flag contributes is 1 exactly when it is pressed and 0 exactly when it is released |
| `Demo.Velocity` | src/demo.rs:26-29 | the motion per unit time never has a y component, and each of its x and z components is between −1 and 1 |
| `Demo.VelocitySigns` | src/demo.rs:26-29 | x moves exactly when left and right differ, towards +x if and only if only right is pressed and towards −x if and only if only left is; z likewise, towards +z if and only if only down is pressed and towards −z if and only if only up is |
| `Demo.VelocityEachFlag` | src/demo.rs:26-29 | pressing one flag, all else equal, adds that flag's unit direction to the motion (left −x, right +x, up −z, down +z, front and back nothing) |
| `Demo.Advance` | src/demo.rs:23-30 | the net effect of `update`: the size is kept and the centre moves by `dt` times the velocity of the flags |
| `Demo.AdvanceKeepsHeightAndY` | src/demo.rs:23-30 | a tick changes only `center.x` and `center.z`; `height` and `center.y` stay |
| `Demo.AdvanceReleased` | src/demo.rs:26-29 | with all flags released the cube does not move |
| `Demo.AdvanceEachFlag` | src/demo.rs:26-29 | pressing one flag, all else equal, moves the centre by `dt` along its direction: up subtracts `dt` from z, down adds `dt` to z, left subtracts `dt` from x, right adds `dt` to x, front and back do nothing |
| `Demo.AdvanceOpposingCancel` | src/demo.rs:26-29 | left and right both pressed give no net change in x; up and down both pressed give none in z |
| `Demo.AdvanceIgnoresFrontBack` | src/demo.rs:26-29 | the front and back flags do not affect the motion |
| `Demo.AdvanceCompose` | src/demo.rs:23-30 | two ticks of `dt1` and `dt2` under the same flags equal one tick of `dt1 + dt2` |
| `Demo.DemoModel.constructor` | src/demo.rs:16-21 | the initial cube has centre (3, 5, 2) and height 1 |
| `Demo.DemoModel.Update` | src/demo.rs:23-30 | the four in-place adjustments of the centre amount to one `Advance` by `dt` under the snapshot of the flags |
| `Demo.Binding` | src/demo.rs:69-83 | no button drives the front or back flag |
| `Demo.BindingInjective` | src/demo.rs:69-83 | no two buttons drive the same flag |
| `Demo.ApplyButton` | src/demo.rs:66-84 | the flag bound to the button takes the event's state; every other flag, and everything for an unbound button, is unchanged |
| `Demo.ApplyButtonIdempotent` | src/demo.rs:66-84 | a repeated notification changes nothing further |
| `Demo.PressThenRelease` | src/demo.rs:66-84 | pressing and then releasing a bound key restores a state in which its flag was released |
| `Demo.ButtonsCommute` | src/demo.rs:66-84 | notifications for different buttons commute |
| `Demo.DemoView.constructor` | src/demo.rs:40-50 | the view starts with `InputState::new()` |
| `Demo.DemoView.HandleButtonEvent` | src/demo.rs:66-84 | the new flags are `ApplyButton` of the old flags and the event |
| `Demo.DemoView.HandleFocusEvent` | src/demo.rs:86-90 | whatever `focused` is, all flags become released and equal `new()` |
| `Demo.Project` | src/demo.rs:102-115 | the render transform `(x, y, z) ↦ (50(x − 0.3z), 50(y − 0.3z))`: each screen coordinate is the dot product of a row of `[[1, 0, −0.3, 0], [0, 1, −0.3, 0]] · 50` with `(x, y, z, 1)`, whose last column is zero |
| `Demo.ProjectAdd` | src/demo.rs:102-115 | the render transform has a zero last column, so the image of a sum is the sum of the images |
| `Demo.ProjectScale` | src/demo.rs:102-115 | scaling a vector by `k` scales its image by `k` |
| `Demo.ProjectSameImage` | src/demo.rs:102-115 | two points have the same image exactly when they differ by a multiple of (0.3, 0.3, 1): the map is a parallel projection along that direction |
| `Demo.ProjectPlaneZero` | src/demo.rs:102-115 | points with z = 0 are magnified by 50 |
| `Demo.Segments` | src/demo.rs:109-122 | one segment per edge, in edge order, each the projection of the edge's two endpoints |
| `Demo.SegmentsTranslate` | src/demo.rs:109-120 | moving edges by `d` moves their segments by the image of `d` |
| `Demo.AdvanceShiftsPicture` | src/demo.rs:23-30 | one tick shifts the drawn picture rigidly by the image of `dt · Velocity` |
| `Demo.SegmentVectorIsImage` | src/demo.rs:110-120 | the vector from a segment's start to its end is the image of the edge's vector |
| `Demo.ProjectAxisStep` | src/demo.rs:102-115 | a step of `±h` along x or y becomes a horizontal or vertical screen step of `50h`; a rise of `h` in z becomes the diagonal `(−15h, −15h)` |
| `Demo.ProjectedEdgeShape` | src/demo.rs:102-120 | on screen the eight non-vertical cube edges are horizontal or vertical segments of length `50·height`; the four vertical edges are diagonals `(−15, −15)·height` |
| `Demo.DemoView.RenderPolytope` | src/demo.rs:101-123 | the loop over `edges()` produces exactly `Segments(Edges(cube))`: one transformed segment per edge, in order |

## Left out

- The window and the event loop: `DemoView::new`'s window creation, `next_event`,
  `handle_render_event`, `render` (including `pw::clear`), `DemoController` and `run()`.
  They wrap the windowing toolkit and drive I/O. `RenderPolytope` returns the segments
  it would pass to `pw::line`. The colour, the line width and `context.transform` are
  drawing configuration and are not modelled.
- Logging (`trace!`, `debug!`, `info!`, `env_logger::init`) has no behaviour to state.
- src/lib.rs holds only module declarations and the `VERSION` constant taken from the build
  environment.
- IEEE-754 rounding, NaN and infinities of `f64`. All arithmetic is over exact reals, and
  every lemma and postcondition holds for the exact-real idealisation only. Rounding and
  absorption break at least these for doubles:
  - `AdvanceOpposingCancel`, `AdvanceCompose`, `AdvanceEachFlag`, `AdvanceKeepsHeightAndY`,
    the postcondition of `DemoModel.Update`, `EdgesTranslate`, `SegmentsTranslate` and
    `AdvanceShiftsPicture` rely on exact cancellation: with doubles `(c − dt) + dt` need
    not equal `c`, nor equal `(c + dt) − dt`. With up and down both pressed, z = 0.1 and
    dt = 0.7, the four in-place steps of `update` give 0.09999999999999998 where `Advance`
    gives 0.1.
  - `VerticalEdges` states the vector `(0, 0, height)` exactly: with centre z = 3.0 and
    height 0.1, `(3.0 + 0.05) − (3.0 − 0.05)` is 0.09999999999999964 in doubles.
  - `CornersDistinct`, `EdgesDistinct`, `CornerDegree` and `EdgesAxisAligned` fail through
    absorption: with centre x = 1e17 and height 1, `1e17 − 0.5` and `1e17 + 0.5` are the
    same double, so corners l1 and l4 coincide, edge 3 has length 0, and edges 0 and 2 join
    the same pair of points.
  - `ProjectAdd`, `ProjectScale`, `ProjectSameImage`, `SegmentVectorIsImage`,
    `ProjectAxisStep` and `ProjectedEdgeShape` rely on the render map being exactly linear;
    each rounded product and difference can differ in the last bits. For example, the
    image of (0.1, 0, 0.7) + (0.2, 0, 0.3) need not equal the sum of their images.
- The `Polytope` trait and its dynamic dispatch. `Cube` is its only implementation, so
  `Edges` is a function on `Cube`.
- `ndarray`: the 2×4 matrix is a sequence of rows, and its product with a point is written out
  as one dot product per row (`Dot4`).
- The keyboard's full key set is collapsed to W, A, S, D and `Other`. Mouse and controller
  buttons are collapsed to `NonKeyboard`. The scancode in a button notification is not
  modelled, since the handler ignores it.
- `DemoView::input_state` only copies the flags out. In the model the flags are a value, so
  reading `inputState` is that copy and needs no member of its own.
- `dt` is any real. The toolkit's frame clock supplies it and the code does not check it.
