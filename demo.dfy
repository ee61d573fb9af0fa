// The demo: a model holding one cube that the arrow-like keys W, A, S and D
// move, a view that keeps the current key flags, and the fixed linear map that
// turns every cube edge into a screen segment. The window, the event loop and
// the drawing calls are not modelled; the segments a frame would draw are
// returned instead.

module Demo {
  import opened Polytopes
  import opened InputStates

  datatype Option<T> = None | Some(value: T)

  // ---------------------------------------------------------------------
  // Movement of the cube

  /** The factor applied to dt for one flag: 1 when pressed, 0 otherwise. */
  function Pressed(b: ButtonState): (r: real)
    ensures r == 1.0 <==> b == Press
    ensures r == 0.0 <==> b == Release
  {
    match b
    case Press => 1.0
    case _ => 0.0
  }

  /**
   * Displacement per unit of time under the given flags: right moves towards
   * +x, left towards -x, down towards +z and up towards -z; front and back
   * are not consulted and nothing moves along y.
   */
  function Velocity(input: InputState): (v: Point3d)
    ensures v.y == 0.0
    ensures -1.0 <= v.x <= 1.0 && -1.0 <= v.z <= 1.0
  {
    Point3d(Pressed(input.right) - Pressed(input.left), 0.0, Pressed(input.down) - Pressed(input.up))
  }

  /**
   * The direction of motion on each axis: x moves exactly when left and right
   * differ, towards +x exactly when only right is pressed; z likewise, towards
   * +z exactly when only down is pressed.
   */
  lemma VelocitySigns(input: InputState)
    ensures Velocity(input).x == 0.0 <==> input.left == input.right
    ensures Velocity(input).z == 0.0 <==> input.up == input.down
    ensures Velocity(input).x > 0.0 <==> input.right == Press && input.left == Release
    ensures Velocity(input).x < 0.0 <==> input.left == Press && input.right == Release
    ensures Velocity(input).z > 0.0 <==> input.down == Press && input.up == Release
    ensures Velocity(input).z < 0.0 <==> input.up == Press && input.down == Release
  {
  }

  /** The cube after dt seconds under the given flags. */
  function Advance(c: Cube, dt: real, input: InputState): (r: Cube)
    ensures r.height == c.height
    ensures Sub(r.center, c.center) == Scale(dt, Velocity(input))
  {
    Translate(c, Scale(dt, Velocity(input)))
  }

  /** A tick moves only the x and z coordinates of the centre; the size and y stay. */
  lemma AdvanceKeepsHeightAndY(c: Cube, dt: real, input: InputState)
    ensures Advance(c, dt, input).height == c.height
    ensures Advance(c, dt, input).center.y == c.center.y
    ensures Advance(c, dt, input).center.x == c.center.x + dt * Velocity(input).x
    ensures Advance(c, dt, input).center.z == c.center.z + dt * Velocity(input).z
  {
  }

  /** With every flag released the cube stays where it is. */
  lemma AdvanceReleased(c: Cube, dt: real, input: InputState)
    requires input.AllReleased()
    ensures Advance(c, dt, input) == c
  {
    assert input.Get(Left) == Release && input.Get(Right) == Release;
    assert input.Get(Up) == Release && input.Get(Down) == Release;
  }

  /** The unit direction each flag pushes the cube in; front and back push nowhere. */
  function Direction(f: Flag): Point3d {
    match f
    case Left => Point3d(-1.0, 0.0, 0.0)
    case Right => Point3d(1.0, 0.0, 0.0)
    case Up => Point3d(0.0, 0.0, -1.0)
    case Down => Point3d(0.0, 0.0, 1.0)
    case Front => Point3d(0.0, 0.0, 0.0)
    case Back => Point3d(0.0, 0.0, 0.0)
  }

  /**
   * Pressing one flag, all else equal, moves the centre by dt along that
   * flag's direction: up by dt towards -z, down towards +z, left towards -x,
   * right towards +x; front and back not at all.
   */
  lemma AdvanceEachFlag(c: Cube, dt: real, input: InputState, f: Flag)
    ensures Advance(c, dt, input.With(f, Press)).center ==
            Add(Advance(c, dt, input.With(f, Release)).center, Scale(dt, Direction(f)))
  {
  }

  /** Pressing flag f adds Direction(f) to the velocity. */
  lemma VelocityEachFlag(input: InputState, f: Flag)
    ensures Velocity(input.With(f, Press)) == Add(Velocity(input.With(f, Release)), Direction(f))
  {
    var vp, vr := Velocity(input.With(f, Press)), Velocity(input.With(f, Release));
    assert vp.x == vr.x + Direction(f).x && vp.z == vr.z + Direction(f).z;
  }

  /** Opposing flags pressed together cancel: no net motion on that axis. */
  lemma AdvanceOpposingCancel(c: Cube, dt: real, input: InputState)
    ensures input.left == Press && input.right == Press ==> Advance(c, dt, input).center.x == c.center.x
    ensures input.up == Press && input.down == Press ==> Advance(c, dt, input).center.z == c.center.z
  {
    VelocitySigns(input);
  }

  /** The front and back flags have no effect on the motion. */
  lemma AdvanceIgnoresFrontBack(c: Cube, dt: real, input: InputState, front: ButtonState, back: ButtonState)
    ensures Advance(c, dt, input.(front := front, back := back)) == Advance(c, dt, input)
  {
  }

  /** Two ticks under the same flags move the cube as far as one tick of their summed length. */
  lemma AdvanceCompose(c: Cube, dt1: real, dt2: real, input: InputState)
    ensures Advance(Advance(c, dt1, input), dt2, input) == Advance(c, dt1 + dt2, input)
  {
    var v := Velocity(input);
    assert (dt1 + dt2) * v.x == dt1 * v.x + dt2 * v.x;
    assert (dt1 + dt2) * v.z == dt1 * v.z + dt2 * v.z;
  }

  /** The model: the one cube the demo shows. */
  class DemoModel {
    var polytope: Cube

    /** DemoModel::new: a unit cube centred at (3, 5, 2). */
    constructor ()
      ensures polytope == Cube(Point3d(3.0, 5.0, 2.0), 1.0)
    {
      polytope := Cube(Point3d(3.0, 5.0, 2.0), 1.0);
    }

    /**
     * DemoModel::update: four in-place adjustments of the centre, one per
     * movement flag; the net effect is one step of Advance.
     */
    method Update(dt: real, input: InputState)
      modifies this
      ensures polytope == Advance(old(polytope), dt, input)
    {
      polytope := polytope.(center := polytope.center.(z := polytope.center.z - dt * Pressed(input.up)));
      polytope := polytope.(center := polytope.center.(z := polytope.center.z + dt * Pressed(input.down)));
      polytope := polytope.(center := polytope.center.(x := polytope.center.x - dt * Pressed(input.left)));
      polytope := polytope.(center := polytope.center.(x := polytope.center.x + dt * Pressed(input.right)));
    }
  }

  // ---------------------------------------------------------------------
  // Key handling

  /** The keyboard keys the demo distinguishes; every other key is Other. */
  datatype Key = W | A | S | D | Other(code: int)

  /** A button: a keyboard key, or any non-keyboard button (mouse, controller). */
  datatype Button = Keyboard(key: Key) | NonKeyboard(code: int)

  /** A button notification: which button, and whether it went down or up. */
  datatype ButtonArgs = ButtonArgs(state: ButtonState, button: Button)

  /** The flag each button drives, if any: W up, A left, S down, D right. */
  function Binding(b: Button): (f: Option<Flag>)
    ensures f != Some(Front) && f != Some(Back)
  {
    match b
    case Keyboard(W) => Some(Up)
    case Keyboard(A) => Some(Left)
    case Keyboard(S) => Some(Down)
    case Keyboard(D) => Some(Right)
    case _ => None
  }

  /** Different buttons never drive the same flag. */
  lemma BindingInjective(b1: Button, b2: Button)
    requires Binding(b1).Some? && Binding(b1) == Binding(b2)
    ensures b1 == b2
  {
  }

  /** The flags after one button notification. */
  function ApplyButton(s: InputState, args: ButtonArgs): (r: InputState)
    ensures forall f :: r.Get(f) == (if Binding(args.button) == Some(f) then args.state else s.Get(f))
  {
    match Binding(args.button)
    case Some(f) => s.With(f, args.state)
    case None => s
  }

  /** Repeating a notification changes nothing further. */
  lemma ApplyButtonIdempotent(s: InputState, args: ButtonArgs)
    ensures ApplyButton(ApplyButton(s, args), args) == ApplyButton(s, args)
  {
    var r := ApplyButton(s, args);
    EqualIffSameFlags(ApplyButton(r, args), r);
  }

  /** Pressing and then releasing a key restores a state in which its flag was released. */
  lemma PressThenRelease(s: InputState, b: Button)
    requires Binding(b).Some? && s.Get(Binding(b).value) == Release
    ensures ApplyButton(ApplyButton(s, ButtonArgs(Press, b)), ButtonArgs(Release, b)) == s
  {
    EqualIffSameFlags(ApplyButton(ApplyButton(s, ButtonArgs(Press, b)), ButtonArgs(Release, b)), s);
  }

  /** Notifications for two different buttons can be applied in either order. */
  lemma ButtonsCommute(s: InputState, x: ButtonArgs, y: ButtonArgs)
    requires x.button != y.button
    ensures ApplyButton(ApplyButton(s, x), y) == ApplyButton(ApplyButton(s, y), x)
  {
    if Binding(x.button).Some? && Binding(x.button) == Binding(y.button) {
      BindingInjective(x.button, y.button);
    }
    EqualIffSameFlags(ApplyButton(ApplyButton(s, x), y), ApplyButton(ApplyButton(s, y), x));
  }

  // ---------------------------------------------------------------------
  // Projection to the screen

  datatype Point2d = Point2d(x: real, y: real)

  /** A line from p1 to p2 in screen coordinates. */
  datatype Segment = Segment(p1: Point2d, p2: Point2d)

  function Add2(p: Point2d, d: Point2d): Point2d {
    Point2d(p.x + d.x, p.y + d.y)
  }

  /** The transformation matrix of the renderer: [[1, 0, -0.3, 0], [0, 1, -0.3, 0]] times 50. */
  function RenderMatrix(): seq<seq<real>> {
    [[50.0 * 1.0, 50.0 * 0.0, 50.0 * -0.3, 50.0 * 0.0],
     [50.0 * 0.0, 50.0 * 1.0, 50.0 * -0.3, 50.0 * 0.0]]
  }

  /** A point in homogeneous coordinates (x, y, z, 1). */
  function Homogeneous(p: Point3d): seq<real> {
    [p.x, p.y, p.z, 1.0]
  }

  /** The dot product of a matrix row with a homogeneous point. */
  function Dot4(row: seq<real>, v: seq<real>): real
    requires |row| == 4 && |v| == 4
  {
    row[0] * v[0] + row[1] * v[1] + row[2] * v[2] + row[3] * v[3]
  }

  /**
   * The render transform, written out as the map it computes: the image is
   * the product of the render matrix with the homogeneous point, and since
   * the matrix's last column is zero the trailing 1 drops out.
   */
  function Project(p: Point3d): (r: Point2d)
    ensures r.x == Dot4(RenderMatrix()[0], Homogeneous(p))
    ensures r.y == Dot4(RenderMatrix()[1], Homogeneous(p))
  {
    Point2d(50.0 * (p.x - 0.3 * p.z), 50.0 * (p.y - 0.3 * p.z))
  }

  /** The matrix's last column is zero, so the map is additive: the image of a sum is the sum of the images. */
  lemma ProjectAdd(p: Point3d, q: Point3d)
    ensures Project(Add(p, q)) == Add2(Project(p), Project(q))
  {
  }

  /** ... and homogeneous: scaling a vector scales its image. */
  lemma ProjectScale(p: Point3d, k: real)
    ensures Project(Scale(k, p)) == Point2d(k * Project(p).x, k * Project(p).y)
  {
    assert 50.0 * (k * p.x - 0.3 * (k * p.z)) == k * (50.0 * (p.x - 0.3 * p.z));
    assert 50.0 * (k * p.y - 0.3 * (k * p.z)) == k * (50.0 * (p.y - 0.3 * p.z));
  }

  /**
   * Two points have the same image exactly when they differ by a multiple of
   * (0.3, 0.3, 1): the map is a parallel projection along that direction.
   */
  lemma ProjectSameImage(p: Point3d, q: Point3d)
    ensures Project(p) == Project(q) <==>
            (q.x - p.x == 0.3 * (q.z - p.z) && q.y - p.y == 0.3 * (q.z - p.z))
  {
  }

  /** Points in the plane z = 0 are only magnified, by 50. */
  lemma ProjectPlaneZero(x: real, y: real)
    ensures Project(Point3d(x, y, 0.0)) == Point2d(50.0 * x, 50.0 * y)
  {
  }

  function ProjectEdge(e: Edge): Segment {
    Segment(Project(e.a), Project(e.b))
  }

  /** One segment per edge, in the order of the edges. */
  function Segments(es: seq<Edge>): (r: seq<Segment>)
    ensures |r| == |es|
    ensures forall i :: 0 <= i < |es| ==> r[i] == ProjectEdge(es[i])
  {
    seq(|es|, i requires 0 <= i < |es| => ProjectEdge(es[i]))
  }

  function ShiftSegments(ss: seq<Segment>, d: Point2d): (r: seq<Segment>)
    ensures |r| == |ss|
    ensures forall i :: 0 <= i < |ss| ==> r[i] == Segment(Add2(ss[i].p1, d), Add2(ss[i].p2, d))
  {
    seq(|ss|, i requires 0 <= i < |ss| => Segment(Add2(ss[i].p1, d), Add2(ss[i].p2, d)))
  }

  /** Moving edges by d moves their segments by the image of d. */
  lemma SegmentsTranslate(es: seq<Edge>, d: Point3d)
    ensures Segments(TranslateEdges(es, d)) == ShiftSegments(Segments(es), Project(d))
  {
    var l, r := Segments(TranslateEdges(es, d)), ShiftSegments(Segments(es), Project(d));
    forall i | 0 <= i < |es|
      ensures l[i] == r[i]
    {
      ProjectAdd(es[i].a, d);
      ProjectAdd(es[i].b, d);
    }
  }

  /**
   * One tick of the model shifts the whole picture rigidly on screen, by the
   * image of the displacement dt * Velocity(input).
   */
  lemma AdvanceShiftsPicture(c: Cube, dt: real, input: InputState)
    ensures Segments(Edges(Advance(c, dt, input))) ==
            ShiftSegments(Segments(Edges(c)), Project(Scale(dt, Velocity(input))))
  {
    EdgesTranslate(c, Scale(dt, Velocity(input)));
    SegmentsTranslate(Edges(c), Scale(dt, Velocity(input)));
  }

  /** The vector from the start of a segment to its end. */
  function SegmentVector(s: Segment): Point2d {
    Point2d(s.p2.x - s.p1.x, s.p2.y - s.p1.y)
  }

  /** A horizontal or vertical screen vector of length 50 * |h|. */
  predicate IsScreenAxisStep(v: Point2d, h: real) {
    (v.y == 0.0 && (v.x == 50.0 * h || v.x == -50.0 * h)) ||
    (v.x == 0.0 && (v.y == 50.0 * h || v.y == -50.0 * h))
  }

  /** The positions of the four vertical edges, l1u1, l2u2, l3u3 and l4u4, in the edge list. */
  predicate IsVerticalEdge(i: nat) {
    i == 4 || i == 6 || i == 10 || i == 11
  }

  /**
   * On screen the eight edges of the lower and upper faces become horizontal
   * or vertical segments 50 * height long; the four vertical edges become
   * diagonals of (-15, -15) * height.
   */
  lemma ProjectedEdgeShape(c: Cube, i: nat)
    requires i < 12
    ensures IsVerticalEdge(i) ==> SegmentVector(Segments(Edges(c))[i]) == Point2d(-15.0 * c.height, -15.0 * c.height)
    ensures !IsVerticalEdge(i) ==> IsScreenAxisStep(SegmentVector(Segments(Edges(c))[i]), c.height)
  {
    var e, h := Edges(c)[i], c.height;
    var v := SegmentVector(Segments(Edges(c))[i]);
    assert v == Project(Delta(e)) by {
      assert Segments(Edges(c))[i] == ProjectEdge(e);
      SegmentVectorIsImage(e);
    }
    assert IsAxisStep(Delta(e), h) by {
      EdgesAxisAligned(c, i);
    }
    if IsVerticalEdge(i) {
      assert Delta(e) == Point3d(0.0, 0.0, h) by {
        VerticalEdges(c, if i == 4 then 0 else if i == 6 then 1 else if i == 10 then 2 else 3);
      }
      ProjectAxisStep(Delta(e), h);
    } else {
      assert Delta(e).z == 0.0 by {
        if i < 4 {
          BottomFace(c, i);
        } else {
          TopFace(c, i);
        }
      }
      ProjectAxisStep(Delta(e), h);
    }
  }

  /** The screen vector of an edge's segment is the image of the edge's vector. */
  lemma SegmentVectorIsImage(e: Edge)
    ensures SegmentVector(ProjectEdge(e)) == Project(Delta(e))
  {
    var a, b := e.a, e.b;
    assert 50.0 * (b.x - 0.3 * b.z) - 50.0 * (a.x - 0.3 * a.z) == 50.0 * ((b.x - a.x) - 0.3 * (b.z - a.z));
    assert 50.0 * (b.y - 0.3 * b.z) - 50.0 * (a.y - 0.3 * a.z) == 50.0 * ((b.y - a.y) - 0.3 * (b.z - a.z));
  }

  /** Images of the axis steps: a step in the x-y plane stays a step of 50 * h, a rise in z becomes a diagonal. */
  lemma ProjectAxisStep(d: Point3d, h: real)
    requires IsAxisStep(d, h)
    ensures d.z == 0.0 ==> IsScreenAxisStep(Project(d), h)
    ensures d == Point3d(0.0, 0.0, h) ==> Project(d) == Point2d(-15.0 * h, -15.0 * h)
  {
    if d.z == 0.0 {
      assert Project(d) == Point2d(50.0 * d.x, 50.0 * d.y);
    }
  }

  /** The view: the window (not modelled) and the flags kept between frames. */
  class DemoView {
    var inputState: InputState

    /** DemoView::new, apart from opening the window: all flags released. */
    constructor ()
      ensures inputState == New()
    {
      inputState := New();
    }

    /**
     * DemoView::handle_button_event: W, A, S and D set up, left, down and
     * right to the notified state; every other button leaves the flags alone.
     */
    method HandleButtonEvent(args: ButtonArgs)
      modifies this
      ensures inputState == ApplyButton(old(inputState), args)
    {
      match args.button {
        case Keyboard(W) =>
          inputState := inputState.(up := args.state);
        case Keyboard(A) =>
          inputState := inputState.(left := args.state);
        case Keyboard(S) =>
          inputState := inputState.(down := args.state);
        case Keyboard(D) =>
          inputState := inputState.(right := args.state);
        case _ =>
      }
      EqualIffSameFlags(inputState, ApplyButton(old(inputState), args));
    }

    /** DemoView::handle_focus_event: whether focus was gained or lost, all flags are released. */
    method HandleFocusEvent(focused: bool)
      modifies this
      ensures inputState.AllReleased() && inputState == New()
    {
      inputState := inputState.Reset();
    }

    /**
     * DemoView::render_polytope: the segments drawn for a cube, one per edge,
     * in the order the edges are listed.
     */
    static method RenderPolytope(polytope: Cube) returns (lines: seq<Segment>)
      ensures lines == Segments(Edges(polytope))
    {
      var edges := Edges(polytope);
      lines := [];
      for i := 0 to |edges|
        invariant |lines| == i
        invariant forall k :: 0 <= k < i ==> lines[k] == ProjectEdge(edges[k])
      {
        var point1, point2 := edges[i].a, edges[i].b;
        var point1Transformed := Project(point1);
        var point2Transformed := Project(point2);
        lines := lines + [Segment(point1Transformed, point2Transformed)];
      }
    }
  }
}
