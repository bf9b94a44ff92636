/**
 The Puddi graphics runtime: one instance per canvas, holding the camera (a
 uniform zoom `scale` and a pan `translate`, optionally applied around the
 middle of the canvas), the clock of the animation loop and the ordered list
 of top-level objects.

 The camera is given twice: as the pure value `CameraState` with one function
 per camera operation (the algebra the lemmas below speak about), and as the
 fields of the class `Puddi`, whose methods update them in place and say which
 `CameraState` function they follow.

 Objects are opaque: an id and whether the object has a `draw` member.  The
 calls the runtime makes on them and on the context are returned as one
 ordered trace.
 */
module PuddiRuntime {
  import opened Canvas2D
  import Js

  type ObjectId = nat

  /** A top-level scene object, known only by its identity and whether it can be drawn. */
  datatype PuddiObject = PuddiObject(id: ObjectId, drawable: bool)

  /** The rectangle handed to `clearRect(x, y, w, h)`. */
  datatype Rect = Rect(x: real, y: real, w: real, h: real)

  /** One call a frame makes: `o.update(elapsed)`, `ctx.clearRect(rect)` or `o.draw(ctx)`. */
  datatype Call = UpdateCall(target: ObjectId, elapsed: real) | ClearCall(rect: Rect) | DrawCall(target: ObjectId)

  // ---------------------------------------------------------------------------
  // The camera as a value

  datatype CameraState = CameraState(scale: real, translate: Vec, centered: bool)

  const INITIAL_CAMERA: CameraState := CameraState(1.0, Vec(0.0, 0.0), false)

  /** The translation used in centered mode: the pan is scaled and taken from the middle of the canvas. */
  function CenteredTranslate(c: CameraState, w: real, h: real): (r: Vec)
    ensures c.scale * -c.translate.x + r.x == w / 2.0 && c.scale * -c.translate.y + r.y == h / 2.0
  {
    Vec(w / 2.0 + c.translate.x * c.scale, h / 2.0 + c.translate.y * c.scale)
  }

  /** The translation the context is actually given: the pan itself, or in centered mode the offset that shows the world point -translate at mid-canvas. */
  function ModTranslate(c: CameraState, w: real, h: real): (r: Vec)
    ensures !c.centered ==> r == c.translate
    ensures c.centered ==> c.scale * -c.translate.x + r.x == w / 2.0 && c.scale * -c.translate.y + r.y == h / 2.0
  {
    if c.centered then CenteredTranslate(c, w, h) else c.translate
  }

  /** The matrix that `refresh` installs, `transform(s, 0, 0, s, mt.x, mt.y)`. */
  function CameraMatrix(c: CameraState, w: real, h: real): Matrix {
    var mt := ModTranslate(c, w, h);
    Matrix(c.scale, 0.0, 0.0, c.scale, mt.x, mt.y)
  }

  /** The rectangle `draw` clears, in user space. */
  function ClearRect(c: CameraState, w: real, h: real): Rect
    requires c.scale != 0.0
  {
    var scaleInv := 1.0 / c.scale;
    var mt := ModTranslate(c, w, h);
    Rect(-mt.x * scaleInv, -mt.y * scaleInv, w * scaleInv, h * scaleInv)
  }

  function Translated(c: CameraState, t: Vec): CameraState {
    c.(translate := Add(c.translate, t))
  }

  function TranslatedScaled(c: CameraState, t: Vec): CameraState
    requires c.scale != 0.0
  {
    c.(translate := Vec(c.translate.x + t.x * (1.0 / c.scale), c.translate.y + t.y * (1.0 / c.scale)))
  }

  /** The effect of both `scale` and `scaleTranslated`. */
  function Scaled(c: CameraState, s: real): CameraState {
    c.(scale := c.scale * s)
  }

  function Cleared(c: CameraState): CameraState {
    c.(scale := 1.0, translate := Vec(0.0, 0.0))
  }

  // ---------------------------------------------------------------------------
  // What the camera means on screen

  /** Where a point of the world ends up on the canvas once the camera matrix is installed. */
  lemma ScreenPosition(c: CameraState, w: real, h: real, p: Vec)
    ensures Apply(CameraMatrix(c, w, h), p) ==
            if c.centered
            then Vec(w / 2.0 + (p.x + c.translate.x) * c.scale, h / 2.0 + (p.y + c.translate.y) * c.scale)
            else Vec(c.scale * p.x + c.translate.x, c.scale * p.y + c.translate.y)
  {
    var s, mt := c.scale, ModTranslate(c, w, h);
    assert Apply(CameraMatrix(c, w, h), p) == Vec(s * p.x + 0.0 * p.y + mt.x, 0.0 * p.x + s * p.y + mt.y);
    if c.centered {
      assert mt == Vec(w / 2.0 + c.translate.x * s, h / 2.0 + c.translate.y * s);
      assert s * p.x + mt.x == w / 2.0 + (p.x + c.translate.x) * s;
      assert s * p.y + mt.y == h / 2.0 + (p.y + c.translate.y) * s;
    }
  }

  /** The world point that zooming leaves in place: the one shown at mid-canvas in centered mode, the world origin otherwise. */
  function ZoomAnchor(c: CameraState): Vec {
    if c.centered then Vec(-c.translate.x, -c.translate.y) else Vec(0.0, 0.0)
  }

  /** In centered mode the anchor sits in the middle of the canvas, whatever the scale. */
  lemma CenteredAnchorAtMiddle(c: CameraState, w: real, h: real)
    requires c.centered
    ensures Apply(CameraMatrix(c, w, h), ZoomAnchor(c)) == Vec(w / 2.0, h / 2.0)
  {
    ScreenPosition(c, w, h, ZoomAnchor(c));
  }

  /** Zooming by any factor keeps the anchor where it was on screen. */
  lemma ScaleKeepsAnchor(c: CameraState, w: real, h: real, s: real)
    ensures ZoomAnchor(Scaled(c, s)) == ZoomAnchor(c)
    ensures Apply(CameraMatrix(Scaled(c, s), w, h), ZoomAnchor(c)) == Apply(CameraMatrix(c, w, h), ZoomAnchor(c))
  {
    var p := ZoomAnchor(c);
    ScreenPosition(c, w, h, p);
    ScreenPosition(Scaled(c, s), w, h, p);
    if c.centered {
      assert p.x + c.translate.x == 0.0 && p.y + c.translate.y == 0.0;
      assert Apply(CameraMatrix(c, w, h), p) == Vec(w / 2.0, h / 2.0);
      assert Apply(CameraMatrix(Scaled(c, s), w, h), p) == Vec(w / 2.0, h / 2.0);
    } else {
      assert p == Vec(0.0, 0.0);
      assert Apply(CameraMatrix(c, w, h), p) == Vec(c.translate.x, c.translate.y);
      assert Apply(CameraMatrix(Scaled(c, s), w, h), p) == Vec(c.translate.x, c.translate.y);
    }
  }

  /** `translate(t)` moves the picture by t, or by t times the scale in centered mode. */
  lemma TranslateShiftsScreen(c: CameraState, w: real, h: real, t: Vec)
    ensures ModTranslate(Translated(c, t), w, h) ==
            Add(ModTranslate(c, w, h), if c.centered then Vec(t.x * c.scale, t.y * c.scale) else t)
  {
    if c.centered {
      var s, tx, ty := c.scale, c.translate.x, c.translate.y;
      calc {
        ModTranslate(Translated(c, t), w, h);
        Vec(w / 2.0 + (tx + t.x) * s, h / 2.0 + (ty + t.y) * s);
        { assert (tx + t.x) * s == tx * s + t.x * s; assert (ty + t.y) * s == ty * s + t.y * s; }
        Vec(w / 2.0 + tx * s + t.x * s, h / 2.0 + ty * s + t.y * s);
        Add(ModTranslate(c, w, h), Vec(t.x * s, t.y * s));
      }
    }
  }

  /** `translateScaled(t)` moves the picture by exactly t in centered mode, and by t divided by the scale otherwise. */
  lemma TranslateScaledShiftsScreen(c: CameraState, w: real, h: real, t: Vec)
    requires c.scale != 0.0
    ensures ModTranslate(TranslatedScaled(c, t), w, h) ==
            Add(ModTranslate(c, w, h), if c.centered then t else Vec(t.x / c.scale, t.y / c.scale))
  {
    var s := c.scale;
    assert (1.0 / s) * s == 1.0;
    if c.centered {
      var m := ModTranslate(TranslatedScaled(c, t), w, h);
      assert m.x == w / 2.0 + (c.translate.x + t.x * (1.0 / s)) * s == w / 2.0 + c.translate.x * s + t.x * ((1.0 / s) * s);
      assert m.y == h / 2.0 + (c.translate.y + t.y * (1.0 / s)) * s == h / 2.0 + c.translate.y * s + t.y * ((1.0 / s) * s);
    } else {
      assert t.x * (1.0 / s) == t.x / s;
      assert t.y * (1.0 / s) == t.y / s;
    }
  }

  /** Under the camera matrix the cleared rectangle is exactly the visible canvas, from (0, 0) to (w, h). */
  lemma ClearRectCoversCanvas(c: CameraState, w: real, h: real)
    requires c.scale != 0.0
    ensures Apply(CameraMatrix(c, w, h), Vec(ClearRect(c, w, h).x, ClearRect(c, w, h).y)) == Vec(0.0, 0.0)
    ensures Apply(CameraMatrix(c, w, h),
                  Vec(ClearRect(c, w, h).x + ClearRect(c, w, h).w, ClearRect(c, w, h).y + ClearRect(c, w, h).h))
            == Vec(w, h)
  {
    var s := c.scale;
    var mt := ModTranslate(c, w, h);
    var r := ClearRect(c, w, h);
    assert s * (1.0 / s) == 1.0;
    assert s * r.x == -mt.x * (s * (1.0 / s));
    assert s * r.y == -mt.y * (s * (1.0 / s));
    assert s * (r.x + r.w) == (w - mt.x) * (s * (1.0 / s));
    assert s * (r.y + r.h) == (h - mt.y) * (s * (1.0 / s));
  }

  /** `clearTransform` forgets every earlier pan and zoom; only the mode survives. */
  lemma ClearedForgetsHistory(c: CameraState, d: CameraState)
    ensures Cleared(c).centered == c.centered
    ensures c.centered == d.centered ==> Cleared(c) == Cleared(d)
    ensures Cleared(c) == INITIAL_CAMERA.(centered := c.centered)
  {
  }

  // ---------------------------------------------------------------------------
  // Sequences of camera calls

  function Sum(ts: seq<Vec>): Vec {
    if ts == [] then Vec(0.0, 0.0) else Add(ts[0], Sum(ts[1..]))
  }

  function Product(ss: seq<real>): real {
    if ss == [] then 1.0 else ss[0] * Product(ss[1..])
  }

  /** The camera after `translate(ts[0])`, ..., `translate(ts[|ts|-1])`. */
  function TranslateAll(c: CameraState, ts: seq<Vec>): CameraState
    decreases |ts|
  {
    if ts == [] then c else TranslateAll(Translated(c, ts[0]), ts[1..])
  }

  /** The camera after `scale(ss[0])`, ..., `scale(ss[|ss|-1])`. */
  function ScaleAll(c: CameraState, ss: seq<real>): CameraState
    decreases |ss|
  {
    if ss == [] then c else ScaleAll(Scaled(c, ss[0]), ss[1..])
  }

  /** n calls of `translate` accumulate the sum of their deltas and touch nothing else. */
  lemma {:induction false} TranslatesAccumulate(c: CameraState, ts: seq<Vec>)
    ensures TranslateAll(c, ts) == c.(translate := Add(c.translate, Sum(ts)))
    decreases |ts|
  {
    if ts != [] {
      TranslatesAccumulate(Translated(c, ts[0]), ts[1..]);
    }
  }

  /** n calls of `scale` multiply the zoom by the product of their factors and leave the pan alone. */
  lemma {:induction false} ScalesMultiply(c: CameraState, ss: seq<real>)
    ensures ScaleAll(c, ss) == c.(scale := c.scale * Product(ss))
    decreases |ss|
  {
    if ss != [] {
      ScalesMultiply(Scaled(c, ss[0]), ss[1..]);
      assert c.scale * ss[0] * Product(ss[1..]) == c.scale * (ss[0] * Product(ss[1..]));
    }
  }

  // ---------------------------------------------------------------------------
  // Drawing order

  /** The `draw` calls dispatched to the objects: one per object that has a `draw` member, in list order. */
  function DrawTrace(objects: seq<PuddiObject>): seq<Call> {
    if objects == [] then []
    else (if objects[0].drawable then [DrawCall(objects[0].id)] else []) + DrawTrace(objects[1..])
  }

  /** Drawing a concatenated list draws the first part, then the second: list order is kept. */
  lemma {:induction false} DrawTraceAppend(a: seq<PuddiObject>, b: seq<PuddiObject>)
    ensures DrawTrace(a + b) == DrawTrace(a) + DrawTrace(b)
  {
    if a == [] {
      assert a + b == b;
    } else {
      var head := if a[0].drawable then [DrawCall(a[0].id)] else [];
      assert (a + b)[0] == a[0];
      assert (a + b)[1..] == a[1..] + b;
      assert DrawTrace(a + b) == head + DrawTrace(a[1..] + b);
      DrawTraceAppend(a[1..], b);
      assert DrawTrace(a) == head + DrawTrace(a[1..]);
    }
  }

  /** An id is drawn exactly when some object with that id has a `draw` member. */
  lemma {:induction false} DrawTraceMembers(objects: seq<PuddiObject>, id: ObjectId)
    ensures DrawCall(id) in DrawTrace(objects) <==> exists o :: o in objects && o.drawable && o.id == id
    ensures forall k :: 0 <= k < |DrawTrace(objects)| ==> DrawTrace(objects)[k].DrawCall?
  {
    if objects != [] {
      DrawTraceMembers(objects[1..], id);
      assert forall o :: o in objects <==> o == objects[0] || o in objects[1..];
    }
  }

  // ---------------------------------------------------------------------------
  // The runtime object

  class Puddi {
    const canvas: Canvas
    var scale: real
    var translate: Vec
    var time: real
    var centered: bool
    var objects: seq<PuddiObject>

    /** The camera part of the state. */
    function Camera(): CameraState
      reads this
    {
      CameraState(scale, translate, centered)
    }

    /** The context shows the current camera: what `refresh` establishes. */
    ghost predicate Synced()
      reads this, canvas
    {
      canvas.matrix == CameraMatrix(Camera(), canvas.width as real, canvas.height as real)
    }

    constructor (canvas: Canvas)
      ensures this.canvas == canvas
      ensures scale == 1.0 && translate == Vec(0.0, 0.0) && time == 0.0 && objects == [] && !centered
      ensures Camera() == INITIAL_CAMERA
    {
      this.canvas := canvas;
      scale := 1.0;
      translate := Vec(0.0, 0.0);
      time := 0.0;
      objects := [];
      centered := false;
    }

    /** One frame of the update step: the clock moves to tFrame and every object receives the same elapsed time. */
    method Update(tFrame: real) returns (calls: seq<Call>, result: Js.Value)
      modifies this`time
      ensures time == tFrame
      ensures |calls| == |objects|
      ensures forall i :: 0 <= i < |objects| ==> calls[i] == UpdateCall(objects[i].id, tFrame - old(time))
      ensures result == Js.Undefined
    {
      var elapsed := tFrame - time;
      time := tFrame;
      calls := [];
      for i := 0 to |objects|
        invariant |calls| == i
        invariant forall k :: 0 <= k < i ==> calls[k] == UpdateCall(objects[k].id, elapsed)
      {
        calls := calls + [UpdateCall(objects[i].id, elapsed)];
      }
      result := Js.Undefined;
    }

    /** Clears the visible region, then dispatches `draw` to the drawable objects in order. */
    method Draw() returns (calls: seq<Call>)
      requires scale != 0.0
      ensures calls == [ClearCall(ClearRect(Camera(), canvas.width as real, canvas.height as real))] + DrawTrace(objects)
    {
      var scaleInv := 1.0 / scale;
      var mt := ModTranslate(Camera(), canvas.width as real, canvas.height as real);
      var clear := Rect(-mt.x * scaleInv, -mt.y * scaleInv, canvas.width as real * scaleInv, canvas.height as real * scaleInv);
      assert clear == ClearRect(Camera(), canvas.width as real, canvas.height as real);
      calls := [ClearCall(clear)];
      for i := 0 to |objects|
        invariant calls == [ClearCall(clear)] + DrawTrace(objects[..i])
      {
        var o := objects[i];
        if o.drawable {
          calls := calls + [DrawCall(o.id)];
        }
        assert objects[..i + 1] == objects[..i] + [o];
        DrawTraceAppend(objects[..i], [o]);
      }
      assert objects[..|objects|] == objects;
    }

    /** The body of the animation loop's frame callback, without re-registering with the browser: every update call, then the clear, then the draw calls. */
    method Frame(tFrame: real) returns (calls: seq<Call>)
      requires scale != 0.0
      modifies this`time
      ensures time == tFrame
      ensures |calls| == |objects| + 1 + |DrawTrace(objects)|
      ensures forall i :: 0 <= i < |objects| ==> calls[i] == UpdateCall(objects[i].id, tFrame - old(time))
      ensures calls[|objects|] == ClearCall(ClearRect(Camera(), canvas.width as real, canvas.height as real))
      ensures calls[|objects| + 1..] == DrawTrace(objects)
    {
      var updates, result := Update(tFrame);
      if Js.LessThan(result, 0.0) {
        // the loop would stop here; `update` yields undefined, so this branch is dead
        assert false;
      }
      var draws := Draw();
      calls := updates + draws;
      assert calls[|objects| + 1..] == draws[1..];
    }

    method AddObject(o: PuddiObject)
      modifies this`objects
      ensures objects == old(objects) + [o]
    {
      objects := objects + [o];
    }

    /** Installs the camera matrix on the context, discarding whatever matrix it had. */
    method Refresh()
      modifies canvas
      ensures canvas.width == old(canvas.width) && canvas.height == old(canvas.height)
      ensures Synced()
      ensures canvas.matrix == Matrix(scale, 0.0, 0.0, scale,
                                      ModTranslate(Camera(), canvas.width as real, canvas.height as real).x,
                                      ModTranslate(Camera(), canvas.width as real, canvas.height as real).y)
    {
      canvas.ReassignWidth();
      var mt := ModTranslate(Camera(), canvas.width as real, canvas.height as real);
      canvas.Transform(Matrix(scale, 0.0, 0.0, scale, mt.x, mt.y));
      IdentityIsNeutral(Matrix(scale, 0.0, 0.0, scale, mt.x, mt.y));
    }

    method Translate(t: Vec)
      modifies this`translate, canvas
      ensures Camera() == Translated(old(Camera()), t)
      ensures canvas.width == old(canvas.width) && canvas.height == old(canvas.height)
      ensures Synced()
    {
      translate := Vec(translate.x + t.x, translate.y + t.y);
      Refresh();
    }

    method TranslateScaled(t: Vec)
      requires scale != 0.0
      modifies this`translate, canvas
      ensures Camera() == TranslatedScaled(old(Camera()), t)
      ensures canvas.width == old(canvas.width) && canvas.height == old(canvas.height)
      ensures Synced()
    {
      translate := Vec(translate.x + t.x * (1.0 / scale), translate.y + t.y * (1.0 / scale));
      Refresh();
    }

    method Scale(s: real)
      modifies this`scale, canvas
      ensures Camera() == Scaled(old(Camera()), s)
      ensures canvas.width == old(canvas.width) && canvas.height == old(canvas.height)
      ensures Synced()
    {
      scale := scale * s;
      Refresh();
    }

    method ScaleTranslated(s: real)
      modifies this`scale, canvas
      ensures Camera() == Scaled(old(Camera()), s)
      ensures canvas.width == old(canvas.width) && canvas.height == old(canvas.height)
      ensures Synced()
    {
      scale := scale * s;
      Refresh();
    }

    method ClearTransform()
      modifies this`scale, this`translate, canvas
      ensures Camera() == Cleared(old(Camera()))
      ensures canvas.width == old(canvas.width) && canvas.height == old(canvas.height)
      ensures Synced()
    {
      scale := 1.0;
      translate := Vec(0.0, 0.0);
      Refresh();
    }

    /** Switches the zoom mode; the context is not refreshed, so it keeps the old matrix until the next refresh. */
    method SetCentered(b: bool)
      modifies this`centered
      ensures centered == b
    {
      centered := b;
    }

    method GetScale() returns (s: real)
      ensures s == Camera().scale
    {
      s := scale;
    }

    method GetTranslate() returns (t: Vec)
      ensures t == Camera().translate
    {
      t := translate;
    }
  }

  /** Two refreshes in a row leave the same matrix as one, whatever the matrix was before. */
  method RefreshTwice(p: Puddi)
    modifies p.canvas
    ensures p.canvas.width == old(p.canvas.width) && p.canvas.height == old(p.canvas.height)
    ensures p.canvas.matrix == CameraMatrix(p.Camera(), old(p.canvas.width) as real, old(p.canvas.height) as real)
  {
    p.Refresh();
    ghost var once := p.canvas.matrix;
    p.Refresh();
    assert p.canvas.matrix == once;
  }
}
