/**
 * Canvas interaction: the screen/world coordinate maps, label truncation,
 * hit testing, wheel zoom and the press/drag/click state kept by the pointer
 * handlers. The handlers' closure variables (`isDragging`, `dragMoved`, the
 * drag start) and the hovered id are the fields of a `Pointer`; the camera
 * and selection they change live in the graph store.
 */
module Interaction {
  import opened Wrappers
  import opened Text
  import opened Types
  import opened GraphStore

  datatype Point = Point(x: real, y: real)

  /** The world point drawn at a screen point: the inverse of the render transform. */
  function ScreenToWorld(screenX: real, screenY: real, camera: CameraTransform, canvasWidth: real, canvasHeight: real): Point
    requires camera.scale != 0.0
  {
    Point((screenX - canvasWidth / 2.0 - camera.x) / camera.scale,
          (screenY - canvasHeight / 2.0 - camera.y) / camera.scale)
  }

  /** The render transform: centre the origin, pan by the camera, then scale. */
  function WorldToScreen(worldX: real, worldY: real, camera: CameraTransform, canvasWidth: real, canvasHeight: real): Point {
    Point(canvasWidth / 2.0 + camera.x + camera.scale * worldX,
          canvasHeight / 2.0 + camera.y + camera.scale * worldY)
  }

  /** For a non-zero scale the two maps are inverse to each other, both ways round. */
  lemma ScreenWorldRoundTrip(p: Point, camera: CameraTransform, canvasWidth: real, canvasHeight: real)
    requires camera.scale != 0.0
    ensures var w := ScreenToWorld(p.x, p.y, camera, canvasWidth, canvasHeight);
      WorldToScreen(w.x, w.y, camera, canvasWidth, canvasHeight) == p
    ensures var s := WorldToScreen(p.x, p.y, camera, canvasWidth, canvasHeight);
      ScreenToWorld(s.x, s.y, camera, canvasWidth, canvasHeight) == p
  {
    var s := camera.scale;
    var ax := p.x - canvasWidth / 2.0 - camera.x;
    var ay := p.y - canvasHeight / 2.0 - camera.y;
    assert s * (ax / s) == ax;
    assert s * (ay / s) == ay;
    assert (s * p.x) / s == p.x;
    assert (s * p.y) / s == p.y;
  }

  // ----- labels -----

  /** Drawn labels are cut to 20 characters. */
  const LABEL_MAX: nat := 20

  /** The label drawn under a node. */
  function DrawnLabel(text: string): (r: string)
    ensures |text| <= LABEL_MAX ==> r == text
    ensures |text| > LABEL_MAX ==> r == text[..LABEL_MAX] + "..."
    ensures |r| <= LABEL_MAX + 3
  {
    Truncate(text, LABEL_MAX)
  }

  // ----- hit testing -----

  /** The point lies within 4 units of the node's disc. */
  predicate Hits(node: NeuralNode, worldX: real, worldY: real) {
    var dx := worldX - node.x;
    var dy := worldY - node.y;
    var hitRadius := node.radius as real + 4.0;
    dx * dx + dy * dy <= hitRadius * hitRadius
  }

  /** The index of the last node (the one drawn on top) that the point hits. */
  function TopHit(nodes: seq<NeuralNode>, worldX: real, worldY: real): (r: Option<nat>)
    ensures r.Some? ==> r.value < |nodes| && Hits(nodes[r.value], worldX, worldY)
    ensures r.Some? ==> forall j :: r.value < j < |nodes| ==> !Hits(nodes[j], worldX, worldY)
    ensures r.None? <==> forall j :: 0 <= j < |nodes| ==> !Hits(nodes[j], worldX, worldY)
  {
    if |nodes| == 0 then None
    else if Hits(nodes[|nodes| - 1], worldX, worldY) then Some(|nodes| - 1)
    else TopHit(nodes[..|nodes| - 1], worldX, worldY)
  }

  /** The id of the top node hit, if any. */
  function HitId(nodes: seq<NeuralNode>, worldX: real, worldY: real): Option<string> {
    match TopHit(nodes, worldX, worldY)
    case Some(i) => Some(nodes[i].id)
    case None => None
  }

  /** `hitTestNodes`: scan from the last node back and return the first that is hit. */
  method HitTestNodes(worldX: real, worldY: real, nodes: seq<NeuralNode>) returns (hit: Option<NeuralNode>)
    ensures hit.Some? <==> TopHit(nodes, worldX, worldY).Some?
    ensures hit.Some? ==> hit.value == nodes[TopHit(nodes, worldX, worldY).value]
  {
    var i := |nodes| - 1;
    while i >= 0
      invariant -1 <= i < |nodes|
      invariant forall j :: i < j < |nodes| ==> !Hits(nodes[j], worldX, worldY)
    {
      var node := nodes[i];
      var dx := worldX - node.x;
      var dy := worldY - node.y;
      var hitRadius := node.radius as real + 4.0;
      if dx * dx + dy * dy <= hitRadius * hitRadius {
        return Some(node);
      }
      i := i - 1;
    }
    return None;
  }

  // ----- wheel zoom -----

  const MIN_SCALE: real := 0.3
  const MAX_SCALE: real := 3.0

  function ClampScale(s: real): (r: real)
    ensures MIN_SCALE <= r <= MAX_SCALE
    ensures MIN_SCALE <= s <= MAX_SCALE ==> r == s
  {
    if s > MAX_SCALE then MAX_SCALE else if s < MIN_SCALE then MIN_SCALE else s
  }

  /** The camera after a wheel step of `deltaY` at a canvas point: the scale moves by
      0.1% per unit and is clamped, and the pan is adjusted toward the mouse. */
  function Zoom(camera: CameraTransform, mouseX: real, mouseY: real, canvasWidth: real, canvasHeight: real, deltaY: real): CameraTransform
    requires camera.scale != 0.0
  {
    var zoomFactor := 1.0 + deltaY * -0.001;
    var newScale := ClampScale(camera.scale * zoomFactor);
    var scaleRatio := newScale / camera.scale;
    var worldMouseX := mouseX - canvasWidth / 2.0;
    var worldMouseY := mouseY - canvasHeight / 2.0;
    CameraTransform(worldMouseX - scaleRatio * (worldMouseX - camera.x),
                    worldMouseY - scaleRatio * (worldMouseY - camera.y),
                    newScale)
  }

  /** Zooming keeps the scale within [0.3, 3] and keeps the world point under the mouse in place. */
  lemma ZoomKeepsPointUnderMouse(camera: CameraTransform, mouseX: real, mouseY: real, canvasWidth: real, canvasHeight: real, deltaY: real)
    requires camera.scale != 0.0
    ensures var c := Zoom(camera, mouseX, mouseY, canvasWidth, canvasHeight, deltaY);
      && MIN_SCALE <= c.scale <= MAX_SCALE
      && ScreenToWorld(mouseX, mouseY, c, canvasWidth, canvasHeight) == ScreenToWorld(mouseX, mouseY, camera, canvasWidth, canvasHeight)
  {
    var c := Zoom(camera, mouseX, mouseY, canvasWidth, canvasHeight, deltaY);
    var s, t := camera.scale, c.scale;
    var ratio := t / s;
    var ax := mouseX - canvasWidth / 2.0 - camera.x;
    var ay := mouseY - canvasHeight / 2.0 - camera.y;
    assert mouseX - canvasWidth / 2.0 - c.x == ratio * ax;
    assert mouseY - canvasHeight / 2.0 - c.y == ratio * ay;
    ScaleCancels(s, t, ax);
    ScaleCancels(s, t, ay);
  }

  lemma ScaleCancels(s: real, t: real, a: real)
    requires s != 0.0 && t != 0.0
    ensures ((t / s) * a) / t == a / s
  {
    assert (t / s) * a == t * (a / s);
  }

  // ----- pointer handlers -----

  datatype MouseEvent = MouseEvent(button: int, clientX: real, clientY: real)

  /** The canvas's bounding box in the page and its size in CSS pixels. */
  datatype View = View(left: real, top: real, width: real, height: real)

  /** The world point under a mouse event. */
  function WorldAt(e: MouseEvent, view: View, camera: CameraTransform): Point
    requires camera.scale != 0.0
  {
    ScreenToWorld(e.clientX - view.left, e.clientY - view.top, camera, view.width, view.height)
  }

  /** The id of the top node under a mouse event. */
  function NodeAt(e: MouseEvent, view: View, g: Graph): Option<string>
    requires g.camera.scale != 0.0
  {
    var w := WorldAt(e, view, g.camera);
    HitId(g.nodes, w.x, w.y)
  }

  function Abs(r: real): real {
    if r < 0.0 then -r else r
  }

  /** A press turns into a drag once the pointer has moved more than this on one axis. */
  const DRAG_THRESHOLD: real := 2.0

  class Pointer {
    var isDragging: bool
    var dragMoved: bool
    var dragStartX: real
    var dragStartY: real
    /** The canvas's hovered node id. */
    var hovered: Option<string>

    /** A drag is only recorded while the button is down. */
    ghost predicate Valid()
      reads this
    {
      dragMoved ==> isDragging
    }

    constructor()
      ensures Valid()
      ensures !isDragging && !dragMoved && dragStartX == 0.0 && dragStartY == 0.0 && hovered.None?
    {
      isDragging := false;
      dragMoved := false;
      dragStartX := 0.0;
      dragStartY := 0.0;
      hovered := None;
    }

    /** `onWheel`: zoom toward the mouse. */
    method OnWheel(store: Store, clientX: real, clientY: real, deltaY: real, view: View)
      requires store.camera.scale != 0.0
      modifies store
      ensures store.State() == old(store.State()).(camera := Zoom(old(store.camera), clientX - view.left, clientY - view.top, view.width, view.height, deltaY))
    {
      var mouseX := clientX - view.left;
      var mouseY := clientY - view.top;
      var next := Zoom(store.camera, mouseX, mouseY, view.width, view.height, deltaY);
      store.SetCamera(CameraPatch(Some(next.x), Some(next.y), Some(next.scale)));
    }

    /** `onMouseDown`: a left press starts a potential drag; other buttons are ignored. */
    method OnMouseDown(e: MouseEvent)
      requires Valid()
      modifies this
      ensures Valid()
      ensures e.button != 0 ==> isDragging == old(isDragging) && dragMoved == old(dragMoved)
                                && dragStartX == old(dragStartX) && dragStartY == old(dragStartY)
      ensures e.button == 0 ==> isDragging && !dragMoved && dragStartX == e.clientX && dragStartY == e.clientY
      ensures hovered == old(hovered)
    {
      if e.button != 0 {
        return;
      }
      isDragging := true;
      dragMoved := false;
      dragStartX := e.clientX;
      dragStartY := e.clientY;
    }

    /** `onMouseMove`: while pressed, pan once the move passes the threshold and restart
        the drag from here; otherwise update the hovered node. */
    method OnMouseMove(store: Store, e: MouseEvent, view: View)
      requires Valid()
      requires !isDragging ==> store.camera.scale != 0.0
      modifies this, store
      ensures Valid()
      ensures isDragging == old(isDragging)
      ensures old(isDragging) ==>
        var dx, dy := e.clientX - old(dragStartX), e.clientY - old(dragStartY);
        && dragMoved == (old(dragMoved) || Abs(dx) > DRAG_THRESHOLD || Abs(dy) > DRAG_THRESHOLD)
        && hovered == old(hovered)
        && (if dragMoved then
              && store.State() == old(store.State()).(camera := old(store.camera).(x := old(store.camera).x + dx, y := old(store.camera).y + dy))
              && dragStartX == e.clientX && dragStartY == e.clientY
            else
              && store.State() == old(store.State())
              && dragStartX == old(dragStartX) && dragStartY == old(dragStartY))
      ensures !old(isDragging) ==>
        && hovered == NodeAt(e, view, old(store.State()))
        && store.State() == old(store.State())
        && dragMoved == old(dragMoved) && dragStartX == old(dragStartX) && dragStartY == old(dragStartY)
    {
      if isDragging {
        var dx := e.clientX - dragStartX;
        var dy := e.clientY - dragStartY;
        if Abs(dx) > DRAG_THRESHOLD || Abs(dy) > DRAG_THRESHOLD {
          dragMoved := true;
        }
        if dragMoved {
          var camera := store.camera;
          store.SetCamera(CameraPatch(Some(camera.x + dx), Some(camera.y + dy), None));
          dragStartX := e.clientX;
          dragStartY := e.clientY;
        }
      } else {
        var world := WorldAt(e, view, store.camera);
        var hit := HitTestNodes(world.x, world.y, store.nodes);
        hovered := if hit.Some? then Some(hit.value.id) else None;
      }
    }

    /** `onMouseUp`: a left release without a drag selects the node under the pointer,
        or clears the selection; either way the press ends. Other buttons are ignored. */
    method OnMouseUp(store: Store, e: MouseEvent, view: View)
      requires Valid()
      requires e.button == 0 && !dragMoved ==> store.camera.scale != 0.0
      modifies this, store
      ensures Valid()
      ensures e.button != 0 ==>
        && store.State() == old(store.State())
        && isDragging == old(isDragging) && dragMoved == old(dragMoved)
      ensures e.button == 0 ==>
        && !isDragging && !dragMoved
        && store.State() == (if old(dragMoved) then old(store.State())
                             else old(store.State()).(selectedNodeId := NodeAt(e, view, old(store.State()))))
      ensures hovered == old(hovered) && dragStartX == old(dragStartX) && dragStartY == old(dragStartY)
    {
      if e.button != 0 {
        return;
      }
      if !dragMoved {
        var world := WorldAt(e, view, store.camera);
        var hit := HitTestNodes(world.x, world.y, store.nodes);
        store.SetSelected(if hit.Some? then Some(hit.value.id) else None);
      }
      isDragging := false;
      dragMoved := false;
    }

    /** `onMouseLeave`: end any press and clear the hover. */
    method OnMouseLeave()
      modifies this
      ensures Valid()
      ensures !isDragging && !dragMoved && hovered.None?
      ensures dragStartX == old(dragStartX) && dragStartY == old(dragStartY)
    {
      isDragging := false;
      dragMoved := false;
      hovered := None;
    }
  }

  /** The centre of the last-drawn node always hits that node, whatever lies beneath it. */
  lemma CentreOfTopNodeIsHit(nodes: seq<NeuralNode>)
    requires |nodes| > 0
    ensures var top := nodes[|nodes| - 1];
      HitId(nodes, top.x, top.y) == Some(top.id)
  {
    var top := nodes[|nodes| - 1];
    assert Hits(top, top.x, top.y);
  }
}
