/** The input tracker: one logical pointer, either absent or at a
    surface-local coordinate. */
module Input {

  datatype Pointer = Absent | At(x: real, y: real)

  /** The surface's top-left corner in client coordinates. */
  datatype Rect = Rect(left: real, top: real)

  datatype TouchPoint = TouchPoint(clientX: real, clientY: real)

  /** The host events that move the pointer: a mouse move, a touch start or
      move (with the list of active touches), and a mouse leave or touch end. */
  datatype InputEvent =
    | MouseMove(clientX: real, clientY: real, rect: Rect)
    | Touch(touches: seq<TouchPoint>, rect: Rect)
    | InputEnd

  /** The pointer after one event: an end event clears it, a mouse move
      takes the client point relative to the surface corner, and a touch
      event follows its first touch, if any. */
  function Track(p: Pointer, e: InputEvent): (q: Pointer)
    ensures q.Absent? <==> e.InputEnd? || (e.Touch? && e.touches == [] && p.Absent?)
    ensures e.Touch? && e.touches == [] ==> q == p
  {
    match e
    case MouseMove(cx, cy, rect) => At(cx - rect.left, cy - rect.top)
    case Touch(touches, rect) =>
      if |touches| > 0 then At(touches[0].clientX - rect.left, touches[0].clientY - rect.top)
      else p
    case InputEnd => Absent
  }

  /** Only the first touch matters: touch lists that agree on their first point
      move the pointer to the same place, whatever the other touches are. */
  lemma TrackFirstTouchOnly(p: Pointer, t1: seq<TouchPoint>, t2: seq<TouchPoint>, rect: Rect)
    requires t1 != [] && t2 != [] && t1[0] == t2[0]
    ensures Track(p, Touch(t1, rect)) == Track(p, Touch(t2, rect))
  {
  }

  /** Every event but an empty touch list forgets the previous pointer: the
      tracker holds no history beyond the latest coordinate. */
  lemma TrackForgetsHistory(p1: Pointer, p2: Pointer, e: InputEvent)
    requires !(e.Touch? && e.touches == [])
    ensures Track(p1, e) == Track(p2, e)
  {
  }

  /** Mapping a client coordinate into the surface and back is lossless. */
  lemma TrackMoveSurfaceLocal(p: Pointer, cx: real, cy: real, rect: Rect)
    ensures var q := Track(p, MouseMove(cx, cy, rect));
      q.At? && q.x + rect.left == cx && q.y + rect.top == cy
  {
  }
}
