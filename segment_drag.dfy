/**
 * The zoom view's segment-drag constraints. A gesture grabs a segment's
 * body, start marker or end marker; every pointer move is turned into a time
 * delta from where the gesture started, and the drag mode decides what
 * happens when the dragged segment runs into its neighbour: nothing
 * (overlap), it stops at the neighbour (no-overlap), or it pushes the
 * neighbour's near boundary until the neighbour is down to a minimum width
 * (compress). Each move reports the changed segments as `segments.dragged`
 * notifications, the dragged segment first.
 */
module SegmentDrag {
  import opened Wrappers

  datatype Handle = Body | StartMarker | EndMarker

  datatype DragMode = Overlap | NoOverlap | Compress

  /** A segment's time span. */
  datatype Span = Span(startTime: real, endTime: real)

  /** The visible time range of the zoom view. */
  datatype View = View(startTime: real, endTime: real)

  /** What one move decides: the dragged segment's new span and, in compress mode, a pushed neighbour's. */
  datatype Resolution = Resolution(moved: Span, pushedPrevious: Option<Span>, pushedNext: Option<Span>)

  /** A `segments.dragged` notification; `marker` is false for a body drag. */
  datatype Dragged = Dragged(segmentId: string, startTime: real, endTime: real, marker: bool)

  function Width(s: Span): real { s.endTime - s.startTime }

  function Min(a: real, b: real): real { if a < b then a else b }

  function Max(a: real, b: real): real { if a < b then b else a }

  /**
   * The neighbours lie where the segment list puts them: the previous one
   * ends at or before the dragged segment starts, the next one starts at or
   * after it ends, none reaches before time zero, and each is at least
   * `minWidth` wide.
   */
  predicate Arranged(previous: Option<Span>, origin: Span, next: Option<Span>, minWidth: real) {
    && 0.0 <= origin.startTime <= origin.endTime
    && (previous.Some? ==> 0.0 <= previous.value.startTime && Width(previous.value) >= minWidth &&
                           previous.value.endTime <= origin.startTime)
    && (next.Some? ==> origin.endTime <= next.value.startTime && Width(next.value) >= minWidth)
  }

  // ---------------------------------------------------------------------
  // Body drag

  /**
   * The body shifted by `delta` and kept inside the timeline: its end stops
   * at the view's right edge, its start at zero, its width never changes.
   */
  function ShiftedBody(origin: Span, delta: real, view: View): (r: Span)
    ensures Width(r) == Width(origin)
    ensures Width(origin) >= 0.0 ==> r.startTime >= 0.0
    ensures Width(origin) <= view.endTime && view.endTime >= 0.0 ==> r.endTime <= view.endTime
    ensures 0.0 <= origin.startTime + delta && origin.endTime + delta <= view.endTime ==>
              r == Span(origin.startTime + delta, origin.endTime + delta)
    ensures origin.startTime + delta < 0.0 && Width(origin) <= view.endTime ==>
              r == Span(0.0, Width(origin))
    ensures origin.endTime + delta > view.endTime && Width(origin) <= view.endTime ==>
              r == Span(view.endTime - Width(origin), view.endTime)
  {
    var w := Width(origin);
    var s := origin.startTime + delta;
    var e := origin.endTime + delta;
    var (s1, e1) := if e > view.endTime then (view.endTime - w, view.endTime) else (s, e);
    if s1 < 0.0 then Span(0.0, w) else Span(s1, e1)
  }

  /**
   * The shifted body against its neighbours. The next neighbour is checked
   * first; only when the body does not reach into it is the previous one
   * checked. No-overlap mode leaves the body touching the neighbour it ran
   * into; compress mode moves the neighbour's near boundary along with the
   * body until the neighbour is `minWidth` wide, and the body stops there.
   */
  function BodyAgainstNeighbours(moved: Span, mode: DragMode, minWidth: real,
                                 previous: Option<Span>, next: Option<Span>): (r: Resolution)
    ensures Width(r.moved) == Width(moved)
    ensures r.pushedPrevious.None? || r.pushedNext.None?
    ensures !mode.Compress? ==> r.pushedPrevious.None? && r.pushedNext.None?
    ensures r.pushedNext.Some? ==>
              next.Some? && r.pushedNext.value == Span(r.moved.endTime, next.value.endTime) &&
              Width(r.pushedNext.value) >= minWidth
    ensures r.pushedPrevious.Some? ==>
              previous.Some? && r.pushedPrevious.value == Span(previous.value.startTime, r.moved.startTime) &&
              Width(r.pushedPrevious.value) >= minWidth
    // Nothing in the way, or overlap mode: the body stays where the shift put it.
    ensures mode.Overlap? ||
            ((next.None? || moved.endTime <= next.value.startTime) &&
             (previous.None? || previous.value.endTime <= moved.startTime)) ==>
              r == Resolution(moved, None, None)
    // Running into the next neighbour.
    ensures mode.NoOverlap? && next.Some? && moved.endTime > next.value.startTime ==>
              r.moved.endTime == next.value.startTime
    ensures mode.Compress? && next.Some? && moved.endTime > next.value.startTime ==>
              && r.moved.endTime == Min(moved.endTime, next.value.endTime - minWidth)
              && r.pushedNext == Some(Span(r.moved.endTime, next.value.endTime))
    // Running into the previous neighbour while clear of the next one.
    ensures mode.NoOverlap? && (next.None? || moved.endTime <= next.value.startTime) &&
            previous.Some? && moved.startTime < previous.value.endTime ==>
              r.moved.startTime == previous.value.endTime
    ensures mode.Compress? && (next.None? || moved.endTime <= next.value.startTime) &&
            previous.Some? && moved.startTime < previous.value.endTime ==>
              && r.moved.startTime == Max(moved.startTime, previous.value.startTime + minWidth)
              && r.pushedPrevious == Some(Span(previous.value.startTime, r.moved.startTime))
  {
    var w := Width(moved);
    if mode.Overlap? then Resolution(moved, None, None)
    else if next.Some? && moved.endTime > next.value.startTime then
      var n := next.value;
      if mode.NoOverlap? then Resolution(Span(n.startTime - w, n.startTime), None, None)
      else
        var e := if n.endTime - moved.endTime < minWidth then n.endTime - minWidth else moved.endTime;
        Resolution(Span(e - w, e), None, Some(Span(e, n.endTime)))
    else if previous.Some? && moved.startTime < previous.value.endTime then
      var p := previous.value;
      if mode.NoOverlap? then Resolution(Span(p.endTime, p.endTime + w), None, None)
      else
        var s := if moved.startTime - p.startTime < minWidth then p.startTime + minWidth else moved.startTime;
        Resolution(Span(s, s + w), Some(Span(p.startTime, s)), None)
    else Resolution(moved, None, None)
  }

  function DragBody(origin: Span, delta: real, view: View, mode: DragMode, minWidth: real,
                    previous: Option<Span>, next: Option<Span>): Resolution
  {
    BodyAgainstNeighbours(ShiftedBody(origin, delta, view), mode, minWidth, previous, next)
  }

  // ---------------------------------------------------------------------
  // Marker drags

  /**
   * Where the start marker goes before the neighbour is considered: the
   * pointer's time, stopped at the end marker and the view's right edge, and
   * never before the view's left edge.
   */
  function StartMarkerGoal(origin: Span, delta: real, view: View): (s: real)
    ensures s >= view.startTime
    ensures view.startTime <= Min(origin.endTime, view.endTime) ==> s <= Min(origin.endTime, view.endTime)
    ensures view.startTime <= origin.startTime + delta <= Min(origin.endTime, view.endTime) ==>
              s == origin.startTime + delta
    ensures origin.startTime + delta < view.startTime ==> s == view.startTime
    ensures view.startTime <= Min(origin.endTime, view.endTime) < origin.startTime + delta ==>
              s == Min(origin.endTime, view.endTime)
  {
    Max(Min(origin.startTime + delta, Min(origin.endTime, view.endTime)), view.startTime)
  }

  /**
   * Where the end marker goes before the neighbour is considered: the
   * pointer's time, stopped at the view's right edge, and never before the
   * start marker or the view's left edge.
   */
  function EndMarkerGoal(origin: Span, delta: real, view: View): (e: real)
    ensures e >= origin.startTime && e >= view.startTime
    ensures Max(origin.startTime, view.startTime) <= view.endTime ==> e <= view.endTime
    ensures Max(origin.startTime, view.startTime) <= origin.endTime + delta <= view.endTime ==>
              e == origin.endTime + delta
    ensures origin.endTime + delta < Max(origin.startTime, view.startTime) ==>
              e == Max(origin.startTime, view.startTime)
    ensures Max(origin.startTime, view.startTime) <= view.endTime < origin.endTime + delta ==>
              e == view.endTime
  {
    Max(Min(origin.endTime + delta, view.endTime), Max(origin.startTime, view.startTime))
  }

  /**
   * The start marker moves alone to its goal; then the mode decides what the
   * previous neighbour does when the goal lies before the neighbour's end:
   * no-overlap stops the marker at that end, compress moves that end along
   * with the marker until the neighbour is `minMarkerWidth` wide.
   */
  function DragStartMarker(origin: Span, delta: real, view: View, mode: DragMode, minMarkerWidth: real,
                           previous: Option<Span>): (r: Resolution)
    ensures r.moved.endTime == origin.endTime && r.pushedNext.None?
    ensures r.moved.startTime >= view.startTime
    ensures view.startTime <= Min(origin.endTime, view.endTime) && (mode.Overlap? || previous.None?) ==>
              r.moved.startTime <= Min(origin.endTime, view.endTime)
    ensures view.startTime <= origin.endTime &&
            (previous.Some? ==> previous.value.endTime <= origin.endTime &&
                                (mode.Compress? ==> Width(previous.value) >= minMarkerWidth)) ==>
              r.moved.startTime <= origin.endTime
    ensures r.pushedPrevious.Some? <==>
              mode.Compress? && previous.Some? && StartMarkerGoal(origin, delta, view) < previous.value.endTime
    ensures mode.NoOverlap? && previous.Some? ==> r.moved.startTime >= previous.value.endTime
    ensures r.pushedPrevious.Some? ==>
              r.pushedPrevious.value == Span(previous.value.startTime, r.moved.startTime) &&
              Width(r.pushedPrevious.value) >= minMarkerWidth
    // Where the marker ends up, case by case.
    ensures mode.Overlap? || previous.None? || StartMarkerGoal(origin, delta, view) >= previous.value.endTime ==>
              r.moved.startTime == StartMarkerGoal(origin, delta, view)
    ensures mode.NoOverlap? && previous.Some? && StartMarkerGoal(origin, delta, view) < previous.value.endTime ==>
              r.moved.startTime == previous.value.endTime
    ensures mode.Compress? && previous.Some? && StartMarkerGoal(origin, delta, view) < previous.value.endTime ==>
              r.moved.startTime == Max(StartMarkerGoal(origin, delta, view), previous.value.startTime + minMarkerWidth)
  {
    var s := StartMarkerGoal(origin, delta, view);
    if mode.Overlap? || previous.None? || s >= previous.value.endTime then
      Resolution(Span(s, origin.endTime), None, None)
    else
      var p := previous.value;
      if mode.NoOverlap? then Resolution(Span(p.endTime, origin.endTime), None, None)
      else
        var s1 := if s - p.startTime < minMarkerWidth then p.startTime + minMarkerWidth else s;
        Resolution(Span(s1, origin.endTime), Some(Span(p.startTime, s1)), None)
  }

  /**
   * The end marker moves alone to its goal; then the mode decides what the
   * next neighbour does when the goal lies past the neighbour's start:
   * no-overlap stops the marker at that start, compress moves that start
   * along with the marker until the neighbour is `minMarkerWidth` wide.
   */
  function DragEndMarker(origin: Span, delta: real, view: View, mode: DragMode, minMarkerWidth: real,
                         next: Option<Span>): (r: Resolution)
    ensures r.moved.startTime == origin.startTime && r.pushedPrevious.None?
    ensures (next.Some? ==> origin.startTime <= next.value.startTime &&
                            (mode.Compress? ==> Width(next.value) >= minMarkerWidth)) ==>
              r.moved.endTime >= origin.startTime
    ensures (mode.Overlap? || next.None?) && origin.startTime <= view.endTime ==>
              Max(origin.startTime, view.startTime) <= r.moved.endTime
    ensures Max(origin.startTime, view.startTime) <= view.endTime ==> r.moved.endTime <= view.endTime
    ensures r.pushedNext.Some? <==>
              mode.Compress? && next.Some? && EndMarkerGoal(origin, delta, view) > next.value.startTime
    ensures mode.NoOverlap? && next.Some? ==> r.moved.endTime <= next.value.startTime
    ensures r.pushedNext.Some? ==>
              r.pushedNext.value == Span(r.moved.endTime, next.value.endTime) &&
              Width(r.pushedNext.value) >= minMarkerWidth
    // Where the marker ends up, case by case.
    ensures mode.Overlap? || next.None? || EndMarkerGoal(origin, delta, view) <= next.value.startTime ==>
              r.moved.endTime == EndMarkerGoal(origin, delta, view)
    ensures mode.NoOverlap? && next.Some? && EndMarkerGoal(origin, delta, view) > next.value.startTime ==>
              r.moved.endTime == next.value.startTime
    ensures mode.Compress? && next.Some? && EndMarkerGoal(origin, delta, view) > next.value.startTime ==>
              r.moved.endTime == Min(EndMarkerGoal(origin, delta, view), next.value.endTime - minMarkerWidth)
  {
    var e := EndMarkerGoal(origin, delta, view);
    if mode.Overlap? || next.None? || e <= next.value.startTime then
      Resolution(Span(origin.startTime, e), None, None)
    else
      var n := next.value;
      if mode.NoOverlap? then Resolution(Span(origin.startTime, n.startTime), None, None)
      else
        var e1 := if n.endTime - e < minMarkerWidth then n.endTime - minMarkerWidth else e;
        Resolution(Span(origin.startTime, e1), None, Some(Span(e1, n.endTime)))
  }

  /** One move of a gesture, resolved from the spans at pointer-down and the total delta. */
  function Resolve(handle: Handle, origin: Span, delta: real, view: View, mode: DragMode,
                   minWidth: real, minMarkerWidth: real,
                   previous: Option<Span>, next: Option<Span>): Resolution
  {
    match handle
    case Body => DragBody(origin, delta, view, mode, minWidth, previous, next)
    case StartMarker => DragStartMarker(origin, delta, view, mode, minMarkerWidth, previous)
    case EndMarker => DragEndMarker(origin, delta, view, mode, minMarkerWidth, next)
  }

  /** The notifications of one move: the dragged segment, then the pushed neighbour if any. */
  function DraggedEvents(handle: Handle, id: string, previousId: string, nextId: string, r: Resolution): seq<Dragged>
  {
    var marker := !handle.Body?;
    [Dragged(id, r.moved.startTime, r.moved.endTime, marker)]
      + (if r.pushedNext.Some? then [Dragged(nextId, r.pushedNext.value.startTime, r.pushedNext.value.endTime, marker)] else [])
      + (if r.pushedPrevious.Some? then [Dragged(previousId, r.pushedPrevious.value.startTime, r.pushedPrevious.value.endTime, marker)] else [])
  }

  // ---------------------------------------------------------------------
  // Properties of the resolver

  /**
   * Every move reports the dragged segment first with its new span and the
   * marker flag of its handle; a second notification appears exactly when
   * compress mode pushed a neighbour, and then it reports that neighbour.
   */
  lemma DraggedEventsOrder(handle: Handle, origin: Span, delta: real, view: View, mode: DragMode,
                           minWidth: real, minMarkerWidth: real, previous: Option<Span>, next: Option<Span>,
                           id: string, previousId: string, nextId: string)
    ensures var r := Resolve(handle, origin, delta, view, mode, minWidth, minMarkerWidth, previous, next);
            var events := DraggedEvents(handle, id, previousId, nextId, r);
            && 1 <= |events| <= 2
            && events[0] == Dragged(id, r.moved.startTime, r.moved.endTime, !handle.Body?)
            && (|events| == 2 <==> mode.Compress? && (r.pushedPrevious.Some? || r.pushedNext.Some?))
            && (|events| == 2 ==> events[1].segmentId == (if r.pushedNext.Some? then nextId else previousId))
  {
    var r := Resolve(handle, origin, delta, view, mode, minWidth, minMarkerWidth, previous, next);
    match handle
    case Body =>
      assert r == BodyAgainstNeighbours(ShiftedBody(origin, delta, view), mode, minWidth, previous, next);
    case StartMarker =>
    case EndMarker =>
  }

  /** A body drag keeps the segment's width and, among arranged neighbours, never reaches before zero. */
  lemma BodyDragBounds(origin: Span, delta: real, view: View, mode: DragMode, minWidth: real,
                       previous: Option<Span>, next: Option<Span>)
    requires Arranged(previous, origin, next, if mode.Compress? then minWidth else 0.0)
    ensures var r := DragBody(origin, delta, view, mode, minWidth, previous, next);
            Width(r.moved) == Width(origin) && r.moved.startTime >= 0.0
  {
    var moved := ShiftedBody(origin, delta, view);
    var w := Width(origin);
    if !mode.Overlap? && next.Some? && moved.endTime > next.value.startTime {
      var n := next.value;
      assert n.startTime - w >= origin.startTime;
    }
  }

  /**
   * No-overlap mode keeps a dragged body between its arranged neighbours:
   * it touches them at most.
   */
  lemma NoOverlapBodyStaysBetween(origin: Span, delta: real, view: View, minWidth: real,
                                  previous: Option<Span>, next: Option<Span>)
    requires Arranged(previous, origin, next, 0.0)
    ensures var r := DragBody(origin, delta, view, NoOverlap, minWidth, previous, next);
            && (previous.Some? ==> previous.value.endTime <= r.moved.startTime)
            && (next.Some? ==> r.moved.endTime <= next.value.startTime)
            && r.pushedPrevious.None? && r.pushedNext.None?
    ensures var moved := ShiftedBody(origin, delta, view);
            var r := DragBody(origin, delta, view, NoOverlap, minWidth, previous, next);
            && (next.Some? && moved.endTime > next.value.startTime ==> r.moved.endTime == next.value.startTime)
            && ((next.None? || moved.endTime <= next.value.startTime) &&
                previous.Some? && moved.startTime < previous.value.endTime ==>
                  r.moved.startTime == previous.value.endTime)
  {
    var moved := ShiftedBody(origin, delta, view);
    var w := Width(origin);
    if next.Some? && moved.endTime > next.value.startTime {
      assert next.value.startTime - w >= origin.startTime;
    } else if previous.Some? && moved.startTime < previous.value.endTime {
      assert previous.value.endTime + w <= origin.endTime;
    }
  }

  /**
   * Compress mode never lets a body drag cross an arranged neighbour: the
   * pushed neighbour starts (or ends) exactly where the body now ends (or
   * starts), keeps its far boundary, and stays at least `minWidth` wide.
   */
  lemma CompressBodyPushes(origin: Span, delta: real, view: View, minWidth: real,
                           previous: Option<Span>, next: Option<Span>)
    requires Arranged(previous, origin, next, minWidth)
    ensures var r := DragBody(origin, delta, view, Compress, minWidth, previous, next);
            && (next.Some? && r.pushedNext.None? ==> r.moved.endTime <= next.value.startTime)
            && (r.pushedNext.Some? ==> r.pushedNext.value.startTime == r.moved.endTime &&
                                       r.pushedNext.value.endTime == next.value.endTime &&
                                       Width(r.pushedNext.value) >= minWidth)
            && (previous.Some? && r.pushedNext.None? && r.pushedPrevious.None? ==>
                  previous.value.endTime <= r.moved.startTime)
            && (r.pushedPrevious.Some? ==> r.pushedPrevious.value.endTime == r.moved.startTime &&
                                           r.pushedPrevious.value.startTime == previous.value.startTime &&
                                           Width(r.pushedPrevious.value) >= minWidth)
  {
  }

  /**
   * At the compress limit the pushed next neighbour is exactly `minWidth`
   * wide and the body stops there, whatever distance the pointer went on.
   */
  lemma CompressBodyLimit(origin: Span, delta: real, view: View, minWidth: real, next: Span)
    requires 0.0 <= origin.startTime + delta && origin.endTime + delta <= view.endTime
    requires next.endTime - (origin.endTime + delta) < minWidth
    requires origin.endTime + delta > next.startTime
    ensures var r := DragBody(origin, delta, view, Compress, minWidth, None, Some(next));
            && r.pushedNext == Some(Span(next.endTime - minWidth, next.endTime))
            && r.moved == Span(next.endTime - minWidth - Width(origin), next.endTime - minWidth)
  {
    assert ShiftedBody(origin, delta, view) == Span(origin.startTime + delta, origin.endTime + delta);
  }

  /**
   * Compress mode, a body pushed into the next neighbour: the neighbour's
   * start follows the body's end, two notifications are sent, and the body
   * stops once the neighbour is `minWidth` wide.
   */
  lemma CompressBodyPushesNext(origin: Span, delta: real, view: View, minWidth: real,
                               previous: Option<Span>, next: Span)
    requires 0.0 <= origin.startTime + delta && origin.endTime + delta <= view.endTime
    requires origin.endTime + delta > next.startTime
    ensures var r := DragBody(origin, delta, view, Compress, minWidth, previous, Some(next));
            && r.moved.endTime == Min(origin.endTime + delta, next.endTime - minWidth)
            && Width(r.moved) == Width(origin)
            && r.pushedNext == Some(Span(r.moved.endTime, next.endTime))
            && r.pushedPrevious.None?
            && |DraggedEvents(Body, "", "", "", r)| == 2
  {
    assert ShiftedBody(origin, delta, view) == Span(origin.startTime + delta, origin.endTime + delta);
  }

  /**
   * Compress mode, a body pushed into the previous neighbour (and clear of
   * the next one): the neighbour's end follows the body's start, and the
   * body stops once the neighbour is `minWidth` wide.
   */
  lemma CompressBodyPushesPrevious(origin: Span, delta: real, view: View, minWidth: real,
                                   previous: Span, next: Option<Span>)
    requires 0.0 <= origin.startTime + delta && origin.endTime + delta <= view.endTime
    requires next.Some? ==> origin.endTime + delta <= next.value.startTime
    requires origin.startTime + delta < previous.endTime
    ensures var r := DragBody(origin, delta, view, Compress, minWidth, Some(previous), next);
            && r.moved.startTime == Max(origin.startTime + delta, previous.startTime + minWidth)
            && Width(r.moved) == Width(origin)
            && r.pushedPrevious == Some(Span(previous.startTime, r.moved.startTime))
            && r.pushedNext.None?
            && |DraggedEvents(Body, "", "", "", r)| == 2
  {
    assert ShiftedBody(origin, delta, view) == Span(origin.startTime + delta, origin.endTime + delta);
  }

  /** A body move that needs no clamp is exactly a shift by the delta. */
  lemma BodyDragFree(origin: Span, delta: real, view: View, mode: DragMode, minWidth: real,
                     previous: Option<Span>, next: Option<Span>)
    requires 0.0 <= origin.startTime + delta && origin.endTime + delta <= view.endTime
    requires next.Some? ==> origin.endTime + delta <= next.value.startTime
    requires previous.Some? ==> previous.value.endTime <= origin.startTime + delta
    ensures DragBody(origin, delta, view, mode, minWidth, previous, next) ==
              Resolution(Span(origin.startTime + delta, origin.endTime + delta), None, None)
  {
    assert ShiftedBody(origin, delta, view) == Span(origin.startTime + delta, origin.endTime + delta);
  }

  /**
   * Overlap mode does not look at the neighbours: the same move gives the
   * same result whatever they are, and no neighbour changes.
   */
  lemma OverlapIgnoresNeighbours(handle: Handle, origin: Span, delta: real, view: View,
                                 minWidth: real, minMarkerWidth: real, previous: Option<Span>, next: Option<Span>)
    ensures var r := Resolve(handle, origin, delta, view, Overlap, minWidth, minMarkerWidth, previous, next);
            && r == Resolve(handle, origin, delta, view, Overlap, minWidth, minMarkerWidth, None, None)
            && r.pushedPrevious.None? && r.pushedNext.None?
  {
    match handle
    case Body =>
      assert DragBody(origin, delta, view, Overlap, minWidth, previous, next).moved == ShiftedBody(origin, delta, view);
    case StartMarker =>
    case EndMarker =>
  }

  /**
   * A marker never passes the other marker: for a visible segment among
   * arranged neighbours the span stays non-negative in width and inside the
   * view on the side of the dragged marker.
   */
  lemma MarkerDragKeepsOrder(handle: Handle, origin: Span, delta: real, view: View, mode: DragMode,
                             minMarkerWidth: real, previous: Option<Span>, next: Option<Span>)
    requires !handle.Body?
    requires Arranged(previous, origin, next, if mode.Compress? then minMarkerWidth else 0.0)
    requires handle.StartMarker? ==> view.startTime <= origin.startTime <= view.endTime
    requires handle.EndMarker? ==> view.startTime <= view.endTime && origin.startTime <= view.endTime
    requires view.startTime <= origin.endTime
    ensures var r := Resolve(handle, origin, delta, view, mode, 0.0, minMarkerWidth, previous, next);
            && r.moved.startTime <= r.moved.endTime
            && (handle.StartMarker? ==> view.startTime <= r.moved.startTime <= view.endTime &&
                                        r.moved.endTime == origin.endTime)
            && (handle.EndMarker? ==> view.startTime <= r.moved.endTime <= view.endTime &&
                                      r.moved.startTime == origin.startTime)
  {
    var r := Resolve(handle, origin, delta, view, mode, 0.0, minMarkerWidth, previous, next);
    if handle.StartMarker? {
      assert r == DragStartMarker(origin, delta, view, mode, minMarkerWidth, previous);
    } else {
      assert r == DragEndMarker(origin, delta, view, mode, minMarkerWidth, next);
    }
  }

  /**
   * A marker move that reaches no limit and no neighbour puts the marker
   * exactly at the pointer's time; nothing else changes.
   */
  lemma MarkerDragFree(handle: Handle, origin: Span, delta: real, view: View, mode: DragMode,
                       minWidth: real, minMarkerWidth: real, previous: Option<Span>, next: Option<Span>)
    requires !handle.Body?
    requires handle.StartMarker? ==>
               && view.startTime <= origin.startTime + delta <= Min(origin.endTime, view.endTime)
               && (previous.Some? ==> previous.value.endTime <= origin.startTime + delta)
    requires handle.EndMarker? ==>
               && Max(origin.startTime, view.startTime) <= origin.endTime + delta <= view.endTime
               && (next.Some? ==> origin.endTime + delta <= next.value.startTime)
    ensures Resolve(handle, origin, delta, view, mode, minWidth, minMarkerWidth, previous, next) ==
              if handle.StartMarker? then Resolution(Span(origin.startTime + delta, origin.endTime), None, None)
              else Resolution(Span(origin.startTime, origin.endTime + delta), None, None)
  {
    if handle.StartMarker? {
      assert StartMarkerGoal(origin, delta, view) == origin.startTime + delta;
    } else {
      assert EndMarkerGoal(origin, delta, view) == origin.endTime + delta;
    }
  }

  // ---------------------------------------------------------------------
  // The gestures of the tests, in seconds

  const SegmentOne := Span(1.0, 2.0)
  const SegmentTwo := Span(3.0, 4.0)
  const WholeView := View(0.0, 10.0)

  /** A body dragged far left stops at zero with its width: [1,2] becomes [0,1], one notification. */
  lemma BodyClampedAtZero()
    ensures var r := DragBody(SegmentOne, -2.0, WholeView, Overlap, 0.0, None, Some(SegmentTwo));
            && r == Resolution(Span(0.0, 1.0), None, None)
            && DraggedEvents(Body, "segment1", "", "segment2", r) == [Dragged("segment1", 0.0, 1.0, false)]
  {
  }

  /** No-overlap: [1,2] dragged over [3,4] ends adjacent at [2,3]; [3,4] dragged over [1,2] does too. */
  lemma NoOverlapBodyAdjacent()
    ensures DragBody(SegmentOne, 1.5, WholeView, NoOverlap, 0.0, None, Some(SegmentTwo)).moved == Span(2.0, 3.0)
    ensures DragBody(SegmentTwo, -1.5, WholeView, NoOverlap, 0.0, Some(SegmentOne), None).moved == Span(2.0, 3.0)
  {
  }

  /**
   * Compress with minimum width 0.2: a short push moves the next segment's
   * start along with the body; a long one leaves it 0.2 wide. The body's
   * notification comes first.
   */
  lemma CompressBodyScenario()
    ensures var r := DragBody(SegmentOne, 1.5, WholeView, Compress, 0.2, None, Some(SegmentTwo));
            && r == Resolution(Span(2.5, 3.5), None, Some(Span(3.5, 4.0)))
            && DraggedEvents(Body, "segment1", "", "segment2", r) ==
                 [Dragged("segment1", 2.5, 3.5, false), Dragged("segment2", 3.5, 4.0, false)]
    ensures DragBody(SegmentOne, 3.0, WholeView, Compress, 0.2, None, Some(SegmentTwo)) ==
              Resolution(Span(2.8, 3.8), None, Some(Span(3.8, 4.0)))
    ensures DragBody(SegmentTwo, -3.0, WholeView, Compress, 0.2, Some(SegmentOne), None) ==
              Resolution(Span(1.2, 2.2), Some(Span(1.0, 1.2)), None)
  {
  }

  /** Marker drags against the next segment in each mode. */
  lemma EndMarkerScenario()
    ensures DragEndMarker(SegmentOne, 1.5, WholeView, Overlap, 0.5, Some(SegmentTwo)).moved == Span(1.0, 3.5)
    ensures DragEndMarker(SegmentOne, 1.5, WholeView, NoOverlap, 0.5, Some(SegmentTwo)).moved == Span(1.0, 3.0)
    ensures DragEndMarker(SegmentOne, 2.0, WholeView, Compress, 0.5, Some(SegmentTwo)) ==
              Resolution(Span(1.0, 3.5), None, Some(Span(3.5, 4.0)))
    ensures DragEndMarker(SegmentOne, -3.0, WholeView, Overlap, 0.5, None).moved == Span(1.0, 1.0)
  {
  }

  /** Start-marker drags: against the end marker, the view's left edge, and the previous segment in each mode. */
  lemma StartMarkerScenario()
    ensures DragStartMarker(SegmentOne, 1.5, WholeView, Overlap, 0.5, None).moved == Span(2.0, 2.0)
    ensures DragStartMarker(SegmentOne, -1.5, WholeView, Overlap, 0.5, None).moved == Span(0.0, 2.0)
    ensures DragStartMarker(SegmentTwo, -1.5, WholeView, Overlap, 0.5, Some(SegmentOne)) ==
              Resolution(Span(1.5, 4.0), None, None)
    ensures DragStartMarker(SegmentTwo, -0.5, WholeView, NoOverlap, 0.5, Some(SegmentOne)).moved == Span(2.5, 4.0)
    ensures DragStartMarker(SegmentTwo, -1.5, WholeView, NoOverlap, 0.5, Some(SegmentOne)).moved == Span(2.0, 4.0)
    ensures DragStartMarker(SegmentTwo, -1.5, WholeView, Compress, 0.5, Some(SegmentOne)) ==
              Resolution(Span(1.5, 4.0), Some(Span(1.0, 1.5)), None)
    ensures DragStartMarker(SegmentTwo, -2.5, WholeView, Compress, 0.5, Some(SegmentOne)) ==
              Resolution(Span(1.5, 4.0), Some(Span(1.0, 1.5)), None)
  {
  }

  /**
   * Markers stop at the view's right edge: segment one's end marker dragged
   * far right ends at 10, and the start marker of a segment reaching past the
   * view's end stops at 10.
   */
  lemma MarkerAtViewEnd()
    ensures DragEndMarker(SegmentOne, 20.0, WholeView, Overlap, 0.5, Some(SegmentTwo)).moved == Span(1.0, 10.0)
    ensures DragStartMarker(Span(9.5, 11.0), 1.0, WholeView, Overlap, 0.5, None).moved == Span(10.0, 11.0)
  {
  }

  /** An end marker dragged left of a view that starts mid-segment stops at the view's left edge. */
  lemma EndMarkerAtViewStart()
    ensures DragEndMarker(SegmentOne, -1.0, View(1.5, 11.5), Overlap, 0.5, None).moved == Span(1.0, 1.5)
  {
  }

  /**
   * No locking: after segment two's start marker is dragged over segment
   * one in overlap mode, segment one's end marker can still be dragged past
   * it in a later gesture, and neither gesture touches the other segment.
   */
  lemma NoLockingAfterOverlap()
    ensures var first := DragStartMarker(SegmentTwo, -1.5, WholeView, Overlap, 0.0, Some(SegmentOne));
            && first == Resolution(Span(1.5, 4.0), None, None)
            && DragEndMarker(SegmentOne, 1.5, WholeView, Overlap, 0.0, Some(first.moved)) ==
                 Resolution(Span(1.0, 3.5), None, None)
  {
  }

  // ---------------------------------------------------------------------
  // The zoom view's drag gesture

  class Segment {
    const id: string
    var startTime: real
    var endTime: real

    constructor (id: string, startTime: real, endTime: real)
      ensures this.id == id && this.startTime == startTime && this.endTime == endTime
    {
      this.id := id;
      this.startTime := startTime;
      this.endTime := endTime;
    }

    function SpanOf(): Span reads this { Span(startTime, endTime) }
  }

  function SpanOrNone(s: Segment?): Option<Span> reads s {
    if s == null then None else Some(s.SpanOf())
  }

  /**
   * The drag state of a zoom view. Between pointer-down and pointer-up it
   * holds the grabbed segment, its neighbours and their spans at
   * pointer-down; every move is resolved against those.
   */
  class ZoomView {
    var view: View
    var segmentDragEnabled: bool
    var dragMode: DragMode
    var minSegmentDragWidth: real
    const minMarkerDragWidth: real

    var dragging: bool
    var handle: Handle
    var target: Segment?
    var previous: Segment?
    var next: Segment?
    var origin: Span
    var previousOrigin: Option<Span>
    var nextOrigin: Option<Span>

    /** The grabbed segment and its neighbours are three different objects. */
    ghost predicate Valid() reads this {
      dragging ==>
        && target != null
        && target != previous && target != next
        && (previous != null && next != null ==> previous != next)
        && (previous == null <==> previousOrigin.None?)
        && (next == null <==> nextOrigin.None?)
    }

    /** A new view: segment dragging off, overlap mode, no gesture. */
    constructor (view: View, minSegmentDragWidth: real, minMarkerDragWidth: real)
      ensures Valid() && this.view == view && !segmentDragEnabled && dragMode == Overlap && !dragging
      ensures this.minSegmentDragWidth == minSegmentDragWidth && this.minMarkerDragWidth == minMarkerDragWidth
    {
      this.view := view;
      segmentDragEnabled := false;
      dragMode := Overlap;
      this.minSegmentDragWidth := minSegmentDragWidth;
      this.minMarkerDragWidth := minMarkerDragWidth;
      dragging := false;
      handle := Body;
      target := null;
      previous := null;
      next := null;
      origin := Span(0.0, 0.0);
      previousOrigin := None;
      nextOrigin := None;
    }

    /** Turning segment dragging on or off; a gesture in progress is kept as it is. */
    method EnableSegmentDragging(enabled: bool)
      requires Valid()
      modifies this`segmentDragEnabled
      ensures Valid() && segmentDragEnabled == enabled
    {
      segmentDragEnabled := enabled;
    }

    /** Choosing the drag mode; every other field is kept. */
    method SetSegmentDragMode(mode: DragMode)
      requires Valid()
      modifies this`dragMode
      ensures Valid() && dragMode == mode
    {
      dragMode := mode;
    }

    /** Setting the compress-mode minimum width of a body drag; every other field is kept. */
    method SetMinSegmentDragWidth(width: real)
      requires Valid()
      modifies this`minSegmentDragWidth
      ensures Valid() && minSegmentDragWidth == width
    {
      minSegmentDragWidth := width;
    }

    /**
     * Scrolling or zooming changes the visible range; a gesture in progress
     * keeps its segments and their spans at pointer-down.
     */
    method SetView(v: View)
      requires Valid()
      modifies this`view
      ensures Valid() && view == v
    {
      view := v;
    }

    /**
     * Pointer-down on a segment handle: with segment dragging enabled a
     * gesture starts and remembers the spans; otherwise nothing starts.
     */
    method BeginDrag(seg: Segment, h: Handle, before: Segment?, after: Segment?)
      requires Valid()
      requires seg != before && seg != after && (before != null && after != null ==> before != after)
      modifies this`dragging, this`handle, this`target, this`previous, this`next,
               this`origin, this`previousOrigin, this`nextOrigin
      ensures Valid()
      ensures dragging == segmentDragEnabled
      ensures dragging ==> target == seg && handle == h && previous == before && next == after &&
                           origin == seg.SpanOf() && previousOrigin == SpanOrNone(before) &&
                           nextOrigin == SpanOrNone(after)
    {
      if segmentDragEnabled {
        dragging := true;
        handle := h;
        target := seg;
        previous := before;
        next := after;
        origin := seg.SpanOf();
        previousOrigin := SpanOrNone(before);
        nextOrigin := SpanOrNone(after);
      } else {
        dragging := false;
      }
    }

    /**
     * Pointer-move by `delta` seconds from pointer-down: the grabbed segment
     * and its neighbours take the resolved spans and the move's
     * notifications are returned. Outside a gesture nothing happens.
     */
    method MoveDrag(delta: real) returns (events: seq<Dragged>)
      requires Valid()
      modifies if dragging then {target, previous, next} else {}
      ensures Valid()
      ensures !dragging ==> events == []
      ensures dragging ==>
                var r := Resolve(handle, origin, delta, view, dragMode, minSegmentDragWidth, minMarkerDragWidth,
                                 previousOrigin, nextOrigin);
                && target.SpanOf() == r.moved
                && (previous != null ==>
                      previous.SpanOf() == (if r.pushedPrevious.Some? then r.pushedPrevious.value else previousOrigin.value))
                && (next != null ==>
                      next.SpanOf() == (if r.pushedNext.Some? then r.pushedNext.value else nextOrigin.value))
                && events == DraggedEvents(handle, target.id,
                                           if previous == null then "" else previous.id,
                                           if next == null then "" else next.id, r)
    {
      if !dragging {
        events := [];
        return;
      }
      var r := Resolve(handle, origin, delta, view, dragMode, minSegmentDragWidth, minMarkerDragWidth,
                       previousOrigin, nextOrigin);
      target.startTime, target.endTime := r.moved.startTime, r.moved.endTime;
      if previous != null {
        var p := if r.pushedPrevious.Some? then r.pushedPrevious.value else previousOrigin.value;
        previous.startTime, previous.endTime := p.startTime, p.endTime;
      }
      if next != null {
        var n := if r.pushedNext.Some? then r.pushedNext.value else nextOrigin.value;
        next.startTime, next.endTime := n.startTime, n.endTime;
      }
      events := DraggedEvents(handle, target.id,
                              if previous == null then "" else previous.id,
                              if next == null then "" else next.id, r);
    }

    /** Pointer-up: the gesture ends; the segments keep their last spans. */
    method EndDrag()
      requires Valid()
      modifies this`dragging
      ensures Valid() && !dragging
    {
      dragging := false;
    }
  }
}
