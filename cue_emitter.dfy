/**
 * The cue emitter: keeps the cue index in step with the points and segments
 * and, as the playback position moves, reports which cues were crossed.
 * A continuous move (a time update) walks the cues between the previous and
 * the new position; a seek compares which segments contain the old and the
 * new position.
 */
module CueEmitters {
  import opened Cues

  /** The notifications the emitter pushes; each carries the destination time. */
  datatype CueEvent =
    | PointsEnter(id: string, time: real)
    | SegmentsEnter(id: string, time: real)
    | SegmentsExit(id: string, time: real)

  // ---------------------------------------------------------------------
  // Sweep

  /**
   * The cues a move from `previousTime` to `time` passes: forward, those in
   * (previousTime, time]; backward, those in [time, previousTime); none when
   * the position did not change.
   */
  predicate InWindow(t: real, time: real, previousTime: real) {
    if time > previousTime then previousTime < t <= time
    else if time < previousTime then time <= t < previousTime
    else false
  }

  function Crossed(cues: seq<Cue>, time: real, previousTime: real): seq<Cue> {
    Filter(cues, (c: Cue) => InWindow(c.time, time, previousTime))
  }

  function Reverse(s: seq<Cue>): (r: seq<Cue>)
    ensures |r| == |s| && forall i :: 0 <= i < |s| ==> r[i] == s[|s| - 1 - i]
  {
    if s == [] then [] else Reverse(s[1..]) + [s[0]]
  }

  /** The crossed cues in visiting order: ascending forward, descending backward. */
  function Visited(cues: seq<Cue>, time: real, previousTime: real): seq<Cue> {
    if time > previousTime then Crossed(cues, time, previousTime)
    else Reverse(Crossed(cues, time, previousTime))
  }

  /**
   * The event for one crossed cue: a point is entered either way; a
   * segment's start enters it going forward and exits it going backward,
   * its end the other way round.
   */
  function EventFor(c: Cue, time: real, forward: bool): CueEvent {
    match c.kind
    case PointCue => PointsEnter(c.refId, time)
    case SegmentStart => if forward then SegmentsEnter(c.refId, time) else SegmentsExit(c.refId, time)
    case SegmentEnd => if forward then SegmentsExit(c.refId, time) else SegmentsEnter(c.refId, time)
  }

  function EventsFor(cs: seq<Cue>, time: real, forward: bool): (r: seq<CueEvent>)
    ensures |r| == |cs| && forall i :: 0 <= i < |cs| ==> r[i] == EventFor(cs[i], time, forward)
  {
    if cs == [] then [] else [EventFor(cs[0], time, forward)] + EventsFor(cs[1..], time, forward)
  }

  /** Everything one position update emits, in order. */
  function SweepEvents(cues: seq<Cue>, time: real, previousTime: real): seq<CueEvent> {
    EventsFor(Visited(cues, time, previousTime), time, time > previousTime)
  }

  lemma ReverseElements(s: seq<Cue>)
    ensures forall c :: c in Reverse(s) <==> c in s
  {
    forall c | c in s ensures c in Reverse(s) {
      var i :| 0 <= i < |s| && s[i] == c;
      assert Reverse(s)[|s| - 1 - i] == c;
    }
  }

  /** A cue is visited exactly when the move passes its time; a move to the same time visits nothing. */
  lemma SweepVisitsCrossedCues(cues: seq<Cue>, time: real, previousTime: real)
    ensures forall c :: c in Visited(cues, time, previousTime) <==> c in cues && InWindow(c.time, time, previousTime)
    ensures time == previousTime ==> Visited(cues, time, previousTime) == []
  {
    var crossed := Crossed(cues, time, previousTime);
    ReverseElements(crossed);
  }

  /** Event i reports visited cue i's item, at the destination time. */
  lemma SweepEventsReportDestination(cues: seq<Cue>, time: real, previousTime: real)
    ensures |SweepEvents(cues, time, previousTime)| == |Visited(cues, time, previousTime)|
    ensures forall i :: 0 <= i < |SweepEvents(cues, time, previousTime)| ==>
              SweepEvents(cues, time, previousTime)[i].time == time &&
              SweepEvents(cues, time, previousTime)[i].id == Visited(cues, time, previousTime)[i].refId
  {
  }

  /** Over a sorted index, forward visits are ascending and backward visits descending. */
  lemma SweepOrder(cues: seq<Cue>, time: real, previousTime: real)
    requires Sorted(cues)
    ensures time > previousTime ==> Sorted(Visited(cues, time, previousTime))
    ensures time < previousTime ==>
              forall i, j :: 0 <= i < j < |Visited(cues, time, previousTime)| ==>
                Visited(cues, time, previousTime)[i].time >= Visited(cues, time, previousTime)[j].time
  {
    FilterSorted(cues, (c: Cue) => InWindow(c.time, time, previousTime));
  }

  lemma {:induction false} FilterNone(cues: seq<Cue>, keep: Cue -> bool)
    requires forall x :: x in cues ==> !keep(x)
    ensures Filter(cues, keep) == []
  {
    if cues != [] {
      assert cues[0] in cues;
      assert forall x :: x in cues[1..] ==> x in cues;
      FilterNone(cues[1..], keep);
    }
  }

  /** Splitting an ordered list between two groups when every cue of the first comes before every cue of the second. */
  lemma {:induction false} FilterUnion(cues: seq<Cue>, a: Cue -> bool, b: Cue -> bool, both: Cue -> bool)
    requires forall x :: both(x) <==> a(x) || b(x)
    requires forall x :: !(a(x) && b(x))
    requires forall i, j :: 0 <= i < j < |cues| && b(cues[i]) ==> !a(cues[j])
    ensures Filter(cues, a) + Filter(cues, b) == Filter(cues, both)
  {
    if cues != [] {
      FilterUnion(cues[1..], a, b, both);
      if b(cues[0]) {
        forall x | x in cues[1..] ensures !a(x) {
          var j :| 0 <= j < |cues[1..]| && cues[1..][j] == x;
          assert cues[j + 1] == x;
        }
        FilterNone(cues[1..], a);
      }
    }
  }

  /**
   * Playing forward in two steps crosses the same cues, in the same order,
   * as one step over the whole span: a cue is reported once.
   */
  lemma SweepInSteps(cues: seq<Cue>, previousTime: real, middle: real, time: real)
    requires Sorted(cues)
    requires previousTime < middle < time
    ensures Visited(cues, middle, previousTime) + Visited(cues, time, middle) == Visited(cues, time, previousTime)
  {
    FilterUnion(cues,
                (c: Cue) => InWindow(c.time, middle, previousTime),
                (c: Cue) => InWindow(c.time, time, middle),
                (c: Cue) => InWindow(c.time, time, previousTime));
  }

  /** Three points crossed playing forward: entered in time order, each at the destination time. */
  lemma ForwardPointsScenario()
    ensures SweepEvents(WithPoint(WithPoint(WithPoint([], "p1", 1.05), "p2", 1.07), "p3", 1.09), 1.1, 1.0) ==
              [PointsEnter("p1", 1.1), PointsEnter("p2", 1.1), PointsEnter("p3", 1.1)]
  {
    var cues := [Cue(1.05, PointCue, "p1"), Cue(1.07, PointCue, "p2"), Cue(1.09, PointCue, "p3")];
    assert WithPoint(WithPoint(WithPoint([], "p1", 1.05), "p2", 1.07), "p3", 1.09) == cues;
    assert Crossed(cues, 1.1, 1.0) == cues;
  }

  /** The same points crossed playing backward: entered in reverse order, at the destination time. */
  lemma ReversePointsScenario()
    ensures SweepEvents(WithPoint(WithPoint(WithPoint([], "p1", 1.05), "p2", 1.07), "p3", 1.09), 1.0, 1.1) ==
              [PointsEnter("p3", 1.0), PointsEnter("p2", 1.0), PointsEnter("p1", 1.0)]
  {
    var cues := [Cue(1.05, PointCue, "p1"), Cue(1.07, PointCue, "p2"), Cue(1.09, PointCue, "p3")];
    assert WithPoint(WithPoint(WithPoint([], "p1", 1.05), "p2", 1.07), "p3", 1.09) == cues;
    assert Crossed(cues, 1.0, 1.1) == cues;
    assert Reverse(cues) == [cues[2], cues[1], cues[0]];
  }

  /** A segment lying inside one forward step is entered, then exited. */
  lemma ForwardSegmentScenario()
    ensures SweepEvents(WithSegment([], "seg1", 1.05, 1.09), 1.1, 1.0) ==
              [SegmentsEnter("seg1", 1.1), SegmentsExit("seg1", 1.1)]
  {
    var cues := [Cue(1.05, SegmentStart, "seg1"), Cue(1.09, SegmentEnd, "seg1")];
    assert WithSegment([], "seg1", 1.05, 1.09) == cues;
    assert Crossed(cues, 1.1, 1.0) == cues;
  }

  /** One segment crossed backward: its end cue is met first and enters it, its start cue then exits it. */
  lemma ReverseSegmentScenario()
    ensures SweepEvents(WithSegment([], "seg1", 1.05, 1.09), 1.0, 1.1) ==
              [SegmentsEnter("seg1", 1.0), SegmentsExit("seg1", 1.0)]
  {
    var cues := [Cue(1.05, SegmentStart, "seg1"), Cue(1.09, SegmentEnd, "seg1")];
    assert WithSegment([], "seg1", 1.05, 1.09) == cues;
    assert Crossed(cues, 1.0, 1.1) == cues;
    assert Reverse(cues) == [cues[1], cues[0]];
  }

  /** The loop that walks the index and emits the crossed cues' events. */
  method CollectSweep(cues: seq<Cue>, time: real, previousTime: real) returns (events: seq<CueEvent>)
    ensures events == SweepEvents(cues, time, previousTime)
  {
    var forward := time > previousTime;
    var keep := (c: Cue) => InWindow(c.time, time, previousTime);
    events := [];
    if forward {
      var i := 0;
      while i < |cues|
        invariant 0 <= i <= |cues|
        invariant events == EventsFor(Filter(cues[..i], keep), time, true)
      {
        FilterSnoc(cues[..i], cues[i], keep);
        EventsForSnoc(Filter(cues[..i], keep), cues[i], time, true);
        assert cues[..i + 1] == cues[..i] + [cues[i]];
        if InWindow(cues[i].time, time, previousTime) {
          events := events + [EventFor(cues[i], time, true)];
        }
        i := i + 1;
      }
      assert cues[..i] == cues;
    } else {
      var i := |cues|;
      while i > 0
        invariant 0 <= i <= |cues|
        invariant events == EventsFor(Reverse(Filter(cues[i..], keep)), time, false)
      {
        i := i - 1;
        assert cues[i..] == [cues[i]] + cues[i + 1..];
        if InWindow(cues[i].time, time, previousTime) {
          ReverseCons(cues[i], Filter(cues[i + 1..], keep));
          EventsForSnoc(Reverse(Filter(cues[i + 1..], keep)), cues[i], time, false);
          events := events + [EventFor(cues[i], time, false)];
        }
      }
    }
  }

  lemma {:induction false} EventsForSnoc(cs: seq<Cue>, c: Cue, time: real, forward: bool)
    ensures EventsFor(cs + [c], time, forward) == EventsFor(cs, time, forward) + [EventFor(c, time, forward)]
  {
    if cs != [] {
      assert (cs + [c])[1..] == cs[1..] + [c];
      EventsForSnoc(cs[1..], c, time, forward);
    }
  }

  lemma ReverseCons(c: Cue, s: seq<Cue>)
    ensures Reverse([c] + s) == Reverse(s) + [c]
  {
    assert ([c] + s)[1..] == s;
  }

  // ---------------------------------------------------------------------
  // Seek

  /** A segment as the host collection holds it. */
  datatype SegmentSpan = SegmentSpan(id: string, startTime: real, endTime: real)

  /** A segment covers the instants of [startTime, endTime). */
  predicate Contains(s: SegmentSpan, t: real) {
    s.startTime <= t < s.endTime
  }

  /** Segments that held the old position but not the new one, each exited at the new time. */
  function SeekExits(segments: seq<SegmentSpan>, fromTime: real, toTime: real): (r: seq<CueEvent>)
    ensures forall e :: e in r ==> e.SegmentsExit? && e.time == toTime
  {
    if segments == [] then []
    else
      var s := segments[0];
      (if Contains(s, fromTime) && !Contains(s, toTime) then [SegmentsExit(s.id, toTime)] else [])
        + SeekExits(segments[1..], fromTime, toTime)
  }

  /** Segments that hold the new position but did not hold the old one, each entered at the new time. */
  function SeekEnters(segments: seq<SegmentSpan>, fromTime: real, toTime: real): (r: seq<CueEvent>)
    ensures forall e :: e in r ==> e.SegmentsEnter? && e.time == toTime
  {
    if segments == [] then []
    else
      var s := segments[0];
      (if Contains(s, toTime) && !Contains(s, fromTime) then [SegmentsEnter(s.id, toTime)] else [])
        + SeekEnters(segments[1..], fromTime, toTime)
  }

  /** A seek's notifications: all exits, then all enters. */
  function SeekEvents(segments: seq<SegmentSpan>, fromTime: real, toTime: real): seq<CueEvent> {
    SeekExits(segments, fromTime, toTime) + SeekEnters(segments, fromTime, toTime)
  }

  /**
   * A seek reports an exit exactly for a segment left and an enter exactly
   * for a segment arrived in; a segment holding neither position, or both,
   * gets nothing.
   */
  lemma {:induction false} SeekEventsExact(segments: seq<SegmentSpan>, fromTime: real, toTime: real, id: string)
    ensures SegmentsExit(id, toTime) in SeekEvents(segments, fromTime, toTime) <==>
              exists s :: s in segments && s.id == id && Contains(s, fromTime) && !Contains(s, toTime)
    ensures SegmentsEnter(id, toTime) in SeekEvents(segments, fromTime, toTime) <==>
              exists s :: s in segments && s.id == id && Contains(s, toTime) && !Contains(s, fromTime)
  {
    SeekExitsExact(segments, fromTime, toTime, id);
    SeekEntersExact(segments, fromTime, toTime, id);
  }

  lemma {:induction false} SeekExitsExact(segments: seq<SegmentSpan>, fromTime: real, toTime: real, id: string)
    ensures SegmentsExit(id, toTime) in SeekExits(segments, fromTime, toTime) <==>
              exists s :: s in segments && s.id == id && Contains(s, fromTime) && !Contains(s, toTime)
  {
    if segments != [] {
      SeekExitsExact(segments[1..], fromTime, toTime, id);
      assert segments == [segments[0]] + segments[1..];
    }
  }

  lemma {:induction false} SeekEntersExact(segments: seq<SegmentSpan>, fromTime: real, toTime: real, id: string)
    ensures SegmentsEnter(id, toTime) in SeekEnters(segments, fromTime, toTime) <==>
              exists s :: s in segments && s.id == id && Contains(s, toTime) && !Contains(s, fromTime)
  {
    if segments != [] {
      SeekEntersExact(segments[1..], fromTime, toTime, id);
      assert segments == [segments[0]] + segments[1..];
    }
  }

  /** Every seek notification concerns a segment, carries the new time, and exits come before enters. */
  lemma SeekEventsShape(segments: seq<SegmentSpan>, fromTime: real, toTime: real)
    ensures forall e :: e in SeekEvents(segments, fromTime, toTime) ==> !e.PointsEnter? && e.time == toTime
    ensures forall i, j ::
              (0 <= i < j < |SeekEvents(segments, fromTime, toTime)| &&
               SeekEvents(segments, fromTime, toTime)[j].SegmentsExit?) ==>
              SeekEvents(segments, fromTime, toTime)[i].SegmentsExit?
  {
    var exits := SeekExits(segments, fromTime, toTime);
    var enters := SeekEnters(segments, fromTime, toTime);
    var all := exits + enters;
    forall i, j | 0 <= i < j < |all| && all[j].SegmentsExit? ensures all[i].SegmentsExit? {
      assert all[i] in exits;
    }
  }

  /** The seek test: three disjoint segments, a seek into the first, then one into the third. */
  lemma SeekScenario()
    ensures var segments := [SegmentSpan("segment.1", 2.0, 4.0), SegmentSpan("segment.2", 6.0, 8.0),
                             SegmentSpan("segment.3", 10.0, 12.0)];
            && SeekEvents(segments, 0.0, 3.0) == [SegmentsEnter("segment.1", 3.0)]
            && SeekEvents(segments, 3.0, 11.0) == [SegmentsExit("segment.1", 11.0), SegmentsEnter("segment.3", 11.0)]
  {
  }

  /** The two loops of a seek: exits over the segments first, then enters. */
  method CollectSeek(segments: seq<SegmentSpan>, fromTime: real, toTime: real) returns (events: seq<CueEvent>)
    ensures events == SeekEvents(segments, fromTime, toTime)
  {
    var exits := [];
    var i := |segments|;
    while i > 0
      invariant 0 <= i <= |segments|
      invariant exits == SeekExits(segments[i..], fromTime, toTime)
    {
      i := i - 1;
      var s := segments[i];
      assert segments[i..][1..] == segments[i + 1..];
      if Contains(s, fromTime) && !Contains(s, toTime) {
        exits := [SegmentsExit(s.id, toTime)] + exits;
      }
    }
    var enters := [];
    i := |segments|;
    while i > 0
      invariant 0 <= i <= |segments|
      invariant enters == SeekEnters(segments[i..], fromTime, toTime)
    {
      i := i - 1;
      var s := segments[i];
      assert segments[i..][1..] == segments[i + 1..];
      if Contains(s, toTime) && !Contains(s, fromTime) {
        enters := [SegmentsEnter(s.id, toTime)] + enters;
      }
    }
    assert segments[0..] == segments;
    events := exits + enters;
  }

  // ---------------------------------------------------------------------
  // The emitter object

  /** A point as the host collection holds it. */
  datatype PointAt = PointAt(id: string, time: real)

  /** The index after the existing points, then the existing segments, were added one by one. */
  function WithAll(cues: seq<Cue>, points: seq<PointAt>, segments: seq<SegmentSpan>): seq<Cue>
    decreases |points| + |segments|
  {
    if points != [] then
      WithAll(WithPoint(cues, points[0].id, points[0].time), points[1..], segments)
    else if segments != [] then
      WithAll(WithSegment(cues, segments[0].id, segments[0].startTime, segments[0].endTime), [], segments[1..])
    else cues
  }

  /** Adding the existing items gives one cue per point and two per segment, all kept in time order. */
  lemma {:induction false} WithAllCount(cues: seq<Cue>, points: seq<PointAt>, segments: seq<SegmentSpan>)
    requires Sorted(cues)
    ensures |WithAll(cues, points, segments)| == |cues| + |points| + 2 * |segments|
    ensures Sorted(WithAll(cues, points, segments))
    decreases |points| + |segments|
  {
    if points != [] {
      InsertedSorted(cues, Cue(points[0].time, PointCue, points[0].id));
      WithAllCount(WithPoint(cues, points[0].id, points[0].time), points[1..], segments);
    } else if segments != [] {
      var sg := segments[0];
      WithSegmentAdds(cues, sg.id, sg.startTime, sg.endTime);
      InsertedSorted(cues, Cue(sg.startTime, SegmentStart, sg.id));
      InsertedSorted(Inserted(cues, Cue(sg.startTime, SegmentStart, sg.id)), Cue(sg.endTime, SegmentEnd, sg.id));
      WithAllCount(WithSegment(cues, sg.id, sg.startTime, sg.endTime), [], segments[1..]);
    }
  }

  /** One existing point and one existing segment give three cues. */
  lemma ExistingItemsScenario()
    ensures |WithAll([], [PointAt("point1", 1.0)], [SegmentSpan("segment1", 1.1, 1.2)])| == 3
  {
    WithAllCount([], [PointAt("point1", 1.0)], [SegmentSpan("segment1", 1.1, 1.2)]);
  }

  /** Has the index a point cue for `id`? */
  predicate HasPointCue(cues: seq<Cue>, id: string) {
    exists i :: 0 <= i < |cues| && cues[i].kind.PointCue? && cues[i].refId == id
  }

  /** Has the index a segment cue for `id`? */
  predicate HasSegmentCue(cues: seq<Cue>, id: string) {
    exists i :: 0 <= i < |cues| && !cues[i].kind.PointCue? && cues[i].refId == id
  }

  class CueEmitter {
    var cues: seq<Cue>
    var previousTime: real

    ghost predicate Valid() reads this { Sorted(cues) }

    /** A new emitter: no cues, and the previous time is the current playback position. */
    constructor (currentTime: real)
      ensures Valid() && cues == [] && previousTime == currentTime
    {
      cues := [];
      previousTime := currentTime;
    }

    /** Attached to a host that already holds points and segments: a cue for each is added. */
    method AddExisting(points: seq<PointAt>, segments: seq<SegmentSpan>)
      requires Valid()
      modifies this
      ensures Valid() && cues == WithAll(old(cues), points, segments) && previousTime == old(previousTime)
    {
      var i := 0;
      while i < |points|
        invariant 0 <= i <= |points| && Valid() && previousTime == old(previousTime)
        invariant WithAll(cues, points[i..], segments) == WithAll(old(cues), points, segments)
      {
        assert points[i..][1..] == points[i + 1..];
        AddPoint(points[i].id, points[i].time);
        i := i + 1;
      }
      var j := 0;
      while j < |segments|
        invariant 0 <= j <= |segments| && Valid() && previousTime == old(previousTime)
        invariant WithAll(cues, [], segments[j..]) == WithAll(old(cues), points, segments)
      {
        assert segments[j..][1..] == segments[j + 1..];
        AddSegment(segments[j].id, segments[j].startTime, segments[j].endTime);
        j := j + 1;
      }
    }

    /** The first position whose cue is later than `t`. */
    static method InsertPosition(cues: seq<Cue>, t: real) returns (k: nat)
      ensures k <= |cues|
      ensures forall i :: 0 <= i < k ==> cues[i].time <= t
      ensures k < |cues| ==> t < cues[k].time
    {
      k := 0;
      while k < |cues| && cues[k].time <= t
        invariant k <= |cues|
        invariant forall i :: 0 <= i < k ==> cues[i].time <= t
      {
        k := k + 1;
      }
    }

    method Insert(c: Cue)
      requires Valid()
      modifies this
      ensures Valid() && cues == Inserted(old(cues), c) && previousTime == old(previousTime)
    {
      var k := InsertPosition(cues, c.time);
      InsertedAt(cues, c, k);
      InsertedSorted(cues, c);
      cues := cues[..k] + [c] + cues[k..];
    }

    /** A point was added: one point cue at its time. */
    method AddPoint(id: string, time: real)
      requires Valid()
      modifies this
      ensures Valid() && cues == WithPoint(old(cues), id, time) && previousTime == old(previousTime)
    {
      Insert(Cue(time, PointCue, id));
    }

    /** A segment was added: its start cue, then its end cue. */
    method AddSegment(id: string, startTime: real, endTime: real)
      requires Valid()
      modifies this
      ensures Valid() && cues == WithSegment(old(cues), id, startTime, endTime) && previousTime == old(previousTime)
    {
      Insert(Cue(startTime, SegmentStart, id));
      Insert(Cue(endTime, SegmentEnd, id));
    }

    /** A point was removed by id: its cue goes. */
    method RemovePoint(id: string)
      requires Valid()
      modifies this
      ensures Valid() && cues == WithoutPoint(old(cues), id) && previousTime == old(previousTime)
    {
      RemovePointKeepsOthers(cues, id);
      cues := WithoutPoint(cues, id);
    }

    /** A segment was removed by id: its two cues go. */
    method RemoveSegment(id: string)
      requires Valid()
      modifies this
      ensures Valid() && cues == WithoutSegment(old(cues), id) && previousTime == old(previousTime)
    {
      RemoveSegmentKeepsOthers(cues, id);
      cues := WithoutSegment(cues, id);
    }

    /** All points were removed: every point cue goes, segment cues stay. */
    method RemoveAllPoints()
      requires Valid()
      modifies this
      ensures Valid() && cues == WithoutPoints(old(cues)) && previousTime == old(previousTime)
    {
      RemoveAllPointsKeepsSegments(cues);
      cues := WithoutPoints(cues);
    }

    /** All segments were removed: every segment cue goes, point cues stay. */
    method RemoveAllSegments()
      requires Valid()
      modifies this
      ensures Valid() && cues == WithoutSegments(old(cues)) && previousTime == old(previousTime)
    {
      RemoveAllSegmentsKeepsPoints(cues);
      cues := WithoutSegments(cues);
    }

    /**
     * A point's time changed: its cue is moved. An id with no point cue means
     * the index is out of step; this is reported and nothing changes.
     */
    method UpdatePoint(id: string, time: real) returns (found: bool)
      requires Valid()
      modifies this
      ensures found == HasPointCue(old(cues), id)
      ensures found ==> cues == RepositionPoint(old(cues), id, time)
      ensures !found ==> cues == old(cues)
      ensures Valid() && previousTime == old(previousTime)
    {
      found := HasPointCue(cues, id);
      if found {
        RemovePoint(id);
        AddPoint(id, time);
      }
    }

    /** A segment's times changed: its two cues are moved. */
    method UpdateSegment(id: string, startTime: real, endTime: real) returns (found: bool)
      requires Valid()
      modifies this
      ensures found == HasSegmentCue(old(cues), id)
      ensures found ==> cues == RepositionSegment(old(cues), id, startTime, endTime)
      ensures !found ==> cues == old(cues)
      ensures Valid() && previousTime == old(previousTime)
    {
      found := HasSegmentCue(cues, id);
      if found {
        RemoveSegment(id);
        AddSegment(id, startTime, endTime);
      }
    }

    /** Detached: the index is emptied. */
    method Destroy()
      modifies this
      ensures Valid() && cues == [] && previousTime == old(previousTime)
    {
      cues := [];
    }

    /** `_onUpdate(time, previousTime)`: emit the crossed cues' events and remember `time`. */
    method OnUpdate(time: real, previous: real) returns (events: seq<CueEvent>)
      requires Valid()
      modifies this
      ensures Valid() && cues == old(cues) && previousTime == time
      ensures events == SweepEvents(cues, time, previous)
    {
      events := CollectSweep(cues, time, previous);
      previousTime := time;
    }

    /** A playback time update: a sweep from the previous reported time. */
    method OnTimeUpdate(time: real) returns (events: seq<CueEvent>)
      requires Valid()
      modifies this
      ensures Valid() && cues == old(cues) && previousTime == time
      ensures events == SweepEvents(cues, time, old(previousTime))
    {
      events := OnUpdate(time, previousTime);
    }

    /** A seek: the containment difference between the previous time and `time`. */
    method OnSeek(time: real, segments: seq<SegmentSpan>) returns (events: seq<CueEvent>)
      requires Valid()
      modifies this
      ensures Valid() && cues == old(cues) && previousTime == time
      ensures events == SeekEvents(segments, old(previousTime), time)
    {
      events := CollectSeek(segments, previousTime, time);
      previousTime := time;
    }
  }
}
