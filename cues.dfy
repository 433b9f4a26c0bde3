/**
 * The cue index: a flat list of timeline markers (one per point, two per
 * segment) kept in ascending time order, and the list operations the cue
 * emitter performs on it.
 */
module Cues {

  datatype CueKind = PointCue | SegmentStart | SegmentEnd

  /** A marker at `time` for the point or segment whose id is `refId`. */
  datatype Cue = Cue(time: real, kind: CueKind, refId: string)

  /** Ascending by time. */
  predicate Sorted(cues: seq<Cue>) {
    forall i, j :: 0 <= i < j < |cues| ==> cues[i].time <= cues[j].time
  }

  /**
   * Inserts `c` after every cue whose time is not later than its own, so
   * cues with equal times stay in insertion order.
   */
  function Inserted(cues: seq<Cue>, c: Cue): (r: seq<Cue>)
    ensures |r| == |cues| + 1
  {
    if cues == [] then [c]
    else if c.time < cues[0].time then [c] + cues
    else [cues[0]] + Inserted(cues[1..], c)
  }

  /** Inserting adds exactly the one cue. */
  lemma {:induction false} InsertedElements(cues: seq<Cue>, c: Cue)
    ensures multiset(Inserted(cues, c)) == multiset(cues) + multiset{c}
  {
    if cues != [] && c.time >= cues[0].time {
      InsertedElements(cues[1..], c);
      assert cues == [cues[0]] + cues[1..];
    }
  }

  /** Inserting into a sorted index keeps it sorted. */
  lemma {:induction false} InsertedSorted(cues: seq<Cue>, c: Cue)
    requires Sorted(cues)
    ensures Sorted(Inserted(cues, c))
  {
    if cues != [] && c.time >= cues[0].time {
      var rest := Inserted(cues[1..], c);
      InsertedSorted(cues[1..], c);
      InsertedElements(cues[1..], c);
      forall x | x in rest ensures cues[0].time <= x.time {
        assert x in multiset(rest);
        assert x in cues[1..] || x == c;
      }
      assert forall j :: 0 <= j < |rest| ==> rest[j] in rest;
    }
  }

  /**
   * Where `Inserted` puts the new cue: at the first position whose cue is
   * strictly later, with the cues before and after kept in order.
   */
  lemma {:induction false} InsertedAt(cues: seq<Cue>, c: Cue, k: nat)
    requires k <= |cues|
    requires forall i :: 0 <= i < k ==> cues[i].time <= c.time
    requires k < |cues| ==> c.time < cues[k].time
    ensures Inserted(cues, c) == cues[..k] + [c] + cues[k..]
  {
    if cues != [] && k > 0 {
      InsertedAt(cues[1..], c, k - 1);
      assert cues[..k] == [cues[0]] + cues[1..][..k - 1];
      assert cues[k..] == cues[1..][k - 1..];
    }
  }

  /** Keeps the cues that satisfy `keep`, in their original order. */
  function Filter(cues: seq<Cue>, keep: Cue -> bool): (r: seq<Cue>)
    ensures |r| <= |cues|
    ensures forall x :: x in r <==> x in cues && keep(x)
  {
    if cues == [] then []
    else
      var rest := Filter(cues[1..], keep);
      assert cues == [cues[0]] + cues[1..];
      if keep(cues[0]) then [cues[0]] + rest else rest
  }

  /** Filtering keeps every occurrence of a kept cue and none of a dropped one. */
  lemma {:induction false} FilterElements(cues: seq<Cue>, keep: Cue -> bool)
    ensures forall x :: multiset(Filter(cues, keep))[x] == if keep(x) then multiset(cues)[x] else 0
  {
    if cues != [] {
      FilterElements(cues[1..], keep);
      assert cues == [cues[0]] + cues[1..];
    }
  }

  /** Filtering a sorted index leaves it sorted. */
  lemma {:induction false} FilterSorted(cues: seq<Cue>, keep: Cue -> bool)
    requires Sorted(cues)
    ensures Sorted(Filter(cues, keep))
  {
    if cues != [] {
      var rest := Filter(cues[1..], keep);
      FilterSorted(cues[1..], keep);
      assert forall j :: 0 <= j < |rest| ==> rest[j] in rest && rest[j] in cues[1..];
    }
  }

  /** Filtering a list extended at its end. */
  lemma {:induction false} FilterSnoc(cues: seq<Cue>, x: Cue, keep: Cue -> bool)
    ensures Filter(cues + [x], keep) == Filter(cues, keep) + (if keep(x) then [x] else [])
  {
    if cues != [] {
      assert (cues + [x])[1..] == cues[1..] + [x];
      FilterSnoc(cues[1..], x, keep);
    }
  }

  /** A second, stricter filter sees only what the first one kept. */
  lemma {:induction false} FilterTwice(cues: seq<Cue>, first: Cue -> bool, second: Cue -> bool)
    requires forall x :: second(x) ==> first(x)
    ensures Filter(Filter(cues, first), second) == Filter(cues, second)
  {
    if cues != [] {
      FilterTwice(cues[1..], first, second);
    }
  }

  /** Inserting a cue the filter drops does not change what the filter keeps. */
  lemma {:induction false} FilterInsertedDropped(cues: seq<Cue>, c: Cue, keep: Cue -> bool)
    requires !keep(c)
    ensures Filter(Inserted(cues, c), keep) == Filter(cues, keep)
  {
    if cues != [] && c.time >= cues[0].time {
      FilterInsertedDropped(cues[1..], c, keep);
    }
  }

  /**
   * The cue of the point `id`, and the cues of the segment `id`. Points and
   * segments are separate collections, so a point and a segment may share an
   * id; the cue kind tells their cues apart.
   */
  predicate OfPoint(c: Cue, id: string) { c.kind.PointCue? && c.refId == id }
  predicate OfSegment(c: Cue, id: string) { !c.kind.PointCue? && c.refId == id }

  /** The index after the point `id` is removed. */
  function WithoutPoint(cues: seq<Cue>, id: string): (r: seq<Cue>)
    ensures forall x :: x in r <==> x in cues && !(x.kind.PointCue? && x.refId == id)
  {
    Filter(cues, (c: Cue) => !OfPoint(c, id))
  }

  /** The index after the segment `id` is removed. */
  function WithoutSegment(cues: seq<Cue>, id: string): (r: seq<Cue>)
    ensures forall x :: x in r <==> x in cues && !(!x.kind.PointCue? && x.refId == id)
  {
    Filter(cues, (c: Cue) => !OfSegment(c, id))
  }

  predicate IsPointCue(c: Cue) { c.kind.PointCue? }
  predicate IsSegmentCue(c: Cue) { !c.kind.PointCue? }

  /** The segment cues only (`removeAll` of points). */
  function WithoutPoints(cues: seq<Cue>): (r: seq<Cue>)
    ensures forall x :: x in r <==> x in cues && !x.kind.PointCue?
  {
    Filter(cues, IsSegmentCue)
  }

  /** The point cues only (`removeAll` of segments). */
  function WithoutSegments(cues: seq<Cue>): (r: seq<Cue>)
    ensures forall x :: x in r <==> x in cues && x.kind.PointCue?
  {
    Filter(cues, IsPointCue)
  }

  /** The index after a point is added. */
  function WithPoint(cues: seq<Cue>, id: string, time: real): seq<Cue> {
    Inserted(cues, Cue(time, PointCue, id))
  }

  /** The index after a segment is added: its start cue, then its end cue. */
  function WithSegment(cues: seq<Cue>, id: string, startTime: real, endTime: real): seq<Cue> {
    Inserted(Inserted(cues, Cue(startTime, SegmentStart, id)), Cue(endTime, SegmentEnd, id))
  }

  /** A point contributes one POINT cue at its time. */
  lemma WithPointAdds(cues: seq<Cue>, id: string, time: real)
    ensures |WithPoint(cues, id, time)| == |cues| + 1
    ensures multiset(WithPoint(cues, id, time)) == multiset(cues) + multiset{Cue(time, PointCue, id)}
  {
    InsertedElements(cues, Cue(time, PointCue, id));
  }

  /** A segment contributes a start cue and an end cue. */
  lemma WithSegmentAdds(cues: seq<Cue>, id: string, startTime: real, endTime: real)
    ensures |WithSegment(cues, id, startTime, endTime)| == |cues| + 2
    ensures multiset(WithSegment(cues, id, startTime, endTime)) ==
              multiset(cues) + multiset{Cue(startTime, SegmentStart, id), Cue(endTime, SegmentEnd, id)}
  {
    var once := Inserted(cues, Cue(startTime, SegmentStart, id));
    InsertedElements(cues, Cue(startTime, SegmentStart, id));
    InsertedElements(once, Cue(endTime, SegmentEnd, id));
  }

  /** In a sorted index, even a zero-length segment has its start cue before its end cue. */
  lemma WithSegmentStartFirst(cues: seq<Cue>, id: string, startTime: real, endTime: real)
    requires Sorted(cues) && startTime <= endTime
    ensures exists i, j :: 0 <= i < j < |WithSegment(cues, id, startTime, endTime)| &&
              WithSegment(cues, id, startTime, endTime)[i] == Cue(startTime, SegmentStart, id) &&
              WithSegment(cues, id, startTime, endTime)[j] == Cue(endTime, SegmentEnd, id)
  {
    var startCue := Cue(startTime, SegmentStart, id);
    var endCue := Cue(endTime, SegmentEnd, id);
    var once := Inserted(cues, startCue);
    var k := LeadingNotLater(once, endTime);
    InsertedAt(once, endCue, k);
    InsertedElements(cues, startCue);
    assert startCue in once by { assert startCue in multiset(once); }
    var i :| 0 <= i < |once| && once[i] == startCue;
    InsertedSorted(cues, startCue);
    assert i < k;
    assert WithSegment(cues, id, startTime, endTime)[i] == startCue;
    assert WithSegment(cues, id, startTime, endTime)[k] == endCue;
  }

  /** The number of leading cues not later than `t`; for a sorted index, the insertion position. */
  function LeadingNotLater(cues: seq<Cue>, t: real): (k: nat)
    ensures k <= |cues|
    ensures forall i :: 0 <= i < k ==> cues[i].time <= t
    ensures k < |cues| ==> t < cues[k].time
  {
    if cues == [] || t < cues[0].time then 0 else 1 + LeadingNotLater(cues[1..], t)
  }

  /** Moving a point to a new time: its old cue goes and a cue at the new time is inserted. */
  function RepositionPoint(cues: seq<Cue>, id: string, time: real): (r: seq<Cue>)
    ensures multiset(r) == multiset(WithoutPoint(cues, id)) + multiset{Cue(time, PointCue, id)}
  {
    InsertedElements(WithoutPoint(cues, id), Cue(time, PointCue, id));
    WithPoint(WithoutPoint(cues, id), id, time)
  }

  /** Moving a segment: its old cues go and a start and an end cue at the new times are inserted. */
  function RepositionSegment(cues: seq<Cue>, id: string, startTime: real, endTime: real): (r: seq<Cue>)
    ensures multiset(r) ==
              multiset(WithoutSegment(cues, id)) + multiset{Cue(startTime, SegmentStart, id), Cue(endTime, SegmentEnd, id)}
  {
    WithSegmentAdds(WithoutSegment(cues, id), id, startTime, endTime);
    WithSegment(WithoutSegment(cues, id), id, startTime, endTime)
  }

  /**
   * Repositioning one item leaves every other cue exactly as it was, in
   * order; in particular a segment sharing the moved point's id keeps its
   * cues, and vice versa.
   */
  lemma RepositionKeepsOthers(cues: seq<Cue>, id: string, time: real, startTime: real, endTime: real)
    ensures WithoutPoint(RepositionPoint(cues, id, time), id) == WithoutPoint(cues, id)
    ensures WithoutSegment(RepositionSegment(cues, id, startTime, endTime), id) == WithoutSegment(cues, id)
  {
    var otherPoints := (c: Cue) => !OfPoint(c, id);
    var otherSegments := (c: Cue) => !OfSegment(c, id);
    var restP := WithoutPoint(cues, id);
    var restS := WithoutSegment(cues, id);
    FilterInsertedDropped(restP, Cue(time, PointCue, id), otherPoints);
    FilterTwice(cues, otherPoints, otherPoints);
    FilterInsertedDropped(Inserted(restS, Cue(startTime, SegmentStart, id)), Cue(endTime, SegmentEnd, id), otherSegments);
    FilterInsertedDropped(restS, Cue(startTime, SegmentStart, id), otherSegments);
    FilterTwice(cues, otherSegments, otherSegments);
  }

  /** Moving a point leaves the segment cues untouched, and moving a segment leaves the point cues. */
  lemma RepositionKeepsOtherKind(cues: seq<Cue>, id: string, time: real, startTime: real, endTime: real)
    ensures WithoutPoints(RepositionPoint(cues, id, time)) == WithoutPoints(cues)
    ensures WithoutSegments(RepositionSegment(cues, id, startTime, endTime)) == WithoutSegments(cues)
  {
    var restP := WithoutPoint(cues, id);
    var restS := WithoutSegment(cues, id);
    FilterInsertedDropped(restP, Cue(time, PointCue, id), IsSegmentCue);
    FilterTwice(cues, (c: Cue) => !OfPoint(c, id), IsSegmentCue);
    FilterInsertedDropped(Inserted(restS, Cue(startTime, SegmentStart, id)), Cue(endTime, SegmentEnd, id), IsPointCue);
    FilterInsertedDropped(restS, Cue(startTime, SegmentStart, id), IsPointCue);
    FilterTwice(cues, (c: Cue) => !OfSegment(c, id), IsPointCue);
  }

  /** After repositioning, the point's only cue is the new one. */
  lemma RepositionPointCue(cues: seq<Cue>, id: string, time: real)
    ensures forall x :: x in RepositionPoint(cues, id, time) && OfPoint(x, id) ==> x == Cue(time, PointCue, id)
    ensures Cue(time, PointCue, id) in RepositionPoint(cues, id, time)
  {
    var r := RepositionPoint(cues, id, time);
    forall x | x in r ensures x in WithoutPoint(cues, id) || x == Cue(time, PointCue, id) {
      assert x in multiset(r);
    }
    assert Cue(time, PointCue, id) in multiset(r);
  }

  /** A point and a segment both named "x": moving the point leaves the segment's cues in place. */
  lemma SharedIdScenario()
    ensures RepositionPoint([Cue(1.0, PointCue, "x"), Cue(2.0, SegmentStart, "x"), Cue(3.0, SegmentEnd, "x")], "x", 5.0) ==
              [Cue(2.0, SegmentStart, "x"), Cue(3.0, SegmentEnd, "x"), Cue(5.0, PointCue, "x")]
  {
  }

  /** Removing a point keeps the index sorted and every other cue with its multiplicity. */
  lemma RemovePointKeepsOthers(cues: seq<Cue>, id: string)
    requires Sorted(cues)
    ensures Sorted(WithoutPoint(cues, id))
    ensures forall x: Cue :: !OfPoint(x, id) ==> multiset(WithoutPoint(cues, id))[x] == multiset(cues)[x]
  {
    FilterSorted(cues, (c: Cue) => !OfPoint(c, id));
    FilterElements(cues, (c: Cue) => !OfPoint(c, id));
  }

  /** Removing a segment keeps the index sorted and every other cue with its multiplicity. */
  lemma RemoveSegmentKeepsOthers(cues: seq<Cue>, id: string)
    requires Sorted(cues)
    ensures Sorted(WithoutSegment(cues, id))
    ensures forall x: Cue :: !OfSegment(x, id) ==> multiset(WithoutSegment(cues, id))[x] == multiset(cues)[x]
  {
    FilterSorted(cues, (c: Cue) => !OfSegment(c, id));
    FilterElements(cues, (c: Cue) => !OfSegment(c, id));
  }

  /** Removing all points keeps the index sorted and every segment cue with its multiplicity. */
  lemma RemoveAllPointsKeepsSegments(cues: seq<Cue>)
    requires Sorted(cues)
    ensures Sorted(WithoutPoints(cues))
    ensures forall x: Cue :: !x.kind.PointCue? ==> multiset(WithoutPoints(cues))[x] == multiset(cues)[x]
  {
    FilterSorted(cues, IsSegmentCue);
    FilterElements(cues, IsSegmentCue);
  }

  /** Removing all segments keeps the index sorted and every point cue with its multiplicity. */
  lemma RemoveAllSegmentsKeepsPoints(cues: seq<Cue>)
    requires Sorted(cues)
    ensures Sorted(WithoutSegments(cues))
    ensures forall x: Cue :: x.kind.PointCue? ==> multiset(WithoutSegments(cues))[x] == multiset(cues)[x]
  {
    FilterSorted(cues, IsPointCue);
    FilterElements(cues, IsPointCue);
  }

  /** The insertions of the cue-index tests: an earlier point goes to the front. */
  lemma EarlierPointGoesFirst()
    ensures WithPoint(WithPoint(WithPoint([], "a", 1.0), "b", 1.5), "c", 0.2)[0].time == 0.2
    ensures WithPoint(WithPoint([], "a", 1.0), "b", 1.5)[0].time == 1.0
  {
  }

  /** Two overlapping segments interleave their cues by time. */
  lemma InterleavedSegments()
    ensures WithSegment(WithSegment([], "seg1", 2.0, 3.0), "seg2", 2.5, 3.3) ==
              [Cue(2.0, SegmentStart, "seg1"), Cue(2.5, SegmentStart, "seg2"),
               Cue(3.0, SegmentEnd, "seg1"), Cue(3.3, SegmentEnd, "seg2")]
  {
  }
}
