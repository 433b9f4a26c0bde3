# peaks.js core in Dafny

A Dafny model of three pieces of peaks.js, a browser widget that draws an
audio waveform and lets the user place *points* (single instants) and
*segments* (labelled intervals) on it:

- **Points** (`points.dfy`). This is the point option bag and the `Point` object from
  `src/point.js`:
  - filling in the defaults for `labelText`, `editable` and `color`;
  - validating an option bag for `add()` and `update()`, first failing rule wins, one error per rule;
  - copying the bag onto the point, with the five point options stored under underscore names;
  - `update`, `isVisible` and `_setTime`.
  The point is a class whose `props` map stands for the object's own properties.
- **Cue index** (`cues.dfy`). These are the time-ordered cues the emitter keeps: one per point,
  a start and an end cue per segment. The file gives pure functions for insert, remove a
  point or a segment by id, remove all points, remove all segments, and reposition. Lemmas prove
  each one keeps the index sorted and the other items' cues unchanged. A point and a segment may
  share an id, so every operation on one item also looks at the cue's kind.
- **Cue emitter** (`cue_emitter.dfy`). As playback moves, the emitter reports the cues crossed:
  - a playback update walks the cues between the previous and the new position, ascending when it
    moves forward and descending when it moves backward;
  - a seek compares which segments contain the old position and the new one.
  The `CueEmitter` class holds the index and `previousTime`. Its loop methods are proved
  equal to the specification functions.
- **Segment drag** (`segment_drag.dfy`). These are the zoom view's drag constraints for a segment
  body, start marker or end marker, under the three drag modes: overlap, no-overlap and compress.
  A `ZoomView` class runs the gesture:
  - pointer-down records the spans;
  - each move rewrites the segments in place and returns the `segments.dragged` notifications;
  - pointer-up ends the gesture.

All times are mathematical reals. `wrappers.dfy` holds the shared `Option` type.

The emitter's and the drag code's source is not modelled. Their behaviour follows the
assertions of `test/unit/cue-emitter-spec.js` and `test/unit/waveform-zoomview-spec.js`, together
with the rules below, which this model fixes where the assertions leave room:

- **Sweep window.** A forward update from p to t crosses the cues in (p, t]. A backward update
  crosses [t, p).
- **Segment cues when going backward.** A segment's end cue enters the segment and its start cue
  exits it.
- **Ids per collection.** Points and segments are separate collections, so a point and a segment
  may carry the same id. Removing or moving one of them touches only cues of its own kind.
- **Seek containment.** A seek treats a segment as holding [start, end). All exits are reported
  before all enters.
- **Body drag order.** The view's right edge is applied first, then time zero, then the next
  neighbour. The previous neighbour is checked only when the next one was not reached.
- **Move origin.** Every move of a gesture is resolved from the spans at pointer-down and the
  total delta.

## Model

| member | source | states |
|---|---|---|
| Points.PrivateNameIff | src/point.js:70-74 | a name is one of the five reserved underscore names iff it is `_` followed by a point option name |
| Points.SetDefaultPointOptions | src/point.js:20-32 | `labelText`, `editable`, `color` become `''`, `false`, the marker colour exactly when they are null or absent; present values and every other key are kept |
| Points.SetDefaultsIdempotent | src/point.js:20-32 | applying the defaults twice gives the same bag as applying them once |
| Points.FirstPresent | src/point.js:64-74 | the first listed name that is an own key of the bag, or none when no listed name is present |
| Points.ValidatePointOptions | src/point.js:34-75 | passes iff every rule holds (time numeric when checked, not negative, labelText a string, editable a boolean, colour a string or gradient, no reserved name); a failure carries the `add()`/`update()` context; the first failing rule in source order decides the error: non-numeric time, negative time, labelText, editable, colour, then the first deny-list name, then the first underscore name |
| Points.LabelTextTypeError | src/point.js:49-51 | a well-timed bag with a numeric labelText fails with the labelText TypeError |
| Points.ReservedNameError | src/point.js:64-74 | a bag passing the type rules but holding a reserved name fails with a plain Error naming it |
| Points.AddRequiresNumericTime | src/point.js:37-42 | for `add()` a missing or non-numeric time is always the TypeError reported |
| Points.UpdateWithoutTime | src/point.js:37-47 | an update without a `time` key skips both time rules: it passes iff the other rules hold |
| Points.ReservedNameRejected | src/point.js:64-74 | any bag holding `update`, `isVisible`, `peaks` or an underscore point option name is rejected, in both contexts |
| Points.TargetCollision | src/point.js:98-109 | two keys of one bag are written to the same property only if the bag holds both `k` and `_k` for a point option `k` |
| Points.ValidOptionsUncontested | src/point.js:64-74 | a bag that passes validation holds no such pair, so copying it is order-independent |
| Points.StoredUserData | src/point.js:98-109 | the properties written are exactly the keys' targets, each holding its key's value |
| Points.WriteAllKeys | src/point.js:98-109 | copying in an enumeration order adds exactly the targets of the enumerated keys |
| Points.WriteAllUntouched | src/point.js:98-109 | a property no key targets keeps its value |
| Points.WriteAllSole | src/point.js:98-109 | a property targeted by one key only ends with that key's value |
| Points.WriteAllUncontested | src/point.js:98-109 | for an uncontested bag, every enumeration order yields the old properties overridden by the stored user data |
| Points.EnumeratedTargets | src/point.js:98-109 | an enumeration of the bag's keys reaches every target |
| Points.WriteAllStored | src/point.js:98-109 | for an uncontested bag, every key's value lands at its target |
| Points.VisibleHalfOpen | src/point.js:163-165 | a point is visible in [start, end): at the start when the range is non-empty, never at the end |
| Points.VisibleSplit | src/point.js:163-165 | splitting a range puts a visible point in exactly one half |
| Points.Point.constructor | src/point.js:93-96 | the new point holds `_peaks` and the bag's user data, copied under some enumeration order; for an uncontested bag, exactly the stored user data |
| Points.Point.SetUserData | src/point.js:98-109 | the properties become the old ones written over in an enumeration order of the bag's own keys; uncontested, exactly old plus the stored user data |
| Points.Point.Update | src/point.js:143-153 | an `id` key is refused and nothing changes; a failing validation is returned with the error and nothing changes; otherwise the user data is copied and one `points.update` notification carries the bag |
| Points.Point.IsVisible | src/point.js:163-165 | true only for a numeric time in [start, end); never at the end time |
| Points.Point.SetTime | src/point.js:167-169 | only `_time` changes, to the given time |
| Cues.Inserted | test/unit/cue-emitter-spec.js:97-105 | inserting adds exactly one cue |
| Cues.InsertedElements | test/unit/cue-emitter-spec.js:97-105 | the index after an insert holds the old cues and the new one, as a multiset |
| Cues.InsertedSorted | test/unit/cue-emitter-spec.js:107-113 | inserting into a time-ordered index keeps it time-ordered |
| Cues.InsertedAt | test/unit/cue-emitter-spec.js:107-113 | the new cue goes before the first strictly later cue, after all cues at or before its time |
| Cues.Filter | test/unit/cue-emitter-spec.js:130-135 | a removal keeps exactly the cues that satisfy its test and never lengthens the index |
| Cues.FilterElements | test/unit/cue-emitter-spec.js:130-143 | a removal keeps every copy of a kept cue and no copy of a dropped one |
| Cues.FilterSorted | test/unit/cue-emitter-spec.js:130-143 | a removal keeps the index time-ordered |
| Cues.FilterTwice | test/unit/cue-emitter-spec.js:130-143 | removing with a weaker test and then a stronger one is the stronger removal alone |
| Cues.FilterInsertedDropped | test/unit/cue-emitter-spec.js:115-128 | inserting a cue that is then removed leaves the same result as not inserting it |
| Cues.WithoutPoint | test/unit/cue-emitter-spec.js:130-135 | removing a point keeps exactly the cues that are not that point's cue, segment cues of the same id included |
| Cues.WithoutSegment | test/unit/cue-emitter-spec.js:172-178 | removing a segment keeps exactly the cues that are not that segment's start or end cue, a point cue of the same id included |
| Cues.WithoutPoints | test/unit/cue-emitter-spec.js:137-143 | removing all points keeps exactly the segment cues |
| Cues.WithoutSegments | test/unit/cue-emitter-spec.js:180-187 | removing all segments keeps exactly the point cues |
| Cues.WithPointAdds | test/unit/cue-emitter-spec.js:97-105 | adding a point adds one point cue at its time |
| Cues.WithSegmentAdds | test/unit/cue-emitter-spec.js:147-156 | adding a segment adds exactly a start cue and an end cue at its times |
| Cues.WithSegmentStartFirst | test/unit/cue-emitter-spec.js:147-156 | in a time-ordered index a segment's start cue sits before its end cue, even at zero length |
| Cues.RepositionPoint | test/unit/cue-emitter-spec.js:115-128 | moving a point: the index holds the cues without that point's cue, plus one point cue at the new time |
| Cues.RepositionSegment | test/unit/cue-emitter-spec.js:165-170 | moving a segment: the index holds the cues without that segment's cues, plus a start and an end cue at the new times |
| Cues.RepositionKeepsOthers | test/unit/cue-emitter-spec.js:115-128 | moving a point or segment leaves every other cue as it was, in order |
| Cues.RepositionKeepsOtherKind | test/unit/cue-emitter-spec.js:115-128 | moving a point leaves the segment cues exactly as they were, and moving a segment the point cues |
| Cues.RepositionPointCue | test/unit/cue-emitter-spec.js:115-128 | after moving a point, its only point cue is the one at the new time |
| Cues.SharedIdScenario | test/unit/cue-emitter-spec.js:115-128 | with point "x" at 1 and segment "x" over [2,3], moving the point to 5 keeps both segment cues |
| Cues.RemovePointKeepsOthers | test/unit/cue-emitter-spec.js:130-135 | removing a point keeps the index time-ordered and every other cue with its multiplicity |
| Cues.RemoveSegmentKeepsOthers | test/unit/cue-emitter-spec.js:172-178 | removing a segment keeps the index time-ordered and every other cue with its multiplicity |
| Cues.RemoveAllPointsKeepsSegments | test/unit/cue-emitter-spec.js:137-143 | removing all points keeps the index time-ordered and every segment cue with its multiplicity |
| Cues.RemoveAllSegmentsKeepsPoints | test/unit/cue-emitter-spec.js:180-187 | removing all segments keeps the index time-ordered and every point cue with its multiplicity |
| Cues.EarlierPointGoesFirst | test/unit/cue-emitter-spec.js:107-113 | points at 1.0 and 1.5 leave 1.0 first; adding 0.2 puts 0.2 first |
| Cues.InterleavedSegments | test/unit/cue-emitter-spec.js:158-163 | segments [2,3] and [2.5,3.3] give the cue times 2, 2.5, 3, 3.3 |
| CueEmitters.InWindow | test/unit/cue-emitter-spec.js:203-243 | the times a move crosses: (previous, time] forward, [time, previous) backward, none when the time stays |
| CueEmitters.Visited | test/unit/cue-emitter-spec.js:203-243 | the crossed cues in index order when moving forward, in reverse index order when moving backward |
| CueEmitters.EventFor | test/unit/cue-emitter-spec.js:245-285 | a point cue enters its point; forward, a start cue enters its segment and an end cue exits it; backward, the end cue enters and the start cue exits; each at the new time |
| CueEmitters.SweepEvents | test/unit/cue-emitter-spec.js:203-285 | the notification of each visited cue, in visiting order |
| CueEmitters.SweepVisitsCrossedCues | test/unit/cue-emitter-spec.js:203-243 | an update visits a cue iff the move passes its time; an update to the same time visits none |
| CueEmitters.SweepEventsReportDestination | test/unit/cue-emitter-spec.js:213 | one notification per visited cue, in visiting order, naming its item and carrying the new time |
| CueEmitters.SweepOrder | test/unit/cue-emitter-spec.js:203-243 | over a time-ordered index, forward visits are ascending and backward visits descending |
| CueEmitters.SweepInSteps | test/unit/cue-emitter-spec.js:203-222 | two forward updates visit exactly the cues of one update over the whole span, in the same order |
| CueEmitters.ForwardPointsScenario | test/unit/cue-emitter-spec.js:203-222 | points at 1.05, 1.07, 1.09 and an update 1.0→1.1 enter p1, p2, p3, each at 1.1 |
| CueEmitters.ReversePointsScenario | test/unit/cue-emitter-spec.js:224-243 | the same points and an update 1.1→1.0 enter p3, p2, p1, each at 1.0 |
| CueEmitters.ForwardSegmentScenario | test/unit/cue-emitter-spec.js:245-285 | segment [1.05,1.09] and an update 1.0→1.1 enter seg1 and then exit it, both at 1.1 |
| CueEmitters.ReverseSegmentScenario | test/unit/cue-emitter-spec.js:267-285 | segment [1.05,1.09] crossed 1.1→1.0 is entered at its end cue and then exited at its start cue |
| CueEmitters.CollectSweep | test/unit/cue-emitter-spec.js:203-285 | the walk over the index returns exactly the sweep's notifications |
| CueEmitters.SeekEvents | test/unit/cue-emitter-spec.js:287-384 | the exits of the segments left, then the enters of the segments reached |
| CueEmitters.SeekEventsExact | test/unit/cue-emitter-spec.js:287-384 | a seek exits a segment iff it held the old time and not the new one, and enters one iff the reverse |
| CueEmitters.SeekEventsShape | test/unit/cue-emitter-spec.js:359-368 | seek notifications are segment enters and exits at the new time, every exit before every enter |
| CueEmitters.SeekScenario | test/unit/cue-emitter-spec.js:345-368 | with [2,4], [6,8], [10,12], seeking 0→3 enters segment.1 at 3; seeking 3→11 exits segment.1 and then enters segment.3, both at 11 |
| CueEmitters.CollectSeek | test/unit/cue-emitter-spec.js:287-384 | the two loops return exactly the seek's notifications |
| CueEmitters.WithAllCount | test/unit/cue-emitter-spec.js:47-69 | starting from existing points and segments gives one cue per point and two per segment, in time order |
| CueEmitters.ExistingItemsScenario | test/unit/cue-emitter-spec.js:58-66 | one existing point and one existing segment give three cues |
| CueEmitters.CueEmitter.constructor | test/unit/cue-emitter-spec.js:41-45 | a new emitter has no cues |
| CueEmitters.CueEmitter.AddExisting | test/unit/cue-emitter-spec.js:47-69 | the index gains the cues of all existing points and segments |
| CueEmitters.CueEmitter.InsertPosition | test/unit/cue-emitter-spec.js:107-113 | the search stops at the first cue later than the time, every cue before it being at or before the time |
| CueEmitters.CueEmitter.Insert | test/unit/cue-emitter-spec.js:97-113 | the index becomes the specified insertion and stays time-ordered |
| CueEmitters.CueEmitter.AddPoint | test/unit/cue-emitter-spec.js:97-105 | a point's cue is inserted in order |
| CueEmitters.CueEmitter.AddSegment | test/unit/cue-emitter-spec.js:147-156 | a segment's start and end cues are inserted in order |
| CueEmitters.CueEmitter.RemovePoint | test/unit/cue-emitter-spec.js:130-135 | the point's cue goes, every other cue stays in order |
| CueEmitters.CueEmitter.RemoveSegment | test/unit/cue-emitter-spec.js:172-178 | the segment's two cues go, every other cue stays in order |
| CueEmitters.CueEmitter.RemoveAllPoints | test/unit/cue-emitter-spec.js:137-143 | all point cues go, segment cues stay |
| CueEmitters.CueEmitter.RemoveAllSegments | test/unit/cue-emitter-spec.js:180-187 | all segment cues go, point cues stay |
| CueEmitters.CueEmitter.UpdatePoint | test/unit/cue-emitter-spec.js:115-128 | a point with a cue has it moved to the new time; otherwise the index is unchanged and the result says so |
| CueEmitters.CueEmitter.UpdateSegment | test/unit/cue-emitter-spec.js:165-170 | a segment with cues has both moved to the new times; otherwise nothing changes |
| CueEmitters.CueEmitter.Destroy | test/unit/cue-emitter-spec.js:71-94 | the index is emptied |
| CueEmitters.CueEmitter.OnUpdate | test/unit/cue-emitter-spec.js:203-285 | returns the sweep from the given previous time and remembers the new time |
| CueEmitters.CueEmitter.OnTimeUpdate | test/unit/cue-emitter-spec.js:195-200 | a time update sweeps from the remembered time and then remembers the new one |
| CueEmitters.CueEmitter.OnSeek | test/unit/cue-emitter-spec.js:287-384 | a seek returns the containment difference from the remembered time and remembers the new one |
| SegmentDrag.ShiftedBody | test/unit/waveform-zoomview-spec.js:73-112 | a body move keeps the width; it is the plain shift when no limit is reached, exactly [0, width] when pushed before zero, and ends exactly at the view's right edge when pushed past it |
| SegmentDrag.BodyAgainstNeighbours | test/unit/waveform-zoomview-spec.js:252-797 | width kept; with nothing in the way, or in overlap mode, the body stays put and no neighbour changes; no-overlap leaves it touching the neighbour it ran into; compress moves that neighbour's near boundary with the body, stopping the body where the neighbour is down to the minimum width |
| SegmentDrag.DragBody | test/unit/waveform-zoomview-spec.js:73-797 | a body drag is the shift kept inside the timeline, then resolved against the neighbours |
| SegmentDrag.StartMarkerGoal | test/unit/waveform-zoomview-spec.js:320-397 | the pointer's time when it lies between the view's left edge and the end marker (or the view's right edge); otherwise exactly the limit it passed |
| SegmentDrag.EndMarkerGoal | test/unit/waveform-zoomview-spec.js:425-503 | the pointer's time when it lies between the start marker (or the view's left edge) and the view's right edge; otherwise exactly the limit it passed |
| SegmentDrag.DragStartMarker | test/unit/waveform-zoomview-spec.js:320-397 | the end is unchanged; the start goes to its goal unless a previous segment ends after it: then no-overlap stops it at that end, and compress pushes the end along until the previous segment is the marker minimum wide |
| SegmentDrag.DragEndMarker | test/unit/waveform-zoomview-spec.js:425-503 | the start is unchanged and the end never passes the view's right edge; the end goes to its goal unless a next segment starts before it: then no-overlap stops it at that start, and compress pushes the start along until the next segment is the marker minimum wide |
| SegmentDrag.Resolve | test/unit/waveform-zoomview-spec.js:252-797 | one move is the body, start-marker or end-marker resolution of the grabbed handle |
| SegmentDrag.DraggedEvents | test/unit/waveform-zoomview-spec.js:114-131 | the moved segment's notification, then the pushed next neighbour's, then the pushed previous neighbour's |
| SegmentDrag.DraggedEventsOrder | test/unit/waveform-zoomview-spec.js:114-131 | the dragged segment's notification comes first, with `marker` false exactly for a body drag; a second one comes exactly when compress pushed a neighbour, and it names that neighbour |
| SegmentDrag.BodyDragBounds | test/unit/waveform-zoomview-spec.js:101-112 | among arranged neighbours a body drag keeps its width and never starts before zero |
| SegmentDrag.NoOverlapBodyStaysBetween | test/unit/waveform-zoomview-spec.js:537-601 | in no-overlap mode the body ends between its neighbours, exactly touching the one it ran into, and neither neighbour changes |
| SegmentDrag.CompressBodyPushes | test/unit/waveform-zoomview-spec.js:692-797 | in compress mode the body never overlaps a neighbour; a pushed neighbour starts or ends where the body ends or starts, keeps its far boundary and its minimum width |
| SegmentDrag.CompressBodyPushesNext | test/unit/waveform-zoomview-spec.js:694-744 | a body pushed into the next segment ends at the smaller of the pointer's end and the compress limit, the next segment starts there, and two notifications are sent |
| SegmentDrag.CompressBodyPushesPrevious | test/unit/waveform-zoomview-spec.js:748-797 | a body pushed into the previous segment starts at the larger of the pointer's start and the compress limit, the previous segment ends there, and two notifications are sent |
| SegmentDrag.CompressBodyLimit | test/unit/waveform-zoomview-spec.js:719-744 | past the limit the next segment is exactly the minimum width and the body stops just before it |
| SegmentDrag.BodyDragFree | test/unit/waveform-zoomview-spec.js:73-99 | a move that reaches no limit and no neighbour is exactly a shift by the delta |
| SegmentDrag.OverlapIgnoresNeighbours | test/unit/waveform-zoomview-spec.js:252-318 | in overlap mode the result does not depend on the neighbours and no neighbour changes |
| SegmentDrag.MarkerDragKeepsOrder | test/unit/waveform-zoomview-spec.js:320-503 | a marker never passes the other marker and stays inside the view, between its left and right edges |
| SegmentDrag.MarkerDragFree | test/unit/waveform-zoomview-spec.js:439-452 | a marker move reaching no limit and no neighbour puts the marker exactly at the pointer's time and changes nothing else |
| SegmentDrag.BodyClampedAtZero | test/unit/waveform-zoomview-spec.js:101-112 | [1,2] dragged 2 s left becomes [0,1] and is reported with `marker` false |
| SegmentDrag.NoOverlapBodyAdjacent | test/unit/waveform-zoomview-spec.js:537-601 | [1,2] dragged over [3,4], and [3,4] dragged over [1,2], both end at [2,3] |
| SegmentDrag.CompressBodyScenario | test/unit/waveform-zoomview-spec.js:692-797 | with minimum 0.2, [1,2] pushed 1.5 s gives [2.5,3.5] and next [3.5,4] reported in that order; pushed 3 s gives [2.8,3.8] and [3.8,4]; [3,4] pulled 3 s left gives [1.2,2.2] and previous [1,1.2] |
| SegmentDrag.EndMarkerScenario | test/unit/waveform-zoomview-spec.js:426-842 | end marker of [1,2] over [3,4]: overlap reaches 3.5, no-overlap stops at 3, compress with minimum 0.5 stops at 3.5 and leaves [3.5,4]; dragged far left it stops at the start |
| SegmentDrag.StartMarkerScenario | test/unit/waveform-zoomview-spec.js:321-882 | start marker of [3,4] over [1,2]: overlap reaches 1.5, no-overlap moves freely to 2.5 and stops at 2, compress with minimum 0.5 stops at 1.5 leaving [1,1.5]; the start marker of [1,2] stops at its end and at zero |
| SegmentDrag.MarkerAtViewEnd | test/unit/waveform-zoomview-spec.js:468-480 | the end marker dragged far right stops at the view's right edge, and so does the start marker of a segment reaching past it |
| SegmentDrag.EndMarkerAtViewStart | test/unit/waveform-zoomview-spec.js:482-501 | with the view starting at 1.5, the end marker of [1,2] dragged left stops at 1.5 |
| SegmentDrag.NoLockingAfterOverlap | test/unit/waveform-zoomview-spec.js:398-423 | after segment two's start marker is dragged over segment one, segment one's end marker still moves freely past it |
| SegmentDrag.Segment.constructor | test/unit/waveform-zoomview-spec.js:37-42 | a segment starts with its given id and times |
| SegmentDrag.ZoomView.constructor | test/unit/waveform-zoomview-spec.js:66-70 | a new view has segment dragging off, overlap mode and no gesture |
| SegmentDrag.ZoomView.EnableSegmentDragging | test/unit/waveform-zoomview-spec.js:66-70 | only the enabled flag changes (the field frame); a gesture in progress is kept |
| SegmentDrag.ZoomView.SetSegmentDragMode | test/unit/waveform-zoomview-spec.js:247-250 | only the drag mode changes (the field frame) |
| SegmentDrag.ZoomView.SetMinSegmentDragWidth | test/unit/waveform-zoomview-spec.js:686-690 | only the minimum body-drag width changes (the field frame) |
| SegmentDrag.ZoomView.SetView | test/unit/waveform-zoomview-spec.js:482-486 | only the visible range changes (the field frame); a gesture in progress keeps its segments and spans |
| SegmentDrag.ZoomView.BeginDrag | test/unit/waveform-zoomview-spec.js:72-131 | with dragging enabled a gesture starts and records the handle, the segments and their spans; otherwise no gesture starts |
| SegmentDrag.ZoomView.MoveDrag | test/unit/waveform-zoomview-spec.js:252-881 | outside a gesture nothing happens (the frame is empty, so no segment changes) and no notification is returned; otherwise the segment and its neighbours take the resolved spans and the move's notifications are returned |
| SegmentDrag.ZoomView.EndDrag | test/unit/waveform-zoomview-spec.js:72-131 | the gesture ends and the segments keep their spans |

## Left out

- The DOM, canvas drawing, the media player, the event bus and the asynchronous start-up are left out. Notifications are returned as values instead of being emitted.
- Pixel↔time conversion is left out: drag deltas, view bounds and minimum widths are given in seconds.
- Floating-point rounding is left out: times are reals. This covers the `closeTo` tolerance at test/unit/waveform-zoomview-spec.js:790.
- NaN, Infinity and JavaScript's coercion of non-numbers in `<` are left out. The value-classifying helpers from `src/utils` (`isValidTime`, `isString` and the rest) are decided by the value's kind. `src/utils` is not part of this model.
- Points.Point.SetUserData: JavaScript's for-in key order is not modelled. The order is a ghost witness, and the result is fixed only for bags without a `k`/`_k` collision. Validation rules such collisions out for `update`. A constructor bag is not validated here.
- Points.Point.constructor: the point options are passed as one bag, as the source does. The `points.add` caller that applies defaults and validation first is not part of this model.
- Points.Point.Update: the `points.update` notification carries the option bag, not the point object.
- CueEmitters: the emitter's source is not modelled. This part follows the test assertions; the sweep window and the meaning of segment cues going backward are this model's choices, listed above.
- CueEmitters: the test titled "reverse playback" for segments (test/unit/cue-emitter-spec.js:267-285) drives a forward update. Its assertions are those of ForwardSegmentScenario. ReverseSegmentScenario states the backward case under this model's choice for segment cues.
- CueEmitters.CueEmitter.OnSeek: the host's segment list is a parameter.
- CueEmitters.CueEmitter.UpdatePoint: finding the point by id and calling it on every point change are left to the host.
- CueEmitters: the Firefox timing special case and the `emitCueEvents` switch are left out.
- SegmentDrag: hit-testing is left out (the pointer position that picks the handle and the segment), and so is finding the neighbours in the segment list. The handle and the neighbours are parameters of `BeginDrag`.
- SegmentDrag: scrolling the waveform by dragging is left out (test/unit/waveform-zoomview-spec.js:134-239), and so is the minimum-pixel hysteresis before a drag starts.
- SegmentDrag.ZoomView.MoveDrag: every move is resolved from the spans at pointer-down. How the source treats a pushed neighbour over several moves of one gesture is not shown by its tests.
- SegmentDrag.DraggedEvents: a pushed neighbour's notification carries the gesture's marker flag. The tests do not check that field for the neighbour.
- SegmentDrag.DragStartMarker and SegmentDrag.DragEndMarker: the marker-drag minimum width is a separate parameter of the view. The tests leave the neighbour 50 px wide there while setting a body minimum of 20 px (test/unit/waveform-zoomview-spec.js:689, 835, 876).
- SegmentDrag.ZoomView.constructor: the defaults for the drag mode and the enabled flag are taken as overlap and off. The tests always set both.
