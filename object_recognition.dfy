/**
 * The detection side of the assistant: the tracker that merges the last few
 * frames of detections into one view, the split of that view into left, middle
 * and right thirds of the frame, and the sentences that answer location queries
 * and continuous announcements. Detections arrive as given snapshots; the
 * detector itself is not part of this model. The confidence value is carried as
 * the type parameter `C` and is never inspected.
 */
module ObjectRecognition {

  import opened Wrappers
  import opened PyStr
  import opened PyDict
  import opened Voice

  /** One detected object: the top-left corner of its box and its confidence. */
  datatype Detection<C> = Detection(position: (int, int), confidence: C)

  /** One frame's detections, name to detection. */
  type Snapshot<C> = Dict<Detection<C>>

  /** The number of frames the tracker remembers. */
  const MaxFrames: nat := 5

  // ---------------------------------------------------------------------------
  // ObjectTracker
  // ---------------------------------------------------------------------------

  /** What a `deque(maxlen=n)` holds after all of `s` was appended: its last `n` elements. */
  function Recent<T>(s: seq<T>, n: nat): (r: seq<T>)
    ensures |r| == if |s| < n then |s| else n
    ensures r == s[|s| - |r|..]
  {
    if |s| <= n then s else s[|s| - n..]
  }

  /** Appending to the bounded buffer keeps it equal to the last `n` snapshots ever appended. */
  lemma RecentAppend<T>(s: seq<T>, x: T, n: nat)
    ensures Recent(Recent(s, n) + [x], n) == Recent(s + [x], n)
  {
    var r := Recent(s, n);
    if |s| > n && n > 0 {
      assert (r + [x])[1..] == (s + [x])[|s| + 1 - n..];
    }
  }

  /** The rebuild of `recognized_objects`: an empty dict updated with each
      buffered snapshot, oldest first. */
  function Merge<C>(frames: seq<Snapshot<C>>): Dict<Detection<C>>
    decreases |frames|
  {
    if frames == [] then [] else Update(Merge(frames[..|frames| - 1]), frames[|frames| - 1])
  }

  /** The mapping the frames denote when each later frame overrides the earlier ones. */
  ghost function Overlay<C>(frames: seq<Snapshot<C>>): map<string, Detection<C>>
    decreases |frames|
  {
    if frames == [] then map[] else Overlay(frames[..|frames| - 1]) + ToMap(frames[|frames| - 1])
  }

  /** The fold law: the merged dict has unique labels and denotes the overlay of the frames. */
  lemma {:induction false} MergeSpec<C>(frames: seq<Snapshot<C>>)
    ensures UniqueKeys(Merge(frames))
    ensures ToMap(Merge(frames)) == Overlay(frames)
    decreases |frames|
  {
    if frames != [] {
      var init := frames[..|frames| - 1];
      MergeSpec(init);
      UpdateUnique(Merge(init), frames[|frames| - 1]);
      UpdateToMap(Merge(init), frames[|frames| - 1]);
    }
  }

  /** A name is in the overlay exactly when some frame has it. */
  lemma {:induction false} OverlayLabels<C>(frames: seq<Snapshot<C>>, name: string)
    ensures name in Overlay(frames) <==> exists i :: 0 <= i < |frames| && name in Keys(frames[i])
    decreases |frames|
  {
    if frames != [] {
      var init := frames[..|frames| - 1];
      OverlayLabels(init, name);
      ToMapKeys(frames[|frames| - 1]);
      assert forall i :: 0 <= i < |init| ==> init[i] == frames[i];
    }
  }

  /** A name takes its detection from the newest frame that has it. */
  lemma {:induction false} OverlayNewest<C>(frames: seq<Snapshot<C>>, name: string, j: nat)
    requires j < |frames| && name in ToMap(frames[j])
    requires forall i :: j < i < |frames| ==> name !in ToMap(frames[i])
    ensures name in Overlay(frames) && Overlay(frames)[name] == ToMap(frames[j])[name]
    decreases |frames|
  {
    var init := frames[..|frames| - 1];
    if j < |frames| - 1 {
      assert forall i :: j < i < |init| ==> init[i] == frames[i];
      OverlayNewest(init, name, j);
    }
  }

  /** The recognised labels are exactly those of the buffered frames, so a name
      seen only in frames that were pushed out of the buffer is gone. */
  lemma MergeLabels<C>(frames: seq<Snapshot<C>>, name: string)
    ensures name in Keys(Merge(frames)) <==> exists i :: 0 <= i < |frames| && name in Keys(frames[i])
  {
    MergeSpec(frames);
    ToMapKeys(Merge(frames));
    OverlayLabels(frames, name);
  }

  /** The rebuild loop of `update_objects`: start from an empty dict and update it
      with each frame, oldest first. */
  method MergeFrames<C>(frames: seq<Snapshot<C>>) returns (merged: Dict<Detection<C>>)
    ensures merged == Merge(frames)
  {
    merged := [];
    for i := 0 to |frames|
      invariant merged == Merge(frames[..i])
    {
      MergeStep(frames, i);
      merged := Update(merged, frames[i]);
    }
    assert frames[..|frames|] == frames;
  }

  /** One more frame merged into the fold. */
  lemma MergeStep<C>(frames: seq<Snapshot<C>>, i: nat)
    requires i < |frames|
    ensures Merge(frames[..i + 1]) == Update(Merge(frames[..i]), frames[i])
  {
    assert frames[..i + 1][..i] == frames[..i];
  }

  /** `ObjectTracker`. The lock that serialises `update_objects` against the
      readers is not modelled: every access here is sequential. */
  class ObjectTracker<C> {
    const maxFrames: nat
    var recognizedObjects: Dict<Detection<C>>
    var frameBuffer: seq<Snapshot<C>>
    /** Every snapshot ever passed to `UpdateObjects`, oldest first. */
    ghost var history: seq<Snapshot<C>>

    /** The buffer is the last `maxFrames` snapshots, and the recognised objects are
        their merge. */
    ghost predicate Valid()
      reads this
    {
      && frameBuffer == Recent(history, maxFrames)
      && recognizedObjects == Merge(frameBuffer)
    }

    /** `ObjectTracker(max_frames)`: nothing seen yet. */
    constructor (maxFrames: nat)
      ensures Valid()
      ensures this.maxFrames == maxFrames && history == []
      ensures frameBuffer == [] && recognizedObjects == []
    {
      this.maxFrames := maxFrames;
      recognizedObjects := [];
      frameBuffer := [];
      history := [];
    }

    /** `update_objects(new_detections)`: append to the bounded buffer, dropping the
        oldest snapshot when it is full, then rebuild the recognised objects from
        an empty dict by updating with every buffered snapshot, oldest first. */
    method UpdateObjects(newDetections: Snapshot<C>)
      requires Valid()
      modifies this
      ensures Valid()
      ensures history == old(history) + [newDetections]
      ensures frameBuffer == Recent(old(frameBuffer) + [newDetections], maxFrames)
      ensures recognizedObjects == Merge(frameBuffer)
    {
      RecentAppend(history, newDetections, maxFrames);
      var buffer := Recent(frameBuffer + [newDetections], maxFrames);
      var merged := MergeFrames(buffer);
      frameBuffer := buffer;
      history := history + [newDetections];
      recognizedObjects := merged;
    }
  }

  /** After any run of updates the buffer holds the last `min(k, maxFrames)`
      snapshots in arrival order, and the recognised objects denote their
      overlay, with unique labels. */
  lemma TrackerState<C>(t: ObjectTracker<C>)
    requires t.Valid()
    ensures |t.frameBuffer| <= t.maxFrames
    ensures |t.frameBuffer| == if |t.history| < t.maxFrames then |t.history| else t.maxFrames
    ensures t.frameBuffer == t.history[|t.history| - |t.frameBuffer|..]
    ensures UniqueKeys(t.recognizedObjects) && ToMap(t.recognizedObjects) == Overlay(t.frameBuffer)
  {
    MergeSpec(t.frameBuffer);
  }

  // ---------------------------------------------------------------------------
  // categorize_objects
  // ---------------------------------------------------------------------------

  datatype Zone = Left | Middle | Right

  /** The third of a frame of width `width` that the x coordinate falls in:
      `x < width // 3` is left, `x > 2 * width // 3` right, anything else middle.
      Dafny's `/` agrees with Python's `//` because the divisor is positive. */
  function ZoneOf(x: int, width: int): Zone {
    if x < width / 3 then Left
    else if x > 2 * width / 3 then Right
    else Middle
  }

  /** The labels of the objects in zone `z`, in iteration order. */
  function LabelsIn<C>(objs: Dict<Detection<C>>, width: int, z: Zone): seq<string>
    decreases |objs|
  {
    if objs == [] then []
    else
      var last := objs[|objs| - 1];
      LabelsIn(objs[..|objs| - 1], width, z) + if ZoneOf(last.1.position.0, width) == z then [last.0] else []
  }

  /** The three lists `categorize_objects` returns. */
  function Categorize<C>(objs: Dict<Detection<C>>, width: int): (seq<string>, seq<string>, seq<string>) {
    (LabelsIn(objs, width, Left), LabelsIn(objs, width, Middle), LabelsIn(objs, width, Right))
  }

  /** `categorize_objects(width)`: one pass over the recognised objects, each name
      appended to the list of its third. The tracker's lock is not modelled. */
  method CategorizeObjects<C>(tracker: ObjectTracker<C>, width: int)
    returns (left: seq<string>, middle: seq<string>, right: seq<string>)
    ensures (left, middle, right) == Categorize(tracker.recognizedObjects, width)
  {
    var objs := tracker.recognizedObjects;
    left, middle, right := [], [], [];
    for i := 0 to |objs|
      invariant left == LabelsIn(objs[..i], width, Left)
      invariant middle == LabelsIn(objs[..i], width, Middle)
      invariant right == LabelsIn(objs[..i], width, Right)
    {
      var (obj, data) := objs[i];
      var x := data.position.0;
      assert objs[..i + 1][..i] == objs[..i];
      if x < width / 3 {
        left := left + [obj];
      } else if x > 2 * width / 3 {
        right := right + [obj];
      } else {
        middle := middle + [obj];
      }
    }
    assert objs[..|objs|] == objs;
  }

  /** Every object lands in exactly one list, so the three lengths add up to the
      number of recognised objects. */
  lemma {:induction false} CategorizeCount<C>(objs: Dict<Detection<C>>, width: int)
    ensures |LabelsIn(objs, width, Left)| + |LabelsIn(objs, width, Middle)| + |LabelsIn(objs, width, Right)| == |objs|
    decreases |objs|
  {
    if objs != [] {
      CategorizeCount(objs[..|objs| - 1], width);
    }
  }

  /** A name is listed in zone `z` exactly when some object with that name lies in `z`. */
  lemma {:induction false} LabelsInIff<C>(objs: Dict<Detection<C>>, width: int, z: Zone, name: string)
    ensures name in LabelsIn(objs, width, z) <==>
      exists i :: 0 <= i < |objs| && objs[i].0 == name && ZoneOf(objs[i].1.position.0, width) == z
    decreases |objs|
  {
    if objs != [] {
      var init := objs[..|objs| - 1];
      LabelsInIff(init, width, z, name);
      assert forall i :: 0 <= i < |init| ==> init[i] == objs[i];
    }
  }

  /** With unique labels, each object's name is in the list of its own zone and
      in neither of the other two. */
  lemma CategorizeExactlyOne<C>(objs: Dict<Detection<C>>, width: int, i: nat, z: Zone)
    requires UniqueKeys(objs) && i < |objs|
    ensures objs[i].0 in LabelsIn(objs, width, z) <==> ZoneOf(objs[i].1.position.0, width) == z
  {
    LabelsInIff(objs, width, z, objs[i].0);
    forall j | 0 <= j < |objs| && j != i
      ensures objs[j].0 != objs[i].0
    {
      if j < i {
        UniqueKeysDistinct(objs, j, i);
      } else {
        UniqueKeysDistinct(objs, i, j);
      }
    }
  }

  /** Both boundary values belong to the middle: `width // 3` is not left and
      `2 * width // 3` is not right. */
  lemma ZoneBoundaries(width: int)
    requires width >= 0
    ensures ZoneOf(width / 3, width) == Middle
    ensures ZoneOf(2 * width / 3, width) == Middle
    ensures ZoneOf(width / 3 - 1, width) == Left
    ensures ZoneOf(2 * width / 3 + 1, width) == Right
  {
  }

  /** For a 600-pixel frame: 199 is left, 200 and 400 are middle, 401 is right. */
  lemma ZonesAt600()
    ensures ZoneOf(199, 600) == Left && ZoneOf(200, 600) == Middle
    ensures ZoneOf(400, 600) == Middle && ZoneOf(401, 600) == Right
  {
  }

  /** Two frames, {"cup" at (10, 5)} and then {"cup" at (400, 5), "book" at (5, 5)},
      in a 600-pixel frame: "cup" keeps its first place and takes the newer
      position, "book" follows; the book is on the left and the cup in the middle. */
  lemma TwoFrameScenario<C>(c1: C, c2: C, c3: C)
    ensures var merged := Merge([[("cup", Detection((10, 5), c1))],
                                 [("cup", Detection((400, 5), c2)), ("book", Detection((5, 5), c3))]]);
      && merged == [("cup", Detection((400, 5), c2)), ("book", Detection((5, 5), c3))]
      && Categorize(merged, 600) == (["book"], ["cup"], [])
  {
    var f1: Snapshot<C> := [("cup", Detection((10, 5), c1))];
    var f2: Snapshot<C> := [("cup", Detection((400, 5), c2)), ("book", Detection((5, 5), c3))];
    assert [f1, f2][..1] == [f1];
    assert [f1][..0] == [];
    var m1 := [("cup", Detection((10, 5), c1))];
    assert Merge([f1]) == Update([], f1) == m1;
    var m := [("cup", Detection((400, 5), c2)), ("book", Detection((5, 5), c3))];
    assert Set(m1, "cup", Detection((400, 5), c2)) == [m[0]];
    assert Set([m[0]], "book", Detection((5, 5), c3)) == m;
    assert f2[1..][1..] == [];
    assert Update([m[0]], f2[1..]) == m;
    assert Merge([f1, f2]) == Update(m1, f2) == m;
    assert m[..1] == [m[0]];
    assert LabelsIn([m[0]], 600, Left) == [];
    assert LabelsIn([m[0]], 600, Middle) == ["cup"];
    assert LabelsIn([m[0]], 600, Right) == [];
    assert ZoneOf(5, 600) == Left;
    assert LabelsIn(m, 600, Left) == ["book"];
    assert LabelsIn(m, 600, Middle) == ["cup"];
    assert LabelsIn(m, 600, Right) == [];
  }

  // ---------------------------------------------------------------------------
  // announce_objects
  // ---------------------------------------------------------------------------

  /** `', '.join(names) or 'None'`: the joined names, or "None" when that string is empty. */
  function JoinedOrNone(names: seq<string>): string {
    var joined := Join(", ", names);
    if joined == "" then "None" else joined
  }

  /** The sentence `announce_objects(left, middle, right)` speaks. */
  function Announcement(left: seq<string>, middle: seq<string>, right: seq<string>): string {
    "Objects on the left: " + JoinedOrNone(left) + ". "
    + "Objects in the middle: " + JoinedOrNone(middle) + ". "
    + "Objects on the right: " + JoinedOrNone(right) + "."
  }

  /** `announce_objects(left, middle, right)`. */
  method AnnounceObjects(speaker: Speaker, left: seq<string>, middle: seq<string>, right: seq<string>)
    modifies speaker
    ensures speaker.log == old(speaker.log) + [Announcement(left, middle, right)]
  {
    speaker.Say(Announcement(left, middle, right));
  }

  /** With non-empty labels, the continuous announcement is word for word the
      summary `handle_object_query` gives for a generic query. */
  lemma AnnouncementIsSummary(left: seq<string>, middle: seq<string>, right: seq<string>)
    requires forall i :: 0 <= i < |left| ==> left[i] != []
    requires forall i :: 0 <= i < |middle| ==> middle[i] != []
    requires forall i :: 0 <= i < |right| ==> right[i] != []
    ensures Announcement(left, middle, right) == RegionResponse(Everywhere, left, middle, right)
  {
    JoinNonEmpty(left);
    JoinNonEmpty(middle);
    JoinNonEmpty(right);
  }

  /** Joining non-empty labels gives the empty string only for no labels. */
  lemma JoinNonEmpty(names: seq<string>)
    requires forall i :: 0 <= i < |names| ==> names[i] != []
    ensures JoinedOrNone(names) == NamesOrNone(names)
  {
    if |names| > 1 {
      assert |Join(", ", names)| >= |names[0]|;
    }
  }

  // ---------------------------------------------------------------------------
  // handle_object_query
  // ---------------------------------------------------------------------------

  const LeftKeywords: seq<string> := ["left"]
  const MiddleKeywords: seq<string> := ["middle", "center"]
  const RightKeywords: seq<string> := ["right"]
  const AllKeywords: seq<string> := ["object", "objects", "nearby"]

  /** `LOCATION_KEYWORDS`, group name to keywords, in declaration order. */
  const LocationKeywords: Dict<seq<string>> := [
    ("left", LeftKeywords),
    ("middle", MiddleKeywords),
    ("right", RightKeywords),
    ("all", AllKeywords)
  ]

  /** The query holds a keyword of some group of `LOCATION_KEYWORDS`. */
  predicate HasLocationKeyword(lowerQuery: string) {
    exists i :: 0 <= i < |LocationKeywords| && ContainsAny(lowerQuery, LocationKeywords[i].1)
  }

  /** What a location query asks about. */
  datatype Region = OnLeft | InMiddle | OnRight | Everywhere

  /** The query's region: the first group, in the order left, middle, right,
      whose keyword occurs; the whole frame if only a generic keyword occurs. */
  function QueryRegion(lowerQuery: string): Option<Region> {
    if !HasLocationKeyword(lowerQuery) then None
    else if ContainsAny(lowerQuery, LeftKeywords) then Some(OnLeft)
    else if ContainsAny(lowerQuery, MiddleKeywords) then Some(InMiddle)
    else if ContainsAny(lowerQuery, RightKeywords) then Some(OnRight)
    else Some(Everywhere)
  }

  /** `', '.join(names) if names else 'None'`. */
  function NamesOrNone(names: seq<string>): string {
    if names != [] then Join(", ", names) else "None"
  }

  /** The answer `handle_object_query` speaks for a region. */
  function RegionResponse(r: Region, left: seq<string>, middle: seq<string>, right: seq<string>): string {
    match r
    case OnLeft =>
      if left != [] then "Objects on the left: " + Join(", ", left) + "." else "No objects on the left."
    case InMiddle =>
      if middle != [] then "Objects in the middle: " + Join(", ", middle) + "." else "No objects in the middle."
    case OnRight =>
      if right != [] then "Objects on the right: " + Join(", ", right) + "." else "No objects on the right."
    case Everywhere =>
      "Objects on the left: " + NamesOrNone(left) + ". "
      + "Objects in the middle: " + NamesOrNone(middle) + ". "
      + "Objects on the right: " + NamesOrNone(right) + "."
  }

  /** The answer to `user_query`, or `None` when it is not a location query. */
  function ObjectQueryAnswer<C>(objs: Dict<Detection<C>>, userQuery: string, width: int): Option<string> {
    match QueryRegion(Lower(userQuery))
    case None => None
    case Some(r) =>
      var (left, middle, right) := Categorize(objs, width);
      Some(RegionResponse(r, left, middle, right))
  }

  /** What is spoken for an optional answer. */
  function Said(answer: Option<string>): seq<string> {
    match answer
    case None => []
    case Some(a) => [a]
  }

  /** A query is answered exactly when its lower-cased text holds a location keyword. */
  lemma ObjectAnswerIff<C>(objs: Dict<Detection<C>>, userQuery: string, width: int)
    ensures ObjectQueryAnswer(objs, userQuery, width).Some? <==> HasLocationKeyword(Lower(userQuery))
  {
    RegionPrecedence(Lower(userQuery));
  }

  /** `handle_object_query(user_query, width)`: lower-case the query; without a
      location keyword return False and say nothing; otherwise categorise the
      recognised objects, speak the answer for the query's region, return True. */
  method HandleObjectQuery<C>(tracker: ObjectTracker<C>, speaker: Speaker, userQuery: string, width: int)
    returns (handled: bool)
    modifies speaker
    ensures handled == HasLocationKeyword(Lower(userQuery))
    ensures handled == ObjectQueryAnswer(tracker.recognizedObjects, userQuery, width).Some?
    ensures speaker.log == old(speaker.log) + Said(ObjectQueryAnswer(tracker.recognizedObjects, userQuery, width))
  {
    var region := QueryRegion(Lower(userQuery));
    if region == None {
      return false;
    }
    var left, middle, right := CategorizeObjects(tracker, width);
    speaker.Say(RegionResponse(region.value, left, middle, right));
    return true;
  }

  /** A location query is one holding "left", "middle", "center", "right", "object"
      or "nearby" ("objects" adds nothing, as it contains "object"). */
  lemma LocationKeywordIff(q: string)
    ensures HasLocationKeyword(q) <==>
      Contains(q, "left") || Contains(q, "middle") || Contains(q, "center") ||
      Contains(q, "right") || Contains(q, "object") || Contains(q, "nearby")
  {
    assert LocationKeywords[0].1 == LeftKeywords && LocationKeywords[1].1 == MiddleKeywords;
    assert LocationKeywords[2].1 == RightKeywords && LocationKeywords[3].1 == AllKeywords;
    assert MiddleKeywords[1..][1..] == [] && AllKeywords[1..][1..][1..] == [];
    if Contains(q, "objects") {
      assert "object" <= "objects";
      ContainsTransitive(q, "objects", "object");
    }
    if Contains(q, "left") { assert ContainsAny(q, LocationKeywords[0].1); }
    if Contains(q, "middle") || Contains(q, "center") { assert ContainsAny(q, LocationKeywords[1].1); }
    if Contains(q, "right") { assert ContainsAny(q, LocationKeywords[2].1); }
    if Contains(q, "object") || Contains(q, "nearby") { assert ContainsAny(q, LocationKeywords[3].1); }
  }

  /** Keyword precedence: left, then middle or center, then right, then the
      summary for object, objects or nearby; with none of them there is no answer. */
  lemma RegionPrecedence(q: string)
    ensures Contains(q, "left") ==> QueryRegion(q) == Some(OnLeft)
    ensures (!Contains(q, "left") && (Contains(q, "middle") || Contains(q, "center"))) ==>
      QueryRegion(q) == Some(InMiddle)
    ensures (!Contains(q, "left") && !Contains(q, "middle") && !Contains(q, "center") && Contains(q, "right")) ==>
      QueryRegion(q) == Some(OnRight)
    ensures (!Contains(q, "left") && !Contains(q, "middle") && !Contains(q, "center") && !Contains(q, "right") &&
             (Contains(q, "object") || Contains(q, "nearby"))) ==> QueryRegion(q) == Some(Everywhere)
    ensures QueryRegion(q) == None <==> !HasLocationKeyword(q)
  {
    LocationKeywordIff(q);
    assert MiddleKeywords[1..][1..] == [];
  }

  /** A query for an empty zone is answered "No objects on the left." (middle,
      right alike); the summary shows an empty zone as "None". */
  lemma EmptyZoneAnswers(names: seq<string>)
    ensures RegionResponse(OnLeft, [], names, names) == "No objects on the left."
    ensures RegionResponse(InMiddle, names, [], names) == "No objects in the middle."
    ensures RegionResponse(OnRight, names, names, []) == "No objects on the right."
    ensures NamesOrNone([]) == "None"
  {
  }
}
