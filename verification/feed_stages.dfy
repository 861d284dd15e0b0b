/** The stages of the video feed's aggregation pipeline and what each one
    does to the stream of documents flowing through it. */
module FeedStages {
  import opened Common

  /** A video document. */
  datatype Video = Video(
    id: Id,
    owner: Id,
    title: string,
    description: string,
    videoFile: Asset,
    thumbnail: Asset,
    duration: int,
    views: nat,
    isPublished: bool,
    createdAt: int)

  /** `1` (ascending) or `-1` (descending) in a `$sort`. */
  datatype SortOrder = Ascending | Descending

  datatype Stage =
    | Search(index: string, query: string, paths: seq<string>)  // $search with the text operator
    | MatchOwner(owner: Id)                                      // $match { owner }
    | MatchPublished                                             // $match { isPublished: true }
    | Sort(field: string, order: SortOrder)                      // $sort { [field]: order }
    | LookupOwner                                                // $lookup users as ownerDetails
    | UnwindOwner                                                // $unwind "$ownerDetails"

  /** What the owner lookup's `$project: { username: 1, "avatar.url": 1 }`
      keeps of a user document; `_id` is kept because a projection that
      includes fields keeps it unless told otherwise. */
  datatype OwnerDetails = OwnerDetails(id: Id, username: string, avatar: AvatarUrl)

  /** The `ownerDetails` field: absent, the array a `$lookup` puts there, or
      the single value an `$unwind` leaves. */
  datatype OwnerField = Absent | Joined(matches: seq<OwnerDetails>) | Unwound(details: OwnerDetails)

  /** A document in the pipeline: a video and its `ownerDetails` field. */
  datatype Row = Row(video: Video, ownerDetails: OwnerField)

  /** The videos of the documents, in order. */
  function Videos(rows: seq<Row>): (vs: seq<Video>)
    ensures |vs| == |rows|
  {
    if rows == [] then [] else [rows[0].video] + Videos(rows[1..])
  }

  lemma {:induction false} VideosAt(rows: seq<Row>)
    ensures forall k :: 0 <= k < |rows| ==> Videos(rows)[k] == rows[k].video
  {
    if rows != [] {
      VideosAt(rows[1..]);
      forall k | 0 < k < |rows| ensures Videos(rows)[k] == rows[k].video {
        assert Videos(rows)[k] == Videos(rows[1..])[k - 1];
      }
    }
  }

  lemma VideosConcat(a: seq<Row>, b: seq<Row>)
    ensures Videos(a + b) == Videos(a) + Videos(b)
  {
    VideosAt(a + b);
    VideosAt(a);
    VideosAt(b);
    var joined := Videos(a + b);
    var parts := Videos(a) + Videos(b);
    forall k | 0 <= k < |joined| ensures joined[k] == parts[k] {
      if k < |a| {
        assert (a + b)[k] == a[k];
      } else {
        assert (a + b)[k] == b[k - |a|];
      }
    }
  }

  /** The collection's documents as they enter the pipeline: each video
      without an `ownerDetails` field. */
  function Documents(videos: seq<Video>): (rows: seq<Row>)
    ensures |rows| == |videos|
  {
    if videos == [] then [] else [Row(videos[0], Absent)] + Documents(videos[1..])
  }

  /** The pipeline starts from every video of the collection, in order,
      none with an `ownerDetails` field. */
  lemma {:induction false} DocumentsVideos(videos: seq<Video>)
    ensures Videos(Documents(videos)) == videos
    ensures forall k :: 0 <= k < |videos| ==> Documents(videos)[k].ownerDetails == Absent
  {
    if videos != [] {
      DocumentsVideos(videos[1..]);
      assert videos == [videos[0]] + videos[1..];
      forall k | 0 < k < |videos| ensures Documents(videos)[k].ownerDetails == Absent {
        assert Documents(videos)[k] == Documents(videos[1..])[k - 1];
      }
    }
  }

  // ---------------------------------------------------------------------
  // Filtering stages

  /** Whether a filtering stage lets a video through; `matches` stands for
      the external search index's full-text match. Other stages let
      everything through. */
  predicate Admits(stage: Stage, v: Video, matches: (Video, string) -> bool) {
    match stage
    case Search(_, query, _) => matches(v, query)
    case MatchOwner(owner) => v.owner == owner
    case MatchPublished => v.isPublished
    case _ => true
  }

  function FilterRows(rows: seq<Row>, stage: Stage, matches: (Video, string) -> bool): (r: seq<Row>)
    ensures |r| <= |rows|
  {
    if rows == [] then []
    else (if Admits(stage, rows[0].video, matches) then [rows[0]] else []) + FilterRows(rows[1..], stage, matches)
  }

  /** Every document a filtering stage keeps comes from its input and has
      a video the stage admits. */
  lemma {:induction false} FilterRowsSound(rows: seq<Row>, stage: Stage, matches: (Video, string) -> bool)
    ensures forall k :: 0 <= k < |FilterRows(rows, stage, matches)| ==>
      FilterRows(rows, stage, matches)[k] in rows && Admits(stage, FilterRows(rows, stage, matches)[k].video, matches)
  {
    if rows != [] {
      FilterRowsSound(rows[1..], stage, matches);
      var head := if Admits(stage, rows[0].video, matches) then [rows[0]] else [];
      var rest := FilterRows(rows[1..], stage, matches);
      forall k | 0 <= k < |head + rest|
        ensures (head + rest)[k] in rows && Admits(stage, (head + rest)[k].video, matches)
      {
        if k >= |head| {
          assert (head + rest)[k] == rest[k - |head|];
          assert rest[k - |head|] in rows[1..];
        }
      }
    }
  }

  /** A filtering stage keeps every video it admits as often as it occurs
      in its input, and no other video. */
  lemma {:induction false} FilterRowsVideos(rows: seq<Row>, stage: Stage, matches: (Video, string) -> bool)
    ensures forall v :: multiset(Videos(FilterRows(rows, stage, matches)))[v]
                     == if Admits(stage, v, matches) then multiset(Videos(rows))[v] else 0
  {
    if rows != [] {
      FilterRowsVideos(rows[1..], stage, matches);
      var head := if Admits(stage, rows[0].video, matches) then [rows[0]] else [];
      var rest := FilterRows(rows[1..], stage, matches);
      assert FilterRows(rows, stage, matches) == head + rest;
      VideosConcat(head, rest);
      assert multiset(Videos(rows)) == multiset{rows[0].video} + multiset(Videos(rows[1..])) by {
        assert Videos(rows) == [rows[0].video] + Videos(rows[1..]);
      }
      assert Videos(head) == if Admits(stage, rows[0].video, matches) then [rows[0].video] else [];
      assert multiset(Videos(head + rest)) == multiset(Videos(head)) + multiset(Videos(rest));
    }
  }

  // ---------------------------------------------------------------------
  // Sorting

  /** The sort key of a video for `field`: the numeric fields the feed
      sorts by. The store also sorts by the string and id fields and by
      fields no document has; that ordering is not modelled, and every
      other field gives all documents the same key, so they tie. */
  function SortKey(v: Video, field: string): int {
    if field == "views" then v.views
    else if field == "duration" then v.duration
    else if field == "createdAt" then v.createdAt
    else 0
  }

  /** `a` may come before `b` in the given order. */
  predicate InOrder(a: Row, b: Row, field: string, order: SortOrder) {
    match order
    case Ascending => SortKey(a.video, field) <= SortKey(b.video, field)
    case Descending => SortKey(a.video, field) >= SortKey(b.video, field)
  }

  predicate SortedBy(rows: seq<Row>, field: string, order: SortOrder) {
    forall i, j :: 0 <= i < j < |rows| ==> InOrder(rows[i], rows[j], field, order)
  }

  function Insert(x: Row, rows: seq<Row>, field: string, order: SortOrder): (r: seq<Row>)
    ensures |r| == |rows| + 1
  {
    if rows == [] then [x]
    else if InOrder(x, rows[0], field, order) then [x] + rows
    else [rows[0]] + Insert(x, rows[1..], field, order)
  }

  lemma {:induction false} InsertPermutes(x: Row, rows: seq<Row>, field: string, order: SortOrder)
    ensures multiset(Insert(x, rows, field, order)) == multiset(rows) + multiset{x}
  {
    if rows != [] && !InOrder(x, rows[0], field, order) {
      InsertPermutes(x, rows[1..], field, order);
      assert rows == [rows[0]] + rows[1..];
    }
  }

  /** The `$sort` stage: a stable insertion sort (the store does not fix the
      order of documents with equal keys; this is one order it may give). */
  function SortRows(rows: seq<Row>, field: string, order: SortOrder): (r: seq<Row>)
    ensures |r| == |rows|
  {
    if rows == [] then []
    else Insert(rows[0], SortRows(rows[1..], field, order), field, order)
  }

  lemma {:induction false} InsertMembers(x: Row, rows: seq<Row>, field: string, order: SortOrder)
    ensures forall e :: e in Insert(x, rows, field, order) ==> e == x || e in rows
  {
    if rows != [] && !InOrder(x, rows[0], field, order) {
      InsertMembers(x, rows[1..], field, order);
    }
  }

  lemma {:induction false} InsertSorted(x: Row, rows: seq<Row>, field: string, order: SortOrder)
    requires SortedBy(rows, field, order)
    ensures SortedBy(Insert(x, rows, field, order), field, order)
  {
    if rows != [] && !InOrder(x, rows[0], field, order) {
      var rest := Insert(x, rows[1..], field, order);
      InsertSorted(x, rows[1..], field, order);
      InsertMembers(x, rows[1..], field, order);
      forall e | e in rest ensures InOrder(rows[0], e, field, order) {
        if e != x {
          var k :| 0 <= k < |rows[1..]| && rows[1..][k] == e;
          assert rows[k + 1] == e;
        }
      }
      var r := [rows[0]] + rest;
      forall i, j | 0 <= i < j < |r| ensures InOrder(r[i], r[j], field, order) {
        if i == 0 {
          assert r[j] == rest[j - 1] && r[j] in rest;
        } else {
          assert r[i] == rest[i - 1] && r[j] == rest[j - 1];
        }
      }
    }
  }

  /** The sort stage orders by the key and is a permutation of its input. */
  lemma {:induction false} SortRowsSorted(rows: seq<Row>, field: string, order: SortOrder)
    ensures SortedBy(SortRows(rows, field, order), field, order)
    ensures multiset(SortRows(rows, field, order)) == multiset(rows)
  {
    if rows != [] {
      SortRowsSorted(rows[1..], field, order);
      InsertSorted(rows[0], SortRows(rows[1..], field, order), field, order);
      InsertPermutes(rows[0], SortRows(rows[1..], field, order), field, order);
      assert rows == [rows[0]] + rows[1..];
    }
  }

  lemma {:induction false} InsertVideos(x: Row, rows: seq<Row>, field: string, order: SortOrder)
    ensures multiset(Videos(Insert(x, rows, field, order))) == multiset(Videos(rows)) + multiset{x.video}
  {
    if rows == [] {
      assert Videos([x]) == [x.video];
    } else {
      assert Videos(rows) == [rows[0].video] + Videos(rows[1..]);
      if InOrder(x, rows[0], field, order) {
        VideosConcat([x], rows);
        assert Videos([x]) == [x.video];
      } else {
        InsertVideos(x, rows[1..], field, order);
        var rest := Insert(x, rows[1..], field, order);
        VideosConcat([rows[0]], rest);
        assert Videos([rows[0]]) == [rows[0].video];
      }
    }
  }

  /** The sort stage passes on every video exactly as often as it came in. */
  lemma {:induction false} SortRowsVideos(rows: seq<Row>, field: string, order: SortOrder)
    ensures multiset(Videos(SortRows(rows, field, order))) == multiset(Videos(rows))
  {
    if rows != [] {
      SortRowsVideos(rows[1..], field, order);
      InsertVideos(rows[0], SortRows(rows[1..], field, order), field, order);
      assert Videos(rows) == [rows[0].video] + Videos(rows[1..]);
    }
  }

  // ---------------------------------------------------------------------
  // Joining the owner

  function Summary(id: Id, user: User): OwnerDetails {
    OwnerDetails(id, user.username, AvatarUrl(user.avatar.url))
  }

  /** `$lookup` from `users` on `owner` = `_id`, trimmed by the projection,
      into `ownerDetails`: an array with the owner's summary, or an empty
      one when no user has that id. */
  function LookupRows(rows: seq<Row>, users: Users): (r: seq<Row>)
    ensures |r| == |rows|
  {
    if rows == [] then []
    else
      var v := rows[0].video;
      [Row(v, Joined(if v.owner in users then [Summary(v.owner, users[v.owner])] else []))]
        + LookupRows(rows[1..], users)
  }

  /** One document per element of `ds`, each with that element as its
      `ownerDetails`. */
  function UnwindDetails(v: Video, ds: seq<OwnerDetails>): (r: seq<Row>)
    ensures |r| == |ds|
  {
    if ds == [] then [] else [Row(v, Unwound(ds[0]))] + UnwindDetails(v, ds[1..])
  }

  /** `$unwind` of one document: one document per array element (none for
      an empty array or an absent field); a non-array value stays as it is. */
  function UnwindRow(row: Row): seq<Row> {
    match row.ownerDetails
    case Absent => []
    case Joined(ds) => UnwindDetails(row.video, ds)
    case Unwound(_) => [row]
  }

  function UnwindRows(rows: seq<Row>): seq<Row> {
    if rows == [] then [] else UnwindRow(rows[0]) + UnwindRows(rows[1..])
  }

  /** The owner join and unwind together: each document whose owner exists,
      with its owner's summary; the others dropped. */
  function WithOwners(rows: seq<Row>, users: Users): (r: seq<Row>)
    ensures |r| <= |rows|
  {
    if rows == [] then []
    else
      var v := rows[0].video;
      (if v.owner in users then [Row(v, Unwound(Summary(v.owner, users[v.owner])))] else [])
        + WithOwners(rows[1..], users)
  }

  lemma {:induction false} LookupThenUnwind(rows: seq<Row>, users: Users)
    ensures UnwindRows(LookupRows(rows, users)) == WithOwners(rows, users)
  {
    if rows != [] {
      LookupThenUnwind(rows[1..], users);
      var looked := LookupRows(rows, users);
      assert looked[1..] == LookupRows(rows[1..], users);
    }
  }

  /** The document carries its owner's summary. */
  predicate HasOwner(row: Row, users: Users) {
    && row.video.owner in users
    && row.ownerDetails == Unwound(Summary(row.video.owner, users[row.video.owner]))
  }

  /** Every joined document carries its own owner's summary. */
  lemma {:induction false} WithOwnersDetails(rows: seq<Row>, users: Users)
    ensures forall k :: 0 <= k < |WithOwners(rows, users)| ==> HasOwner(WithOwners(rows, users)[k], users)
  {
    if rows != [] {
      WithOwnersDetails(rows[1..], users);
      var v := rows[0].video;
      var head := if v.owner in users then [Row(v, Unwound(Summary(v.owner, users[v.owner])))] else [];
      var rest := WithOwners(rows[1..], users);
      assert WithOwners(rows, users) == head + rest;
      forall k | 0 <= k < |head + rest| ensures HasOwner((head + rest)[k], users) {
        if k >= |head| {
          assert (head + rest)[k] == rest[k - |head|];
        }
      }
    }
  }

  /** The join keeps every video whose owner has a user document as often
      as it occurs in its input, and drops every other video. */
  lemma {:induction false} WithOwnersVideos(rows: seq<Row>, users: Users)
    ensures forall v :: multiset(Videos(WithOwners(rows, users)))[v]
                     == if v.owner in users then multiset(Videos(rows))[v] else 0
  {
    if rows != [] {
      WithOwnersVideos(rows[1..], users);
      var v := rows[0].video;
      var head := if v.owner in users then [Row(v, Unwound(Summary(v.owner, users[v.owner])))] else [];
      var rest := WithOwners(rows[1..], users);
      assert WithOwners(rows, users) == head + rest;
      VideosConcat(head, rest);
      assert Videos(rows) == [v] + Videos(rows[1..]);
      assert Videos(head) == if v.owner in users then [v] else [];
    }
  }

  /** Every joined document comes after `x` in the order when every input
      document does. */
  lemma {:induction false} WithOwnersBounded(x: Row, rows: seq<Row>, users: Users, field: string, order: SortOrder)
    requires forall j :: 0 <= j < |rows| ==> InOrder(x, rows[j], field, order)
    ensures forall k :: 0 <= k < |WithOwners(rows, users)| ==> InOrder(x, WithOwners(rows, users)[k], field, order)
  {
    if rows != [] {
      WithOwnersBounded(x, rows[1..], users, field, order);
      var v := rows[0].video;
      var head := if v.owner in users then [Row(v, Unwound(Summary(v.owner, users[v.owner])))] else [];
      var rest := WithOwners(rows[1..], users);
      forall k | 0 <= k < |head + rest| ensures InOrder(x, (head + rest)[k], field, order) {
        if k >= |head| {
          assert (head + rest)[k] == rest[k - |head|];
        }
      }
    }
  }

  /** The join keeps the order the sort established. */
  lemma {:induction false} WithOwnersSorted(rows: seq<Row>, users: Users, field: string, order: SortOrder)
    requires SortedBy(rows, field, order)
    ensures SortedBy(WithOwners(rows, users), field, order)
  {
    if rows != [] {
      WithOwnersSorted(rows[1..], users, field, order);
      var v := rows[0].video;
      var rest := WithOwners(rows[1..], users);
      if v.owner in users {
        var h := Row(v, Unwound(Summary(v.owner, users[v.owner])));
        WithOwnersBounded(rows[0], rows[1..], users, field, order);
        var r := [h] + rest;
        forall i, j | 0 <= i < j < |r| ensures InOrder(r[i], r[j], field, order) {
          if i == 0 {
            assert InOrder(rows[0], rest[j - 1], field, order);
          } else {
            assert r[i] == rest[i - 1] && r[j] == rest[j - 1];
          }
        }
      }
    }
  }

  // ---------------------------------------------------------------------
  // Running a pipeline

  function RunStage(stage: Stage, rows: seq<Row>, users: Users, matches: (Video, string) -> bool): seq<Row> {
    match stage
    case Search(_, _, _) => FilterRows(rows, stage, matches)
    case MatchOwner(_) => FilterRows(rows, stage, matches)
    case MatchPublished => FilterRows(rows, stage, matches)
    case Sort(field, order) => SortRows(rows, field, order)
    case LookupOwner => LookupRows(rows, users)
    case UnwindOwner => UnwindRows(rows)
  }

  /** The documents a pipeline yields from the collection's documents. */
  function Run(pipeline: seq<Stage>, rows: seq<Row>, users: Users, matches: (Video, string) -> bool): seq<Row>
    decreases |pipeline|
  {
    if pipeline == [] then rows
    else Run(pipeline[1..], RunStage(pipeline[0], rows, users, matches), users, matches)
  }

  /** A stage that works on the video alone: a filter or a sort. */
  predicate IsVideoStage(stage: Stage) {
    !stage.LookupOwner? && !stage.UnwindOwner?
  }

  /** Every filtering stage of `pipeline` admits `v`. */
  predicate AdmittedByAll(pipeline: seq<Stage>, v: Video, matches: (Video, string) -> bool) {
    forall i :: 0 <= i < |pipeline| ==> Admits(pipeline[i], v, matches)
  }

  lemma {:induction false} RunConcat(a: seq<Stage>, b: seq<Stage>, rows: seq<Row>, users: Users, matches: (Video, string) -> bool)
    ensures Run(a + b, rows, users, matches) == Run(b, Run(a, rows, users, matches), users, matches)
    decreases |a|
  {
    if a == [] {
      assert a + b == b;
    } else {
      assert (a + b)[0] == a[0];
      assert (a + b)[1..] == a[1..] + b;
      RunConcat(a[1..], b, RunStage(a[0], rows, users, matches), users, matches);
    }
  }

  /** A video passes every filter of a pipeline exactly when it passes the
      first one and every filter of the rest. */
  lemma AdmittedByAllCons(pipeline: seq<Stage>, matches: (Video, string) -> bool)
    requires pipeline != []
    ensures forall v ::
      AdmittedByAll(pipeline, v, matches) <==> Admits(pipeline[0], v, matches) && AdmittedByAll(pipeline[1..], v, matches)
  {
    forall v | Admits(pipeline[0], v, matches) && AdmittedByAll(pipeline[1..], v, matches)
      ensures AdmittedByAll(pipeline, v, matches)
    {
      forall i | 0 <= i < |pipeline| ensures Admits(pipeline[i], v, matches) {
        if i > 0 {
          assert pipeline[i] == pipeline[1..][i - 1];
        }
      }
    }
    forall v | AdmittedByAll(pipeline, v, matches)
      ensures AdmittedByAll(pipeline[1..], v, matches)
    {
      forall i | 0 <= i < |pipeline| - 1 ensures Admits(pipeline[1..][i], v, matches) {
        assert pipeline[1..][i] == pipeline[i + 1];
      }
    }
  }

  /** Running a pipeline with one more stage at the end runs that stage on
      what the pipeline yields. */
  lemma RunSnoc(pipeline: seq<Stage>, stage: Stage, rows: seq<Row>, users: Users, matches: (Video, string) -> bool)
    ensures Run(pipeline + [stage], rows, users, matches)
         == RunStage(stage, Run(pipeline, rows, users, matches), users, matches)
  {
    RunConcat(pipeline, [stage], rows, users, matches);
    assert [stage][1..] == [];
  }

  /** Filters and sorts let through every video that every filter admits,
      as often as it came in, and no other video. */
  lemma {:induction false} RunVideoStages(pipeline: seq<Stage>, rows: seq<Row>, users: Users, matches: (Video, string) -> bool)
    requires forall i :: 0 <= i < |pipeline| ==> IsVideoStage(pipeline[i])
    ensures forall v :: multiset(Videos(Run(pipeline, rows, users, matches)))[v]
                     == if AdmittedByAll(pipeline, v, matches) then multiset(Videos(rows))[v] else 0
    decreases |pipeline|
  {
    if pipeline != [] {
      var stage := pipeline[0];
      var next := RunStage(stage, rows, users, matches);
      assert IsVideoStage(stage);
      if stage.Sort? {
        SortRowsVideos(rows, stage.field, stage.order);
      } else {
        FilterRowsVideos(rows, stage, matches);
      }
      RunVideoStages(pipeline[1..], next, users, matches);
      AdmittedByAllCons(pipeline, matches);
    }
  }

  /** A feed-shaped pipeline (filters and sorts, then the owner join and
      unwind) is the owner join of what the filters and sorts leave. */
  lemma FeedPipelineJoins(pre: seq<Stage>, rows: seq<Row>, users: Users, matches: (Video, string) -> bool)
    ensures Run(pre + [LookupOwner, UnwindOwner], rows, users, matches) == WithOwners(Run(pre, rows, users, matches), users)
  {
    var mid := Run(pre, rows, users, matches);
    RunConcat(pre, [LookupOwner, UnwindOwner], rows, users, matches);
    assert [LookupOwner, UnwindOwner][1..] == [UnwindOwner];
    assert Run([LookupOwner, UnwindOwner], mid, users, matches) == UnwindRows(LookupRows(mid, users));
    LookupThenUnwind(mid, users);
  }

  /** A feed-shaped pipeline yields only input videos that every filter
      admits and whose owner exists, each with its owner's summary. */
  lemma FeedPipelineSound(pre: seq<Stage>, rows: seq<Row>, users: Users, matches: (Video, string) -> bool)
    requires forall i :: 0 <= i < |pre| ==> IsVideoStage(pre[i])
    ensures var out := Run(pre + [LookupOwner, UnwindOwner], rows, users, matches);
      forall k :: 0 <= k < |out| ==>
        && out[k].video in Videos(rows)
        && AdmittedByAll(pre, out[k].video, matches)
        && HasOwner(out[k], users)
  {
    var mid := Run(pre, rows, users, matches);
    FeedPipelineJoins(pre, rows, users, matches);
    var out := WithOwners(mid, users);
    FeedPipelineVideos(pre, rows, users, matches);
    WithOwnersDetails(mid, users);
    VideosAt(out);
    forall k | 0 <= k < |out| ensures out[k].video in Videos(rows) && AdmittedByAll(pre, out[k].video, matches) {
      assert Videos(out)[k] == out[k].video;
      assert multiset(Videos(out))[out[k].video] > 0;
    }
  }

  /** A feed-shaped pipeline yields every input video that every filter
      admits and whose owner exists, as often as it occurs in the input, and
      no other video. */
  lemma FeedPipelineVideos(pre: seq<Stage>, rows: seq<Row>, users: Users, matches: (Video, string) -> bool)
    requires forall i :: 0 <= i < |pre| ==> IsVideoStage(pre[i])
    ensures forall v :: multiset(Videos(Run(pre + [LookupOwner, UnwindOwner], rows, users, matches)))[v]
                     == if AdmittedByAll(pre, v, matches) && v.owner in users then multiset(Videos(rows))[v] else 0
  {
    var mid := Run(pre, rows, users, matches);
    FeedPipelineJoins(pre, rows, users, matches);
    RunVideoStages(pre, rows, users, matches);
    WithOwnersVideos(mid, users);
  }

  /** When the last stage before the join is a sort, the feed comes out in
      that sort's order. */
  lemma FeedPipelineSorted(front: seq<Stage>, field: string, order: SortOrder, rows: seq<Row>, users: Users,
                           matches: (Video, string) -> bool)
    ensures SortedBy(Run(front + [Sort(field, order)] + [LookupOwner, UnwindOwner], rows, users, matches), field, order)
  {
    var pre := front + [Sort(field, order)];
    RunSnoc(front, Sort(field, order), rows, users, matches);
    var mid := Run(pre, rows, users, matches);
    SortRowsSorted(Run(front, rows, users, matches), field, order);
    WithOwnersSorted(mid, users, field, order);
    FeedPipelineJoins(pre, rows, users, matches);
  }
}
