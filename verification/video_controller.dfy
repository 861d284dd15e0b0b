/** `getAllVideos`: builds the feed's aggregation pipeline from the query
    parameters one `push` at a time, runs it over the videos collection and
    hands the result to the paginator with the parsed `page` and `limit`. */
module VideoController {
  import opened Common
  import opened FeedStages
  import opened JsParseInt

  /** The query parameters; `None` is a parameter that was not sent. */
  datatype FeedParams = FeedParams(
    page: Option<string>,
    limit: Option<string>,
    query: Option<string>,
    sortBy: Option<string>,
    sortType: Option<string>,
    userId: Option<string>)

  /** A parameter is truthy: sent, and not the empty string. */
  predicate Given(p: Option<string>) {
    p.Some? && p.value != ""
  }

  /** The order `sortType` asks for: `"asc"` is ascending, anything else descending. */
  function Direction(sortType: string): (o: SortOrder)
    ensures o == Ascending <==> sortType == "asc"
  {
    if sortType == "asc" then Ascending else Descending
  }

  /** The stage order of the feed pipeline: the search (only when `query` is
      given, and then first), the owner match (only when `userId` is given,
      just before the published match), the published match, the sort (on
      `sortBy` in the `sortType` direction when both are given, else newest
      first), the owner lookup and the unwind. */
  predicate FeedShape(p: seq<Stage>, params: FeedParams) {
    && |p| == 4 + (if Given(params.query) then 1 else 0) + (if Given(params.userId) then 1 else 0)
    && (Given(params.query) ==> p[0] == Search("search-videos", params.query.value, ["title", "description"]))
    && (forall i :: 0 <= i < |p| && p[i].Search? ==> i == 0 && Given(params.query))
    && (Given(params.userId) ==> p[|p| - 5] == MatchOwner(params.userId.value))
    && (forall i :: 0 <= i < |p| && p[i].MatchOwner? ==> i == |p| - 5 && Given(params.userId))
    && p[|p| - 4] == MatchPublished
    && (Given(params.sortBy) && Given(params.sortType) ==>
          p[|p| - 3] == Sort(params.sortBy.value, Direction(params.sortType.value)))
    && (!(Given(params.sortBy) && Given(params.sortType)) ==> p[|p| - 3] == Sort("createdAt", Descending))
    && p[|p| - 2] == LookupOwner
    && p[|p| - 1] == UnwindOwner
  }

  /** The stages in front of the published match make a feed-shaped
      pipeline when they hold the search only with `query` and only first,
      and the owner match only with `userId` and only last. */
  lemma FeedShapeOfParts(front: seq<Stage>, sort: Stage, params: FeedParams)
    requires |front| == (if Given(params.query) then 1 else 0) + (if Given(params.userId) then 1 else 0)
    requires Given(params.query) ==> front[0] == Search("search-videos", params.query.value, ["title", "description"])
    requires Given(params.userId) ==> front[|front| - 1] == MatchOwner(params.userId.value)
    requires forall i :: 0 <= i < |front| && front[i].Search? ==> i == 0 && Given(params.query)
    requires forall i :: 0 <= i < |front| && front[i].MatchOwner? ==> i == |front| - 1 && Given(params.userId)
    requires Given(params.sortBy) && Given(params.sortType) ==>
      sort == Sort(params.sortBy.value, Direction(params.sortType.value))
    requires !(Given(params.sortBy) && Given(params.sortType)) ==> sort == Sort("createdAt", Descending)
    ensures FeedShape(front + [MatchPublished, sort, LookupOwner, UnwindOwner], params)
  {
    var p := front + [MatchPublished, sort, LookupOwner, UnwindOwner];
    assert forall i :: 0 <= i < |front| ==> p[i] == front[i];
    assert p[|p| - 4] == MatchPublished && p[|p| - 3] == sort;
    assert p[|p| - 2] == LookupOwner && p[|p| - 1] == UnwindOwner;
  }

  /** Builds the pipeline. A `userId` that is given but malformed is
      rejected with 400, and no pipeline is produced. */
  method BuildPipeline(params: FeedParams, isValidId: string -> bool) returns (r: Result<seq<Stage>>)
    ensures r.Failure? <==> Given(params.userId) && !isValidId(params.userId.value)
    ensures r.Failure? ==> r.error == ApiError(400, "Invalid userId")
    ensures r.Success? ==> 4 <= |r.value| <= 6 && FeedShape(r.value, params)
  {
    var pipeline: seq<Stage> := [];
    if Given(params.query) {
      pipeline := pipeline + [Search("search-videos", params.query.value, ["title", "description"])];
    }
    assert forall i :: 0 <= i < |pipeline| ==> pipeline[i].Search?;
    if Given(params.userId) {
      if !isValidId(params.userId.value) {
        return Failure(ApiError(400, "Invalid userId"));
      }
      pipeline := pipeline + [MatchOwner(params.userId.value)];
    }
    ghost var front := pipeline;
    pipeline := pipeline + [MatchPublished];
    var sort;
    if Given(params.sortBy) && Given(params.sortType) {
      sort := Sort(params.sortBy.value, Direction(params.sortType.value));
    } else {
      sort := Sort("createdAt", Descending);
    }
    pipeline := pipeline + [sort];
    pipeline := pipeline + [LookupOwner, UnwindOwner];
    assert pipeline == front + [MatchPublished, sort, LookupOwner, UnwindOwner];
    FeedShapeOfParts(front, sort, params);
    return Success(pipeline);
  }

  /** The video passes the feed's filters: it is published, matches the
      search when there is one, and belongs to `userId` when one is given. */
  predicate Selected(v: Video, params: FeedParams, matches: (Video, string) -> bool) {
    && v.isPublished
    && (Given(params.query) ==> matches(v, params.query.value))
    && (Given(params.userId) ==> v.owner == params.userId.value)
  }

  /** Before the owner lookup, a feed-shaped pipeline only filters and sorts. */
  lemma FeedStagesBeforeJoin(p: seq<Stage>, params: FeedParams)
    requires FeedShape(p, params)
    ensures forall i :: 0 <= i < |p| - 2 ==> IsVideoStage(p[i])
  {
    forall i | 0 <= i < |p| - 2 ensures IsVideoStage(p[i]) {
      if i < |p| - 4 && !(i == |p| - 5 && Given(params.userId)) {
        assert i == 0 && Given(params.query);
      }
    }
  }

  /** The filters of a feed-shaped pipeline admit exactly the selected videos. */
  lemma FeedFilters(p: seq<Stage>, params: FeedParams, matches: (Video, string) -> bool)
    requires FeedShape(p, params)
    ensures forall v :: AdmittedByAll(p[..|p| - 2], v, matches) <==> Selected(v, params, matches)
  {
    var pre := p[..|p| - 2];
    forall v ensures AdmittedByAll(pre, v, matches) <==> Selected(v, params, matches) {
      if AdmittedByAll(pre, v, matches) {
        assert Admits(pre[|p| - 4], v, matches);
        if Given(params.query) {
          assert Admits(pre[0], v, matches);
        }
        if Given(params.userId) {
          assert Admits(pre[|p| - 5], v, matches);
        }
      }
      if Selected(v, params, matches) {
        forall i | 0 <= i < |pre| ensures Admits(pre[i], v, matches) {
          assert pre[i] == p[i];
          if i < |p| - 4 && !(i == |p| - 5 && Given(params.userId)) {
            assert i == 0 && Given(params.query);
          }
        }
      }
    }
  }


  /** A feed-shaped pipeline is its filters and sort followed by the owner
      lookup and the unwind. */
  lemma FeedShapeSplit(p: seq<Stage>, params: FeedParams)
    requires FeedShape(p, params)
    ensures p == p[..|p| - 2] + [LookupOwner, UnwindOwner]
  {
    assert p[|p| - 2..] == [LookupOwner, UnwindOwner];
    assert p == p[..|p| - 2] + p[|p| - 2..];
  }

  /** Every document the built pipeline yields is a selected video of the
      collection, with its owner's details. */
  lemma BuiltFeedSound(p: seq<Stage>, params: FeedParams, videos: seq<Video>, users: Users,
                       matches: (Video, string) -> bool, docs: seq<Row>)
    requires FeedShape(p, params)
    requires docs == Run(p, Documents(videos), users, matches)
    ensures forall k :: 0 <= k < |docs| ==>
      docs[k].video in videos && Selected(docs[k].video, params, matches) && HasOwner(docs[k], users)
  {
    var rows := Documents(videos);
    DocumentsVideos(videos);
    var pre := p[..|p| - 2];
    FeedShapeSplit(p, params);
    FeedStagesBeforeJoin(p, params);
    FeedPipelineSound(pre, rows, users, matches);
    FeedFilters(p, params, matches);
  }

  /** The built pipeline yields every selected video of the collection whose
      owner exists, as often as the collection holds it, and no other video. */
  lemma BuiltFeedVideos(p: seq<Stage>, params: FeedParams, videos: seq<Video>, users: Users,
                        matches: (Video, string) -> bool, docs: seq<Row>)
    requires FeedShape(p, params)
    requires docs == Run(p, Documents(videos), users, matches)
    ensures forall v :: multiset(Videos(docs))[v]
                     == if Selected(v, params, matches) && v.owner in users then multiset(videos)[v] else 0
  {
    var rows := Documents(videos);
    DocumentsVideos(videos);
    var pre := p[..|p| - 2];
    FeedShapeSplit(p, params);
    FeedStagesBeforeJoin(p, params);
    FeedPipelineVideos(pre, rows, users, matches);
    FeedFilters(p, params, matches);
  }

  /** What the built pipeline yields is in the requested order: by `sortBy`
      in the `sortType` direction when both are given, else newest first. */
  lemma BuiltFeedSorted(p: seq<Stage>, params: FeedParams, videos: seq<Video>, users: Users,
                        matches: (Video, string) -> bool, docs: seq<Row>)
    requires FeedShape(p, params)
    requires docs == Run(p, Documents(videos), users, matches)
    ensures Given(params.sortBy) && Given(params.sortType) ==>
      SortedBy(docs, params.sortBy.value, Direction(params.sortType.value))
    ensures !(Given(params.sortBy) && Given(params.sortType)) ==> SortedBy(docs, "createdAt", Descending)
  {
    var sort := p[|p| - 3];
    var front := p[..|p| - 3];
    assert p == front + [Sort(sort.field, sort.order)] + [LookupOwner, UnwindOwner];
    FeedPipelineSorted(front, sort.field, sort.order, Documents(videos), users, matches);
  }

  /** What the paginator is handed: the aggregation's documents and the
      parsed `page` and `limit` (`None` is `NaN`). */
  datatype FeedPage = FeedPage(docs: seq<Row>, page: Option<int>, limit: Option<int>)

  /** `getAllVideos` over the `videos` and `users` collections; `matches`
      stands for the search index's text match. On success the documents are
      exactly the selected videos whose owner has a user document, each with
      that owner's username and avatar URL, each as often as the collection
      holds it, in the requested order. */
  method GetAllVideos(params: FeedParams, videos: seq<Video>, users: Users,
                      isValidId: string -> bool, matches: (Video, string) -> bool)
    returns (r: Result<FeedPage>)
    ensures r.Failure? <==> Given(params.userId) && !isValidId(params.userId.value)
    ensures r.Failure? ==> r.error == ApiError(400, "Invalid userId")
    ensures r.Success? ==> forall k :: 0 <= k < |r.value.docs| ==>
      && r.value.docs[k].video in videos
      && Selected(r.value.docs[k].video, params, matches)
      && HasOwner(r.value.docs[k], users)
    ensures r.Success? ==> forall v ::
      multiset(Videos(r.value.docs))[v] == (if Selected(v, params, matches) && v.owner in users then multiset(videos)[v] else 0)
    ensures r.Success? ==> forall v :: v in videos && Selected(v, params, matches) && v.owner in users ==>
      v in Videos(r.value.docs)
    ensures r.Success? && Given(params.sortBy) && Given(params.sortType) ==>
      SortedBy(r.value.docs, params.sortBy.value, Direction(params.sortType.value))
    ensures r.Success? && !(Given(params.sortBy) && Given(params.sortType)) ==>
      SortedBy(r.value.docs, "createdAt", Descending)
    ensures r.Success? ==>
      r.value.page == ParseInt(params.page.GetOr("1")) && r.value.limit == ParseInt(params.limit.GetOr("10"))
  {
    var built := BuildPipeline(params, isValidId);
    if built.Failure? {
      return Failure(built.error);
    }
    var pipeline := built.value;
    var docs := Run(pipeline, Documents(videos), users, matches);
    BuiltFeedSound(pipeline, params, videos, users, matches, docs);
    BuiltFeedVideos(pipeline, params, videos, users, matches, docs);
    BuiltFeedSorted(pipeline, params, videos, users, matches, docs);

    var page := ParseInt(params.page.GetOr("1"));
    var limit := ParseInt(params.limit.GetOr("10"));
    return Success(FeedPage(docs, page, limit));
  }
}
