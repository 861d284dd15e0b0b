# Subscriptions and video feed of a video-sharing backend, in Dafny

This project models the two parts of the backend's controllers that hold
real logic. The document store is replaced by in-memory collections.

- **Subscriptions** (`src/controllers/subscription.controller.js`).
  - `toggleSubscription` follows or unfollows a channel for the
    authenticated user. It rejects a malformed channel id with 400. It
    looks up the `(subscriber, channel)` document. If one exists, it
    deletes that document by `_id` and answers `subscribed: false`.
    Otherwise it creates one and answers `subscribed: true`.
  - The subscriptions collection is a class (`SubscriptionCollection`)
    whose `findByIdAndDelete` and `create` update its `records` in
    place; its `findOne` only reads them. The controller method is proved against a pure
    transition, `Subscriptions.Toggle`. The lemmas about `Toggle` prove
    the toggle's promises: deletion of exactly one document, creation of
    exactly one, other pairs untouched, the at-most-one-document-per-pair
    invariant, and two toggles cancelling.
  - `getUserChannelSubscriber` is a pure function over the collection and
    the `users` map. It models the aggregation: match on the channel,
    lookup of the subscriber's user document, the nested lookup with
    `$addFields`, unwind and project. Lemmas prove which subscribers are
    listed and what each entry's `subscriberCount` and
    `subscribedToSubscriber` mean.
- **Video feed** (`getAllVideos` in `src/controllers/video.controller.js`).
  - The pipeline is built one `push` at a time from the query parameters,
    by the method `BuildPipeline`.
  - Each stage has a meaning over a sequence of documents (`FeedStages`):
    - the text search and the `$match` filters;
    - `$sort`, a stable sort by a numeric key in either direction;
    - the `$lookup` of the owner, trimmed to `_id`, `username` and
      `avatar.url`;
    - the `$unwind`.
  - `GetAllVideos` runs the pipeline. It proves that the feed holds
    exactly the published videos that pass the search and the owner
    filter and whose owner exists, each as often as the collection holds
    it and with its owner's details, in the requested order.
  - `page` and `limit` are parsed with ECMAScript's `parseInt(…, 10)`
    (section 19.2.5 of ECMA-262), which is modelled in `JsParseInt`.

Three things are parameters of the model:

- `isValidObjectId`, as `isValidId: string -> bool`;
- the search index's text match, as `matches: (Video, string) -> bool`;
- the store's generator of fresh `_id`s, as the counter `nextId`.

## Model

| member | source | states |
|---|---|---|
| Subscriptions.FindOne | src/controllers/subscription.controller.js:15-18 | the position returned holds a document of the pair and no earlier document is of the pair; `None` only when no document is of the pair |
| Subscriptions.WhereMembers | src/controllers/subscription.controller.js:48-53 | a query keeps exactly the documents of the collection that match its filter |
| Subscriptions.PairCountPositive | src/controllers/subscription.controller.js:15-18 | the pair has a positive document count exactly when some document records that subscriber following that channel |
| Subscriptions.FindOneIffPresent | src/controllers/subscription.controller.js:15-20 | `findOne` finds a document exactly when the pair has one, so `isSubscribed` is truthy exactly then |
| Subscriptions.DeleteByIdRemovesAt | src/controllers/subscription.controller.js:21 | with unique `_id`s, deleting by the `_id` of the document at position i removes exactly that document and keeps ids unique |
| Subscriptions.ToggleRejectsMalformedId | src/controllers/subscription.controller.js:11-13 | a malformed `channelId` gives 400 "Invalid channelId" and the store is exactly as before |
| Subscriptions.ToggleUnsubscribes | src/controllers/subscription.controller.js:15-25 | when the pair has a document: the answer is `subscribed: false`, the first document of the pair (the one `findOne` returns) is removed and all others stay in order, ids stay unique |
| Subscriptions.ToggleSubscribes | src/controllers/subscription.controller.js:28-35 | when the pair has none: the answer is `subscribed: true` and exactly one document `(caller, channelId)` with a fresh `_id` is appended |
| Subscriptions.ToggleKeepsOtherPairs | src/controllers/subscription.controller.js:20-31 | the documents of every other pair are the same, in the same order, before and after a toggle |
| Subscriptions.ToggleChangesOnlyChannelCount | src/controllers/subscription.controller.js:15-35 | the channel's subscriber count goes up by one on `subscribed: true` and down by one on `false`; every other channel's count is unchanged |
| Subscriptions.TogglePreservesAtMostOne | src/controllers/subscription.controller.js:15-35 | for the toggled pair, at most one document is preserved, and `subscribed` is true exactly when the pair has a document afterwards |
| Subscriptions.ToggleKeepsOtherPairCounts | src/controllers/subscription.controller.js:15-35 | every pair other than the toggled one has as many documents after the toggle as before |
| Subscriptions.ToggleKeepsAtMostOnePerPair | src/controllers/subscription.controller.js:15-35 | at most one document for every pair is an invariant of the toggle |
| Subscriptions.ToggleTwice | src/controllers/subscription.controller.js:15-35 | two toggles give opposite answers and restore the pair's presence; from "not subscribed" they restore the collection exactly |
| Subscriptions.ToggleFlips | src/controllers/subscription.controller.js:15-35 | from at most one document of the pair, a toggle flips the pair's presence (0 becomes 1, 1 becomes 0) and keeps ids unique |
| Subscriptions.SubscribeThenUnsubscribe | src/controllers/subscription.controller.js:15-35 | creating the pair's document and then deleting it by `_id` gives back the collection exactly |
| Subscriptions.ToggleKeepsWellFormed | src/controllers/subscription.controller.js:7-36 | every toggle, rejected or not, keeps `_id`s unique and issued before the next fresh one |
| SubscriptionController.SubscriptionCollection.FindOne | src/controllers/subscription.controller.js:15-18 | returns the first document of the pair in natural order, and finds one exactly when the pair has one |
| SubscriptionController.SubscriptionCollection.FindByIdAndDelete | src/controllers/subscription.controller.js:21 | removes the document with that `_id` and nothing else; ids stay unique |
| SubscriptionController.SubscriptionCollection.Create | src/controllers/subscription.controller.js:28-31 | appends one document for the pair under a fresh `_id`; ids stay unique |
| SubscriptionController.ToggleSubscription | src/controllers/subscription.controller.js:7-36 | the new collection and the answer are those of `Toggle`; a malformed id gives 400 and leaves the collection unchanged; otherwise `subscribed` is true exactly when the caller had no subscription before |
| ChannelSubscribers.SubscriberIdsMembers | src/controllers/subscription.controller.js:74-77 | `"$subscribedToSubscriber.subscriber"` contains an id exactly when one looked-up document has that subscriber |
| ChannelSubscribers.MatchedSubscribers | src/controllers/subscription.controller.js:48-53 | every subscriber of a document matched on the channel follows that channel |
| ChannelSubscribers.ProfileMeaning | src/controllers/subscription.controller.js:60-89 | `subscriberCount` is the number of documents whose channel is the subscriber; `subscribedToSubscriber` holds exactly when the listed channel follows the subscriber |
| ChannelSubscribers.JoinSound | src/controllers/subscription.controller.js:55-106 | every entry describes an existing user: `_id`, username, full name, avatar URL, count and flag; each is the subscriber of a matched document |
| ChannelSubscribers.JoinComplete | src/controllers/subscription.controller.js:55-59 | every matched document whose subscriber has a user document is listed; with no missing users there is one entry per matched document |
| ChannelSubscribers.JoinListed | src/controllers/subscription.controller.js:55-106 | the lookup and unwind list one entry per matched document whose subscriber has a user document, in the documents' order, and no other |
| ChannelSubscribers.GetUserChannelSubscriber | src/controllers/subscription.controller.js:39-116 | 400 exactly for a malformed id. Otherwise the listed ids are exactly the subscribers of the channel's subscription documents whose subscriber has a user document, one per document and in document order; each entry describes that user, who follows the channel, with their own subscriber count and whether the channel subscribes back |
| ChannelSubscribers.GetUserChannelSubscriberAsWritten | src/controllers/subscription.controller.js:62-68 | with the nested lookup reading the collection named `subscription`, every entry has count 0 and flag false |
| ChannelSubscribers.AsWrittenMissesMutualSubscription | src/controllers/subscription.controller.js:62-86 | for two users who follow each other, the listing as written reports `false, 0` where the intended listing reports `true, 1` |
| JsParseInt.TrimStart | src/controllers/video.controller.js:88-89 | the result is the text with its leading white space removed: what is dropped is all white space, and the result does not start with white space |
| JsParseInt.DigitPrefix | src/controllers/video.controller.js:88-89 | the result is the longest prefix made of decimal digits |
| JsParseInt.ParseIntOfDigits | src/controllers/video.controller.js:88-89 | an optional minus sign, then digits, then a non-digit, parse to the value of the digits, negated after a minus |
| JsParseInt.ParseIntOfDecimal | src/controllers/video.controller.js:88-89 | the decimal text of a natural number, with or without a minus sign and followed by a non-digit, parses to that number or its negation |
| JsParseInt.ParseIntOfIntText | src/controllers/video.controller.js:88-89 | `parseInt` reads back the decimal text of every integer, whatever non-digit text follows it |
| JsParseInt.ParseIntSkipsSpace | src/controllers/video.controller.js:88-89 | leading white space does not change the parsed value |
| JsParseInt.ParseIntNaN | src/controllers/video.controller.js:88-89 | text with no digit after the white space and sign parses to `NaN` |
| FeedStages.DocumentsVideos | src/controllers/video.controller.js:85 | the aggregation starts from every video of the collection, in order, none with `ownerDetails` |
| FeedStages.FilterRowsSound | src/controllers/video.controller.js:23-48 | every document a search or `$match` stage keeps comes from its input and is admitted by the stage |
| FeedStages.FilterRowsVideos | src/controllers/video.controller.js:23-48 | the search and `$match` stages keep every video they admit exactly as often as it occurs in their input, and no other video |
| FeedStages.SortRowsSorted | src/controllers/video.controller.js:53-61 | the sort stage's output is ordered by the key in the stage's direction and is a permutation of its input |
| FeedStages.SortRowsVideos | src/controllers/video.controller.js:53-61 | the sort stage passes on every video exactly as often as it came in |
| FeedStages.LookupThenUnwind | src/controllers/video.controller.js:63-83 | owner lookup followed by unwind is the owner join: one document per video whose owner exists, carrying the owner's details |
| FeedStages.WithOwnersDetails | src/controllers/video.controller.js:63-78 | every joined document carries its own owner's `_id`, `username` and `avatar.url` and nothing else of the user |
| FeedStages.WithOwnersVideos | src/controllers/video.controller.js:63-83 | the join keeps every video whose owner has a user document exactly as often as it occurs in its input, and drops every other video |
| FeedStages.WithOwnersSorted | src/controllers/video.controller.js:53-83 | the owner join keeps the order the sort established |
| FeedStages.RunVideoStages | src/controllers/video.controller.js:23-61 | a run of filter and sort stages keeps every video that every filter admits exactly as often as it occurs in the input, and no other video |
| FeedStages.FeedPipelineJoins | src/controllers/video.controller.js:63-85 | a pipeline ending in the owner lookup and unwind yields the owner join of what the stages before them yield |
| FeedStages.FeedPipelineSound | src/controllers/video.controller.js:16-85 | every result document is an input video that every filter admits, with its owner's details |
| FeedStages.FeedPipelineVideos | src/controllers/video.controller.js:16-85 | a feed-shaped pipeline yields every input video that every filter admits and whose owner exists exactly as often as it occurs in the input, and no other video |
| FeedStages.FeedPipelineSorted | src/controllers/video.controller.js:53-85 | when the last stage before the join is a sort, the result is in that sort's order |
| VideoController.Direction | src/controllers/video.controller.js:56 | ascending exactly when `sortType` is `"asc"`, descending for every other value |
| VideoController.BuildPipeline | src/controllers/video.controller.js:14-83 | 400 "Invalid userId" exactly when `userId` is given and malformed. Otherwise 4 to 6 stages in the fixed order: search (only with `query`, and first), owner match (only with `userId`), published match, the requested or default (`createdAt` descending) sort, lookup, unwind |
| VideoController.FeedStagesBeforeJoin | src/controllers/video.controller.js:16-61 | every stage before the owner lookup is a filter or a sort |
| VideoController.FeedFilters | src/controllers/video.controller.js:23-48 | the filters of the built pipeline admit exactly the videos that are published, match the search when `query` is given and belong to `userId` when it is given |
| VideoController.BuiltFeedSound | src/controllers/video.controller.js:16-85 | every document the built pipeline yields is a video of the collection, selected by the parameters, with its owner's details |
| VideoController.FeedShapeSplit | src/controllers/video.controller.js:63-83 | a feed-shaped pipeline ends in the owner lookup and the unwind, after its filters and sort |
| VideoController.BuiltFeedVideos | src/controllers/video.controller.js:16-85 | the built pipeline yields every selected video of the collection whose owner exists exactly as often as the collection holds it, and no other video |
| VideoController.BuiltFeedSorted | src/controllers/video.controller.js:53-61 | the built pipeline's result is ordered by `sortBy` in the direction of `sortType` when both are given, and by `createdAt` descending otherwise |
| VideoController.GetAllVideos | src/controllers/video.controller.js:13-97 | 400 exactly for a given malformed `userId`. Otherwise the feed holds each published video that passes the search and owner filters and whose owner exists, exactly as often as the collection holds it, and no other video. Each carries its owner's details, and the feed is in the requested order. `page` and `limit` are `parseInt` of the parameters, defaulting to 1 and 10 |

## Left out

- Everything the handlers do around the logic is left out: the HTTP
  status, the response envelope, `console.log`, `asyncHandler` and the
  authentication middleware that sets `req.user`. The caller's id is a
  parameter.
- `isValidObjectId` is a parameter. Ids are compared as the strings in
  which they arrive. The conversion to an ObjectId, which the store does
  when it casts `channel` and `owner` and which `new
  mongoose.Types.ObjectId(…)` does for the owner `$match`, is not
  modelled. The store compares the decoded 12 bytes, so two spellings of
  one id name the same document: the upper-case and lower-case forms of a
  24-digit hex id, and a 12-character string and the hex form of its
  bytes. In the model they are different ids. A toggle called with the
  upper-case form of an id whose document was created with the lower-case
  form finds and deletes that document in the store, but appends a second
  document in the model. The owner `$match` of the feed differs in the
  same way.
- `await`, and two toggles racing between `findOne` and
  `create`/`findByIdAndDelete`, are not modelled. Each handler is one
  sequential step.
- The store's fresh `_id` generator is a counter.
- The Atlas `$search` matching of the `search-videos` index on `title`
  and `description` is the parameter `matches`. The stage records the
  index name and paths, but their effect is not modelled.
- `aggregatePaginate`'s slicing of the result into pages and its page
  metadata are left out, because the plugin's code is not part of this
  model. The model stops at the full result and the parsed `page` and
  `limit`.
- FeedStages.SortKey: only the numeric fields `views`, `duration` and
  `createdAt` have a key. Sorting on any other field, including a string
  field such as `title`, is modelled as all documents tying, because
  string and mixed-type ordering in the store is not modelled.
- FeedStages.SortRows: documents with equal keys keep their input order.
  The store does not promise any order for ties; this is one order it may
  give.
- VideoController.Given: query parameters are single strings. A repeated
  parameter, which arrives as an array, is not modelled.
- VideoController.GetAllVideos: `sortBy` goes into `$sort` unchecked. A
  value that is not a valid field path, such as `"$views"` or `"a..b"`,
  makes the store reject the aggregation when the paginator runs it, and
  the handler answers with an error. The model does not have that error
  path: it answers with a feed in which all documents tie on that key.
- VideoController.GetAllVideos: the default `page = 1` is a number in the
  handler, and `parseInt` first turns it into the text `"1"`. The model
  starts from that text.
- JsParseInt.ParseInt: values are unbounded integers. The loss of
  precision beyond 2^53 and the result `-0` for `"-0"` are not modelled.
- `getSubscribedChannels` is left out: it is an empty stub that is not
  exported.
- `src/app.js`, `src/routes/comment.route.js` and
  `src/controllers/user.controller.js` are left out. They hold framework
  wiring and a placeholder handler.
- Likes, comments, watch history and the Cloudinary helpers are
  imported by the video controller but not used by `getAllVideos`, so
  they are left out.
- The subscription model file that names the collection is not part of
  this model. The finding below assumes the default collection name,
  `subscriptions`, for a model named `Subscription`.

## Findings

| source | as written | input that shows it | evidently intended | confidence | as-written member | corrected member |
|---|---|---|---|---|---|---|
| src/controllers/subscription.controller.js:63 | the nested `$lookup` reads `from: "subscription"`, a collection that holds no subscription documents, so every `subscriberCount` is 0 and every `subscribedToSubscriber` is false | users `a` and `b` following each other; listing `a`'s subscribers gives `b` with `false, 0` | read the subscriptions collection, giving `b` with `true, 1` | medium, not executed | ChannelSubscribers.GetUserChannelSubscriberAsWritten | ChannelSubscribers.GetUserChannelSubscriber |
