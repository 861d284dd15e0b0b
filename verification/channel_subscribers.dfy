/** `getUserChannelSubscriber`: the aggregation that lists a channel's
    subscribers, each with whether the channel subscribes back to them and
    how many subscribers they have themselves. */
module ChannelSubscribers {
  import opened Common
  import opened Subscriptions

  /** A listed subscriber, as the final `$project` leaves it. */
  datatype SubscriberProfile = SubscriberProfile(
    id: Id,
    username: string,
    fullName: string,
    avatar: AvatarUrl,
    subscribedToSubscriber: bool,
    subscriberCount: nat)

  /** One result document, `{ subscriber: { ... } }`; `_id: 0` drops the
      subscription's own `_id`. */
  datatype Entry = Entry(subscriber: SubscriberProfile)

  /** `"$subscribedToSubscriber.subscriber"`: the subscriber field of each
      looked-up document. */
  function SubscriberIds(recs: seq<Subscription>): (ids: seq<Id>)
    ensures |ids| == |recs|
  {
    if recs == [] then [] else [recs[0].subscriber] + SubscriberIds(recs[1..])
  }

  /** The inner pipeline run on one subscriber's user document: `$lookup` of
      the documents of `inner` whose channel is that user, then `$addFields`
      of `subscribedToSubscriber` (`$in` of the listed channel among their
      subscribers) and `subscriberCount` (`$size`), then the `$project`. */
  function Profile(userId: Id, user: User, inner: seq<Subscription>, channelId: Id): SubscriberProfile {
    var theirs := Where(inner, ByChannel(userId));
    SubscriberProfile(
      userId, user.username, user.fullName, AvatarUrl(user.avatar.url),
      channelId in SubscriberIds(theirs), |theirs|)
  }

  /** The outer `$lookup` of each matched subscription's subscriber in
      `users`, then `$unwind` (a subscription whose subscriber has no user
      document is dropped), then `$project`. */
  function JoinSubscribers(matched: seq<Subscription>, users: Users, inner: seq<Subscription>, channelId: Id)
    : (entries: seq<Entry>)
    ensures |entries| <= |matched|
  {
    if matched == [] then []
    else
      var rest := JoinSubscribers(matched[1..], users, inner, channelId);
      var s := matched[0];
      if s.subscriber in users then [Entry(Profile(s.subscriber, users[s.subscriber], inner, channelId))] + rest
      else rest
  }

  /** The whole aggregation over the subscriptions collection `store`, with
      the nested lookup reading `inner`. */
  function Aggregate(store: seq<Subscription>, users: Users, inner: seq<Subscription>, channelId: Id): seq<Entry> {
    JoinSubscribers(Where(store, ByChannel(channelId)), users, inner, channelId)
  }

  /** The entry describes the user document of its own `id`, with count and
      flag taken over `inner`. */
  predicate Describes(e: Entry, users: Users, inner: seq<Subscription>, channelId: Id) {
    var id := e.subscriber.id;
    && id in users
    && e.subscriber.username == users[id].username
    && e.subscriber.fullName == users[id].fullName
    && e.subscriber.avatar == AvatarUrl(users[id].avatar.url)
    && e.subscriber.subscriberCount == ChannelCount(inner, id)
    && (e.subscriber.subscribedToSubscriber <==> PairCount(inner, channelId, id) > 0)
  }

  /** The ids of the listed subscribers, in order. */
  function ListedIds(entries: seq<Entry>): (ids: seq<Id>)
    ensures |ids| == |entries|
    ensures forall k :: 0 <= k < |entries| ==> ids[k] == entries[k].subscriber.id
  {
    if entries == [] then [] else [entries[0].subscriber.id] + ListedIds(entries[1..])
  }

  /** The documents whose subscriber has a user document, in order: the
      ones the `$unwind` of the outer lookup keeps. */
  function WithUser(recs: seq<Subscription>, users: Users): (r: seq<Subscription>)
    ensures |r| <= |recs|
  {
    if recs == [] then []
    else (if recs[0].subscriber in users then [recs[0]] else []) + WithUser(recs[1..], users)
  }

  lemma {:induction false} SubscriberIdsMembers(recs: seq<Subscription>, x: Id)
    ensures x in SubscriberIds(recs) <==> exists s :: s in recs && s.subscriber == x
  {
    if recs != [] {
      SubscriberIdsMembers(recs[1..], x);
      assert recs == [recs[0]] + recs[1..];
    }
  }

  /** A subscriber of the documents matched on `channel` is a user who
      subscribes to `channel`. */
  lemma MatchedSubscribers(store: seq<Subscription>, channel: Id)
    ensures forall x :: x in SubscriberIds(Where(store, ByChannel(channel))) ==> PairCount(store, x, channel) > 0
  {
    forall x | x in SubscriberIds(Where(store, ByChannel(channel)))
      ensures PairCount(store, x, channel) > 0
    {
      SubscriberIdsMembers(Where(store, ByChannel(channel)), x);
      WhereMembers(store, ByChannel(channel));
      PairCountPositive(store, x, channel);
    }
  }

  /** The flag the inner pipeline computes is "the listed channel subscribes
      to this subscriber", and the size it computes is the subscriber's own
      subscriber count. */
  lemma ProfileMeaning(userId: Id, user: User, inner: seq<Subscription>, channelId: Id)
    ensures Profile(userId, user, inner, channelId).subscriberCount == ChannelCount(inner, userId)
    ensures Profile(userId, user, inner, channelId).subscribedToSubscriber
        <==> PairCount(inner, channelId, userId) > 0
  {
    var theirs := Where(inner, ByChannel(userId));
    SubscriberIdsMembers(theirs, channelId);
    WhereMembers(inner, ByChannel(userId));
    PairCountPositive(inner, channelId, userId);
  }

  /** Every joined entry describes an existing user who is the subscriber
      of one of the matched subscriptions. */
  lemma {:induction false} JoinSound(matched: seq<Subscription>, users: Users, inner: seq<Subscription>, channelId: Id)
    ensures forall k :: 0 <= k < |JoinSubscribers(matched, users, inner, channelId)| ==>
      && Describes(JoinSubscribers(matched, users, inner, channelId)[k], users, inner, channelId)
      && JoinSubscribers(matched, users, inner, channelId)[k].subscriber.id in SubscriberIds(matched)
  {
    if matched != [] {
      JoinSound(matched[1..], users, inner, channelId);
      var s := matched[0];
      var entries := JoinSubscribers(matched, users, inner, channelId);
      var rest := JoinSubscribers(matched[1..], users, inner, channelId);
      assert SubscriberIds(matched) == [s.subscriber] + SubscriberIds(matched[1..]);
      if s.subscriber in users {
        ProfileMeaning(s.subscriber, users[s.subscriber], inner, channelId);
        assert entries == [entries[0]] + rest;
      }
    }
  }

  /** Every matched subscription whose subscriber has a user document is
      listed; when every subscriber has one, there is one entry per
      subscription. */
  lemma {:induction false} JoinComplete(matched: seq<Subscription>, users: Users, inner: seq<Subscription>, channelId: Id)
    ensures forall s :: s in matched && s.subscriber in users ==>
      s.subscriber in ListedIds(JoinSubscribers(matched, users, inner, channelId))
    ensures (forall s :: s in matched ==> s.subscriber in users) ==>
      |JoinSubscribers(matched, users, inner, channelId)| == |matched|
  {
    if matched != [] {
      JoinComplete(matched[1..], users, inner, channelId);
      var entries := JoinSubscribers(matched, users, inner, channelId);
      var rest := JoinSubscribers(matched[1..], users, inner, channelId);
      if matched[0].subscriber in users {
        assert ListedIds(entries) == [matched[0].subscriber] + ListedIds(rest);
      }
      assert forall s :: s in matched ==> s == matched[0] || s in matched[1..];
    }
  }

  /** The listing has one entry per matched document whose subscriber has a
      user document, in the order of the documents. */
  lemma {:induction false} JoinListed(matched: seq<Subscription>, users: Users, inner: seq<Subscription>, channelId: Id)
    ensures ListedIds(JoinSubscribers(matched, users, inner, channelId)) == SubscriberIds(WithUser(matched, users))
  {
    if matched != [] {
      JoinListed(matched[1..], users, inner, channelId);
      var s := matched[0];
      var rest := JoinSubscribers(matched[1..], users, inner, channelId);
      var kept := WithUser(matched[1..], users);
      if s.subscriber in users {
        var entries := JoinSubscribers(matched, users, inner, channelId);
        assert entries[1..] == rest;
        assert ListedIds(entries) == [s.subscriber] + ListedIds(rest);
        assert WithUser(matched, users) == [s] + kept;
        assert SubscriberIds([s] + kept) == [s.subscriber] + SubscriberIds(kept) by {
          assert ([s] + kept)[1..] == kept;
        }
      } else {
        assert WithUser(matched, users) == kept;
      }
    }
  }

  /** `getUserChannelSubscriber` as it is meant to be: the nested lookup
      reads the subscriptions collection itself. A malformed `channelId` is
      rejected with 400. Otherwise there is one entry per subscription to
      the channel whose subscriber has a user document, describing that
      user, with the subscriber's own subscriber count and whether the
      channel subscribes back, in the order of the subscription documents. */
  function GetUserChannelSubscriber(store: seq<Subscription>, users: Users, channelId: string,
                                    isValidId: string -> bool): (r: Result<seq<Entry>>)
    ensures !isValidId(channelId) <==> r == Failure(ApiError(400, "Invalid ChannelId`"))
    ensures r.Success? ==> |r.value| <= ChannelCount(store, channelId)
    ensures r.Success? ==> forall k :: 0 <= k < |r.value| ==>
      && Describes(r.value[k], users, store, channelId)
      && PairCount(store, r.value[k].subscriber.id, channelId) > 0
    ensures r.Success? ==> forall s :: s in store && s.channel == channelId && s.subscriber in users ==>
      s.subscriber in ListedIds(r.value)
    ensures r.Success? && (forall s :: s in store && s.channel == channelId ==> s.subscriber in users) ==>
      |r.value| == ChannelCount(store, channelId)
    ensures r.Success? ==> ListedIds(r.value) == SubscriberIds(WithUser(Where(store, ByChannel(channelId)), users))
  {
    if !isValidId(channelId) then Failure(ApiError(400, "Invalid ChannelId`"))
    else
      var matched := Where(store, ByChannel(channelId));
      WhereMembers(store, ByChannel(channelId));
      JoinSound(matched, users, store, channelId);
      MatchedSubscribers(store, channelId);
      JoinComplete(matched, users, store, channelId);
      JoinListed(matched, users, store, channelId);
      Success(Aggregate(store, users, store, channelId))
  }

  // ---------------------------------------------------------------------
  // The nested lookup as written

  /** `getUserChannelSubscriber` as written: the nested `$lookup` reads the
      collection named `subscription`. Assuming the subscription model keeps
      its documents in the default collection `subscriptions`, the
      collection it reads holds nothing. */
  function GetUserChannelSubscriberAsWritten(store: seq<Subscription>, users: Users, channelId: string,
                                             isValidId: string -> bool): (r: Result<seq<Entry>>)
    ensures r.Success? ==> forall k :: 0 <= k < |r.value| ==>
      r.value[k].subscriber.subscriberCount == 0 && !r.value[k].subscriber.subscribedToSubscriber
  {
    if !isValidId(channelId) then Failure(ApiError(400, "Invalid ChannelId`"))
    else
      JoinSound(Where(store, ByChannel(channelId)), users, [], channelId);
      Success(Aggregate(store, users, [], channelId))
  }

  /** `b` subscribes to `a` and `a` subscribes to `b`. */
  function MutualStore(): seq<Subscription> {
    [Subscription(0, "b", "a"), Subscription(1, "a", "b")]
  }

  /** A channel `a` and a user `b` who subscribe to each other: the listing
      as written reports that `a` does not subscribe back and that `b` has
      no subscribers, where the intended listing reports both facts. */
  lemma AsWrittenMissesMutualSubscription(isValidId: string -> bool, user: User)
    requires isValidId("a")
    ensures GetUserChannelSubscriberAsWritten(MutualStore(), map["b" := user], "a", isValidId)
         == Success([Entry(SubscriberProfile("b", user.username, user.fullName, AvatarUrl(user.avatar.url), false, 0))])
    ensures GetUserChannelSubscriber(MutualStore(), map["b" := user], "a", isValidId)
         == Success([Entry(SubscriberProfile("b", user.username, user.fullName, AvatarUrl(user.avatar.url), true, 1))])
  {
    var store := MutualStore();
    var users := map["b" := user];
    assert store[1..][1..] == [];
    assert Where(store, ByChannel("a")) == [store[0]];
    assert Where(store, ByChannel("b")) == [store[1]];
    assert [store[0]][1..] == [];
    assert [store[1]][1..] == [];
    assert SubscriberIds([store[1]]) == ["a"];
    assert "b" in users;
    var asWritten := Profile("b", user, [], "a");
    assert asWritten == SubscriberProfile("b", user.username, user.fullName, AvatarUrl(user.avatar.url), false, 0);
    var intended := Profile("b", user, store, "a");
    assert intended == SubscriberProfile("b", user.username, user.fullName, AvatarUrl(user.avatar.url), true, 1);
    assert JoinSubscribers([store[0]], users, [], "a") == [Entry(asWritten)];
    assert JoinSubscribers([store[0]], users, store, "a") == [Entry(intended)];
  }
}
