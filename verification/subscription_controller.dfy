/** `toggleSubscription`: the controller acting on the subscriptions
    collection, which it reads and then updates in place. */
module SubscriptionController {
  import opened Common
  import opened Subscriptions

  /** The subscriptions collection: its documents in natural order, and the
      counter standing in for the store's generator of fresh `_id`s. */
  class SubscriptionCollection {
    var records: seq<Subscription>
    var nextId: nat

    function State(): Store
      reads this
    {
      Store(records, nextId)
    }

    ghost predicate Valid()
      reads this
    {
      WellFormed(State())
    }

    constructor ()
      ensures Valid() && records == []
    {
      records := [];
      nextId := 0;
    }

    /** `findOne({ subscriber, channel })`: the first document of the pair
        in natural order, or nothing when the pair has none. */
    method FindOne(subscriber: Id, channel: Id) returns (found: Option<Subscription>)
      ensures found.Some? <==> PairCount(records, subscriber, channel) > 0
      ensures found.Some? ==>
        (exists i ::
           && 0 <= i < |records| && found.value == records[i]
           && Matches(ByPair(subscriber, channel), records[i])
           && (forall j :: 0 <= j < i ==> !Matches(ByPair(subscriber, channel), records[j])))
      ensures found == match Subscriptions.FindOne(records, subscriber, channel)
        case Some(i) => Some(records[i])
        case None => None
    {
      FindOneIffPresent(records, subscriber, channel);
      match Subscriptions.FindOne(records, subscriber, channel)
      case Some(i) => found := Some(records[i]);
      case None => found := None;
    }

    /** `findByIdAndDelete(id)`: removes the document with that `_id`, if any. */
    method FindByIdAndDelete(id: nat)
      requires Valid()
      modifies this
      ensures Valid()
      ensures records == DeleteById(old(records), id) && nextId == old(nextId)
    {
      var at := IndexOfId(records, id);
      if at.Some? {
        DeleteByIdRemovesAt(State(), at.value);
      }
      records := DeleteById(records, id);
    }

    /** `create({ subscriber, channel })`: appends one document under a fresh `_id`. */
    method Create(subscriber: Id, channel: Id) returns (doc: Subscription)
      requires Valid()
      modifies this
      ensures Valid()
      ensures doc == Subscription(old(nextId), subscriber, channel)
      ensures records == old(records) + [doc] && nextId == old(nextId) + 1
    {
      doc := Subscription(nextId, subscriber, channel);
      var recs := records + [doc];
      forall a, b | 0 <= a < b < |recs| ensures recs[a].id != recs[b].id {
        if b == |records| {
          assert recs[a] in records;
        }
      }
      records, nextId := recs, nextId + 1;
    }
  }

  /** `toggleSubscription` by the authenticated `caller` on `channelId`.
      A malformed `channelId` is rejected with 400 before the collection is
      touched; otherwise the pair's first document is deleted by its `_id`
      (`subscribed: false`) or one document for the pair is created
      (`subscribed: true`). */
  method ToggleSubscription(subscriptions: SubscriptionCollection, caller: Id, channelId: string,
                            isValidId: string -> bool)
    returns (outcome: Outcome)
    requires subscriptions.Valid()
    modifies subscriptions
    ensures subscriptions.Valid()
    ensures var step := Toggle(old(subscriptions.State()), caller, channelId, isValidId);
      subscriptions.State() == step.store && outcome == step.outcome
    ensures !isValidId(channelId) ==>
      outcome == Rejected(ApiError(400, "Invalid channelId")) && unchanged(subscriptions)
    ensures isValidId(channelId) ==>
      outcome.Toggled? && (outcome.subscribed <==> old(PairCount(subscriptions.records, caller, channelId)) == 0)
  {
    if !isValidId(channelId) {
      return Rejected(ApiError(400, "Invalid channelId"));
    }
    FindOneIffPresent(subscriptions.records, caller, channelId);
    var isSubscribed := subscriptions.FindOne(caller, channelId);
    if isSubscribed.Some? {
      subscriptions.FindByIdAndDelete(isSubscribed.value.id);
      return Toggled(false);
    }
    var _ := subscriptions.Create(caller, channelId);
    return Toggled(true);
  }
}
