/** The subscription relation and the toggle that `toggleSubscription`
    performs on it, as a transition of the subscriptions collection. */
module Subscriptions {
  import opened Common

  /** A subscription document: `subscriber` follows `channel`. `id` is the
      document's `_id`, assigned by the store when the document is created. */
  datatype Subscription = Subscription(id: nat, subscriber: Id, channel: Id)

  /** The query documents the controllers give the collection (`ByPair`,
      `ByChannel`), and `OtherThanPair`, which no controller sends: it
      states what a toggle leaves alone. */
  datatype Filter =
    | ByPair(subscriber: Id, channel: Id)     // { subscriber, channel }
    | ByChannel(channel: Id)                  // { channel }
    | OtherThanPair(subscriber: Id, channel: Id)

  predicate Matches(f: Filter, s: Subscription) {
    match f
    case ByPair(subscriber, channel) => s.subscriber == subscriber && s.channel == channel
    case ByChannel(channel) => s.channel == channel
    case OtherThanPair(subscriber, channel) => !(s.subscriber == subscriber && s.channel == channel)
  }

  /** The documents matching `f`, in natural order. */
  function Where(recs: seq<Subscription>, f: Filter): (r: seq<Subscription>)
    ensures |r| <= |recs|
  {
    if recs == [] then []
    else (if Matches(f, recs[0]) then [recs[0]] else []) + Where(recs[1..], f)
  }

  /** How many documents record that `subscriber` follows `channel`. */
  function PairCount(recs: seq<Subscription>, subscriber: Id, channel: Id): nat {
    |Where(recs, ByPair(subscriber, channel))|
  }

  /** How many documents have `channel` as their channel: its subscriber count. */
  function ChannelCount(recs: seq<Subscription>, channel: Id): nat {
    |Where(recs, ByChannel(channel))|
  }

  /** The position of the document `findOne({ subscriber, channel })` returns:
      the first matching one in natural order, if any. */
  function FindOne(recs: seq<Subscription>, subscriber: Id, channel: Id): (r: Option<nat>)
    ensures r.Some? ==> r.value < |recs| && Matches(ByPair(subscriber, channel), recs[r.value])
    ensures r.Some? ==> forall j :: 0 <= j < r.value ==> !Matches(ByPair(subscriber, channel), recs[j])
    ensures r.None? ==> forall j :: 0 <= j < |recs| ==> !Matches(ByPair(subscriber, channel), recs[j])
  {
    if recs == [] then None
    else if Matches(ByPair(subscriber, channel), recs[0]) then Some(0)
    else match FindOne(recs[1..], subscriber, channel)
      case None => None
      case Some(k) => Some(k + 1)
  }

  /** The position of the first document whose `_id` is `id`, if any. */
  function IndexOfId(recs: seq<Subscription>, id: nat): (r: Option<nat>)
    ensures r.Some? ==> r.value < |recs| && recs[r.value].id == id
    ensures r.Some? ==> forall j :: 0 <= j < r.value ==> recs[j].id != id
    ensures r.None? ==> forall j :: 0 <= j < |recs| ==> recs[j].id != id
  {
    if recs == [] then None
    else if recs[0].id == id then Some(0)
    else match IndexOfId(recs[1..], id)
      case None => None
      case Some(k) => Some(k + 1)
  }

  /** What `findByIdAndDelete(id)` leaves behind: the collection without the
      (one) document whose `_id` is `id`; unchanged when there is none. */
  function DeleteById(recs: seq<Subscription>, id: nat): seq<Subscription> {
    match IndexOfId(recs, id)
    case None => recs
    case Some(i) => recs[..i] + recs[i + 1..]
  }

  /** The collection's state: its documents and the next fresh `_id`. */
  datatype Store = Store(records: seq<Subscription>, nextId: nat)

  /** `_id`s are unique and every one of them was issued before `nextId`. */
  predicate WellFormed(st: Store) {
    && (forall i, j :: 0 <= i < j < |st.records| ==> st.records[i].id != st.records[j].id)
    && (forall s :: s in st.records ==> s.id < st.nextId)
  }

  /** What the handler answers: a 400 error, or `{ subscribed }`. */
  datatype Outcome = Rejected(error: ApiError) | Toggled(subscribed: bool)

  datatype Step = Step(store: Store, outcome: Outcome)

  /** `toggleSubscription` by `caller` on `channelId`: reject a malformed id
      without touching the store; otherwise delete the first document of the
      pair by its `_id` and answer `subscribed: false`, or create one document
      for the pair and answer `subscribed: true`. */
  function Toggle(st: Store, caller: Id, channelId: string, isValidId: string -> bool): Step {
    if !isValidId(channelId) then
      Step(st, Rejected(ApiError(400, "Invalid channelId")))
    else
      match FindOne(st.records, caller, channelId)
      case Some(i) =>
        Step(Store(DeleteById(st.records, st.records[i].id), st.nextId), Toggled(false))
      case None =>
        Step(Store(st.records + [Subscription(st.nextId, caller, channelId)], st.nextId + 1), Toggled(true))
  }

  // ---------------------------------------------------------------------
  // Lemmas about filtering and counting

  lemma {:induction false} WhereConcat(a: seq<Subscription>, b: seq<Subscription>, f: Filter)
    ensures Where(a + b, f) == Where(a, f) + Where(b, f)
  {
    if a == [] {
      assert a + b == b;
    } else {
      assert (a + b)[0] == a[0];
      assert (a + b)[1..] == a[1..] + b;
      WhereConcat(a[1..], b, f);
      var head := if Matches(f, a[0]) then [a[0]] else [];
      assert Where(a + b, f) == head + (Where(a[1..], f) + Where(b, f));
      assert head + (Where(a[1..], f) + Where(b, f)) == (head + Where(a[1..], f)) + Where(b, f);
    }
  }

  /** `Where` keeps exactly the documents that match. */
  lemma {:induction false} WhereMembers(recs: seq<Subscription>, f: Filter)
    ensures forall s :: s in Where(recs, f) <==> s in recs && Matches(f, s)
  {
    if recs != [] {
      WhereMembers(recs[1..], f);
      assert recs == [recs[0]] + recs[1..];
    }
  }

  /** The pair has a document exactly when some document records it. */
  lemma PairCountPositive(recs: seq<Subscription>, subscriber: Id, channel: Id)
    ensures PairCount(recs, subscriber, channel) > 0
        <==> exists s :: s in recs && s.subscriber == subscriber && s.channel == channel
  {
    WhereMembers(recs, ByPair(subscriber, channel));
    if PairCount(recs, subscriber, channel) > 0 {
      assert Where(recs, ByPair(subscriber, channel))[0] in Where(recs, ByPair(subscriber, channel));
    }
  }

  lemma WhereSingleton(s: Subscription, f: Filter)
    ensures Where([s], f) == if Matches(f, s) then [s] else []
  {
    assert [s][1..] == [];
  }

  /** Splitting the collection around position `i`, and deleting position `i`. */
  lemma WhereAround(recs: seq<Subscription>, i: nat, f: Filter)
    requires i < |recs|
    ensures Where(recs, f) == Where(recs[..i], f) + Where([recs[i]], f) + Where(recs[i + 1..], f)
    ensures Where(recs[..i] + recs[i + 1..], f) == Where(recs[..i], f) + Where(recs[i + 1..], f)
  {
    assert recs == recs[..i] + [recs[i]] + recs[i + 1..];
    WhereConcat(recs[..i] + [recs[i]], recs[i + 1..], f);
    WhereConcat(recs[..i], [recs[i]], f);
    WhereConcat(recs[..i], recs[i + 1..], f);
  }

  /** `findOne` finds a document exactly when the pair has one. */
  lemma {:induction false} FindOneIffPresent(recs: seq<Subscription>, subscriber: Id, channel: Id)
    ensures FindOne(recs, subscriber, channel).Some? <==> PairCount(recs, subscriber, channel) > 0
  {
    if recs != [] {
      FindOneIffPresent(recs[1..], subscriber, channel);
    }
  }

  /** Removing one document keeps `_id`s unique and issued. */
  lemma RemoveAtWellFormed(st: Store, i: nat)
    requires WellFormed(st) && i < |st.records|
    ensures WellFormed(Store(st.records[..i] + st.records[i + 1..], st.nextId))
  {
    var recs := st.records;
    var rest := recs[..i] + recs[i + 1..];
    assert forall k :: 0 <= k < |rest| ==> rest[k] == recs[if k < i then k else k + 1];
  }

  /** Removing a document the filter rejects leaves its result as it was. */
  lemma WhereSkips(recs: seq<Subscription>, i: nat, f: Filter)
    requires i < |recs| && !Matches(f, recs[i])
    ensures Where(recs[..i] + recs[i + 1..], f) == Where(recs, f)
  {
    WhereAround(recs, i, f);
    WhereSingleton(recs[i], f);
  }

  /** Removing a document the filter accepts takes one from its result. */
  lemma WhereDrops(recs: seq<Subscription>, i: nat, f: Filter)
    requires i < |recs| && Matches(f, recs[i])
    ensures |Where(recs[..i] + recs[i + 1..], f)| == |Where(recs, f)| - 1
  {
    WhereAround(recs, i, f);
    WhereSingleton(recs[i], f);
  }

  /** Appending a document adds it to the result exactly when it matches. */
  lemma WhereAppend(recs: seq<Subscription>, doc: Subscription, f: Filter)
    ensures Where(recs + [doc], f) == Where(recs, f) + (if Matches(f, doc) then [doc] else [])
  {
    WhereConcat(recs, [doc], f);
    WhereSingleton(doc, f);
  }

  /** With unique `_id`s, deleting by the `_id` of the document at `i`
      deletes exactly that document, and the rest still has unique `_id`s. */
  lemma DeleteByIdRemovesAt(st: Store, i: nat)
    requires WellFormed(st) && i < |st.records|
    ensures DeleteById(st.records, st.records[i].id) == st.records[..i] + st.records[i + 1..]
    ensures WellFormed(Store(st.records[..i] + st.records[i + 1..], st.nextId))
  {
    assert IndexOfId(st.records, st.records[i].id) == Some(i);
    RemoveAtWellFormed(st, i);
  }

  // ---------------------------------------------------------------------
  // Lemmas about one toggle

  /** A malformed channel id is rejected with 400 and the store is left as it was. */
  lemma ToggleRejectsMalformedId(st: Store, caller: Id, channelId: string, isValidId: string -> bool)
    requires !isValidId(channelId)
    ensures Toggle(st, caller, channelId, isValidId) == Step(st, Rejected(ApiError(400, "Invalid channelId")))
  {
  }

  /** When the caller already follows the channel, the toggle deletes exactly
      one document of the pair (the first one) and answers `subscribed: false`. */
  lemma ToggleUnsubscribes(st: Store, caller: Id, channelId: string, isValidId: string -> bool)
    requires WellFormed(st) && isValidId(channelId)
    requires PairCount(st.records, caller, channelId) > 0
    ensures var step := Toggle(st, caller, channelId, isValidId);
      && step.outcome == Toggled(false)
      && step.store.nextId == st.nextId
      && WellFormed(step.store)
      && PairCount(step.store.records, caller, channelId) == PairCount(st.records, caller, channelId) - 1
      && exists i :: 0 <= i < |st.records|
           && Matches(ByPair(caller, channelId), st.records[i])
           && (forall j :: 0 <= j < i ==> !Matches(ByPair(caller, channelId), st.records[j]))
           && step.store.records == st.records[..i] + st.records[i + 1..]
  {
    var recs := st.records;
    FindOneIffPresent(recs, caller, channelId);
    var i := FindOne(recs, caller, channelId).value;
    DeleteByIdRemovesAt(st, i);
    WhereAround(recs, i, ByPair(caller, channelId));
    WhereSingleton(recs[i], ByPair(caller, channelId));
  }

  /** When the caller does not follow the channel, the toggle appends exactly
      one new document for the pair, under a fresh `_id`, and answers
      `subscribed: true`. */
  lemma ToggleSubscribes(st: Store, caller: Id, channelId: string, isValidId: string -> bool)
    requires WellFormed(st) && isValidId(channelId)
    requires PairCount(st.records, caller, channelId) == 0
    ensures var step := Toggle(st, caller, channelId, isValidId);
      && step.outcome == Toggled(true)
      && step.store.records == st.records + [Subscription(st.nextId, caller, channelId)]
      && (forall s :: s in st.records ==> s.id != st.nextId)
      && WellFormed(step.store)
      && PairCount(step.store.records, caller, channelId) == 1
  {
    var recs := st.records;
    var doc := Subscription(st.nextId, caller, channelId);
    FindOneIffPresent(recs, caller, channelId);
    WhereConcat(recs, [doc], ByPair(caller, channelId));
    WhereSingleton(doc, ByPair(caller, channelId));
    var recs' := recs + [doc];
    forall a, b | 0 <= a < b < |recs'| ensures recs'[a].id != recs'[b].id {
      if b == |recs| {
        assert recs'[a] in recs;
      }
    }
  }

  /** The toggle leaves every document of every other pair untouched, in
      order: the documents that are not of the pair are the same before and
      after. */
  lemma ToggleKeepsOtherPairs(st: Store, caller: Id, channelId: string, isValidId: string -> bool)
    requires WellFormed(st)
    ensures Where(Toggle(st, caller, channelId, isValidId).store.records, OtherThanPair(caller, channelId))
         == Where(st.records, OtherThanPair(caller, channelId))
  {
    var recs := st.records;
    var f := OtherThanPair(caller, channelId);
    if isValidId(channelId) {
      var found := FindOne(recs, caller, channelId);
      if found.Some? {
        var i := found.value;
        DeleteByIdRemovesAt(st, i);
        WhereSkips(recs, i, f);
      } else {
        WhereAppend(recs, Subscription(st.nextId, caller, channelId), f);
      }
    }
  }

  /** Subscriber counts: the channel gains one subscriber on `subscribed: true`
      and loses one on `subscribed: false`; every other channel keeps its count. */
  lemma ToggleChangesOnlyChannelCount(st: Store, caller: Id, channelId: string, isValidId: string -> bool, other: Id)
    requires WellFormed(st) && isValidId(channelId)
    ensures var step := Toggle(st, caller, channelId, isValidId);
      && step.outcome.Toggled?
      && ChannelCount(step.store.records, channelId)
           == (if step.outcome.subscribed then ChannelCount(st.records, channelId) + 1
               else ChannelCount(st.records, channelId) - 1)
      && (other != channelId ==> ChannelCount(step.store.records, other) == ChannelCount(st.records, other))
  {
    var recs := st.records;
    var found := FindOne(recs, caller, channelId);
    if found.Some? {
      var i := found.value;
      DeleteByIdRemovesAt(st, i);
      WhereDrops(recs, i, ByChannel(channelId));
      if other != channelId {
        WhereSkips(recs, i, ByChannel(other));
      }
    } else {
      var doc := Subscription(st.nextId, caller, channelId);
      WhereAppend(recs, doc, ByChannel(channelId));
      WhereAppend(recs, doc, ByChannel(other));
    }
  }

  /** At most one document per pair is an invariant of the toggle, and the
      answer tells the truth: `subscribed` holds exactly when a document for
      the pair exists afterwards. */
  lemma TogglePreservesAtMostOne(st: Store, caller: Id, channelId: string, isValidId: string -> bool)
    requires WellFormed(st) && isValidId(channelId)
    requires PairCount(st.records, caller, channelId) <= 1
    ensures var step := Toggle(st, caller, channelId, isValidId);
      && WellFormed(step.store)
      && PairCount(step.store.records, caller, channelId) <= 1
      && step.outcome.Toggled?
      && (step.outcome.subscribed <==> PairCount(step.store.records, caller, channelId) == 1)
  {
    if PairCount(st.records, caller, channelId) == 0 {
      ToggleSubscribes(st, caller, channelId, isValidId);
    } else {
      ToggleUnsubscribes(st, caller, channelId, isValidId);
    }
  }

  /** Subscribing and then unsubscribing restores the collection document
      for document. */
  lemma SubscribeThenUnsubscribe(st: Store, caller: Id, channelId: string, isValidId: string -> bool)
    requires WellFormed(st) && isValidId(channelId)
    requires PairCount(st.records, caller, channelId) == 0
    ensures Toggle(Toggle(st, caller, channelId, isValidId).store, caller, channelId, isValidId).store.records
         == st.records
  {
    var first := Toggle(st, caller, channelId, isValidId);
    ToggleSubscribes(st, caller, channelId, isValidId);
    ToggleUnsubscribes(first.store, caller, channelId, isValidId);
    var recs := st.records;
    var recs' := first.store.records;
    var i :| 0 <= i < |recs'| && Matches(ByPair(caller, channelId), recs'[i])
      && Toggle(first.store, caller, channelId, isValidId).store.records == recs'[..i] + recs'[i + 1..];
    if i < |recs| {
      assert false;
    }
    assert recs'[..i] == recs;
  }

  /** Two toggles in a row restore the pair's presence and give opposite
      answers; starting from "not subscribed", they restore the collection
      document for document. */
  lemma ToggleTwice(st: Store, caller: Id, channelId: string, isValidId: string -> bool)
    requires WellFormed(st) && isValidId(channelId)
    requires PairCount(st.records, caller, channelId) <= 1
    ensures var first := Toggle(st, caller, channelId, isValidId);
      var second := Toggle(first.store, caller, channelId, isValidId);
      && PairCount(second.store.records, caller, channelId) == PairCount(st.records, caller, channelId)
      && first.outcome.Toggled? && second.outcome.Toggled?
      && first.outcome.subscribed != second.outcome.subscribed
      && (PairCount(st.records, caller, channelId) == 0 ==> second.store.records == st.records)
  {
    var first := Toggle(st, caller, channelId, isValidId);
    TogglePreservesAtMostOne(st, caller, channelId, isValidId);
    TogglePreservesAtMostOne(first.store, caller, channelId, isValidId);
    ToggleFlips(st, caller, channelId, isValidId);
    ToggleFlips(first.store, caller, channelId, isValidId);
    if PairCount(st.records, caller, channelId) == 0 {
      SubscribeThenUnsubscribe(st, caller, channelId, isValidId);
    }
  }

  /** From at most one document of the pair, a toggle flips the pair's
      presence and keeps the collection well formed. */
  lemma ToggleFlips(st: Store, caller: Id, channelId: string, isValidId: string -> bool)
    requires WellFormed(st) && isValidId(channelId)
    requires PairCount(st.records, caller, channelId) <= 1
    ensures var next := Toggle(st, caller, channelId, isValidId).store;
      && WellFormed(next)
      && PairCount(next.records, caller, channelId) == 1 - PairCount(st.records, caller, channelId)
  {
    if PairCount(st.records, caller, channelId) == 0 {
      ToggleSubscribes(st, caller, channelId, isValidId);
    } else {
      ToggleUnsubscribes(st, caller, channelId, isValidId);
    }
  }

  /** Any toggle keeps `_id`s unique and issued. */
  lemma ToggleKeepsWellFormed(st: Store, caller: Id, channelId: string, isValidId: string -> bool)
    requires WellFormed(st)
    ensures WellFormed(Toggle(st, caller, channelId, isValidId).store)
  {
    if isValidId(channelId) {
      FindOneIffPresent(st.records, caller, channelId);
      if PairCount(st.records, caller, channelId) == 0 {
        ToggleSubscribes(st, caller, channelId, isValidId);
      } else {
        ToggleUnsubscribes(st, caller, channelId, isValidId);
      }
    }
  }

  /** Keeping the documents of other pairs keeps every other pair's documents. */
  lemma {:induction false} WhereOtherPair(recs: seq<Subscription>, p: Id, q: Id, sub: Id, chan: Id)
    requires sub != p || chan != q
    ensures Where(Where(recs, OtherThanPair(p, q)), ByPair(sub, chan)) == Where(recs, ByPair(sub, chan))
  {
    if recs != [] {
      WhereOtherPair(recs[1..], p, q, sub, chan);
      var head := if Matches(OtherThanPair(p, q), recs[0]) then [recs[0]] else [];
      WhereConcat(head, Where(recs[1..], OtherThanPair(p, q)), ByPair(sub, chan));
      WhereSingleton(recs[0], ByPair(sub, chan));
    }
  }

  /** A toggle leaves the document count of every other pair unchanged. */
  lemma ToggleKeepsOtherPairCounts(st: Store, caller: Id, channelId: string, isValidId: string -> bool)
    requires WellFormed(st)
    ensures forall sub, chan :: sub != caller || chan != channelId ==>
      PairCount(Toggle(st, caller, channelId, isValidId).store.records, sub, chan) == PairCount(st.records, sub, chan)
  {
    var next := Toggle(st, caller, channelId, isValidId).store.records;
    ToggleKeepsOtherPairs(st, caller, channelId, isValidId);
    forall sub, chan | sub != caller || chan != channelId
      ensures PairCount(next, sub, chan) == PairCount(st.records, sub, chan)
    {
      WhereOtherPair(next, caller, channelId, sub, chan);
      WhereOtherPair(st.records, caller, channelId, sub, chan);
    }
  }

  /** At most one document for every pair is an invariant of the toggle. */
  lemma ToggleKeepsAtMostOnePerPair(st: Store, caller: Id, channelId: string, isValidId: string -> bool)
    requires WellFormed(st)
    requires forall sub, chan :: PairCount(st.records, sub, chan) <= 1
    ensures forall sub, chan :: PairCount(Toggle(st, caller, channelId, isValidId).store.records, sub, chan) <= 1
  {
    ToggleKeepsOtherPairCounts(st, caller, channelId, isValidId);
    if isValidId(channelId) {
      TogglePreservesAtMostOne(st, caller, channelId, isValidId);
    }
  }
}
