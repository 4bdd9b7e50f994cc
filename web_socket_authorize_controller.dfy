/**
 * The web-socket side (`WebSocketAuthorizeController`): subscriptions are
 * keyed by `IdentityRequestSubscriptionKey`; each one gets a recurring
 * publisher task that reads the request's state, delivers it to the user and
 * removes its own entry. Unsubscribe and disconnect events remove the
 * matching entries. Delivery is modelled as an appended outgoing message, the
 * scheduler as the caller of `PublisherTick`, and the outcome of every cancel
 * as an input.
 */
module AuthorizeController {
  import opened Wrappers
  import opened Request
  import opened RequestManager
  import opened FutureStorage

  /** The user destination resolved requests are sent to. */
  const RESOLVED_REQUEST_QUEUE: string := "/queue/requestResolved"

  /** The key of one subscription; equality is structural over all four fields. */
  datatype SubscriptionKey = SubscriptionKey(
    wsSessionId: string,
    wsSubscriptionId: string,
    identityRequestId: string,
    wsUserName: string)

  /** The key's constructor, whose third parameter is the user name and fourth the request id. */
  function NewKey(wsSessionId: string, wsSubscriptionId: string, wsUserName: string, identityRequestId: string): (k: SubscriptionKey)
    ensures k.wsUserName == wsUserName && k.identityRequestId == identityRequestId
    ensures k.wsSessionId == wsSessionId && k.wsSubscriptionId == wsSubscriptionId
  {
    SubscriptionKey(wsSessionId, wsSubscriptionId, identityRequestId, wsUserName)
  }

  /**
   * The key the subscribe handler builds, as written: it passes the request
   * id third and the user name fourth, so the two end up swapped: the key's
   * request id is the user's name and its user name is the request id.
   */
  function KeyAsBuilt(wsSessionId: string, wsSubscriptionId: string, identityRequestId: string, userName: string): (k: SubscriptionKey)
    ensures k.identityRequestId == userName && k.wsUserName == identityRequestId
    ensures k.wsSessionId == wsSessionId && k.wsSubscriptionId == wsSubscriptionId
  {
    NewKey(wsSessionId, wsSubscriptionId, identityRequestId, userName)
  }

  /** The key the subscribe handler evidently means to build: every field holds its own argument. */
  function KeyIntended(wsSessionId: string, wsSubscriptionId: string, identityRequestId: string, userName: string): (k: SubscriptionKey)
    ensures k.identityRequestId == identityRequestId && k.wsUserName == userName
    ensures k.wsSessionId == wsSessionId && k.wsSubscriptionId == wsSubscriptionId
  {
    NewKey(wsSessionId, wsSubscriptionId, userName, identityRequestId)
  }

  /**
   * So, as built, the publisher asks the store for the user's name: unless
   * that happens to be a request id the state is missing and nothing is ever
   * delivered. With the intended key it asks for the subscribed request.
   */
  lemma KeyAsBuiltPollsUserName(s: Store, wsSessionId: string, wsSubscriptionId: string, identityRequestId: string, userName: string)
    requires identityRequestId in s && userName !in s
    ensures KeyAsBuilt(wsSessionId, wsSubscriptionId, identityRequestId, userName).identityRequestId !in s
    ensures KeyIntended(wsSessionId, wsSubscriptionId, identityRequestId, userName).identityRequestId in s
    ensures KeyIntended(wsSessionId, wsSubscriptionId, identityRequestId, userName).wsUserName == userName
  {
  }

  /**
   * `equals`: field by field over all four fields. It holds exactly when the
   * keys are the same value, so the map keys on all four fields.
   */
  predicate KeyEquals(a: SubscriptionKey, b: SubscriptionKey): (r: bool)
    ensures r <==> a == b
  {
    && a.wsSessionId == b.wsSessionId
    && a.wsSubscriptionId == b.wsSubscriptionId
    && a.wsUserName == b.wsUserName
    && a.identityRequestId == b.identityRequestId
  }

  /** Java's `int` arithmetic: the value in [-2^31, 2^31) congruent to `x` modulo 2^32. */
  function Wrap32(x: int): (r: int)
    ensures -0x8000_0000 <= r < 0x8000_0000
    ensures (x - r) % 0x1_0000_0000 == 0
  {
    var m := x % 0x1_0000_0000;
    if m < 0x8000_0000 then m else m - 0x1_0000_0000
  }

  /** `String.hashCode`: h = 31 * h + c over the characters, in `int` arithmetic. */
  function StringHash(s: string): (h: int)
    ensures -0x8000_0000 <= h < 0x8000_0000
  {
    if s == [] then 0 else Wrap32(31 * StringHash(s[..|s| - 1]) + s[|s| - 1] as int)
  }

  /** `hashCode`: `Objects.hash` over session id, subscription id, user name and request id, in that order. */
  function KeyHash(k: SubscriptionKey): (h: int)
    ensures -0x8000_0000 <= h < 0x8000_0000
  {
    var h0 := Wrap32(31 * 1 + StringHash(k.wsSessionId));
    var h1 := Wrap32(31 * h0 + StringHash(k.wsSubscriptionId));
    var h2 := Wrap32(31 * h1 + StringHash(k.wsUserName));
    Wrap32(31 * h2 + StringHash(k.identityRequestId))
  }

  /** `hashCode` agrees with `equals`. */
  lemma KeyHashAgrees(a: SubscriptionKey, b: SubscriptionKey)
    requires KeyEquals(a, b)
    ensures KeyHash(a) == KeyHash(b)
  {
  }

  /** The keys an unsubscribe event targets: session id and subscription id both match. */
  function UnsubscribeTargets(keys: set<SubscriptionKey>, wsSessionId: string, wsSubscriptionId: string): (r: set<SubscriptionKey>)
    ensures r <= keys
    ensures forall k :: k in keys ==> (k in r <==> k.wsSubscriptionId == wsSubscriptionId && k.wsSessionId == wsSessionId)
  {
    set k | k in keys && k.wsSubscriptionId == wsSubscriptionId && k.wsSessionId == wsSessionId
  }

  /** The keys a disconnect event targets: the session id matches. */
  function DisconnectTargets(keys: set<SubscriptionKey>, wsSessionId: string): (r: set<SubscriptionKey>)
    ensures r <= keys
    ensures forall k :: k in keys ==> (k in r <==> k.wsSessionId == wsSessionId)
  {
    set k | k in keys && k.wsSessionId == wsSessionId
  }

  /** A disconnect targets every key an unsubscribe in the same session targets. */
  lemma DisconnectCoversUnsubscribe(keys: set<SubscriptionKey>, wsSessionId: string, wsSubscriptionId: string)
    ensures UnsubscribeTargets(keys, wsSessionId, wsSubscriptionId) <= DisconnectTargets(keys, wsSessionId)
  {
  }

  /** One message sent to a user: destination, payload and the `identityRequestId` header. */
  datatype Delivery = Delivery(user: string, destination: string, payload: IdentityRequestState, identityRequestId: string)

  class WebSocketAuthorizeController {
    const requestManager: IdentityRequestManager
    const listeningIdentityRequests: CancelableFutureStorage<SubscriptionKey>
    /** Every message sent so far, oldest first. */
    var sent: seq<Delivery>

    /** Each subscription has a task of its own: no future is filed under two keys. */
    ghost predicate Valid()
      reads this, listeningIdentityRequests
    {
      var e := listeningIdentityRequests.entries;
      forall k1, k2 :: k1 in e && k2 in e && k1 != k2 ==> e[k1] != e[k2]
    }

    constructor (requestManager: IdentityRequestManager)
      ensures Valid() && fresh(listeningIdentityRequests)
      ensures this.requestManager == requestManager
      ensures listeningIdentityRequests.entries == map[] && sent == []
    {
      this.requestManager := requestManager;
      listeningIdentityRequests := new CancelableFutureStorage();
      sent := [];
    }

    /**
     * A subscribe event. Without a user the handler fails and changes
     * nothing. Otherwise a new recurring task is scheduled and filed under
     * the subscription's key (the intended key: see `KeyAsBuilt`); a task
     * already filed under that key is displaced without being cancelled.
     */
    method HandleSubscribe(wsSessionId: string, wsSubscriptionId: string, identityRequestId: string, user: Option<string>)
      returns (ok: bool, task: Future?)
      requires Valid()
      modifies listeningIdentityRequests
      ensures Valid() && sent == old(sent)
      ensures ok <==> user.Some?
      ensures !ok ==> task == null && listeningIdentityRequests.entries == old(listeningIdentityRequests.entries)
      ensures ok ==> (task != null && fresh(task) && task.state == Pending &&
                      listeningIdentityRequests.entries ==
                        old(listeningIdentityRequests.entries)[KeyIntended(wsSessionId, wsSubscriptionId, identityRequestId, user.value) := task])
      ensures forall k :: k in old(listeningIdentityRequests.entries) ==>
                old(listeningIdentityRequests.entries[k]).state == old(listeningIdentityRequests.entries[k].state)
    {
      if user.None? {
        ok, task := false, null;
      } else {
        var eventSubscriptionKey := KeyIntended(wsSessionId, wsSubscriptionId, identityRequestId, user.value);
        task := StartToPublishResolutionEvents(eventSubscriptionKey);
        ok := true;
      }
    }

    /** Schedules the publisher for `key` and files its future with the inherited `put`. */
    method StartToPublishResolutionEvents(key: SubscriptionKey) returns (task: Future)
      requires Valid()
      modifies listeningIdentityRequests
      ensures Valid() && fresh(task) && task.state == Pending
      ensures listeningIdentityRequests.entries == old(listeningIdentityRequests.entries)[key := task]
    {
      task := new Future();
      var _ := listeningIdentityRequests.Put(key, task);
    }

    /**
     * An unsubscribe event: every key whose session id and subscription id
     * both match is removed as `remove(key)` removes it; nothing else changes.
     */
    method HandleUnsubscribe(wsSessionId: string, wsSubscriptionId: string, cancelSucceeds: SubscriptionKey -> bool)
      requires Valid()
      modifies listeningIdentityRequests, listeningIdentityRequests.entries.Values
      ensures Valid() && sent == old(sent)
      ensures RemovedAll(old(listeningIdentityRequests.entries), listeningIdentityRequests.entries,
                         UnsubscribeTargets(old(listeningIdentityRequests.entries.Keys), wsSessionId, wsSubscriptionId),
                         cancelSucceeds)
    {
      var toRemove := UnsubscribeTargets(listeningIdentityRequests.KeySet(), wsSessionId, wsSubscriptionId);
      RemoveEach(toRemove, cancelSucceeds);
    }

    /**
     * A disconnect event: every key of the session is removed as `remove(key)`
     * removes it; nothing else changes.
     */
    method HandleDisconnect(wsSessionId: string, cancelSucceeds: SubscriptionKey -> bool)
      requires Valid()
      modifies listeningIdentityRequests, listeningIdentityRequests.entries.Values
      ensures Valid() && sent == old(sent)
      ensures RemovedAll(old(listeningIdentityRequests.entries), listeningIdentityRequests.entries,
                         DisconnectTargets(old(listeningIdentityRequests.entries.Keys), wsSessionId),
                         cancelSucceeds)
    {
      var toRemove := DisconnectTargets(listeningIdentityRequests.KeySet(), wsSessionId);
      RemoveEach(toRemove, cancelSucceeds);
    }

    /**
     * `RemoveEach` did to `before` what calling `remove(key)` on every key of
     * `toRemove` does: the map keeps exactly the entries that are not targeted
     * or whose pending task could not be cancelled, every targeted future saw
     * a cancel (a done one is left as it was), and no other future changed.
     */
    twostate predicate RemovedAll(before: map<SubscriptionKey, Future>, new after: map<SubscriptionKey, Future>,
                                  toRemove: set<SubscriptionKey>, cancelSucceeds: SubscriptionKey -> bool)
      reads before.Values
    {
      && (forall k :: k in after <==> k in before && !(k in toRemove && Removable(old(before[k].state), cancelSucceeds(k))))
      && (forall k :: k in after ==> after[k] == before[k])
      && (forall k :: k in before ==>
            before[k].state == if k in toRemove then AfterCancel(old(before[k].state), true, cancelSucceeds(k))
                               else old(before[k].state))
    }

    /** The removal loop both handlers share: `remove(key)` on each key of a snapshot of matching keys. */
    method RemoveEach(toRemove: set<SubscriptionKey>, cancelSucceeds: SubscriptionKey -> bool)
      requires Valid()
      modifies listeningIdentityRequests, listeningIdentityRequests.entries.Values
      ensures Valid() && sent == old(sent)
      ensures RemovedAll(old(listeningIdentityRequests.entries), listeningIdentityRequests.entries, toRemove, cancelSucceeds)
    {
      var storage := listeningIdentityRequests;
      ghost var e0 := storage.entries;
      var rest := toRemove;
      while rest != {}
        invariant Valid() && rest <= toRemove
        invariant storage.entries.Keys <= e0.Keys
        invariant forall k :: k in storage.entries ==> storage.entries[k] == e0[k]
        invariant forall k :: k in e0 ==>
                    (k in storage.entries <==> !(k in toRemove && k !in rest && Removable(old(e0[k].state), cancelSucceeds(k))))
        invariant forall k :: k in e0 ==>
                    e0[k].state == if k in toRemove && k !in rest then AfterCancel(old(e0[k].state), true, cancelSucceeds(k))
                                   else old(e0[k].state)
        decreases rest
      {
        var subscriptionKey :| subscriptionKey in rest;
        var _ := storage.RemoveKey(subscriptionKey, cancelSucceeds(subscriptionKey));
        rest := rest - {subscriptionKey};
      }
    }

    /**
     * One run of the publisher task `task` bound to `key`. It reads the
     * request's state; when the state is missing (`null`) the run throws
     * before delivering anything and the executor marks the task done. Any
     * state that can be read, whatever its status, is delivered once to the
     * key's user, and then the task calls `remove(key)` on its own entry.
     */
    method PublisherTick(key: SubscriptionKey, task: Future, cancelSucceeds: bool) returns (delivered: bool)
      requires Valid() && task.state == Pending
      modifies this, listeningIdentityRequests, listeningIdentityRequests.FutureAt(key), task
      ensures Valid()
      ensures delivered <==> key.identityRequestId in requestManager.Contents()
      ensures !delivered ==>
                sent == old(sent) && task.state == Done &&
                listeningIdentityRequests.entries == old(listeningIdentityRequests.entries) &&
                (key in old(listeningIdentityRequests.entries) && old(listeningIdentityRequests.entries[key]) != task ==>
                   old(listeningIdentityRequests.entries[key]).state == old(listeningIdentityRequests.entries[key].state))
      ensures delivered ==>
                sent == old(sent) + [Delivery(key.wsUserName, RESOLVED_REQUEST_QUEUE,
                                              requestManager.Contents()[key.identityRequestId].State(),
                                              key.identityRequestId)]
      ensures delivered ==>
                var e := old(listeningIdentityRequests.entries);
                && listeningIdentityRequests.entries ==
                     (if key in e && Removable(old(e[key].state), cancelSucceeds) then e - {key} else e)
                && (key in e ==> e[key].state == AfterCancel(old(e[key].state), true, cancelSucceeds))
                && (key !in e || e[key] != task ==> task.state == Pending)
    {
      var identityStatus := requestManager.GetRequestState(key.identityRequestId);
      if identityStatus.None? {
        // The dereference of the missing state throws; the executor then
        // completes the future exceptionally and never runs it again.
        task.state := Done;
        delivered := false;
      } else {
        sent := sent + [Delivery(key.wsUserName, RESOLVED_REQUEST_QUEUE, identityStatus.value, key.identityRequestId)];
        var _ := listeningIdentityRequests.RemoveKey(key, cancelSucceeds);
        delivered := true;
      }
    }
  }
}
