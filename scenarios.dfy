/** End-to-end runs of the model, each stated as a client of the contracts alone. */
module Scenarios {
  import opened Wrappers
  import opened Request
  import opened RequestManager
  import opened FutureStorage
  import opened AuthorizeController

  /**
   * A user subscribes to a filed request, it is rejected by `resolver`, and
   * the next run of the user's task delivers exactly that state once and
   * removes the subscription it ran under.
   */
  method RejectedRequestIsDeliveredOnce(controller: WebSocketAuthorizeController, key: SubscriptionKey, resolver: string)
    requires controller.Valid() && controller.requestManager.Valid()
    requires key.identityRequestId in controller.requestManager.Contents()
    modifies controller, controller.listeningIdentityRequests, controller.listeningIdentityRequests.entries.Values
    modifies controller.requestManager.identityRequests.Values
  {
    var manager := controller.requestManager;
    var id := key.identityRequestId;
    var ok, task := controller.HandleSubscribe(key.wsSessionId, key.wsSubscriptionId, id, Some(key.wsUserName));
    assert KeyIntended(key.wsSessionId, key.wsSubscriptionId, id, key.wsUserName) == key;
    var found := manager.RejectRequest(id, resolver);
    var sent0 := controller.sent;
    var delivered := controller.PublisherTick(key, task, true);
    assert controller.sent == sent0 + [Delivery(key.wsUserName, RESOLVED_REQUEST_QUEUE,
                                                IdentityRequestState(id, Some(Rejected), Some(resolver)), id)];
    assert key !in controller.listeningIdentityRequests.entries;
    assert task.state == Cancelled(true);
  }

  /** The task fires on the first state it can read, even one nobody has resolved yet. */
  method UnresolvedRequestIsDelivered(id: string, user: string, now: Instant) {
    var manager := new IdentityRequestManager();
    var request := manager.CreateRequest(id, now);
    var controller := new WebSocketAuthorizeController(manager);
    var ok, task := controller.HandleSubscribe("session", "sub-0", id, Some(user));
    var delivered := controller.PublisherTick(KeyIntended("session", "sub-0", id, user), task, true);
    assert controller.sent == [Delivery(user, RESOLVED_REQUEST_QUEUE, IdentityRequestState(id, None, None), id)];
  }

  /**
   * Subscribing twice under the same key displaces the first task without
   * cancelling it. The first task's run then removes (and cancels) the second
   * one, while it stays scheduled itself and delivers again on its next run.
   */
  method DoubleSubscribeLeaksFirstTask(controller: WebSocketAuthorizeController, key: SubscriptionKey)
    requires controller.Valid() && key.identityRequestId in controller.requestManager.Contents()
    modifies controller, controller.listeningIdentityRequests, controller.listeningIdentityRequests.entries.Values
  {
    var ok1, first := controller.HandleSubscribe(key.wsSessionId, key.wsSubscriptionId, key.identityRequestId, Some(key.wsUserName));
    var ok2, second := controller.HandleSubscribe(key.wsSessionId, key.wsSubscriptionId, key.identityRequestId, Some(key.wsUserName));
    assert KeyIntended(key.wsSessionId, key.wsSubscriptionId, key.identityRequestId, key.wsUserName) == key;
    assert first.state == Pending && controller.listeningIdentityRequests.entries[key] == second;
    var sent0 := controller.sent;
    var d1 := controller.PublisherTick(key, first, true);
    assert second.state == Cancelled(true) && first.state == Pending;
    assert key !in controller.listeningIdentityRequests.entries;
    var d2 := controller.PublisherTick(key, first, true);
    assert |controller.sent| == |sent0| + 2 && first.state == Pending;
  }

  /**
   * An unsubscribe after the task already removed itself finds nothing to
   * remove: it changes nothing, and exactly one message was sent.
   */
  method UnsubscribeAfterSelfRemoval(controller: WebSocketAuthorizeController, key: SubscriptionKey)
    requires controller.Valid() && key.identityRequestId in controller.requestManager.Contents()
    requires controller.listeningIdentityRequests.entries == map[]
    modifies controller, controller.listeningIdentityRequests
  {
    var ok, task := controller.HandleSubscribe(key.wsSessionId, key.wsSubscriptionId, key.identityRequestId, Some(key.wsUserName));
    assert KeyIntended(key.wsSessionId, key.wsSubscriptionId, key.identityRequestId, key.wsUserName) == key;
    var sent0 := controller.sent;
    var delivered := controller.PublisherTick(key, task, true);
    assert controller.listeningIdentityRequests.entries == map[];
    controller.HandleUnsubscribe(key.wsSessionId, key.wsSubscriptionId, _ => true);
    assert controller.listeningIdentityRequests.entries == map[] && |controller.sent| == |sent0| + 1;
    assert task.state == Cancelled(true);
  }

  /**
   * A request nobody resolves has no status, so the sweep never expires it;
   * once its sixty minutes are over the sweep evicts it, and a task polling
   * it then fails without sending anything.
   */
  method UnresolvedRequestIsEvictedNotExpired(id: string, user: string) {
    var manager := new IdentityRequestManager();
    var request := manager.CreateRequest(id, 0);
    manager.ProcessRequests(EXPIRES_AFTER + 1);
    assert manager.Contents()[id].status == None;
    manager.ProcessRequests(DELETE_AFTER + 1);
    assert id !in manager.Contents();
    var controller := new WebSocketAuthorizeController(manager);
    var ok, task := controller.HandleSubscribe("session", "sub-0", id, Some(user));
    var delivered := controller.PublisherTick(KeyIntended("session", "sub-0", id, user), task, true);
    assert !delivered && controller.sent == [] && task.state == Done;
  }

  /**
   * With the key built as the subscribe handler writes it, the task polls the
   * user's name instead of the request: its first run finds no state, sends
   * nothing and is done, while its entry stays filed.
   */
  method AsBuiltKeyNeverDelivers(controller: WebSocketAuthorizeController, wsSessionId: string, wsSubscriptionId: string,
                                 identityRequestId: string, userName: string)
    requires controller.Valid()
    requires identityRequestId in controller.requestManager.Contents() && userName !in controller.requestManager.Contents()
    modifies controller, controller.listeningIdentityRequests, controller.listeningIdentityRequests.entries.Values
  {
    var key := KeyAsBuilt(wsSessionId, wsSubscriptionId, identityRequestId, userName);
    var task := controller.StartToPublishResolutionEvents(key);
    var sent0 := controller.sent;
    var delivered := controller.PublisherTick(key, task, true);
    assert !delivered && controller.sent == sent0 && task.state == Done;
    assert key in controller.listeningIdentityRequests.entries;
  }
}
