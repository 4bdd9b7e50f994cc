/**
 * The request store (`IdentityRequestManager`): a map from request id to
 * record, with creation, resolution, snapshot queries and the periodic sweep
 * that expires and evicts old requests. The clock reading and the fresh id
 * the source obtains itself are parameters here.
 */
module RequestManager {
  import opened Wrappers
  import opened Request

  /** An in-progress request expires ten minutes after it was created. */
  const EXPIRES_AFTER: int := 10 * 60 * 1000
  /** Any request is evicted sixty minutes after it was created. */
  const DELETE_AFTER: int := 60 * 60 * 1000

  /** The abstract content of the store: the fields of each record, by id. */
  type Store = map<string, RequestView>

  /** Every record is filed under its own id. */
  ghost predicate WellKeyed(s: Store) {
    forall k :: k in s ==> s[k].id == k
  }

  /** `created + EXPIRES_AFTER` lies strictly before `now`. */
  predicate ExpiryDue(r: RequestView, now: Instant) {
    r.created + EXPIRES_AFTER < now
  }

  /** `created + DELETE_AFTER` lies strictly before `now`. */
  predicate DeletionDue(r: RequestView, now: Instant) {
    r.created + DELETE_AFTER < now
  }

  /** The sweep's first test on one record: an overdue in-progress record becomes expired. */
  function ExpireIfDue(r: RequestView, now: Instant): (e: RequestView)
    ensures e.id == r.id && e.created == r.created && e.upn == r.upn
    ensures e.status == Some(Expired) <==>
              r.status == Some(Expired) || (r.status == Some(InProgress) && ExpiryDue(r, now))
    ensures e.status != r.status ==> r.status == Some(InProgress) && e.status == Some(Expired)
  {
    if r.status == Some(InProgress) && ExpiryDue(r, now) then r.(status := Some(Expired)) else r
  }

  /**
   * What one sweep at `now` is meant to leave: exactly the records not yet due
   * for eviction remain, each one expired if it was overdue and in progress.
   */
  function Swept(s: Store, now: Instant): (r: Store)
    ensures forall k :: k in r <==> k in s && !DeletionDue(s[k], now)
    ensures forall k :: k in r ==> r[k] == ExpireIfDue(s[k], now)
    ensures WellKeyed(s) ==> WellKeyed(r)
  {
    map k | k in s && !DeletionDue(s[k], now) :: ExpireIfDue(s[k], now)
  }

  /** Applying the expiry test at `t1` and then at a later `t2` is applying it once, at `t2`. */
  lemma ExpireIfDueLater(r: RequestView, t1: Instant, t2: Instant)
    requires t1 <= t2
    ensures ExpireIfDue(ExpireIfDue(r, t1), t2) == ExpireIfDue(r, t2)
  {
  }

  /**
   * A sweep at `t1` followed by one at a later `t2` leaves what a single sweep
   * at `t2` leaves; in particular sweeping twice at the same time changes nothing
   * the first sweep did not.
   */
  lemma SweptLater(s: Store, t1: Instant, t2: Instant)
    requires t1 <= t2
    ensures Swept(Swept(s, t1), t2) == Swept(s, t2)
  {
  }

  /** No sweep ever puts a record back into progress: a record in progress after it was in progress before. */
  lemma SweptNeverRestartsProgress(s: Store, now: Instant, k: string)
    requires k in Swept(s, now) && Swept(s, now)[k].status == Some(InProgress)
    ensures k in s && s[k].status == Some(InProgress) && !ExpiryDue(s[k], now)
  {
  }

  /**
   * A record the store created and nobody resolved has no status at all, so
   * the sweep never expires it, however late it runs; only eviction removes it.
   */
  lemma UnresolvedNeverExpires(s: Store, id: string, created: Instant, now: Instant)
    ensures id in Swept(s[id := RequestView(id, created, None, None)], now) <==> !(created + DELETE_AFTER < now)
    ensures id in Swept(s[id := RequestView(id, created, None, None)], now) ==>
              Swept(s[id := RequestView(id, created, None, None)], now)[id].status == None
  {
  }

  /** The result of the sweep as the source writes it: the store it leaves and whether it threw. */
  datatype SweepRun = SweepRun(store: Store, threw: bool)

  /** `order` lists every key of `s` once: a possible iteration order of the hash map. */
  ghost predicate IterationOrder(s: Store, order: seq<string>) {
    && (forall i, j :: 0 <= i < j < |order| ==> order[i] != order[j])
    && (forall k :: k in s <==> k in order)
  }

  /**
   * The sweep exactly as written. It walks the records in iteration order and
   * expires each overdue in-progress one; but for a record due for eviction it
   * calls `remove()` on a second iterator that was never advanced, which throws
   * IllegalStateException. So the walk stops at the first record due for
   * eviction (after expiring it) and nothing is ever evicted: the keys
   * stay as they were, and a record is either left alone or given the
   * expiry test.
   */
  function SweepAsWritten(s: Store, order: seq<string>, now: Instant): (r: SweepRun)
    requires forall i :: 0 <= i < |order| ==> order[i] in s
    ensures r.store.Keys == s.Keys
    ensures forall k :: k in s ==> r.store[k] == s[k] || r.store[k] == ExpireIfDue(s[k], now)
    decreases |order|
  {
    if order == [] then SweepRun(s, false)
    else
      var k := order[0];
      var s' := s[k := ExpireIfDue(s[k], now)];
      if DeletionDue(s[k], now) then SweepRun(s', true)
      else SweepAsWritten(s', order[1..], now)
  }

  /** As written, the sweep throws exactly when some record it walks is due for eviction. */
  lemma {:induction false} SweepAsWrittenThrows(s: Store, order: seq<string>, now: Instant)
    requires forall i :: 0 <= i < |order| ==> order[i] in s
    ensures SweepAsWritten(s, order, now).threw <==>
              exists i :: 0 <= i < |order| && DeletionDue(s[order[i]], now)
    decreases |order|
  {
    if order != [] {
      var k := order[0];
      var s' := s[k := ExpireIfDue(s[k], now)];
      if !DeletionDue(s[k], now) {
        SweepAsWrittenThrows(s', order[1..], now);
        assert forall i :: 0 <= i < |order| - 1 ==> order[1..][i] == order[i + 1];
      }
    }
  }

  /** Walking part of the keys with nothing due for eviction expires exactly the walked keys. */
  lemma {:induction false} SweepAsWrittenWalk(s: Store, order: seq<string>, now: Instant)
    requires forall i :: 0 <= i < |order| ==> order[i] in s
    requires forall k :: k in s ==> !DeletionDue(s[k], now)
    ensures !SweepAsWritten(s, order, now).threw
    ensures SweepAsWritten(s, order, now).store.Keys == s.Keys
    ensures forall k :: k in s && k in order ==> SweepAsWritten(s, order, now).store[k] == ExpireIfDue(s[k], now)
    ensures forall k :: k in s && k !in order ==> SweepAsWritten(s, order, now).store[k] == s[k]
    decreases |order|
  {
    if order != [] {
      var k := order[0];
      var s' := s[k := ExpireIfDue(s[k], now)];
      SweepAsWrittenWalk(s', order[1..], now);
      forall j | j in s
        ensures j in order <==> j == k || j in order[1..]
      {
        assert order == [k] + order[1..];
      }
      forall j | j in s && j in order
        ensures SweepAsWritten(s, order, now).store[j] == ExpireIfDue(s[j], now)
      {
        ExpireIfDueLater(s[j], now, now);
      }
    }
  }

  /**
   * When no record is due for eviction the sweep as written does not throw
   * and leaves exactly what the intended sweep leaves, in any iteration order.
   */
  lemma SweepAsWrittenAgrees(s: Store, order: seq<string>, now: Instant)
    requires IterationOrder(s, order)
    requires forall k :: k in s ==> !DeletionDue(s[k], now)
    ensures SweepAsWritten(s, order, now) == SweepRun(Swept(s, now), false)
  {
    SweepAsWrittenWalk(s, order, now);
    var run := SweepAsWritten(s, order, now);
    assert run.store.Keys == Swept(s, now).Keys;
    assert run.store == Swept(s, now);
  }

  /**
   * When some record is due for eviction the sweep as written throws and
   * keeps it, where the intended sweep removes it.
   */
  lemma SweepAsWrittenDiffers(s: Store, order: seq<string>, now: Instant, stale: string)
    requires IterationOrder(s, order)
    requires stale in s && DeletionDue(s[stale], now)
    ensures SweepAsWritten(s, order, now).threw
    ensures stale in SweepAsWritten(s, order, now).store && stale !in Swept(s, now)
  {
    SweepAsWrittenThrows(s, order, now);
    var i :| 0 <= i < |order| && order[i] == stale;
  }

  /** One concrete input: a request created at time 0 and swept just after its sixty minutes. */
  lemma SweepAsWrittenExample()
    ensures var s := map["r1" := RequestView("r1", 0, Some(InProgress), None)];
            var run := SweepAsWritten(s, ["r1"], DELETE_AFTER + 1);
            run.threw && "r1" in run.store && run.store["r1"].status == Some(Expired) &&
            Swept(s, DELETE_AFTER + 1) == map[]
  {
  }

  /**
   * The store. Records are objects shared with whoever `CreateRequest`
   * returned them to; `Contents()` is the value of all their fields.
   */
  class IdentityRequestManager {
    var identityRequests: map<string, IdentityRequest>

    /** Each record is filed under its own id, so distinct keys hold distinct records. */
    ghost predicate Valid()
      reads this
    {
      forall k :: k in identityRequests ==> identityRequests[k].id == k
    }

    function Contents(): Store
      reads this, identityRequests.Values
    {
      map k | k in identityRequests :: identityRequests[k].View()
    }

    constructor ()
      ensures Valid() && Contents() == map[] && identityRequests == map[]
    {
      identityRequests := map[];
    }

    /**
     * Files a new record under `freshId` (the id the source draws from a random
     * UUID) created at `now`, with no status and no upn, and returns it. Every
     * other entry is kept; the map's `put` would overwrite an entry with the same id.
     */
    method CreateRequest(freshId: string, now: Instant) returns (r: IdentityRequest)
      requires Valid()
      modifies this
      ensures Valid() && fresh(r)
      ensures identityRequests == old(identityRequests)[freshId := r]
      ensures Contents() == old(Contents())[freshId := RequestView(freshId, now, None, None)]
      ensures freshId !in old(Contents()) ==> |Contents()| == |old(Contents())| + 1
    {
      r := new IdentityRequest(freshId, now);
      identityRequests := identityRequests[freshId := r];
      assert Contents() == old(Contents())[freshId := RequestView(freshId, now, None, None)];
    }

    /**
     * Marks the request complete by `upn` if it exists, whatever its current
     * status, and says whether it existed. `shouldDelete` has no effect.
     */
    method CompleteRequest(requestId: string, upn: string, shouldDelete: bool) returns (found: bool)
      requires Valid()
      modifies identityRequests.Values
      ensures identityRequests == old(identityRequests) && Valid()
      ensures found <==> requestId in old(Contents())
      ensures Contents() == Resolved(old(Contents()), requestId, Complete, upn)
    {
      if requestId in identityRequests {
        var identityRequest := identityRequests[requestId];
        identityRequest.SetStatus(Complete);
        identityRequest.SetUpn(upn);
        found := true;
        assert Contents() == Resolved(old(Contents()), requestId, Complete, upn);
      } else {
        found := false;
      }
    }

    /** Marks the request rejected by `upn` if it exists, whatever its current status, and says whether it existed. */
    method RejectRequest(requestId: string, upn: string) returns (found: bool)
      requires Valid()
      modifies identityRequests.Values
      ensures identityRequests == old(identityRequests) && Valid()
      ensures found <==> requestId in old(Contents())
      ensures Contents() == Resolved(old(Contents()), requestId, Rejected, upn)
    {
      if requestId in identityRequests {
        var identityRequest := identityRequests[requestId];
        identityRequest.SetStatus(Rejected);
        identityRequest.SetUpn(upn);
        found := true;
        assert Contents() == Resolved(old(Contents()), requestId, Rejected, upn);
      } else {
        found := false;
      }
    }

    /** A snapshot of the stored id, status and upn, or `None` (the source's `null`) for an unknown id. */
    method GetRequestState(requestId: string) returns (r: Option<IdentityRequestState>)
      ensures r.Some? <==> requestId in Contents()
      ensures r.Some? ==> r.value == Contents()[requestId].State()
    {
      if requestId in identityRequests {
        var identityRequest := identityRequests[requestId];
        r := Some(IdentityRequestState(identityRequest.id, identityRequest.status, identityRequest.upn));
      } else {
        r := None;
      }
    }

    /**
     * The sweep at `now`, with the eviction the source's conditions describe:
     * records are updated in place, and every record due for eviction leaves
     * the map. (The source removes through a second iterator that was never
     * advanced, which throws instead; see `SweepAsWritten`.)
     */
    method ProcessRequests(now: Instant)
      requires Valid()
      modifies this, identityRequests.Values
      ensures Valid()
      ensures Contents() == Swept(old(Contents()), now)
      ensures forall k :: k in identityRequests ==> k in old(identityRequests) && identityRequests[k] == old(identityRequests[k])
      ensures forall k :: k in old(identityRequests) ==>
                old(identityRequests[k]).View() == ExpireIfDue(old(identityRequests[k].View()), now)
    {
      var m0 := identityRequests;
      var pending := identityRequests.Keys;
      while pending != {}
        invariant pending <= m0.Keys && identityRequests.Keys <= m0.Keys
        invariant forall k :: k in m0 ==> m0[k].id == k
        invariant forall k :: k in m0 ==> (k in identityRequests <==> k in pending || !DeletionDue(old(m0[k].View()), now))
        invariant forall k :: k in identityRequests ==> identityRequests[k] == m0[k]
        invariant forall k :: k in pending ==> m0[k].View() == old(m0[k].View())
        invariant forall k :: k in m0 && k !in pending ==> m0[k].View() == ExpireIfDue(old(m0[k].View()), now)
        decreases pending
      {
        var k :| k in pending;
        SweepEntry(k, now);
        pending := pending - {k};
      }
      forall k | k in identityRequests
        ensures Contents()[k] == Swept(old(Contents()), now)[k]
      {
      }
      assert Contents() == Swept(old(Contents()), now);
    }

    /** One turn of the sweep's loop, for the record filed under `k`: expire it if due, then evict it if due. */
    method SweepEntry(k: string, now: Instant)
      requires k in identityRequests
      modifies this, identityRequests[k]
      ensures identityRequests == if DeletionDue(old(identityRequests[k].View()), now)
                                  then old(identityRequests) - {k} else old(identityRequests)
      ensures old(identityRequests[k]).View() == ExpireIfDue(old(identityRequests[k].View()), now)
    {
      var identityRequest := identityRequests[k];
      if identityRequest.status == Some(InProgress) && identityRequest.created + EXPIRES_AFTER < now {
        identityRequest.SetStatus(Expired);
      }
      if identityRequest.created + DELETE_AFTER < now {
        identityRequests := identityRequests - {k};
      }
    }
  }

  /** The store after resolving `id` with `status` and `upn`: only that record changes, and only if present. */
  function Resolved(s: Store, id: string, status: Status, upn: string): (r: Store)
    ensures r.Keys == s.Keys
    ensures id in s ==> r[id].status == Some(status) && r[id].upn == Some(upn) && r[id].id == s[id].id && r[id].created == s[id].created
    ensures forall k :: k in s && k != id ==> r[k] == s[k]
    ensures WellKeyed(s) ==> WellKeyed(r)
  {
    if id in s then s[id := s[id].(status := Some(status), upn := Some(upn))] else s
  }

  /**
   * Resolution has no guard on the current status: resolving overwrites a
   * status that was complete, rejected or expired, and the snapshot afterwards
   * reports the new status and upn.
   */
  lemma ResolveOverwrites(s: Store, id: string, status: Status, upn: string)
    requires id in s && s[id].status.Some? && s[id].status.value != InProgress
    ensures Resolved(s, id, status, upn)[id].State() == IdentityRequestState(s[id].id, Some(status), Some(upn))
  {
  }
}
