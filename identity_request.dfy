/**
 * The identity-request record (`IdentityRequest`), its status enumeration and
 * the immutable snapshot (`IdentityRequest.IdentityRequestState`) that the
 * manager hands out.
 */
module Request {
  import opened Wrappers

  /** The four lifecycle states of a request. */
  datatype Status = InProgress | Complete | Rejected | Expired

  /** Every value of `Status`; there are exactly four. */
  function AllStatuses(): (r: set<Status>)
    ensures |r| == 4
  {
    {InProgress, Complete, Rejected, Expired}
  }

  /** No status lies outside `AllStatuses()`. */
  lemma StatusInAll(s: Status)
    ensures s in AllStatuses()
  {
  }

  /** A reading of the local clock, as an integer number of milliseconds. */
  type Instant = int

  /**
   * The snapshot of a request: its id, status and upn. Being a value, it can
   * never change after it was built, and its fields are its getters.
   * `None` stands for a `null` status or upn.
   */
  datatype IdentityRequestState = IdentityRequestState(id: string, status: Option<Status>, upn: Option<string>)

  /** All four fields of a record at one moment. */
  datatype RequestView = RequestView(id: string, created: Instant, status: Option<Status>, upn: Option<string>)
  {
    /** The snapshot the manager builds from this record. */
    function State(): IdentityRequestState {
      IdentityRequestState(id, status, upn)
    }
  }

  /** The mutable request record; `id` and `created` are final. */
  class IdentityRequest {
    const id: string
    const created: Instant
    var status: Option<Status>
    var upn: Option<string>

    /**
     * The record starts with the given id, creation time `now` (the clock
     * reading the source takes itself), and NEITHER status NOR upn: both stay
     * `null` until a setter is called.
     */
    constructor (id: string, now: Instant)
      ensures this.id == id && created == now
      ensures status == None && upn == None
    {
      this.id := id;
      created := now;
      status := None;
      upn := None;
    }

    function View(): RequestView
      reads this
    {
      RequestView(id, created, status, upn)
    }

    /** Sets the status and nothing else. */
    method SetStatus(status: Status)
      modifies this`status
      ensures this.status == Some(status)
      ensures upn == old(upn)
    {
      this.status := Some(status);
    }

    /** Sets the upn and nothing else. */
    method SetUpn(upn: string)
      modifies this`upn
      ensures this.upn == Some(upn)
      ensures status == old(status)
    {
      this.upn := Some(upn);
    }
  }
}
