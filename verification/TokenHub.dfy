/** The hub: one bounded queue per request, filled without ever blocking. */
module TokenHub {
  import opened Types

  const QUEUE_CAPACITY: nat := 1000

  /** What a delivery does to the queues: it is dropped if the request has none or its queue is full. */
  function DeliverTo(pending: map<Id, seq<TokenEvent>>, r: Id, t: TokenEvent): map<Id, seq<TokenEvent>> {
    if r in pending && |pending[r]| < QUEUE_CAPACITY then pending[r := pending[r] + [t]] else pending
  }

  /** A buffered channel of the hub. The handler keeps it even after the hub forgets it. */
  class TokenQueue {
    var items: seq<TokenEvent>

    constructor ()
      ensures items == []
    {
      items := [];
    }

    /** A send that never blocks: a full queue refuses the token. */
    method TrySend(token: TokenEvent) returns (sent: bool)
      modifies this
      ensures sent <==> |old(items)| < QUEUE_CAPACITY
      ensures items == if sent then old(items) + [token] else old(items)
    {
      sent := |items| < QUEUE_CAPACITY;
      if sent {
        items := items + [token];
      }
    }

    method Receive() returns (token: TokenEvent)
      requires items != []
      modifies this
      ensures [token] + items == old(items)
    {
      token := items[0];
      items := items[1..];
    }
  }

  class TokenHubImpl {
    var pending: map<Id, TokenQueue>

    /** No two requests share a queue. */
    ghost predicate Valid()
      reads this
    {
      forall r, q :: r in pending && q in pending && r != q ==> pending[r] != pending[q]
    }

    ghost function Contents(): map<Id, seq<TokenEvent>>
      reads this, pending.Values
    {
      map r | r in pending :: pending[r].items
    }

    constructor ()
      ensures Valid() && Contents() == map[]
    {
      pending := map[];
    }

    method Register(requestID: Id) returns (ch: TokenQueue)
      requires Valid()
      modifies this
      ensures Valid() && fresh(ch) && ch.items == [] && pending == old(pending)[requestID := ch]
      ensures Contents() == old(Contents())[requestID := []]
    {
      ch := new TokenQueue();
      pending := pending[requestID := ch];
    }

    method Deliver(requestID: Id, token: TokenEvent) returns (ghost dropped: bool)
      requires Valid()
      modifies pending.Values
      ensures Valid() && pending == old(pending)
      ensures Contents() == DeliverTo(old(Contents()), requestID, token)
      ensures dropped <==> requestID !in pending || |old(Contents())[requestID]| >= QUEUE_CAPACITY
    {
      dropped := true;
      if requestID in pending {
        var ch := pending[requestID];
        var sent := ch.TrySend(token);
        dropped := !sent;
      }
    }

    method Cleanup(requestID: Id)
      requires Valid()
      modifies this
      ensures Valid() && Contents() == old(Contents()) - {requestID}
    {
      pending := pending - {requestID};
    }
  }
}
