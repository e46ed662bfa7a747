/** The gRPC server side of one token stream: every received message goes to the hub, in order. */
module TokenServer {
  import opened Types
  import opened TokenHub

  /** How a stream ends for the server: acknowledged at end of file, refused, or broken. */
  datatype Status = Acked | InvalidArgument | RecvError

  /** The messages before the first one without a request id. */
  function Accepted(msgs: seq<TokenEvent>): seq<TokenEvent> {
    if msgs == [] || msgs[0].requestID == "" then [] else [msgs[0]] + Accepted(msgs[1..])
  }

  function DeliverAll(pending: map<Id, seq<TokenEvent>>, ts: seq<TokenEvent>): map<Id, seq<TokenEvent>> {
    if ts == [] then pending
    else DeliverTo(DeliverAll(pending, ts[..|ts| - 1]), ts[|ts| - 1].requestID, ts[|ts| - 1])
  }

  lemma DeliverAllSnoc(pending: map<Id, seq<TokenEvent>>, ts: seq<TokenEvent>, t: TokenEvent)
    ensures DeliverAll(pending, ts + [t]) == DeliverTo(DeliverAll(pending, ts), t.requestID, t)
  {
    assert (ts + [t])[..|ts|] == ts;
  }

  /** The queues after the first `i` messages. */
  function DeliveredUpTo(pending: map<Id, seq<TokenEvent>>, msgs: seq<TokenEvent>, i: nat): map<Id, seq<TokenEvent>>
    requires i <= |msgs|
  {
    DeliverAll(pending, Views(msgs[..i]))
  }

  lemma DeliverNext(pending: map<Id, seq<TokenEvent>>, msgs: seq<TokenEvent>, i: nat)
    requires i < |msgs|
    ensures DeliveredUpTo(pending, msgs, i + 1) ==
        DeliverTo(DeliveredUpTo(pending, msgs, i), msgs[i].requestID, View(msgs[i]))
    ensures DeliveredUpTo(pending, msgs, 0) == pending
  {
    assert Views(msgs[..i + 1]) == Views(msgs[..i]) + [View(msgs[i])];
    DeliverAllSnoc(pending, Views(msgs[..i]), View(msgs[i]));
  }

  lemma {:induction false} AcceptedUpTo(msgs: seq<TokenEvent>, n: nat)
    requires n <= |msgs| && forall i :: 0 <= i < n ==> msgs[i].requestID != ""
    requires n == |msgs| || msgs[n].requestID == ""
    ensures Accepted(msgs) == msgs[..n]
  {
    if n > 0 {
      AcceptedUpTo(msgs[1..], n - 1);
      assert msgs[..n] == [msgs[0]] + msgs[1..][..n - 1];
    }
  }

  /** A request gets its own messages in order, cut off where its queue is full; an unregistered one gets nothing. */
  lemma {:induction false} DeliverAllPerRequest(pending: map<Id, seq<TokenEvent>>, ts: seq<TokenEvent>, r: Id)
    requires forall q :: q in pending ==> |pending[q]| <= QUEUE_CAPACITY
    ensures DeliverAll(pending, ts).Keys == pending.Keys
    ensures r in pending ==>
              var mine, room := Of(r, ts), QUEUE_CAPACITY - |pending[r]|;
              DeliverAll(pending, ts)[r] == pending[r] + if |mine| <= room then mine else mine[..room]
  {
    if ts != [] {
      DeliverAllPerRequest(pending, ts[..|ts| - 1], r);
    }
  }

  /** If no queue was longer than it may be, each request got its own of `ts`, as far as its queue had room. */
  ghost predicate EachGetsItsOwn(before: map<Id, seq<TokenEvent>>, ts: seq<TokenEvent>,
      after: map<Id, seq<TokenEvent>>)
  {
    (forall q :: q in before ==> |before[q]| <= QUEUE_CAPACITY) ==>
      after.Keys == before.Keys && forall r :: r in before ==>
        var mine, room := Of(r, ts), QUEUE_CAPACITY - |before[r]|;
        after[r] == before[r] + if |mine| <= room then mine else mine[..room]
  }

  lemma PerRequest(pending: map<Id, seq<TokenEvent>>, ts: seq<TokenEvent>)
    ensures EachGetsItsOwn(pending, ts, DeliverAll(pending, ts))
  {
    if forall q :: q in pending ==> |pending[q]| <= QUEUE_CAPACITY {
      DeliverAllPerRequest(pending, ts, "");
      forall r | r in pending
        ensures var mine, room := Of(r, ts), QUEUE_CAPACITY - |pending[r]|;
                DeliverAll(pending, ts)[r] == pending[r] + if |mine| <= room then mine else mine[..room]
      {
        DeliverAllPerRequest(pending, ts, r);
      }
    }
  }

  class TokenServerImpl {
    const hub: TokenHubImpl

    constructor (hub: TokenHubImpl)
      ensures this.hub == hub
    {
      this.hub := hub;
    }

    /**
     `msgs` is what the stream yields before it ends, with end of file if `eof`; `n` of them come before the first
     one without a request id. Every registered request gets its own of these in order, as far as its queue has room.
     */
    method DeliverTokens(msgs: seq<TokenEvent>, eof: bool) returns (status: Status, ghost n: nat)
      requires hub.Valid()
      modifies hub.pending.Values
      ensures hub.Valid() && hub.pending == old(hub.pending)
      ensures hub.Contents() == DeliverAll(old(hub.Contents()), Views(Accepted(msgs)))
      ensures n <= |msgs| && (forall i :: 0 <= i < n ==> msgs[i].requestID != "")
      ensures n < |msgs| ==> msgs[n].requestID == "" && status == InvalidArgument
      ensures n == |msgs| ==> status == if eof then Acked else RecvError
      ensures EachGetsItsOwn(old(hub.Contents()), Views(msgs[..n]), hub.Contents())
      ensures status == if Accepted(msgs) != msgs then InvalidArgument else if eof then Acked else RecvError
    {
      ghost var before := hub.Contents();
      var i := 0;
      assert msgs[..0] == [];
      while i < |msgs|
        invariant 0 <= i <= |msgs| && hub.Valid() && hub.pending == old(hub.pending)
        invariant forall j :: 0 <= j < i ==> msgs[j].requestID != ""
        invariant hub.Contents() == DeliveredUpTo(before, msgs, i)
      {
        var msg := msgs[i];
        if msg.requestID == "" {
          AcceptedUpTo(msgs, i);
          PerRequest(before, Views(msgs[..i]));
          return InvalidArgument, i;
        }
        var _ := hub.Deliver(msg.requestID, View(msg));
        DeliverNext(before, msgs, i);
        i := i + 1;
      }
      AcceptedUpTo(msgs, |msgs|);
      assert msgs[..|msgs|] == msgs;
      PerRequest(before, Views(msgs));
      status, n := if eof then Acked else RecvError, |msgs|;
    }
  }
}
