/**
 The HTTP handler of one chat request: claim the session, register with the hub, store the address,
 publish the request, then write out the tokens as they arrive. Every effect is one step of the
 request's delivery lane, so an order of effects the lane does not allow would not verify.
 */
module ChatStream {
  import opened Types
  import opened Draining
  import opened TokenHub
  import opened Redis
  import opened CallbackStore
  import opened SessionOwner
  import opened EventPublisher
  import Delivery = DeliveryMachine

  datatype Status = OK | BadRequest | Forbidden | InternalServerError

  /** Which of the three remote calls of the prologue succeed. */
  datatype Remote = Remote(owner: bool, callback: bool, publish: bool)

  /** What one turn of the drain loop meets: the client is gone, the chunk cannot be written, or it is written. */
  datatype Turn = ClientGone | WriteFails | Written

  /** The lane's step for one turn of the drain loop: the client is gone, writing the chunk fails, or it is written. */
  function TurnOf(departed: bool, encoded: bool): Delivery.Step {
    if departed then Delivery.Depart(false) else if encoded then Delivery.Read else Delivery.Depart(true)
  }

  /** After the first turns `n` tokens of `queue` have been written, and the handler has left if a turn made it. */
  ghost predicate Progressed(before: seq<TokenEvent>, queue: seq<TokenEvent>, turns: seq<Turn>, left: bool, n: nat,
      body: seq<TokenEvent>, rest: seq<TokenEvent>)
  {
    && n <= |turns| && n <= |queue| && body == before + queue[..n]
    && (forall k :: 0 <= k < n ==> turns[k] == Written && (queue[k].done ==> k == n - 1))
    && (if left then (n > 0 && queue[n - 1].done) || (n < |turns| && turns[n] == ClientGone) ||
                     (n < |turns| && turns[n] == WriteFails && n < |queue|)
        else rest == queue[n..] && (n > 0 ==> !queue[n - 1].done))
  }

  lemma OneTurn(before: seq<TokenEvent>, queue: seq<TokenEvent>, turns: seq<Turn>, n: nat, body: seq<TokenEvent>,
      rest: seq<TokenEvent>)
    requires Progressed(before, queue, turns, false, n, body, rest) && n < |turns|
    ensures turns[n] == ClientGone ==> Progressed(before, queue, turns, true, n, body, rest)
    ensures turns[n] == WriteFails && rest != [] ==> Progressed(before, queue, turns, true, n, body, rest[1..])
    ensures turns[n] == Written && rest != [] ==>
              Progressed(before, queue, turns, rest[0].done, n + 1, body + [rest[0]], rest[1..])
  {
    if rest != [] {
      assert queue[..n + 1] == queue[..n] + [rest[0]] && rest[1..] == queue[n + 1..];
      assert before + queue[..n] + [rest[0]] == before + (queue[..n] + [rest[0]]);
    }
  }

  /** The part of the handler that belongs to one request. */
  class TokenStream {
    const requestID: Id
    const hub: TokenHubImpl
    var tokenCh: TokenQueue?
    var body: seq<TokenEvent>      // the chunks written to the client
    ghost var lane: Delivery.Lane

    ghost predicate Valid()
      reads this, hub, hub.pending.Values
    {
      && hub.Valid() && body == lane.chunks
      && (lane.queue.Some? <==> requestID in hub.pending)
      && (requestID in hub.pending ==>
          tokenCh == hub.pending[requestID] && lane.queue == Some(hub.pending[requestID].items))
    }

    constructor (requestID: Id, hub: TokenHubImpl)
      requires hub.Valid() && requestID !in hub.pending
      ensures Valid() && this.requestID == requestID && this.hub == hub && lane == Delivery.FRESH
    {
      this.requestID, this.hub := requestID, hub;
      tokenCh, body, lane := null, [], Delivery.FRESH;
    }

    method Register()
      requires Valid() && lane == Delivery.FRESH
      modifies this, hub
      ensures Valid() && lane == Delivery.Apply(old(lane), Delivery.Register)
      ensures tokenCh != null && tokenCh.items == [] && requestID in hub.pending && body == old(body)
      ensures hub.Contents() == old(hub.Contents())[requestID := []]
    {
      var ch := hub.Register(requestID);
      tokenCh := ch;
      lane := Delivery.Apply(lane, Delivery.Register);
    }

    /** An error is only logged: the request goes on without an address. */
    method SetCallback(callbackStore: CallbackStoreImpl, grpcAddr: string, ok: bool)
      requires Valid() && Delivery.Enabled(lane, Delivery.Announce)
      modifies this, callbackStore.client
      ensures Valid() && lane == Delivery.Apply(old(lane), Delivery.Announce) && hub.Contents() == old(hub.Contents())
      ensures callbackStore.client.now == old(callbackStore.client.now)
      ensures Found(callbackStore.client.db, requestID, callbackStore.client.now) ==
                if ok then Some(grpcAddr) else Found(old(callbackStore.client.db), requestID, callbackStore.client.now)
    {
      var _ := callbackStore.SetCallback(requestID, grpcAddr, ok);
      lane := Delivery.Apply(lane, Delivery.Announce);
    }

    method SendMessage(publisher: EventPublisherImpl, sessionID: Id, content: string, ok: bool) returns (err: bool)
      requires Valid() && publisher.Valid() && Delivery.Enabled(lane, Delivery.Publish(ok))
      modifies this, publisher`requests
      ensures Valid() && publisher.Valid() && lane == Delivery.Apply(old(lane), Delivery.Publish(ok))
      ensures hub.Contents() == old(hub.Contents())
      ensures err == !ok
      ensures var p := publisher.Home(sessionID, |old(publisher.requests)|);
              var req := ChatRequest(requestID, sessionID, content);
              publisher.requests ==
                if err then old(publisher.requests)
                else old(publisher.requests)[p := old(publisher.requests)[p] + [req]]
    {
      err := publisher.PublishRequest(ChatRequest(requestID, sessionID, content), ok);
      lane := Delivery.Apply(lane, Delivery.Publish(ok));
    }

    /** The handler can be found before anybody is told of the request. */
    method Prepare(callbackStore: CallbackStoreImpl, grpcAddr: string, ok: bool)
      requires Valid() && lane == Delivery.FRESH
      modifies this, hub, callbackStore.client
      ensures Valid() && lane == Delivery.Apply(Delivery.Apply(Delivery.FRESH, Delivery.Register), Delivery.Announce)
      ensures hub.Contents() == old(hub.Contents())[requestID := []] && requestID !in old(hub.Contents())
      ensures ok ==> Found(callbackStore.client.db, requestID, callbackStore.client.now) == Some(grpcAddr)
    {
      Register();
      SetCallback(callbackStore, grpcAddr, ok);
    }

    /** From the registration to the publication; a request that cannot be published is cleaned up again. */
    method Start(callbackStore: CallbackStoreImpl, grpcAddr: string, publisher: EventPublisherImpl, sessionID: Id,
        content: string, remote: Remote)
      returns (err: bool)
      requires Valid() && publisher.Valid() && lane == Delivery.FRESH
      modifies this, hub, callbackStore.client, publisher`requests
      ensures Valid() && publisher.Valid() && err == !remote.publish
      ensures err ==> hub.Contents() == old(hub.Contents()) && publisher.requests == old(publisher.requests)
      ensures !err ==> lane == Delivery.Apply(Delivery.Apply(Delivery.Apply(Delivery.FRESH, Delivery.Register),
          Delivery.Announce), Delivery.Publish(true))
      ensures lane.handler == (if err then Delivery.Gone else Delivery.Reading) && body == []
      ensures !err ==> tokenCh != null && tokenCh.items == []
      ensures !err ==> hub.Contents() == old(hub.Contents())[requestID := []]
      ensures remote.callback ==> Found(callbackStore.client.db, requestID, callbackStore.client.now) == Some(grpcAddr)
      ensures !err ==>
                var p := publisher.Home(sessionID, |old(publisher.requests)|);
                var req := ChatRequest(requestID, sessionID, content);
                publisher.requests ==
                  old(publisher.requests)[p := old(publisher.requests)[p] + [req]]
    {
      Prepare(callbackStore, grpcAddr, remote.callback);
      err := SendMessage(publisher, sessionID, content, remote.publish);
      if err {
        Close();
      }
    }

    /**
     One turn of the drain loop: the client is gone, or a token is taken and written, or writing it fails. The
     handler leaves on the first and the last of these, and after Done.
     */
    method Next(departed: bool, encoded: bool) returns (leave: bool)
      requires Valid() && lane.handler == Delivery.Reading && lane.queue.Some?
      requires !departed ==> lane.queue.value != []
      modifies this, tokenCh
      ensures Valid()
      ensures tokenCh == old(tokenCh) && hub.pending == old(hub.pending) && tokenCh != null
      ensures lane == Delivery.Apply(old(lane), TurnOf(departed, encoded))
      ensures leave <==> departed || !encoded || old(tokenCh.items)[0].done
      ensures lane.handler == if leave then Delivery.Finished else Delivery.Reading
      ensures body == if departed || !encoded then old(body) else old(body) + [old(tokenCh.items)[0]]
      ensures tokenCh.items == if departed then old(tokenCh.items) else old(tokenCh.items)[1..]
      ensures hub.Contents() - {requestID} == old(hub.Contents()) - {requestID}
    {
      if departed {
        lane := Delivery.Apply(lane, Delivery.Depart(false));
        return true;
      }
      ghost var before := tokenCh.items;
      var token := tokenCh.Receive();
      assert before[0] == token && before[1..] == tokenCh.items;
      if !encoded {
        lane := Delivery.Apply(lane, Delivery.Depart(true));
        return true;
      }
      body := body + [token];
      lane := Delivery.Apply(lane, Delivery.Read);
      leave := token.done;
    }

    /** The loop, turn after turn, until the handler leaves, the turns end or it waits for a token. */
    method Loop(turns: seq<Turn>) returns (left: bool, ghost n: nat)
      requires Valid() && lane.handler == Delivery.Reading && lane.queue.Some?
      modifies this, tokenCh
      ensures Valid() && tokenCh == old(tokenCh) && tokenCh != null && lane.queue.Some?
      ensures hub.pending == old(hub.pending) && hub.Contents() - {requestID} == old(hub.Contents()) - {requestID}
      ensures lane.handler == if left then Delivery.Finished else Delivery.Reading
      ensures Progressed(old(body), old(tokenCh.items), turns, left, n, body, tokenCh.items)
      ensures !left ==> n == |turns| || (n == |old(tokenCh.items)| && turns[n] != ClientGone)
    {
      ghost var written, queue := body, tokenCh.items;
      left, n := false, 0;
      var i := 0;
      while !left && i < |turns| && (turns[i] == ClientGone || tokenCh.items != [])
        invariant Valid() && tokenCh == old(tokenCh) && tokenCh != null && hub.pending == old(hub.pending)
        invariant requestID in hub.pending && lane.queue == Some(tokenCh.items)
        invariant hub.Contents() - {requestID} == old(hub.Contents()) - {requestID}
        invariant lane.handler == if left then Delivery.Finished else Delivery.Reading
        invariant i <= |turns| && (!left ==> i == n)
        invariant Progressed(written, queue, turns, left, n, body, tokenCh.items)
        decreases |turns| - i
      {
        left, n := LoopOnce(turns[i], turns, written, queue, n);
        i := i + 1;
      }
    }

    /** One turn as the loop counts it. */
    method LoopOnce(turn: Turn, ghost turns: seq<Turn>, ghost written: seq<TokenEvent>, ghost queue: seq<TokenEvent>,
        ghost n: nat)
      returns (left: bool, ghost m: nat)
      requires Valid() && lane.handler == Delivery.Reading && lane.queue.Some? && tokenCh != null
      requires n < |turns| && turns[n] == turn && (turn == ClientGone || tokenCh.items != [])
      requires Progressed(written, queue, turns, false, n, body, tokenCh.items)
      modifies this, tokenCh
      ensures Valid() && tokenCh == old(tokenCh) && hub.pending == old(hub.pending)
      ensures hub.Contents() - {requestID} == old(hub.Contents()) - {requestID}
      ensures lane.handler == if left then Delivery.Finished else Delivery.Reading
      ensures !left ==> m == n + 1
      ensures Progressed(written, queue, turns, left, m, body, tokenCh.items)
    {
      ghost var chunks, items := body, tokenCh.items;
      OneTurn(written, queue, turns, n, chunks, items);
      left := Next(turn == ClientGone, turn == Written);
      m := n + if turn == Written then 1 else 0;
    }

    /**
     The whole loop over what its queue holds, and the deferred cleanup: `n` chunks are written, and whatever makes
     the handler leave, Done, a failed write or a client that is gone, the request's queue goes with it.
     */
    method Serve(turns: seq<Turn>) returns (left: bool, ghost n: nat)
      requires Valid() && lane.handler == Delivery.Reading && lane.queue.Some?
      modifies this, hub, tokenCh
      ensures Valid()
      ensures n <= |turns| && n <= |old(tokenCh.items)| && body == old(body) + old(tokenCh.items)[..n]
      ensures forall k :: 0 <= k < n ==> turns[k] == Written && (old(tokenCh.items)[k].done ==> k == n - 1)
      ensures left <==> (n > 0 && old(tokenCh.items)[n - 1].done) ||
                        (n < |turns| && turns[n] == ClientGone) ||
                        (n < |turns| && turns[n] == WriteFails && n < |old(tokenCh.items)|)
      ensures !left ==> (n == |turns| || n == |old(tokenCh.items)|) && lane.handler == Delivery.Reading
      ensures left ==> lane.handler == Delivery.Gone && hub.Contents() == old(hub.Contents()) - {requestID}
    {
      left, n := Loop(turns);
      if left {
        Close();
      }
    }

    /** The drain loop of a client that stays, over what its queue holds: chunk after chunk up to the first Done. */
    method Drain() returns (left: bool)
      requires Valid() && lane.handler == Delivery.Reading && lane.queue.Some?
      modifies this, tokenCh
      ensures Valid() && tokenCh == old(tokenCh) && tokenCh != null
      ensures body == old(body) + UpToDone(old(tokenCh.items))
      ensures UpToDone(old(tokenCh.items)) + tokenCh.items == old(tokenCh.items)
      ensures lane.handler == if left then Delivery.Finished else Delivery.Reading
      ensures left <==> EndsInDone(UpToDone(old(tokenCh.items)))
    {
      ghost var written, queue := body, tokenCh.items;
      ghost var taken: seq<TokenEvent> := [];
      left := false;
      TakenNone(written, queue);
      while !left && tokenCh.items != []
        invariant Valid() && requestID in hub.pending && tokenCh == old(tokenCh) && tokenCh != null
        invariant lane.handler == if left then Delivery.Finished else Delivery.Reading
        invariant lane.queue == Some(tokenCh.items)
        invariant Taken(written, queue, taken, left, body, tokenCh.items)
        decreases |tokenCh.items|
      {
        TakenNext(written, queue, taken, body, tokenCh.items);
        taken := taken + [tokenCh.items[0]];
        left := Next(false, true);
      }
      TakenAll(written, queue, taken, left, body, tokenCh.items);
    }

    /** The deferred cleanup. */
    method Close()
      requires Valid() && Delivery.Enabled(lane, Delivery.Cleanup)
      modifies this, hub
      ensures Valid() && lane == Delivery.Apply(old(lane), Delivery.Cleanup)
      ensures lane.handler == Delivery.Gone && body == old(body)
      ensures hub.Contents() == old(hub.Contents()) - {requestID}
    {
      hub.Cleanup(requestID);
      lane := Delivery.Apply(lane, Delivery.Cleanup);
    }
  }

  class ChatStreamHandler {
    const hub: TokenHubImpl
    const ownerStore: SessionOwnerStoreImpl
    const callbackStore: CallbackStoreImpl
    const publisher: EventPublisherImpl
    const grpcAddr: string

    constructor (hub: TokenHubImpl, ownerStore: SessionOwnerStoreImpl, callbackStore: CallbackStoreImpl,
        publisher: EventPublisherImpl, grpcAddr: string)
      ensures this.hub == hub && this.ownerStore == ownerStore && this.callbackStore == callbackStore
      ensures this.publisher == publisher && this.grpcAddr == grpcAddr
    {
      this.hub, this.ownerStore, this.callbackStore := hub, ownerStore, callbackStore;
      this.publisher, this.grpcAddr := publisher, grpcAddr;
    }

    /**
     Everything before the drain loop. A request that is refused, or cannot be published, leaves no
     queue behind and nothing in the request topic; one that is accepted has its queue, and its
     address if Redis took it, before it can be answered.
     */
    method Open(sessionID: Id, userID: Id, content: string, requestID: Id, remote: Remote)
      returns (status: Status, stream: TokenStream?)
      requires hub.Valid() && publisher.Valid() && requestID !in hub.pending
      modifies hub, ownerStore.client, callbackStore.client, publisher`requests
      ensures hub.Valid() && publisher.Valid()
      ensures status == BadRequest <==> content == ""
      ensures status == Forbidden <==>
                content != "" &&
                !(remote.owner &&
                  Get(old(ownerStore.client.db), OwnerKey(sessionID), old(ownerStore.client.now))
                    in {None, Some(userID)})
      ensures status == OK ==> remote.publish
      ensures status == InternalServerError ==> !remote.publish
      ensures status != OK ==> hub.Contents() == old(hub.Contents()) && publisher.requests == old(publisher.requests)
      ensures status == OK ==>
                && stream != null && fresh(stream) && stream.requestID == requestID && stream.hub == hub
                && stream.Valid()
                && stream.lane == Delivery.Apply(Delivery.Apply(Delivery.Apply(Delivery.FRESH, Delivery.Register),
                    Delivery.Announce), Delivery.Publish(true))
                && stream.lane.handler == Delivery.Reading && stream.body == []
                && stream.tokenCh != null && stream.tokenCh.items == []
                && hub.Contents() == old(hub.Contents())[requestID := []]
      ensures status == OK && remote.callback ==>
                Found(callbackStore.client.db, requestID, callbackStore.client.now) == Some(grpcAddr)
      ensures status == OK ==>
                var p := publisher.Home(sessionID, |old(publisher.requests)|);
                var req := ChatRequest(requestID, sessionID, content);
                publisher.requests ==
                  old(publisher.requests)[p := old(publisher.requests)[p] + [req]]
    {
      if content == "" {
        return BadRequest, null;
      }
      var owned, err := ownerStore.ClaimOwner(sessionID, userID, remote.owner);
      if err || !owned {
        return Forbidden, null;
      }
      stream := new TokenStream(requestID, hub);
      err := stream.Start(callbackStore, grpcAddr, publisher, sessionID, content, remote);
      if err {
        return InternalServerError, null;
      }
      status := OK;
    }
  }
}
