/** The use case that sends one token towards the API instance of its request. */
module StreamTokens {
  import opened Types
  import opened AddressMachine
  import opened CallbackStore

  /** The fate of the actions that leave the process: the callback query, the client, the stream, the send. */
  datatype Net = Net(asked: bool, made: bool, streamed: bool, sent: bool)

  /** The caches after `getOrOpenStream`, and the connection its stream runs over, if it has one. */
  function Opened(c: Caches, id: Id, luck: Luck): (Caches, Option<Conn>) {
    if id in c.streams then (c, Some(c.streams[id]))
    else
      var addr := Resolved(c, id, luck);
      if addr.None? then (c, None)
      else
        var (c', conn) := Connected(c.(addrs := c.addrs[id := addr.value]), addr.value, luck);
        if conn.None? || !luck.streamed then (c', None) else (c'.(streams := c'.streams[id := conn.value]), conn)
  }

  /**
   A stream is had exactly when the call can have one; it runs over a connection to the request's
   address and is kept together with that address; no other request is touched.
   */
  lemma WhatOpeningDoes(c: Caches, id: Id, luck: Luck)
    requires forall a :: a in c.conns ==> c.conns[a].addr == a
    requires forall q :: q in c.streams ==> q in c.addrs && c.streams[q].addr == c.addrs[q]
    ensures var (c', stream) := Opened(c, id, luck);
            && (stream.Some? <==> HasStream(c, id, luck))
            && (stream.Some? ==>
                  id in c'.streams && c'.streams[id] == stream.value && id in c'.addrs &&
                      c'.addrs[id] == stream.value.addr)
            && (stream.None? ==> c'.streams == c.streams && (id in c'.addrs <==> Resolved(c, id, luck).Some?))
            && c'.streams - {id} == c.streams - {id} && c'.addrs - {id} == c.addrs - {id}
            && (forall a :: a in c.conns ==> a in c'.conns && c'.conns[a] == c.conns[a])
  {
    var (c', stream) := Opened(c, id, luck);
    assert c'.streams - {id} == c.streams - {id} && c'.addrs - {id} == c.addrs - {id};
  }

  class StreamTokensUseCase {
    const callbackStore: CallbackStoreImpl
    var streams: map<Id, Conn>
    var addrMap: map<Id, Addr>
    var connMap: map<Addr, Conn>
    var made: nat

    ghost function Abs(): Caches
      reads this
    {
      Caches(streams, addrMap, connMap, made)
    }

    ghost function LuckOf(requestID: Id, net: Net): Luck
      reads callbackStore.client
    {
      Luck(if net.asked then Found(callbackStore.client.db, requestID, callbackStore.client.now) else None,
           net.made, net.streamed, net.sent)
    }

    /** A connection is kept under its own address, and every open stream runs over one to its request's address. */
    ghost predicate Valid()
      reads this
    {
      && (forall a :: a in connMap ==> connMap[a].addr == a)
      && (forall q :: q in streams ==> q in addrMap && streams[q].addr == addrMap[q])
    }

    constructor (callbackStore: CallbackStoreImpl)
      ensures this.callbackStore == callbackStore && Abs() == Caches(map[], map[], map[], 0) && Valid()
    {
      this.callbackStore := callbackStore;
      streams, addrMap, connMap, made := map[], map[], map[], 0;
    }

    /**
     An open stream is used again. The first token of a request goes to the address the callback store holds, if
     everything on the way succeeds; a request whose address was never stored gets an error. A stream that was
     sent over is kept unless the token was Done; after a failed send, or Done, nothing of the request is kept.
     */
    method Execute(token: TokenEvent, net: Net) returns (err: bool, ghost over: Option<Conn>)
      requires Valid()
      modifies this
      ensures Valid()
      ensures Outcome(Abs(), over, err) == Executed(old(Abs()), token.requestID, token, LuckOf(token.requestID, net))
      ensures err <==> over.None?
      ensures token.requestID in old(streams) ==>
                over == if net.sent then Some(old(streams)[token.requestID]) else None
      ensures token.requestID !in old(streams) && net == Net(true, true, true, true) ==>
                match if token.requestID in old(addrMap) then Some(old(addrMap)[token.requestID])
                      else Found(callbackStore.client.db, token.requestID, callbackStore.client.now)
                case Some(addr) => !err && over.value.addr == addr
                case None => err
      ensures !err && !token.done ==> token.requestID in streams && streams[token.requestID] == over.value
      ensures !net.sent || token.done ==> token.requestID !in streams
      ensures !err && token.done ==> token.requestID !in addrMap
      ensures streams - {token.requestID} == old(streams) - {token.requestID}
      ensures addrMap - {token.requestID} == old(addrMap) - {token.requestID}
      ensures CallbackKey(token.requestID) !in callbackStore.client.db && token.requestID !in old(addrMap) ==>
                err && Abs() == old(Abs())
    {
      var id := token.requestID;
      over := None;
      var stream := GetOrOpenStream(id, net);
      if stream.None? {
        return true, None;
      }
      if !net.sent {
        streams := streams - {id};
        addrMap := addrMap - {id};
        return true, None;
      }
      if token.done {
        streams := streams - {id};
        addrMap := addrMap - {id};
      }
      return false, stream;
    }

    /** Address, connection and stream, in this order; each is kept once it is there, even if the next one fails. */
    method GetOrOpenStream(requestID: Id, net: Net) returns (stream: Option<Conn>)
      requires Valid()
      modifies this
      ensures Valid()
      ensures (Abs(), stream) == Opened(old(Abs()), requestID, LuckOf(requestID, net))
      ensures requestID in old(streams) ==> stream == Some(old(streams)[requestID]) && Abs() == old(Abs())
      ensures stream.Some? ==> requestID in streams && streams[requestID] == stream.value
      ensures stream.None? ==> streams == old(streams)
      ensures streams - {requestID} == old(streams) - {requestID}
      ensures addrMap - {requestID} == old(addrMap) - {requestID}
      ensures requestID !in old(streams) ==>
                var addr := if requestID in old(addrMap) then Some(old(addrMap)[requestID])
                            else if net.asked then Found(callbackStore.client.db, requestID, callbackStore.client.now)
                            else None;
                && (stream.Some? <==> addr.Some? && (addr.value in old(connMap) || net.made) && net.streamed)
                && (stream.Some? ==> stream.value.addr == addr.value)
                && (stream.Some? && addr.value in old(connMap) ==> stream.value == old(connMap)[addr.value])
                && (if addr.Some? then requestID in addrMap && addrMap[requestID] == addr.value
                    else Abs() == old(Abs()))
    {
      if requestID in streams {
        return Some(streams[requestID]);
      }
      var addr := ResolveAddr(requestID, net.asked);
      if addr.None? {
        return None;
      }
      stream := OpenStream(requestID, addr.value, net);
    }

    /** A stream over a connection to `addr`, kept for the request. */
    method OpenStream(requestID: Id, addr: Addr, net: Net) returns (stream: Option<Conn>)
      requires Valid() && requestID in addrMap && addrMap[requestID] == addr
      modifies this`connMap, this`made, this`streams
      ensures Valid()
      ensures var (c, conn) := Connected(old(Abs()), addr, Luck(None, net.made, true, true));
              (Abs(), stream) == if conn.None? || !net.streamed then (c, None)
                                 else (c.(streams := c.streams[requestID := conn.value]), conn)
      ensures stream.Some? <==> (addr in old(connMap) || net.made) && net.streamed
      ensures stream.Some? ==> stream.value.addr == addr
      ensures stream.Some? && addr in old(connMap) ==> stream.value == old(connMap)[addr]
      ensures streams == if stream.Some? then old(streams)[requestID := stream.value] else old(streams)
    {
      var conn := GetConn(addr, net.made);
      if conn.None? || !net.streamed {
        return None;
      }
      streams := streams[requestID := conn.value];
      stream := conn;
    }

    /** The cached address, or else the callback store's, which is then cached. */
    method ResolveAddr(requestID: Id, asked: bool) returns (addr: Option<Addr>)
      modifies this`addrMap
      ensures addr == Resolved(old(Abs()), requestID, LuckOf(requestID, Net(asked, true, true, true)))
      ensures addrMap == if addr.Some? then old(addrMap)[requestID := addr.value] else old(addrMap)
      ensures requestID in old(addrMap) ==> addr == Some(old(addrMap)[requestID])
      ensures requestID !in old(addrMap) ==>
                addr == if asked then Found(callbackStore.client.db, requestID, callbackStore.client.now) else None
    {
      if requestID in addrMap {
        return Some(addrMap[requestID]);
      }
      addr := callbackStore.GetCallback(requestID, asked);
      if addr.Some? {
        addrMap := addrMap[requestID := addr.value];
      }
    }

    /** The connection kept for the address, or else a new one, which is then kept. */
    method GetConn(addr: Addr, ok: bool) returns (conn: Option<Conn>)
      modifies this`connMap, this`made
      ensures (Abs(), conn) == Connected(old(Abs()), addr, Luck(None, ok, true, true))
      ensures conn.None? <==> addr !in old(connMap) && !ok
      ensures addr in old(connMap) ==> conn == Some(old(connMap)[addr]) && made == old(made)
      ensures addr !in old(connMap) && ok ==> conn == Some(Conn(addr, old(made))) && made == old(made) + 1
      ensures connMap == if conn.Some? then old(connMap)[addr := conn.value] else old(connMap)
    {
      if addr in connMap {
        return Some(connMap[addr]);
      }
      if !ok {
        return None;
      }
      conn := Some(Conn(addr, made));
      made := made + 1;
      connMap := connMap[addr := conn.value];
    }
  }
}
