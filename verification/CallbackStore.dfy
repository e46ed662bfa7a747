/** Where API instances leave the address at which they answer a request. */
module CallbackStore {
  import opened Types
  import opened Redis

  const CALLBACK_TTL: nat := 5 * 60 * 1000

  function CallbackKey(requestID: Id): string {
    "stream:callback:" + requestID
  }

  lemma CallbackKeysDiffer(a: Id, b: Id)
    requires a != b
    ensures CallbackKey(a) != CallbackKey(b)
  {
    PrefixedKeysDiffer("stream:callback:", a, b);
  }

  /** The address a worker finds for a request. */
  function Found(db: Db, requestID: Id, now: nat): Option<string> {
    Get(db, CallbackKey(requestID), now)
  }

  class CallbackStoreImpl {
    const client: Client

    constructor (client: Client)
      ensures this.client == client
    {
      this.client := client;
    }

    /** `ok` is whether Redis answers. For five minutes the request has its address; other requests keep theirs. */
    method SetCallback(requestID: Id, grpcAddr: string, ok: bool) returns (err: bool)
      modifies client
      ensures err <==> !ok
      ensures client.now == old(client.now)
      ensures forall later :: later >= client.now ==>
                Found(client.db, requestID, later) ==
                  if err then Found(old(client.db), requestID, later)
                  else if later < old(client.now) + CALLBACK_TTL then Some(grpcAddr) else None
      ensures forall q, later :: q != requestID ==> Found(client.db, q, later) == Found(old(client.db), q, later)
    {
      err := !ok;
      if ok {
        client.db := Redis.SetEx(client.db, CallbackKey(requestID), grpcAddr, CALLBACK_TTL, client.now);
      }
      forall q, later | q != requestID ensures Found(client.db, q, later) == Found(old(client.db), q, later) {
        CallbackKeysDiffer(q, requestID);
      }
      forall later | later >= client.now && ok
        ensures Found(client.db, requestID, later) ==
                if later < old(client.now) + CALLBACK_TTL then Some(grpcAddr) else None
      {
        GetAfterSet(old(client.db), CallbackKey(requestID), grpcAddr, CALLBACK_TTL, client.now, later, "");
      }
    }

    method GetCallback(requestID: Id, ok: bool) returns (addr: Option<string>)
      ensures addr == if ok then Found(client.db, requestID, client.now) else None
      ensures CallbackKey(requestID) !in client.db ==> addr == None
    {
      var key := CallbackKey(requestID);
      addr := None;
      if ok && key in client.db && client.now < client.db[key].deadline {
        addr := Some(client.db[key].value);
      }
    }
  }
}
