/** The publisher: the request topic and the two token topics, each partitioned by session. */
module EventPublisher {
  import opened Types

  /** Which of the two writes of `PublishToken` would succeed. */
  datatype Writes = Writes(stream: bool, persist: bool)

  class EventPublisherImpl {
    /** The balancers' hash of a key; a topic's partition is the hash modulo its size. */
    const hash: string -> nat
    var requests: seq<seq<ChatRequest>>
    var stream: seq<seq<TokenEvent>>
    var persist: seq<seq<TokenEvent>>

    ghost predicate Valid()
      reads this
    {
      requests != [] && stream != [] && persist != []
    }

    function Home(sessionID: Id, partitions: nat): (p: nat)
      requires partitions > 0
      ensures p < partitions
    {
      hash(sessionID) % partitions
    }

    constructor (hash: string -> nat, partitions: nat)
      requires partitions > 0
      ensures Valid() && this.hash == hash
      ensures requests == seq(partitions, i => []) && stream == persist == seq(partitions, i => [])
    {
      this.hash := hash;
      requests := seq(partitions, i => []);
      stream, persist := seq(partitions, i => []), seq(partitions, i => []);
    }

    method PublishRequest(req: ChatRequest, ok: bool) returns (err: bool)
      requires Valid()
      modifies this`requests
      ensures Valid() && err == !ok
      ensures var p := hash(req.sessionID) % |old(requests)|;
              requests == if ok then old(requests)[p := old(requests)[p] + [req]] else old(requests)
    {
      if ok {
        var p := Home(req.sessionID, |requests|);
        requests := requests[p := requests[p] + [req]];
      }
      err := !ok;
    }

    /** First the stream log, then, only if that was accepted, the persistence log. */
    method PublishToken(token: TokenEvent, ok: Writes) returns (err: bool)
      requires Valid()
      modifies this`stream, this`persist
      ensures Valid() && |stream| == |old(stream)| && |persist| == |old(persist)|
      ensures err <==> !(ok.stream && ok.persist)
      ensures var p := hash(token.sessionID) % |old(stream)|;
              stream == if ok.stream then old(stream)[p := old(stream)[p] + [token]] else old(stream)
      ensures var p := hash(token.sessionID) % |old(persist)|;
              persist == if ok.stream && ok.persist then old(persist)[p := old(persist)[p] + [token]] else old(persist)
    {
      if !ok.stream {
        return true;
      }
      var p := Home(token.sessionID, |stream|);
      stream := stream[p := stream[p] + [token]];
      if !ok.persist {
        return true;
      }
      p := Home(token.sessionID, |persist|);
      persist := persist[p := persist[p] + [token]];
      err := false;
    }
  }
}
