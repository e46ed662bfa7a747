/** The use case of the LLM worker: every token of the generator to both logs, then one Done. */
module ProcessChatRequest {
  import opened Types
  import opened ProducerMachine
  import opened EventPublisher

  /** `logs` with `es` appended in partition `p`. */
  function Appended(logs: seq<seq<TokenEvent>>, p: nat, es: seq<TokenEvent>): seq<seq<TokenEvent>>
    requires p < |logs|
  {
    logs[p := logs[p] + es]
  }

  const BOTH := Writes(true, true)

  /** The `k`-th publication is the first that fails. */
  ghost predicate FailsFirstAt(ok: nat -> Writes, k: nat) {
    ok(k) != BOTH && forall j: nat :: j < k ==> ok(j) == BOTH
  }

  lemma AppendedTwice(logs: seq<seq<TokenEvent>>, p: nat, es: seq<TokenEvent>, e: TokenEvent)
    requires p < |logs|
    ensures Appended(Appended(logs, p, es), p, [e]) == Appended(logs, p, es + [e])
    ensures Appended(logs, p, []) == logs
  {
    assert logs[p] + es + [e] == logs[p] + (es + [e]);
    assert logs[p] + [] == logs[p];
  }

  class ProcessChatRequestUseCase {
    const publisher: EventPublisherImpl

    constructor (publisher: EventPublisherImpl)
      ensures this.publisher == publisher
    {
      this.publisher := publisher;
    }

    /** The k-th publication of a job. */
    method Publish(ghost job: Job, ghost k: nat, token: TokenEvent, ok: Writes, ghost stream: seq<seq<TokenEvent>>,
        ghost persist: seq<seq<TokenEvent>>)
      returns (err: bool)
      requires publisher.Valid() && k < |Events(job)| && token == Event(job, k)
      requires stream != []
      requires publisher.stream == Appended(stream, publisher.Home(job.req.sessionID, |stream|), Events(job)[..k])
      requires persist != []
      requires publisher.persist == Appended(persist, publisher.Home(job.req.sessionID, |persist|), Events(job)[..k])
      modifies publisher`stream, publisher`persist
      ensures publisher.Valid() && err == !(ok.stream && ok.persist)
      ensures publisher.stream ==
                Appended(stream, publisher.Home(job.req.sessionID, |stream|),
                    Events(job)[..if ok.stream then k + 1 else k])
      ensures publisher.persist ==
                Appended(persist, publisher.Home(job.req.sessionID, |persist|), Events(job)[..if err then k else k + 1])
    {
      assert Events(job)[..k + 1] == Events(job)[..k] + [token];
      AppendedTwice(stream, publisher.Home(job.req.sessionID, |stream|), Events(job)[..k], token);
      AppendedTwice(persist, publisher.Home(job.req.sessionID, |persist|), Events(job)[..k], token);
      err := publisher.PublishToken(token, ok);
    }

    /**
     `deltas` is what the generator emits before it closes its channel, `generated` whether it
     starts at all; the `k`-th publication has the luck `ok(k)`. The request ends at `prod`, a
     state in which a producer of the machine returns.
     */
    method Execute(req: ChatRequest, deltas: seq<string>, generated: bool, ok: nat -> Writes)
      returns (err: bool, ghost prod: Prod, ghost es: seq<TokenEvent>, ghost ep: seq<TokenEvent>)
      requires publisher.Valid()
      modifies publisher`stream, publisher`persist
      ensures publisher.Valid() && |publisher.stream| == |old(publisher.stream)|
      ensures |publisher.persist| == |old(publisher.persist)|
      ensures var p := publisher.Home(req.sessionID, |old(publisher.stream)|);
              publisher.stream == old(publisher.stream)[p := old(publisher.stream)[p] + es]
      ensures var p := publisher.Home(req.sessionID, |old(publisher.persist)|);
              publisher.persist == old(publisher.persist)[p := old(publisher.persist)[p] + ep]
      ensures prod.Returned? && prod.err == err && At(Job(req, deltas), prod, es, ep)
      ensures !generated ==> err && es == ep == []
      ensures err <==> !generated || exists k: nat :: k <= |deltas| && ok(k) != BOTH
      ensures generated && !err ==> |es| == |ep| == |deltas| + 1
      ensures forall k: nat :: generated && k <= |deltas| && FailsFirstAt(ok, k) ==>
                |ep| == k && |es| == if ok(k).stream then k + 1 else k
      ensures |es| <= |deltas| + 1 && ep <= es && forall i :: 0 <= i < |es| ==>
                es[i] == TokenEvent(req.requestID, req.sessionID, req.content,
                                    if i < |deltas| then deltas[i] else "", i == |deltas|)
    {
      ghost var job := Job(req, deltas);
      ghost var stream, persist := publisher.stream, publisher.persist;
      assert Events(job)[..0] == [];
      AppendedTwice(stream, publisher.Home(req.sessionID, |stream|), [], Event(job, 0));
      AppendedTwice(persist, publisher.Home(req.sessionID, |persist|), [], Event(job, 0));
      if !generated {
        return true, Returned(true, 0, false), [], [];
      }
      var k := 0;
      while k < |deltas|
        invariant 0 <= k <= |deltas| && publisher.Valid()
        invariant publisher.stream == Appended(stream, publisher.Home(req.sessionID, |stream|), Events(job)[..k])
        invariant publisher.persist == Appended(persist, publisher.Home(req.sessionID, |persist|), Events(job)[..k])
        invariant forall j: nat :: j < k ==> ok(j) == BOTH
      {
        var token := TokenEvent(req.requestID, req.sessionID, req.content, deltas[k], false);
        var failed := Publish(job, k, token, ok(k), stream, persist);
        if failed {
          ghost var written := if ok(k).stream then k + 1 else k;
          return true, Returned(true, k, ok(k).stream), Events(job)[..written], Events(job)[..k];
        }
        k := k + 1;
      }
      var done := TokenEvent(req.requestID, req.sessionID, req.content, "", true);
      err := Publish(job, k, done, ok(k), stream, persist);
      prod := if err then Returned(true, k, ok(k).stream) else Returned(false, k + 1, false);
      es, ep := Events(job)[..if ok(k).stream then k + 1 else k], Events(job)[..if err then k else k + 1];
    }
  }
}
