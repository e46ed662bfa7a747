/**
 The LLM worker: it fetches requests one by one and runs each in its own goroutine, as many at once as its
 semaphore has slots.
 */
module LlmWorker {
  import opened Types
  import opened Pipeline

  class WorkerImpl {
    const concurrency: nat
    var sem: nat                    // tokens in the semaphore channel
    var fetched: Option<ChatRequest>
    ghost var topic: set<Id>        // published and not yet fetched
    ghost var active: set<Id>       // requests whose goroutine runs

    ghost function Abs(): Front
      reads this
    {
      Front(topic, if fetched.Some? then Some(fetched.value.requestID) else None, active, concurrency)
    }

    ghost predicate Valid()
      reads this
    {
      sem == |active| <= concurrency
    }

    constructor (concurrency: nat)
      ensures Valid() && Abs() == Front({}, None, {}, concurrency)
    {
      this.concurrency := concurrency;
      sem, fetched, topic, active := 0, None, {}, {};
    }

    /** The reader hands out `msg`; a failing commit is only logged. */
    method FetchMessage(msg: ChatRequest)
      requires Valid() && fetched == None && msg.requestID in topic
      modifies this
      ensures Valid() && Abs() == Fetched(old(Abs()), msg.requestID)
      ensures fetched == Some(msg) && topic == old(topic) - {msg.requestID} && active == old(active) && sem == old(sem)
    {
      fetched := Some(msg);
      topic := topic - {msg.requestID};
    }

    /** Once the semaphore has room, take a slot and start the request's goroutine. */
    method Spawn() returns (req: ChatRequest)
      requires Valid() && fetched.Some? && sem < concurrency && fetched.value.requestID !in active
      modifies this
      ensures Valid() && fetched == None && old(fetched) == Some(req)
      ensures Abs() == Acquired(old(Abs()), req.requestID)
      ensures sem == old(sem) + 1 && active == old(active) + {req.requestID} && topic == old(topic)
    {
      req := fetched.value;
      sem := sem + 1;
      active := active + {req.requestID};
      fetched := None;
    }

    /** The goroutine gives its slot back when it ends. */
    method Release(ghost requestID: Id)
      requires Valid() && requestID in active
      modifies this
      ensures Valid() && Abs() == Released(old(Abs()), requestID)
      ensures sem == old(sem) - 1 && active == old(active) - {requestID}
      ensures topic == old(topic) && fetched == old(fetched)
    {
      sem := sem - 1;
      active := active - {requestID};
    }
  }
}
