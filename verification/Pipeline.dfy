/**
 The whole streaming path put together: handlers, the request topic, the worker with its semaphore,
 the producers, the streaming worker and the delivery lanes, without failures, timeouts or
 departures. A step is a step of one component, or of two that share it.
 */
module Pipeline {
  import opened Types
  import Producers = ProducerMachine
  import Streaming = StreamingMachine
  import Delivery = DeliveryMachine

  /**
   The requests published and not yet fetched, the request the worker has fetched, and the requests
   holding a semaphore slot. Requests of different partitions may be fetched in any order.
   */
  datatype Front = Front(topic: set<Id>, hand: Option<Id>, active: set<Id>, slots: nat)

  function Published(f: Front, id: Id): Front {
    f.(topic := f.topic + {id})
  }

  function Fetched(f: Front, id: Id): Front {
    f.(topic := f.topic - {id}, hand := Some(id))
  }

  function Acquired(f: Front, id: Id): Front {
    f.(hand := None, active := f.active + {id})
  }

  function Released(f: Front, id: Id): Front {
    f.(active := f.active - {id})
  }

  datatype State = State(f: Front, p: Producers.State, r: Streaming.State, lanes: map<Id, Delivery.Lane>)

  datatype Step =
    | Handle(id: Id, step: Delivery.Step)   // register, announce, receive a delivery, read a chunk, clean up
    | Publish(id: Id)
    | FetchRequest(id: Id)
    | StartRequest(id: Id)
    | WriteStream(id: Id)
    | WritePersist(id: Id)
    | ReleaseSlot(id: Id)
    | Route(move: Streaming.Step)            // fetch, look up, push, take, delete
    | Execute(c: nat, id: Id)        // `Execute` sends the token towards the instance and returns

  ghost predicate Init(s: State) {
    && Producers.Init(s.p) && Streaming.Init(s.r)
    && |s.r.b.logs| == |s.p.slogs| && s.r.b.home == s.p.plan.streamHome
    && s.lanes == (map id | id in s.p.plan.jobs :: Delivery.FRESH)
    && s.f.topic == {} && s.f.hand == None && s.f.active == {} && s.f.slots >= 1
  }

  /** The event the producer of `id` appends next, as the streaming worker decodes it. */
  function NextView(s: State, id: Id): TokenEvent
    requires Producers.Enabled(s.p, Producers.Stream(id, true))
  {
    View(Producers.Event(s.p.plan.jobs[id], s.p.prods[id].k))
  }

  predicate Routing(step: Streaming.Step) {
    step.Fetch? || step.Lookup? || step.Push? || step.Take? || step.Delete?
  }

  predicate Handling(step: Delivery.Step) {
    step.Register? || step.Announce? || step.Deliver? || step.Read? || step.Cleanup?
  }

  predicate LaneEnabled(s: State, id: Id, step: Delivery.Step) {
    id in s.lanes && Delivery.Enabled(s.lanes[id], step)
  }

  predicate Enabled(s: State, step: Step) {
    match step
    case Handle(id, step) => Handling(step) && LaneEnabled(s, id, step)
    case Publish(id) => LaneEnabled(s, id, Delivery.Publish(true))
    case FetchRequest(id) => s.f.hand == None && id in s.f.topic
    case StartRequest(id) => s.f.hand == Some(id) && |s.f.active| < s.f.slots &&
      Producers.Enabled(s.p, Producers.Start(id))
    case WriteStream(id) =>
      Producers.Enabled(s.p, Producers.Stream(id, true)) &&
          Streaming.Enabled(s.r, Streaming.Append(s.p.plan.streamHome[id], NextView(s, id)))
    case WritePersist(id) => Producers.Enabled(s.p, Producers.Persist(id, true))
    case ReleaseSlot(id) => id in s.f.active && id in s.p.prods && s.p.prods[id].Returned?
    case Route(step) => Routing(step) && Streaming.Enabled(s.r, step)
    case Execute(c, id) =>
      Streaming.Enabled(s.r, Streaming.Finish(c)) && s.r.gens[c].proc.tok.requestID == id &&
          LaneEnabled(s, id, Delivery.Send(s.r.gens[c].proc.tok))
  }

  function OnLane(s: State, id: Id, step: Delivery.Step): State
    requires LaneEnabled(s, id, step)
  {
    s.(lanes := s.lanes[id := Delivery.Apply(s.lanes[id], step)])
  }

  function Apply(s: State, step: Step): State
    requires Enabled(s, step)
  {
    match step
    case Handle(id, step) => OnLane(s, id, step)
    case Publish(id) => OnLane(s, id, Delivery.Publish(true)).(f := Published(s.f, id))
    case FetchRequest(id) => s.(f := Fetched(s.f, id))
    case StartRequest(id) => s.(f := Acquired(s.f, id), p := Producers.Apply(s.p, Producers.Start(id)))
    case WriteStream(id) =>
      s.(p := Producers.Apply(s.p, Producers.Stream(id, true)),
         r := Streaming.Apply(s.r, Streaming.Append(s.p.plan.streamHome[id], NextView(s, id))))
    case WritePersist(id) => s.(p := Producers.Apply(s.p, Producers.Persist(id, true)))
    case ReleaseSlot(id) => s.(f := Released(s.f, id))
    case Route(step) => s.(r := Streaming.Apply(s.r, step))
    case Execute(c, id) =>
      OnLane(s, id, Delivery.Send(s.r.gens[c].proc.tok)).(r := Streaming.Apply(s.r, Streaming.Finish(c)))
  }

  ghost predicate Legal(s: State, run: seq<Step>)
    decreases |run|
  {
    run == [] || (Enabled(s, run[0]) && Legal(Apply(s, run[0]), run[1..]))
  }

  ghost function After(s: State, run: seq<Step>): State
    requires Legal(s, run)
    decreases |run|
  {
    if run == [] then s else After(Apply(s, run[0]), run[1..])
  }
}
