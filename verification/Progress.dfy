/**
 Progress and termination of the streaming path: every step brings the tokens nearer to their
 clients, and a state in which nothing can move is one in which every client has read everything.
 */
module Progress {
  import opened Types
  import opened TokenHub
  import opened Sums
  import Producers = ProducerMachine
  import Streaming = StreamingMachine
  import StreamingInvariant
  import StreamingTheorems
  import Delivery = DeliveryMachine
  import opened Pipeline
  import opened PipelineInvariant
  import opened PipelineTheorems

  // ---------------------------------------------------------------- the remaining work

  /** What a handler still has to do; publishing pays for the request's way to its producer. */
  function HandlerWork(h: Delivery.Handler): nat {
    match h
    case Unborn => 7
    case Registered => 6
    case Announced => 5
    case Reading => 1
    case Finished => 1
    case Gone => 0
  }

  function LaneWork(l: Delivery.Lane): nat {
    HandlerWork(l.handler) + 2 * |l.wire| + Delivery.Waiting(l)
  }

  /** Ten hops for an event: nine are handed on to the stream log, one is the second append. */
  function ProducerWork(j: Producers.Job, p: Producers.Prod): nat {
    var n := |j.deltas| + 1;
    match p
    case Idle => 10 * n
    case Writing(k, half) => if k < n then 10 * (n - k) - (if half then 9 else 0) else 0
    case Returned(_, _, _) => 0
  }

  function RequestWork(s: State, id: Id): nat
    requires id in s.p.plan.jobs
  {
    (if id in s.lanes then LaneWork(s.lanes[id]) else 0)
    + (if id in s.p.prods then ProducerWork(s.p.plan.jobs[id], s.p.prods[id]) else 0)
  }

  function RequestWorks(s: State): map<Id, nat> {
    map id | id in s.p.plan.jobs :: RequestWork(s, id)
  }

  function FrontWork(f: Front): nat {
    3 * |f.topic| + (if f.hand.Some? then 2 else 0) + |f.active|
  }

  function GenWork(g: Streaming.Gen): nat {
    5 * |g.queue| + (match g.proc case Waiting => 0 case Executing(_) => 4 case Leaving => 1 case Gone => 0)
  }

  function GenWorks(gens: seq<Streaming.Gen>): seq<nat> {
    seq(|gens|, c requires 0 <= c < |gens| => GenWork(gens[c]))
  }

  function Unread(logs: seq<seq<TokenEvent>>, off: seq<nat>): seq<nat> {
    seq(|logs|, p requires 0 <= p < |logs| => if p < |off| && off[p] <= |logs[p]| then |logs[p]| - off[p] else 0)
  }

  function HandWork(h: Streaming.Hand): nat {
    match h case Idle => 0 case Routing(_) => 7 case Pushing(_, _) => 6
  }

  function RouterWork(r: Streaming.State): nat {
    8 * Sum(Unread(r.b.logs, r.w.off)) + HandWork(r.w.hand) + Sum(GenWorks(r.gens))
  }

  /** The weighted number of hops that all tokens still have before them. */
  ghost function Work(s: State): nat {
    MapSum(RequestWorks(s)) + FrontWork(s.f) + RouterWork(s.r)
  }

  // ---------------------------------------------------------------- every step does some

  lemma OneRequest(s: State, s': State, id: Id)
    requires id in s.p.plan.jobs && s'.p.plan == s.p.plan
    requires forall q :: q in s.p.plan.jobs && q != id ==> RequestWork(s', q) == RequestWork(s, q)
    ensures MapSum(RequestWorks(s')) + RequestWork(s, id) == MapSum(RequestWorks(s)) + RequestWork(s', id)
  {
    MapSumUpdate(RequestWorks(s), id, RequestWork(s', id));
    assert RequestWorks(s') == RequestWorks(s)[id := RequestWork(s', id)];
  }

  lemma LaneMoves(s: State, s': State, id: Id)
    requires LanesInv(s) && id in s.lanes && s'.p == s.p && id in s'.lanes && s'.lanes == s.lanes[id := s'.lanes[id]]
    ensures MapSum(RequestWorks(s')) + LaneWork(s.lanes[id]) == MapSum(RequestWorks(s)) + LaneWork(s'.lanes[id])
  {
    OneRequest(s, s', id);
  }

  lemma ProducerMoves(s: State, s': State, id: Id)
    requires id in s.p.plan.jobs && id in s.p.prods && s'.lanes == s.lanes && s'.p.plan == s.p.plan
    requires id in s'.p.prods && s'.p.prods == s.p.prods[id := s'.p.prods[id]]
    ensures MapSum(RequestWorks(s')) + ProducerWork(s.p.plan.jobs[id], s.p.prods[id])
         == MapSum(RequestWorks(s)) + ProducerWork(s.p.plan.jobs[id], s'.p.prods[id])
  {
    OneRequest(s, s', id);
  }

  lemma LaneSteps(l: Delivery.Lane, step: Delivery.Step)
    requires Delivery.Inv(l) && Delivery.Enabled(l, step)
    ensures Handling(step) ==> LaneWork(Delivery.Apply(l, step)) < LaneWork(l)
    ensures step == Delivery.Publish(true) ==> LaneWork(Delivery.Apply(l, step)) + 4 == LaneWork(l)
    ensures step.Send? ==> LaneWork(Delivery.Apply(l, step)) == LaneWork(l) + 2
  {
  }

  lemma OneGen(gens: seq<Streaming.Gen>, c: nat, g: Streaming.Gen)
    requires c < |gens|
    ensures Sum(GenWorks(gens[c := g])) + GenWork(gens[c]) == Sum(GenWorks(gens)) + GenWork(g)
  {
    SumUpdate(GenWorks(gens), c, GenWork(g));
    assert GenWorks(gens[c := g]) == GenWorks(gens)[c := GenWork(g)];
  }

  lemma NewGen(gens: seq<Streaming.Gen>, g: Streaming.Gen)
    ensures Sum(GenWorks(gens + [g])) == Sum(GenWorks(gens)) + GenWork(g)
  {
    SumSnoc(GenWorks(gens), GenWork(g));
    assert GenWorks(gens + [g]) == GenWorks(gens) + [GenWork(g)];
  }

  lemma UnreadGrows(logs: seq<seq<TokenEvent>>, off: seq<nat>, p: nat, tok: TokenEvent)
    requires p < |logs| == |off| && off[p] <= |logs[p]|
    ensures Sum(Unread(logs[p := logs[p] + [tok]], off)) == Sum(Unread(logs, off)) + 1
  {
    var u := Unread(logs, off);
    SumUpdate(u, p, u[p] + 1);
    assert Unread(logs[p := logs[p] + [tok]], off) == u[p := u[p] + 1];
  }

  lemma RouterAppends(r: Streaming.State, p: nat, tok: TokenEvent)
    requires StreamingInvariant.Homed(r) && Streaming.Enabled(r, Streaming.Append(p, tok))
    ensures RouterWork(Streaming.Apply(r, Streaming.Append(p, tok))) == RouterWork(r) + 8
  {
    UnreadGrows(r.b.logs, r.w.off, p, tok);
  }

  lemma RouterFetches(r: Streaming.State, p: nat)
    requires StreamingInvariant.Homed(r) && Streaming.Enabled(r, Streaming.Fetch(p))
    ensures RouterWork(Streaming.Apply(r, Streaming.Fetch(p))) < RouterWork(r)
  {
    var r' := Streaming.Apply(r, Streaming.Fetch(p));
    var u := Unread(r.b.logs, r.w.off);
    SumUpdate(u, p, u[p] - 1);
    assert Unread(r'.b.logs, r'.w.off) == u[p := u[p] - 1];
  }

  lemma RouterMoves(r: Streaming.State, step: Streaming.Step)
    requires StreamingInvariant.Homed(r) && Routing(step) && Streaming.Enabled(r, step)
    ensures RouterWork(Streaming.Apply(r, step)) < RouterWork(r)
  {
    var r' := Streaming.Apply(r, step);
    match step
    case Fetch(p) => RouterFetches(r, p);
    case Lookup => NewGen(r.gens, Streaming.Gen(r.w.hand.tok.requestID, [], Streaming.Waiting, [], []));
    case Push => OneGen(r.gens, r.w.hand.c, r'.gens[r.w.hand.c]);
    case Take(c) => OneGen(r.gens, c, r'.gens[c]);
    case Delete(c) => OneGen(r.gens, c, r'.gens[c]);
  }

  lemma RouterFinishes(r: Streaming.State, c: nat)
    requires Streaming.Enabled(r, Streaming.Finish(c))
    ensures RouterWork(Streaming.Apply(r, Streaming.Finish(c))) + 3 <= RouterWork(r)
  {
    OneGen(r.gens, c, Streaming.Apply(r, Streaming.Finish(c)).gens[c]);
  }

  lemma ProducerSteps(j: Producers.Job, k: nat)
    requires k <= |j.deltas|
    ensures ProducerWork(j, Producers.Writing(k, true)) + 9 == ProducerWork(j, Producers.Writing(k, false))
    ensures ProducerWork(j, Producers.Next(j, k)) + 1 == ProducerWork(j, Producers.Writing(k, true))
    ensures ProducerWork(j, Producers.Writing(0, false)) == ProducerWork(j, Producers.Idle)
  {
  }

  lemma ProducerWithinJob(p: Producers.State, id: Id)
    requires Producers.Inv(p) && id in p.plan.jobs && p.prods[id].Writing?
    ensures p.prods[id].k <= |p.plan.jobs[id].deltas|
  {
    assert Producers.At(p.plan.jobs[id], p.prods[id], Producers.StreamOf(p, id), Producers.PersistOf(p, id));
  }

  lemma FetchRequestDescends(s: State, id: Id)
    requires Enabled(s, FetchRequest(id))
    ensures Work(Apply(s, FetchRequest(id))) < Work(s)
  {
    assert RequestWorks(Apply(s, FetchRequest(id))) == RequestWorks(s);
    assert s.f.topic == (s.f.topic - {id}) + {id};
  }

  lemma StartRequestDescends(s: State, id: Id)
    requires Enabled(s, StartRequest(id))
    ensures Work(Apply(s, StartRequest(id))) < Work(s)
  {
    var s' := Apply(s, StartRequest(id));
    ProducerMoves(s, s', id);
    assert ProducerWork(s.p.plan.jobs[id], s'.p.prods[id]) == ProducerWork(s.p.plan.jobs[id], s.p.prods[id]);
    assert |s.f.active + {id}| <= |s.f.active| + 1;
  }

  lemma ReleaseSlotDescends(s: State, id: Id)
    requires Enabled(s, ReleaseSlot(id))
    ensures Work(Apply(s, ReleaseSlot(id))) < Work(s)
  {
    var s' := Apply(s, ReleaseSlot(id));
    assert RequestWorks(s') == RequestWorks(s);
    assert s.f.active == s'.f.active + {id};
  }

  lemma WriteStreamDescends(s: State, id: Id)
    requires Producers.Inv(s.p) && StreamingInvariant.Homed(s.r) && Enabled(s, WriteStream(id))
    ensures Work(Apply(s, WriteStream(id))) < Work(s)
  {
    var s' := Apply(s, WriteStream(id));
    ProducerWithinJob(s.p, id);
    ProducerSteps(s.p.plan.jobs[id], s.p.prods[id].k);
    assert s'.p.prods == s.p.prods[id := Producers.Writing(s.p.prods[id].k, true)];
    ProducerMoves(s, s', id);
    RouterAppends(s.r, s.p.plan.streamHome[id], NextView(s, id));
  }

  lemma WritePersistDescends(s: State, id: Id)
    requires Producers.Inv(s.p) && Enabled(s, WritePersist(id))
    ensures Work(Apply(s, WritePersist(id))) < Work(s)
  {
    var s' := Apply(s, WritePersist(id));
    ProducerWithinJob(s.p, id);
    ProducerSteps(s.p.plan.jobs[id], s.p.prods[id].k);
    assert s'.p.prods == s.p.prods[id := Producers.Next(s.p.plan.jobs[id], s.p.prods[id].k)];
    ProducerMoves(s, s', id);
  }

  lemma RouteDescends(s: State, step: Streaming.Step)
    requires StreamingInvariant.Homed(s.r) && Enabled(s, Route(step))
    ensures Work(Apply(s, Route(step))) < Work(s)
  {
    RouterMoves(s.r, step);
    assert RequestWorks(Apply(s, Route(step))) == RequestWorks(s);
  }

  lemma LaneStepsDescend(s: State, step: Step)
    requires LanesInv(s) && Enabled(s, step) && (step.Handle? || step.Publish? || step.Execute?)
    ensures Work(Apply(s, step)) < Work(s)
  {
    var s', id := Apply(s, step), step.id;
    LaneMoves(s, s', id);
    match step
    case Handle(_, step) => LaneSteps(s.lanes[id], step);
    case Publish(_) => LaneSteps(s.lanes[id], Delivery.Publish(true));
    case Execute(c, _) =>
      LaneSteps(s.lanes[id], Delivery.Send(s.r.gens[c].proc.tok));
      RouterFinishes(s.r, c);
  }

  /** Every step lowers the remaining work. */
  lemma EveryStepDescends(s: State, step: Step)
    requires Inv(s) && Enabled(s, step)
    ensures Work(Apply(s, step)) < Work(s)
  {
    match step
    case FetchRequest(id) => FetchRequestDescends(s, id);
    case StartRequest(id) => StartRequestDescends(s, id);
    case ReleaseSlot(id) => ReleaseSlotDescends(s, id);
    case WriteStream(id) => WriteStreamDescends(s, id);
    case WritePersist(id) => WritePersistDescends(s, id);
    case Route(step) => RouteDescends(s, step);
    case _ => LaneStepsDescend(s, step);
  }

  lemma {:induction false} WorkBoundsRuns(s: State, run: seq<Step>)
    requires Inv(s) && Legal(s, run)
    ensures |run| + Work(After(s, run)) <= Work(s)
    decreases |run|
  {
    if run != [] {
      EveryStepDescends(s, run[0]);
      InvKept(s, run[0]);
      WorkBoundsRuns(Apply(s, run[0]), run[1..]);
    }
  }

  /** Seven steps to serve a request and ten for each of its events. */
  function Cost(jobs: map<Id, Producers.Job>): map<Id, nat> {
    map id | id in jobs :: 7 + 10 * |Producers.Events(jobs[id])|
  }

  lemma InitialWork(s: State)
    requires Init(s)
    ensures Work(s) == MapSum(Cost(s.p.plan.jobs))
  {
    SumZero(Unread(s.r.b.logs, s.r.w.off));
    assert RequestWorks(s) == Cost(s.p.plan.jobs);
  }

  /** No run is longer than the finite set of its finite requests allows. */
  lemma RunsAreBounded(s: State, run: seq<Step>)
    requires Init(s) && Legal(s, run)
    ensures |run| <= MapSum(Cost(s.p.plan.jobs))
  {
    InvInitially(s);
    InitialWork(s);
    WorkBoundsRuns(s, run);
  }

  // ---------------------------------------------------------------- nothing left to move

  ghost predicate Stopped(t: State) {
    forall step :: !Enabled(t, step)
  }

  /** At most 1000 events, Done included: the size of the hub's queue. */
  predicate Short(j: Producers.Job) {
    |Producers.Events(j)| <= QUEUE_CAPACITY
  }

  lemma HandlersStopped(t: State, id: Id)
    requires LanesInv(t) && Stopped(t) && id in t.lanes
    ensures t.lanes[id].wire == [] && Delivery.Published(t.lanes[id]) && t.lanes[id].handler != Delivery.Finished
    ensures t.lanes[id].handler == Delivery.Reading ==> t.lanes[id].queue == Some([])
  {
    assert Delivery.Inv(t.lanes[id]);
    assert !Enabled(t, Handle(id, Delivery.Register)) && !Enabled(t, Handle(id, Delivery.Announce)) &&
      !Enabled(t, Handle(id, Delivery.Deliver));
    assert !Enabled(t, Handle(id, Delivery.Read)) && !Enabled(t, Handle(id, Delivery.Cleanup)) &&
      !Enabled(t, Step.Publish(id));
  }

  lemma WriterCanStream(t: State, id: Id)
    requires Producers.Shape(t.p) && Wired(t) && id in t.p.plan.jobs && t.p.prods[id].Writing? && !t.p.prods[id].half
    ensures Enabled(t, WriteStream(id))
  {
    assert Producers.Enabled(t.p, Producers.Stream(id, true));
    assert NextView(t, id).requestID == id;
  }

  lemma WriterCanPersist(t: State, id: Id)
    requires Producers.Shape(t.p) && id in t.p.plan.jobs && t.p.prods[id].Writing? && t.p.prods[id].half
    ensures Enabled(t, WritePersist(id))
  {
  }

  lemma NoSlotHeld(t: State)
    requires Producers.Shape(t.p) && Wired(t) && Slotted(t) && Stopped(t)
    ensures t.f.active == {} && forall id :: id in t.p.prods ==> !t.p.prods[id].Writing?
  {
    forall id | id in t.f.active ensures false {
      assert Begun(t, id) && !Enabled(t, ReleaseSlot(id));
      if t.p.prods[id].half { WriterCanPersist(t, id); } else { WriterCanStream(t, id); }
    }
  }

  lemma RequestCanStart(t: State, id: Id)
    requires Producers.Shape(t.p) && LanesInv(t) && t.f.hand == Some(id) && Asked(t, id) && !Begun(t, id)
    requires t.f.active == {} && t.f.slots >= 1
    ensures Enabled(t, StartRequest(id))
  {
  }

  lemma NoRequestWaits(t: State)
    requires Producers.Shape(t.p) && LanesInv(t) && Admitted(t) && t.f.active == {} && t.f.slots >= 1 && Stopped(t)
    ensures t.f.hand == None && t.f.topic == {}
  {
    if t.f.hand.Some? {
      RequestCanStart(t, t.f.hand.value);
    }
    forall id ensures id !in t.f.topic {
      assert !Enabled(t, FetchRequest(id));
    }
  }

  lemma ProducersReturned(t: State, id: Id)
    requires Inv(t) && Stopped(t) && id in t.p.plan.jobs
    ensures t.p.prods[id].Returned? && !t.p.prods[id].err
  {
    NoSlotHeld(t);
    NoRequestWaits(t);
    HandlersStopped(t, id);
    assert Asked(t, id);
    assert Begun(t, id);
  }

  /** A token in a processor's hands belongs to a request that has been published. */
  lemma ExecutingCanSend(t: State, c: nat)
    requires StreamingInvariant.Queued(t.r) && c < |t.r.gens| && t.r.gens[c].proc.Executing?
    requires t.r.gens[c].req in t.lanes && Delivery.Published(t.lanes[t.r.gens[c].req])
    ensures Enabled(t, Execute(c, t.r.gens[c].req))
  {
    var g := t.r.gens[c];
    assert StreamingInvariant.Fifo(g);
    assert g.proc.tok in g.routed;
  }

  lemma NothingExecuting(t: State, c: nat)
    requires LanesInv(t) && Wired(t) && Producers.Shape(t.p) && StreamingInvariant.Queued(t.r)
    requires StreamingInvariant.Known(t.r) && Stopped(t) && c < |t.r.gens|
    ensures !t.r.gens[c].proc.Executing?
  {
    HandlersStopped(t, t.r.gens[c].req);
    if t.r.gens[c].proc.Executing? {
      ExecutingCanSend(t, c);
    }
  }

  lemma RouterStopped(t: State)
    requires LanesInv(t) && Wired(t) && Producers.Shape(t.p) && StreamingInvariant.Queued(t.r)
    requires StreamingInvariant.Known(t.r) && Stopped(t)
    ensures StreamingTheorems.AtRest(t.r)
  {
    forall step | StreamingTheorems.Internal(step) ensures !Streaming.Enabled(t.r, step) {
      if step.Finish? {
        if step.c < |t.r.gens| { NothingExecuting(t, step.c); }
      } else {
        assert !Enabled(t, Route(step));
      }
    }
    StreamingTheorems.QuiescentIsAtRest(t.r);
  }

  lemma NotBusy(r: Streaming.State, id: Id)
    requires StreamingTheorems.AtRest(r)
    ensures Busy(r, id) == []
  {
  }

  /** Everything a request's producer wrote has reached its instance. */
  lemma AllDelivered(t: State, id: Id)
    requires Inv(t) && Stopped(t) && id in t.p.plan.jobs
    ensures t.lanes[id].delivered == Views(Producers.Events(t.p.plan.jobs[id]))
    ensures Producers.StreamOf(t.p, id) == Producers.PersistOf(t.p, id) == Producers.Events(t.p.plan.jobs[id])
  {
    ProducersReturned(t, id);
    Producers.LagAt(t.p.plan.jobs[id], t.p.prods[id], Producers.StreamOf(t.p, id), Producers.PersistOf(t.p, id));
    LogIsStream(t, id);
    DoneLastEverywhere(t);
    RouterStopped(t);
    StreamingTheorems.CompleteWhenResting(t.r, id);
    NotBusy(t.r, id);
    HandlersStopped(t, id);
    assert Delivery.Inv(t.lanes[id]);
    assert t.lanes[id].sent + Busy(t.r, id) == Of(id, t.r.h.started);
  }

  lemma EndsInDone(j: Producers.Job)
    ensures var es := Views(Producers.Events(j)); es != [] && es[|es| - 1].done && DoneLast(es)
  {
    Producers.EventsSpell(j);
    ViewsDoneLast(Producers.Events(j));
  }

  lemma HandlerLeft(l: Delivery.Lane, es: seq<TokenEvent>)
    requires Delivery.Inv(l) && Parted(l) && !l.dropped && l.delivered == es
    requires es != [] && es[|es| - 1].done && DoneLast(es)
    requires (l.handler == Delivery.Reading && l.queue == Some([])) || l.handler == Delivery.Gone
    ensures l.handler == Delivery.Gone && l.chunks == es
  {
    if l.handler == Delivery.Gone {
      var k := |l.chunks| - 1;
      assert es[k] == l.chunks[k];
    }
  }

  /**
   A state in which nothing can move is one in which every request of at most 1000 events was
   served completely: both logs hold all its events, its client has read every one of them, Done
   last, and its handler is gone.
   */
  lemma StoppedIsServed(s: State, run: seq<Step>, t: State, id: Id)
    requires Reachable(s, run, t) && Stopped(t) && id in s.p.plan.jobs && Short(s.p.plan.jobs[id])
    ensures Producers.Shape(t.p) && t.p.plan == s.p.plan && id in t.lanes
    ensures t.lanes[id].handler == Delivery.Gone && t.lanes[id].chunks == Views(Producers.Events(s.p.plan.jobs[id]))
    ensures Producers.StreamOf(t.p, id) == Producers.PersistOf(t.p, id) == Producers.Events(s.p.plan.jobs[id])
    ensures Text(t.lanes[id].chunks) == Producers.Joined(s.p.plan.jobs[id].deltas)
  {
    ReachableInv(s, run, t);
    PlanKept(s, run);
    Served(t, id);
    ViewsKeepText(Producers.Events(s.p.plan.jobs[id]));
    Producers.EventsSpell(s.p.plan.jobs[id]);
  }

  lemma Served(t: State, id: Id)
    requires Inv(t) && Stopped(t) && id in t.p.plan.jobs && Short(t.p.plan.jobs[id])
    ensures t.lanes[id].handler == Delivery.Gone && t.lanes[id].chunks == Views(Producers.Events(t.p.plan.jobs[id]))
    ensures Producers.StreamOf(t.p, id) == Producers.PersistOf(t.p, id) == Producers.Events(t.p.plan.jobs[id])
  {
    ShortLane(t, id);
    AllDelivered(t, id);
    EndsInDone(t.p.plan.jobs[id]);
    HandlersStopped(t, id);
    HandlerLeft(t.lanes[id], Views(Producers.Events(t.p.plan.jobs[id])));
  }

  /** A reachable state that is not finished has a step, and the router is never blocked for good. */
  lemma UnfinishedCanMove(s: State, run: seq<Step>, t: State, id: Id)
    requires Reachable(s, run, t) && id in s.p.plan.jobs && Short(s.p.plan.jobs[id])
    requires id in t.lanes && t.lanes[id].handler != Delivery.Gone
    ensures exists step :: Enabled(t, step) && Work(Apply(t, step)) < Work(t)
  {
    ReachableInv(s, run, t);
    if Stopped(t) {
      StoppedIsServed(s, run, t, id);
    }
    var step :| Enabled(t, step);
    EveryStepDescends(t, step);
  }

  lemma RouterNeverBlockedForGood(s: State, run: seq<Step>, t: State)
    requires Reachable(s, run, t) && t.r.w.hand.Pushing?
    ensures t.r.w.hand.c < |t.r.gens| && Streaming.Live(t.r.gens[t.r.w.hand.c])
  {
    ReachableInv(s, run, t);
    DoneLastEverywhere(t);
    StreamingTheorems.LiveBehindTheRouter(t.r);
  }

  /** Left to run, the streaming path serves everyone: a run that can be extended is extended to a complete one. */
  lemma {:induction false} EveryRunCompletes(s: State, run: seq<Step>) returns (run': seq<Step>)
    requires Inv(s) && Legal(s, run)
    ensures Legal(s, run') && Stopped(After(s, run')) && run <= run'
    decreases Work(After(s, run))
  {
    var t := After(s, run);
    InvAlongRun(s, run);
    if Stopped(t) {
      run' := run;
    } else {
      var step :| Enabled(t, step);
      EveryStepDescends(t, step);
      Extend(s, run, step);
      run' := EveryRunCompletes(s, run + [step]);
    }
  }

  lemma {:induction false} Extend(s: State, run: seq<Step>, step: Step)
    requires Legal(s, run) && Enabled(After(s, run), step)
    ensures Legal(s, run + [step]) && After(s, run + [step]) == Apply(After(s, run), step)
    decreases |run|
  {
    var longer := run + [step];
    if run == [] {
      assert longer[1..] == [];
    } else {
      assert longer[0] == run[0] && longer[1..] == run[1..] + [step];
      Extend(Apply(s, run[0]), run[1..], step);
    }
  }
}
