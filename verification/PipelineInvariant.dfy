/** The inductive invariant of the streaming path: every component's own, and what glues them together. */
module PipelineInvariant {
  import opened Types
  import Producers = ProducerMachine
  import Streaming = StreamingMachine
  import StreamingInvariant
  import StreamingTheorems
  import Delivery = DeliveryMachine
  import opened Pipeline

  ghost predicate Inv(s: State) {
    && Producers.Inv(s.p) && StreamingInvariant.Inv(s.r) && LanesInv(s)
    && Wired(s) && Whole(s) && Answered(s) && Admitted(s) && Slotted(s) && Sent(s)
  }

  ghost predicate LanesInv(s: State) {
    s.lanes.Keys == s.p.plan.jobs.Keys && forall id :: id in s.lanes ==> Delivery.Inv(s.lanes[id])
  }

  /** The streaming worker reads what the producers wrote. */
  ghost predicate Wired(s: State) {
    && s.r.b.home == s.p.plan.streamHome && |s.r.b.logs| == |s.p.slogs|
    && forall p :: 0 <= p < |s.p.slogs| ==> s.r.b.logs[p] == Views(s.p.slogs[p])
  }

  /** No producer failed and no processor timed out. */
  ghost predicate Whole(s: State) {
    && NoneFailed(s.p)
    && StreamingTheorems.Whole(s.r) && !s.r.h.abandoned
  }

  /** A handler leaves only after reading Done. */
  ghost predicate Parted(l: Delivery.Lane) {
    l.handler == Delivery.Finished || l.handler == Delivery.Gone ==> l.chunks != [] && l.chunks[|l.chunks| - 1].done
  }

  ghost predicate Answered(s: State) {
    forall id :: id in s.lanes ==> Parted(s.lanes[id])
  }

  predicate Asked(s: State, id: Id) {
    id in s.lanes && Delivery.Published(s.lanes[id])
  }

  predicate Begun(s: State, id: Id) {
    id in s.p.prods && s.p.prods[id] != Producers.Idle
  }

  /**
   A published request waits in the topic or in the worker's hand, or its producer has begun, and only one of
   these.
   */
  ghost predicate Admitted(s: State) {
    && (forall id :: Begun(s, id) ==> Asked(s, id))
    && (forall id :: Asked(s, id) ==> id in s.f.topic || s.f.hand == Some(id) || Begun(s, id))
    && (forall id :: id in s.f.topic ==> Asked(s, id) && !Begun(s, id) && s.f.hand != Some(id))
    && (s.f.hand.Some? ==> Asked(s, s.f.hand.value) && !Begun(s, s.f.hand.value))
  }

  /** A producer that is writing holds a semaphore slot. */
  ghost predicate Slotted(s: State) {
    && |s.f.active| <= s.f.slots && s.f.slots >= 1
    && (forall id :: id in s.f.active ==> Begun(s, id))
    && (forall id :: id in s.p.prods && s.p.prods[id].Writing? ==> id in s.f.active)
  }

  /** The token a live processor is handing to `Execute` for request `id`. */
  function Busy(r: Streaming.State, id: Id): seq<TokenEvent> {
    if id in r.w.channels && r.w.channels[id] < |r.gens| && r.gens[r.w.channels[id]].proc.Executing? then
      [r.gens[r.w.channels[id]].proc.tok]
    else []
  }

  /** What was sent towards the instance is what was executed, up to the token being executed. */
  ghost predicate Sent(s: State) {
    forall id :: id in s.lanes ==> s.lanes[id].sent + Busy(s.r, id) == Of(id, s.r.h.started)
  }

  lemma LanesInitially(s: State)
    requires s.lanes == map id | id in s.p.plan.jobs :: Delivery.FRESH
    ensures LanesInv(s) && Answered(s)
    ensures forall id :: id in s.lanes ==> s.lanes[id] == Delivery.FRESH
    ensures forall id :: !Asked(s, id)
  {
    assert forall id :: id in s.lanes ==> s.lanes[id] == Delivery.FRESH;
    assert Delivery.Inv(Delivery.FRESH);
  }

  lemma NothingBegun(s: State)
    requires s.p.prods == map id | id in s.p.plan.jobs :: Producers.Idle
    ensures forall id :: !Begun(s, id)
    ensures forall id :: id in s.p.prods ==> s.p.prods[id] == Producers.Idle
  {
  }

  lemma GlueInitially(s: State)
    requires Init(s) && forall id :: !Asked(s, id) && !Begun(s, id)
    requires forall id :: id in s.lanes ==> s.lanes[id] == Delivery.FRESH
    requires forall id :: id in s.p.prods ==> s.p.prods[id] == Producers.Idle
    ensures Wired(s) && Whole(s) && Admitted(s) && Slotted(s) && Sent(s)
  {
  }

  lemma InvInitially(s: State)
    requires Init(s)
    ensures Inv(s)
  {
    Producers.InvInitially(s.p);
    StreamingInvariant.InvInitially(s.r);
    LanesInitially(s);
    NothingBegun(s);
    GlueInitially(s);
  }

  lemma InvKept(s: State, step: Step)
    requires Inv(s) && Enabled(s, step)
    ensures Inv(Apply(s, step))
  {
    ProducersKept(s, step);
    RouterKept(s, step);
    LanesKept(s, step);
    WiredKept(s, step);
    WholeKept(s, step);
    AnsweredKept(s, step);
    AdmittedKept(s, step);
    SlottedKept(s, step);
    SentKept(s, step);
  }

  lemma {:induction false} InvAlongRun(s: State, run: seq<Step>)
    requires Inv(s) && Legal(s, run)
    ensures Inv(After(s, run))
    decreases |run|
  {
    if run != [] {
      InvKept(s, run[0]);
      InvAlongRun(Apply(s, run[0]), run[1..]);
    }
  }

  // ---------------------------------------------------------------- components

  lemma ProducersKept(s: State, step: Step)
    requires Producers.Inv(s.p) && Enabled(s, step)
    ensures Producers.Inv(Apply(s, step).p)
  {
    match step
    case StartRequest(id) => Producers.InvKept(s.p, Producers.Start(id));
    case WriteStream(id) => Producers.InvKept(s.p, Producers.Stream(id, true));
    case WritePersist(id) => Producers.InvKept(s.p, Producers.Persist(id, true));
    case _ => assert Apply(s, step).p == s.p;
  }

  lemma RouterKept(s: State, step: Step)
    requires StreamingInvariant.Inv(s.r) && Enabled(s, step)
    ensures StreamingInvariant.Inv(Apply(s, step).r)
  {
    match step
    case WriteStream(id) => StreamingInvariant.InvKept(s.r, Streaming.Append(s.p.plan.streamHome[id], NextView(s, id)));
    case Route(step) => StreamingInvariant.InvKept(s.r, step);
    case Execute(c, id) => StreamingInvariant.InvKept(s.r, Streaming.Finish(c));
    case _ => assert Apply(s, step).r == s.r;
  }

  lemma LaneKept(s: State, id: Id, move: Delivery.Step)
    requires LanesInv(s) && LaneEnabled(s, id, move)
    ensures LanesInv(OnLane(s, id, move))
  {
    Delivery.InvKept(s.lanes[id], move);
  }

  lemma LanesKept(s: State, step: Step)
    requires LanesInv(s) && Enabled(s, step)
    ensures LanesInv(Apply(s, step))
  {
    match step
    case Handle(id, step) => LaneKept(s, id, step);
    case Publish(id) => LaneKept(s, id, Delivery.Publish(true));
    case Execute(c, id) => LaneKept(s, id, Delivery.Send(s.r.gens[c].proc.tok));
    case _ => assert Apply(s, step).lanes == s.lanes && Apply(s, step).p.plan == s.p.plan;
  }

  // ---------------------------------------------------------------- glue

  lemma WiredStream(s: State, id: Id)
    requires Wired(s) && Enabled(s, WriteStream(id))
    ensures Wired(Apply(s, WriteStream(id)))
  {
    var p := s.p.plan.streamHome[id];
    var e := Producers.Event(s.p.plan.jobs[id], s.p.prods[id].k);
    assert Views(s.p.slogs[p] + [e]) == Views(s.p.slogs[p]) + [View(e)];
  }

  lemma WiredKept(s: State, step: Step)
    requires Wired(s) && Enabled(s, step)
    ensures Wired(Apply(s, step))
  {
    var s' := Apply(s, step);
    if step.WriteStream? {
      WiredStream(s, step.id);
    } else {
      assert s'.r.b == s.r.b && s'.p.slogs == s.p.slogs && s'.p.plan == s.p.plan;
    }
  }

  /** No producer has returned an error, and none is about to: the fault-free steps let none. */
  ghost predicate NoneFailed(p: Producers.State) {
    forall id :: id in p.prods && p.prods[id].Returned? ==> !p.prods[id].err
  }

  lemma NoneFails(p: Producers.State, step: Producers.Step)
    requires NoneFailed(p) && Producers.Enabled(p, step) && (step.Start? || step.ok)
    ensures NoneFailed(Producers.Apply(p, step))
  {
  }

  lemma WholeKept(s: State, step: Step)
    requires Whole(s) && Enabled(s, step)
    ensures Whole(Apply(s, step))
  {
    var s' := Apply(s, step);
    match step
    case WritePersist(id) => NoneFails(s.p, Producers.Persist(id, true));
    case WriteStream(id) => NoneFails(s.p, Producers.Stream(id, true));
    case StartRequest(id) => NoneFails(s.p, Producers.Start(id));
    case Route(step) => assert s'.p == s.p;
    case Execute(c, id) => assert s'.p == s.p;
    case _ => assert s'.p == s.p && s'.r == s.r;
  }

  lemma PartedKept(l: Delivery.Lane, step: Delivery.Step)
    requires Parted(l) && Delivery.Enabled(l, step) && !step.Depart? && (step.Publish? ==> step.ok)
    ensures Parted(Delivery.Apply(l, step))
  {
  }

  lemma AnsweredKept(s: State, step: Step)
    requires Answered(s) && Enabled(s, step)
    ensures Answered(Apply(s, step))
  {
    match step
    case Handle(id, step) => PartedKept(s.lanes[id], step);
    case Publish(id) => PartedKept(s.lanes[id], Delivery.Publish(true));
    case Execute(c, id) => PartedKept(s.lanes[id], Delivery.Send(s.r.gens[c].proc.tok));
    case _ => assert Apply(s, step).lanes == s.lanes;
  }

  // ---------------------------------------------------------------- admission

  lemma AdmittedKept(s: State, step: Step)
    requires Admitted(s) && Enabled(s, step)
    ensures Admitted(Apply(s, step))
  {
    match step
    case Handle(id, step) => AdmittedFrame(s, OnLane(s, id, step));
    case Publish(id) => AdmittedPublish(s, id);
    case FetchRequest(id) => AdmittedFetch(s, id);
    case StartRequest(id) => AdmittedStart(s, id);
    case Execute(c, id) => AdmittedFrame(s, Apply(s, Execute(c, id)));
    case WriteStream(id) => AdmittedFrame(s, Apply(s, WriteStream(id)));
    case WritePersist(id) => AdmittedFrame(s, Apply(s, WritePersist(id)));
    case _ =>
      assert Apply(s, step).lanes == s.lanes && Apply(s, step).p == s.p;
      AdmittedFrame(s, Apply(s, step));
  }

  lemma AdmittedFrame(s: State, s': State)
    requires Admitted(s) && s'.f.topic == s.f.topic && s'.f.hand == s.f.hand
    requires forall id :: (Asked(s', id) <==> Asked(s, id)) && (Begun(s', id) <==> Begun(s, id))
    ensures Admitted(s')
  {
  }

  lemma AdmittedPublish(s: State, id: Id)
    requires Admitted(s) && Enabled(s, Step.Publish(id))
    ensures Admitted(Apply(s, Step.Publish(id)))
  {
    var s' := Apply(s, Step.Publish(id));
    assert !Asked(s, id) && Asked(s', id);
    assert forall q :: q != id ==> (Asked(s', q) <==> Asked(s, q));
    assert forall q :: Begun(s', q) <==> Begun(s, q);
  }

  lemma AdmittedFetch(s: State, id: Id)
    requires Admitted(s) && Enabled(s, FetchRequest(id))
    ensures Admitted(Apply(s, FetchRequest(id)))
  {
    var s' := Apply(s, FetchRequest(id));
    assert forall q :: (Asked(s', q) <==> Asked(s, q)) && (Begun(s', q) <==> Begun(s, q));
  }

  lemma AdmittedStart(s: State, id: Id)
    requires Admitted(s) && Enabled(s, StartRequest(id))
    ensures Admitted(Apply(s, StartRequest(id)))
  {
    var s' := Apply(s, StartRequest(id));
    assert forall q :: (Asked(s', q) <==> Asked(s, q)) && (Begun(s', q) <==> Begun(s, q) || q == id);
  }

  lemma SlottedStart(s: State, id: Id)
    requires Slotted(s) && Enabled(s, StartRequest(id))
    ensures Slotted(Apply(s, StartRequest(id)))
  {
    assert |s.f.active + {id}| <= |s.f.active| + 1;
  }

  lemma SlottedFrame(s: State, s': State)
    requires Slotted(s) && s'.f.slots == s.f.slots && s'.f.active == s.f.active
    requires forall id :: id in s.p.prods ==>
               id in s'.p.prods && (s'.p.prods[id].Writing? ==> s.p.prods[id].Writing?) && (s'.p.prods[id].Idle? ==>
                   s.p.prods[id].Idle?)
    requires forall id :: id in s'.p.prods ==> id in s.p.prods
    ensures Slotted(s')
  {
  }

  lemma SlottedKept(s: State, step: Step)
    requires Slotted(s) && Enabled(s, step)
    ensures Slotted(Apply(s, step))
  {
    match step
    case StartRequest(id) => SlottedStart(s, id);
    case WriteStream(id) => SlottedFrame(s, Apply(s, WriteStream(id)));
    case WritePersist(id) => SlottedFrame(s, Apply(s, WritePersist(id)));
    case ReleaseSlot(id) => assert |s.f.active - {id}| <= |s.f.active|;
    case _ => assert Apply(s, step).p == s.p && Apply(s, step).f.active == s.f.active &&
      Apply(s, step).f.slots == s.f.slots;
  }

  // ---------------------------------------------------------------- sent

  lemma SentFrame(s: State, s': State)
    requires Sent(s) && s'.lanes.Keys == s.lanes.Keys && s'.r.h.started == s.r.h.started
    requires forall id :: id in s.lanes ==> s'.lanes[id].sent == s.lanes[id].sent && Busy(s'.r, id) == Busy(s.r, id)
    ensures Sent(s')
  {
  }

  /** One lane moves and sends nothing. */
  lemma SentLane(s: State, id: Id, move: Delivery.Step)
    requires Sent(s) && LaneEnabled(s, id, move) && !move.Send?
    ensures Sent(OnLane(s, id, move))
  {
    SentFrame(s, OnLane(s, id, move));
  }

  lemma SentWrite(s: State, id: Id)
    requires Sent(s) && Enabled(s, WriteStream(id))
    ensures Sent(Apply(s, WriteStream(id)))
  {
    BusyFrame(s.r, Apply(s, WriteStream(id)).r);
    SentFrame(s, Apply(s, WriteStream(id)));
  }

  lemma SentTake(s: State, c: nat)
    requires StreamingInvariant.Mapped(s.r) && StreamingInvariant.Queued(s.r) && Sent(s)
    requires Enabled(s, Route(Streaming.Take(c)))
    ensures Sent(Apply(s, Route(Streaming.Take(c))))
  {
    var s' := Apply(s, Route(Streaming.Take(c)));
    var tok := s.r.gens[c].queue[0];
    assert tok in s.r.gens[c].routed;
    forall id | id in s.lanes ensures s'.lanes[id].sent + Busy(s'.r, id) == Of(id, s'.r.h.started) {
      OfSnoc(id, s.r.h.started, tok);
    }
  }

  lemma BusyFinish(r: Streaming.State, c: nat)
    requires StreamingInvariant.Mapped(r) && StreamingInvariant.Queued(r) && Streaming.Enabled(r, Streaming.Finish(c))
    ensures var id := r.gens[c].proc.tok.requestID;
            && id == r.gens[c].req && Busy(r, id) == [r.gens[c].proc.tok]
            && Busy(Streaming.Apply(r, Streaming.Finish(c)), id) == []
            && forall q :: q != id ==> Busy(Streaming.Apply(r, Streaming.Finish(c)), q) == Busy(r, q)
  {
    var g := r.gens[c];
    assert StreamingInvariant.Fifo(g);
    assert g.proc.tok in g.routed;
  }

  lemma SentExecute(s: State, c: nat, id: Id)
    requires StreamingInvariant.Mapped(s.r) && StreamingInvariant.Queued(s.r) && Sent(s) && Enabled(s, Execute(c, id))
    ensures Sent(Apply(s, Execute(c, id)))
  {
    BusyFinish(s.r, c);
    var s' := Apply(s, Execute(c, id));
    assert s'.lanes[id].sent == s.lanes[id].sent + [s.r.gens[c].proc.tok];
    assert s'.r.h.started == s.r.h.started;
  }

  lemma BusyFrame(r: Streaming.State, r': Streaming.State)
    requires r'.w.channels == r.w.channels && |r'.gens| == |r.gens|
    requires forall c :: 0 <= c < |r.gens| ==> r'.gens[c].proc == r.gens[c].proc
    ensures forall id :: Busy(r', id) == Busy(r, id)
  {
  }

  lemma BusyLookup(r: Streaming.State)
    requires StreamingInvariant.Mapped(r) && Streaming.Enabled(r, Streaming.Step.Lookup)
    ensures forall id :: Busy(Streaming.Apply(r, Streaming.Step.Lookup), id) == Busy(r, id)
  {
  }

  lemma BusyDelete(r: Streaming.State, c: nat)
    requires StreamingInvariant.Mapped(r) && Streaming.Enabled(r, Streaming.Delete(c))
    ensures forall id :: Busy(Streaming.Apply(r, Streaming.Delete(c)), id) == Busy(r, id)
  {
    var r' := Streaming.Apply(r, Streaming.Delete(c));
    forall id ensures Busy(r', id) == Busy(r, id) {
      if id == r.gens[c].req {
        assert r.w.channels[id] == c;
      } else if id in r.w.channels {
        assert r.w.channels[id] != c;
      }
    }
  }

  lemma SentRoute(s: State, step: Streaming.Step)
    requires StreamingInvariant.Mapped(s.r) && StreamingInvariant.Queued(s.r) && Sent(s) && Enabled(s, Route(step))
    ensures Sent(Apply(s, Route(step)))
  {
    var s' := Apply(s, Route(step));
    match step
    case Take(c) => SentTake(s, c);
    case Lookup => BusyLookup(s.r); SentFrame(s, s');
    case Delete(c) => BusyDelete(s.r, c); SentFrame(s, s');
    case Push => BusyFrame(s.r, s'.r); SentFrame(s, s');
    case Fetch(p) => BusyFrame(s.r, s'.r); SentFrame(s, s');
  }

  lemma SentKept(s: State, step: Step)
    requires StreamingInvariant.Mapped(s.r) && StreamingInvariant.Queued(s.r) && Sent(s) && Enabled(s, step)
    ensures Sent(Apply(s, step))
  {
    match step
    case Route(step) => SentRoute(s, step);
    case WriteStream(id) => SentWrite(s, id);
    case Execute(c, id) => SentExecute(s, c, id);
    case Handle(id, step) => SentLane(s, id, step);
    case Publish(id) => SentLane(s, id, Delivery.Publish(true));
    case _ => assert Apply(s, step).lanes == s.lanes && Apply(s, step).r == s.r;
  }
}
