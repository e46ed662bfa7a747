/**
 The bound of 1000 events is exact: a longer request can find its queue full when Done arrives, and
 then its handler waits for ever, although nothing failed and nobody left.
 */
module Starvation {
  import opened Types
  import opened TokenHub
  import Producers = ProducerMachine
  import Streaming = StreamingMachine
  import Delivery = DeliveryMachine
  import opened Pipeline
  import opened PipelineInvariant
  import opened PipelineTheorems
  import opened Progress

  lemma Go(s: State, run: seq<Step>, t: State, step: Step) returns (run': seq<Step>)
    requires Legal(s, run) && t == After(s, run) && Enabled(t, step)
    ensures Legal(s, run') && After(s, run') == Apply(t, step)
  {
    Extend(s, run, step);
    run' := run + [step];
  }

  // ---------------------------------------------------------------- one token through the worker

  /** The channel of request `id`, if it has one, is empty and its processor waits. */
  ghost predicate Free(r: Streaming.State, id: Id) {
    id in r.w.channels ==>
      var c := r.w.channels[id];
      c < |r.gens| && r.gens[c].req == id && r.gens[c].proc == Streaming.Waiting && r.gens[c].queue == []
  }

  /** The router is idle and has read partition `p` up to its last `unread` tokens. */
  ghost predicate Caught(r: Streaming.State, p: nat, unread: nat) {
    r.w.hand == Streaming.Idle && p < |r.b.logs| == |r.w.off| && r.w.off[p] + unread == |r.b.logs[p]|
  }

  ghost predicate Carrying(r: Streaming.State, c: nat, tok: TokenEvent) {
    && c < |r.gens| && r.gens[c].req == tok.requestID && r.gens[c].proc == Streaming.Executing(tok)
    && r.gens[c].queue == []
    && tok.requestID in r.w.channels && r.w.channels[tok.requestID] == c
  }

  ghost predicate AllRouting(steps: seq<Streaming.Step>) {
    forall i :: 0 <= i < |steps| ==> Routing(steps[i])
  }

  lemma LookedUp(r: Streaming.State, tok: TokenEvent) returns (c: nat)
    requires r.w.hand == Streaming.Routing(tok) && Free(r, tok.requestID)
    ensures var r' := Streaming.Apply(r, Streaming.Step.Lookup);
            && r'.w.hand == Streaming.Pushing(tok, c) && r'.b == r.b && r'.w.off == r.w.off
            && c < |r'.gens| && r'.gens[c].req == tok.requestID && r'.gens[c].proc == Streaming.Waiting
            && r'.gens[c].queue == []
            && tok.requestID in r'.w.channels && r'.w.channels[tok.requestID] == c
  {
    c := if tok.requestID in r.w.channels then r.w.channels[tok.requestID] else |r.gens|;
  }

  lemma Handed(r: Streaming.State, p: nat, tok: TokenEvent, c: nat) returns (steps: seq<Streaming.Step>)
    requires Caught(r.(w := r.w.(hand := Streaming.Idle)), p, 0) && r.w.hand == Streaming.Pushing(tok, c)
    requires c < |r.gens| && r.gens[c].req == tok.requestID && r.gens[c].proc == Streaming.Waiting
    requires r.gens[c].queue == []
    requires tok.requestID in r.w.channels && r.w.channels[tok.requestID] == c
    ensures Streaming.Legal(r, steps) && AllRouting(steps)
    ensures var r' := Streaming.After(r, steps); r'.b == r.b && Caught(r', p, 0) && Carrying(r', c, tok)
  {
    var r1 := Streaming.Apply(r, Streaming.Step.Push);
    var r2 := Streaming.Apply(r1, Streaming.Take(c));
    assert r1.gens[c].queue == [tok];
    assert Streaming.Legal(r2, []) && AllRouting([]);
    steps := PrependRouting(r1, Streaming.Take(c), []);
    steps := PrependRouting(r, Streaming.Step.Push, steps);
  }

  lemma RoutedThrough(r: Streaming.State, p: nat, tok: TokenEvent) returns (c: nat, steps: seq<Streaming.Step>)
    requires Caught(r, p, 1) && r.b.logs[p][r.w.off[p]] == tok && Free(r, tok.requestID)
    ensures Streaming.Legal(r, steps) && AllRouting(steps)
    ensures var r' := Streaming.After(r, steps); r'.b == r.b && Caught(r', p, 0) && Carrying(r', c, tok)
  {
    var r1 := Streaming.Apply(r, Streaming.Fetch(p));
    c := LookedUp(r1, tok);
    var r2 := Streaming.Apply(r1, Streaming.Step.Lookup);
    steps := Handed(r2, p, tok, c);
    steps := PrependRouting(r1, Streaming.Step.Lookup, steps);
    steps := PrependRouting(r, Streaming.Fetch(p), steps);
  }

  lemma PrependRouting(r: Streaming.State, step: Streaming.Step, rest: seq<Streaming.Step>)
      returns (steps: seq<Streaming.Step>)
    requires Streaming.Enabled(r, step) && Routing(step) && Streaming.Legal(Streaming.Apply(r, step), rest)
    requires AllRouting(rest)
    ensures Streaming.Legal(r, steps) && AllRouting(steps)
    ensures Streaming.After(r, steps) == Streaming.After(Streaming.Apply(r, step), rest)
  {
    steps := [step] + rest;
    assert steps[1..] == rest;
  }

  /** The worker's steps are steps of the whole path. */
  lemma {:induction false} Lift(s: State, run: seq<Step>, t: State, steps: seq<Streaming.Step>)
      returns (run': seq<Step>)
    requires Legal(s, run) && t == After(s, run) && Streaming.Legal(t.r, steps) && AllRouting(steps)
    ensures Legal(s, run') && After(s, run') == t.(r := Streaming.After(t.r, steps))
    decreases |steps|
  {
    if steps == [] {
      run' := run;
    } else {
      assert Routing(steps[0]) && AllRouting(steps[1..]);
      run' := Go(s, run, t, Route(steps[0]));
      run' := Lift(s, run', Apply(t, Route(steps[0])), steps[1..]);
    }
  }

  // ---------------------------------------------------------------- a handler that does not read

  /** `k` tokens were delivered to a handler that has read none; as many wait as the queue holds, none of them Done. */
  ghost predicate Filled(l: Delivery.Lane, k: nat) {
    && l.handler == Delivery.Reading && l.wire == [] && |l.delivered| == k && l.queue.Some?
    && |l.queue.value| == (if k < QUEUE_CAPACITY then k else QUEUE_CAPACITY)
    && forall x :: x in l.queue.value ==> !x.done
  }

  /** Done was delivered and is neither read nor waiting. */
  ghost predicate Starved(l: Delivery.Lane) {
    && l.handler == Delivery.Reading && l.queue.Some? && (forall x :: x in l.queue.value ==> !x.done)
    && l.delivered != [] && l.delivered[|l.delivered| - 1].done
  }

  function Received(l: Delivery.Lane, tok: TokenEvent): Delivery.Lane
    requires Delivery.Published(l) && l.wire == []
  {
    Delivery.Apply(Delivery.Apply(l, Delivery.Send(tok)), Delivery.Deliver)
  }

  lemma FillOne(l: Delivery.Lane, k: nat, tok: TokenEvent)
    requires Filled(l, k)
    ensures !tok.done ==> Filled(Received(l, tok), k + 1)
    ensures tok.done && k >= QUEUE_CAPACITY ==> Starved(Received(l, tok))
  {
    assert Delivery.Apply(l, Delivery.Send(tok)).wire == [tok];
  }

  // ---------------------------------------------------------------- the whole path, one event at a time

  /** The producer of `id` is about to write its k-th event, and all the others have been delivered. */
  ghost predicate Primed(t: State, id: Id, k: nat) {
    && id in t.p.plan.jobs && id in t.p.plan.streamHome && id in t.p.prods && id in t.lanes
    && t.p.prods[id] == Producers.Writing(k, false)
    && Caught(t.r, t.p.plan.streamHome[id], 0) && Free(t.r, id) && Filled(t.lanes[id], k)
  }

  lemma StreamWritten(t: State, id: Id, k: nat)
    requires Producers.Shape(t.p) && Wired(t) && Primed(t, id, k)
    ensures Enabled(t, WriteStream(id))
    ensures var t' := Apply(t, WriteStream(id));
            var p := t.p.plan.streamHome[id];
            && Producers.Shape(t'.p) && t'.p.prods == t.p.prods[id := Producers.Writing(k, true)]
            && Caught(t'.r, p, 1) && t'.r.b.logs[p][t'.r.w.off[p]] == View(Producers.Event(t.p.plan.jobs[id], k))
            && Free(t'.r, id)
            && t'.lanes == t.lanes && t'.p.plan == t.p.plan
  {
    WriterCanStream(t, id);
    Producers.StreamMoves(t.p, id);
  }

  lemma PersistWritten(t: State, id: Id, k: nat)
    requires Producers.Shape(t.p) && id in t.p.plan.jobs && t.p.prods[id] == Producers.Writing(k, true)
    ensures Enabled(t, WritePersist(id))
    ensures var t' := Apply(t, WritePersist(id));
            t'.r == t.r && t'.lanes == t.lanes && t'.p.plan == t.p.plan &&
                t'.p.prods == t.p.prods[id := Producers.Next(t.p.plan.jobs[id], k)]
  {
    WriterCanPersist(t, id);
  }

  lemma Delivered(t: State, id: Id, k: nat, c: nat, tok: TokenEvent)
    requires id in t.lanes && Filled(t.lanes[id], k) && Carrying(t.r, c, tok) && tok.requestID == id
    ensures Enabled(t, Execute(c, id)) && Enabled(Apply(t, Execute(c, id)), Handle(id, Delivery.Deliver))
    ensures var t' := Apply(Apply(t, Execute(c, id)), Handle(id, Delivery.Deliver));
            && t'.lanes == t.lanes[id := Received(t.lanes[id], tok)] && t'.p == t.p
            && t'.r.b == t.r.b && t'.r.w == t.r.w && (!tok.done ==> Free(t'.r, id))
  {
    var t1 := Apply(t, Execute(c, id));
    assert t1.lanes[id] == Delivery.Apply(t.lanes[id], Delivery.Send(tok));
    assert Apply(t1, Handle(id, Delivery.Deliver)).lanes == t.lanes[id := Received(t.lanes[id], tok)];
  }

  /** The k-th event of `id`, as the worker sees it. */
  function NextToken(t: State, id: Id, k: nat): TokenEvent
    requires id in t.p.plan.jobs
  {
    View(Producers.Event(t.p.plan.jobs[id], k))
  }

  /** The event is written to both logs. */
  lemma BothWritten(s: State, run: seq<Step>, t: State, id: Id, k: nat) returns (run': seq<Step>, t': State)
    requires Legal(s, run) && t == After(s, run) && Producers.Shape(t.p) && Wired(t) && Primed(t, id, k)
    ensures Legal(s, run') && t' == After(s, run')
    ensures t'.lanes == t.lanes && t'.p.plan == t.p.plan
    ensures t'.p.prods == t.p.prods[id := Producers.Next(t.p.plan.jobs[id], k)]
    ensures var p := t.p.plan.streamHome[id];
            Caught(t'.r, p, 1) && t'.r.b.logs[p][t'.r.w.off[p]] == NextToken(t, id, k) && Free(t'.r, id)
  {
    StreamWritten(t, id, k);
    run' := Go(s, run, t, WriteStream(id));
    var t1 := Apply(t, WriteStream(id));
    PersistWritten(t1, id, k);
    run' := Go(s, run', t1, WritePersist(id));
    t' := Apply(t1, WritePersist(id));
    assert t'.p.prods == t.p.prods[id := Producers.Next(t.p.plan.jobs[id], k)];
  }

  /** The event is written to both logs and routed to a processor. */
  lemma PumpIn(s: State, run: seq<Step>, t: State, id: Id, k: nat) returns (run': seq<Step>, t': State, c: nat)
    requires Legal(s, run) && t == After(s, run) && Producers.Shape(t.p) && Wired(t) && Primed(t, id, k)
    ensures Legal(s, run') && t' == After(s, run')
    ensures t'.lanes == t.lanes && t'.p.plan == t.p.plan
    ensures t'.p.prods == t.p.prods[id := Producers.Next(t.p.plan.jobs[id], k)]
    ensures Caught(t'.r, t.p.plan.streamHome[id], 0) && Carrying(t'.r, c, NextToken(t, id, k))
  {
    var written, t2 := BothWritten(s, run, t, id, k);
    var steps;
    c, steps := RoutedThrough(t2.r, t.p.plan.streamHome[id], NextToken(t, id, k));
    run' := Lift(s, written, t2, steps);
    t' := t2.(r := Streaming.After(t2.r, steps));
  }

  /** One event is written, routed, executed and delivered before anything else happens. */
  lemma Pump(s: State, run: seq<Step>, t: State, id: Id, k: nat) returns (run': seq<Step>)
    requires Legal(s, run) && t == After(s, run) && Producers.Shape(t.p) && Wired(t) && Primed(t, id, k)
    requires k <= |t.p.plan.jobs[id].deltas|
    ensures Legal(s, run')
    ensures k < |t.p.plan.jobs[id].deltas| ==> Primed(After(s, run'), id, k + 1)
    ensures k == |t.p.plan.jobs[id].deltas| >= QUEUE_CAPACITY ==>
              id in After(s, run').lanes && Starved(After(s, run').lanes[id])
  {
    var tok, t1, c := NextToken(t, id, k), t, 0;
    assert tok.requestID == id;
    run', t1, c := PumpIn(s, run, t, id, k);
    Delivered(t1, id, k, c, tok);
    run' := Go(s, run', t1, Execute(c, id));
    run' := Go(s, run', Apply(t1, Execute(c, id)), Handle(id, Delivery.Deliver));
    FillOne(t.lanes[id], k, tok);
  }

  lemma Opened(s: State, id: Id)
    requires Init(s) && id in s.p.plan.jobs
    ensures var t3 := OnLane3(s, id);
            && Enabled(t3, FetchRequest(id)) && Enabled(Apply(t3, FetchRequest(id)), StartRequest(id))
            && Primed(Apply(Apply(t3, FetchRequest(id)), StartRequest(id)), id, 0)
  {
  }

  /** After the handler of `id` has published its request. */
  function OnLane3(s: State, id: Id): State
    requires LaneEnabled(s, id, Delivery.Register)
  {
    var t1 := Apply(s, Handle(id, Delivery.Register));
    var t2 := Apply(t1, Handle(id, Delivery.Announce));
    Apply(t2, Step.Publish(id))
  }

  lemma Prologue(s: State, id: Id) returns (run: seq<Step>)
    requires Init(s) && id in s.p.plan.jobs
    ensures Legal(s, run) && Primed(After(s, run), id, 0)
  {
    Opened(s, id);
    run := Go(s, [], s, Handle(id, Delivery.Register));
    var t := Apply(s, Handle(id, Delivery.Register));
    run := Go(s, run, t, Handle(id, Delivery.Announce));
    t := Apply(t, Handle(id, Delivery.Announce));
    run := Go(s, run, t, Step.Publish(id));
    t := OnLane3(s, id);
    run := Go(s, run, t, FetchRequest(id));
    run := Go(s, run, Apply(t, FetchRequest(id)), StartRequest(id));
  }

  lemma RunInv(s: State, run: seq<Step>)
    requires Init(s) && Legal(s, run)
    ensures Inv(After(s, run)) && After(s, run).p.plan == s.p.plan
  {
    InvInitially(s);
    InvAlongRun(s, run);
    PlanKept(s, run);
  }

  lemma PumpNext(s: State, run: seq<Step>, id: Id, k: nat) returns (run': seq<Step>)
    requires Init(s) && Legal(s, run) && id in s.p.plan.jobs && k < |s.p.plan.jobs[id].deltas|
    requires Primed(After(s, run), id, k)
    ensures Legal(s, run') && Primed(After(s, run'), id, k + 1)
  {
    RunInv(s, run);
    run' := Pump(s, run, After(s, run), id, k);
  }

  /** The first `k` events of `id` pass through while its handler reads nothing. */
  lemma {:induction false} Flooded(s: State, id: Id, k: nat) returns (run: seq<Step>)
    requires Init(s) && id in s.p.plan.jobs && k <= |s.p.plan.jobs[id].deltas|
    ensures Legal(s, run) && Primed(After(s, run), id, k)
  {
    if k == 0 {
      run := Prologue(s, id);
    } else {
      var before := Flooded(s, id, k - 1);
      run := PumpNext(s, before, id, k - 1);
    }
  }

  lemma FloodedToTheEnd(s: State, id: Id) returns (run: seq<Step>)
    requires Init(s) && id in s.p.plan.jobs && !Short(s.p.plan.jobs[id])
    ensures Legal(s, run) && id in After(s, run).lanes && Starved(After(s, run).lanes[id])
  {
    var n := |s.p.plan.jobs[id].deltas|;
    run := Flooded(s, id, n);
    RunInv(s, run);
    run := Pump(s, run, After(s, run), id, n);
  }

  // ---------------------------------------------------------------- and it stays that way

  lemma DeliveredWithinEvents(t: State, id: Id)
    requires Inv(t) && id in t.lanes
    ensures id in t.p.plan.jobs && Prefix(t.lanes[id].delivered, Views(Producers.Events(t.p.plan.jobs[id])))
  {
    SentWithinLog(t, id);
    LogIsStream(t, id);
    PrefixTransitive(t.lanes[id].delivered, Log(t, id), Views(Producers.Events(t.p.plan.jobs[id])));
  }

  lemma NothingFollowsDone(l: Delivery.Lane, es: seq<TokenEvent>)
    requires Starved(l) && Prefix(l.delivered, es) && DoneLast(es)
    ensures |l.delivered| == |es|
  {
    assert es[|l.delivered| - 1].done;
  }

  /** Nothing follows Done, so nothing more is delivered, and what is read is not Done. */
  lemma StarvedLane(l: Delivery.Lane, move: Delivery.Step, es: seq<TokenEvent>)
    requires Starved(l) && Delivery.Enabled(l, move) && !move.Depart? && !move.Publish?
    requires Prefix(l.delivered, es) && DoneLast(es) && |Delivery.Apply(l, move).delivered| <= |es|
    ensures Starved(Delivery.Apply(l, move))
  {
    NothingFollowsDone(l, es);
    if move.Read? {
      assert l.queue.value[0] in l.queue.value;
    }
  }

  lemma StarvedStep(s: State, step: Step, id: Id, es: seq<TokenEvent>)
    requires id in s.lanes && Starved(s.lanes[id]) && Enabled(s, step) && Prefix(s.lanes[id].delivered, es)
    requires DoneLast(es)
    requires id in Apply(s, step).lanes && |Apply(s, step).lanes[id].delivered| <= |es|
    ensures Starved(Apply(s, step).lanes[id])
  {
    match step
    case Handle(q, move) => if q == id { StarvedLane(s.lanes[id], move, es); }
    case Execute(c, q) => if q == id { StarvedLane(s.lanes[id], Delivery.Send(s.r.gens[c].proc.tok), es); }
    case Publish(q) =>
    case _ => assert Apply(s, step).lanes == s.lanes;
  }

  lemma StarvedKept(s: State, step: Step, id: Id)
    requires Inv(s) && id in s.lanes && Starved(s.lanes[id]) && Enabled(s, step)
    ensures id in Apply(s, step).lanes && Starved(Apply(s, step).lanes[id])
  {
    InvKept(s, step);
    PlanStays(s, step);
    DeliveredWithinEvents(s, id);
    DeliveredWithinEvents(Apply(s, step), id);
    EndsInDone(s.p.plan.jobs[id]);
    StarvedStep(s, step, id, Views(Producers.Events(s.p.plan.jobs[id])));
  }

  lemma {:induction false} StarvedAlongRun(s: State, run: seq<Step>, id: Id)
    requires Inv(s) && id in s.lanes && Starved(s.lanes[id]) && Legal(s, run)
    ensures id in After(s, run).lanes && Starved(After(s, run).lanes[id])
    decreases |run|
  {
    if run != [] {
      StarvedKept(s, run[0], id);
      InvKept(s, run[0]);
      StarvedAlongRun(Apply(s, run[0]), run[1..], id);
    }
  }

  lemma {:induction false} Join(s: State, a: seq<Step>, b: seq<Step>)
    requires Legal(s, a) && Legal(After(s, a), b)
    ensures Legal(s, a + b) && After(s, a + b) == After(After(s, a), b)
    decreases |a|
  {
    if a == [] {
      assert a + b == b;
    } else {
      assert (a + b)[1..] == a[1..] + b;
      Join(Apply(s, a[0]), a[1..], b);
    }
  }

  /** A request of more than 1000 events can end with its handler waiting for a Done that was dropped. */
  lemma LongRequestMayStarve(s: State, id: Id) returns (run: seq<Step>)
    requires Init(s) && id in s.p.plan.jobs && !Short(s.p.plan.jobs[id])
    ensures Legal(s, run) && Stopped(After(s, run))
    ensures id in After(s, run).lanes && After(s, run).lanes[id].handler == Delivery.Reading
  {
    var flood := FloodedToTheEnd(s, id);
    RunInv(s, flood);
    var rest := EveryRunCompletes(After(s, flood), []);
    StarvedAlongRun(After(s, flood), rest, id);
    Join(s, flood, rest);
    run := flood + rest;
  }

  /** The client of `id` has read every event and its handler is gone. */
  ghost predicate Complete(t: State, id: Id) {
    && id in t.lanes && id in t.p.plan.jobs
    && t.lanes[id].handler == Delivery.Gone && t.lanes[id].chunks == Views(Producers.Events(t.p.plan.jobs[id]))
  }

  ghost predicate ServedForSure(s: State, id: Id) {
    forall run :: Legal(s, run) && Stopped(After(s, run)) ==> Complete(After(s, run), id)
  }

  /** Every run that comes to an end serves a request completely, if and only if the request has at most 1000 events. */
  lemma ServedForSureIffShort(s: State, id: Id)
    requires Init(s) && id in s.p.plan.jobs
    ensures ServedForSure(s, id) <==> Short(s.p.plan.jobs[id])
  {
    if Short(s.p.plan.jobs[id]) {
      forall run | Legal(s, run) && Stopped(After(s, run)) ensures Complete(After(s, run), id) {
        StoppedIsServed(s, run, After(s, run), id);
      }
    } else {
      var run := LongRequestMayStarve(s, id);
      assert !Complete(After(s, run), id);
    }
  }
}
