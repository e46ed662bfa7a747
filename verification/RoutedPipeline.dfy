/**
 The whole streaming path with the way its tokens find their instance: a token is executed by a call that
 looks its address up, opens a stream and sends over it, while everything else goes on. Nothing here lets
 a call wait for a publication: that the request was published is what the producers guarantee.
 */
module RoutedPipeline {
  import opened Types
  import Producers = ProducerMachine
  import Streaming = StreamingMachine
  import StreamingInvariant
  import Delivery = DeliveryMachine
  import Pipeline
  import PipelineInvariant
  import PipelineTheorems
  import Progress
  import Routing = AddressMachine
  import Instances

  /** `home` is the address of the instance that handles a request; a token sent anywhere else is stray. */
  datatype State = State(
    x: Pipeline.State, a: Routing.State, home: map<Id, Routing.Addr>, stray: seq<Routing.Sent>)

  datatype Step =
    | Path(step: Pipeline.Step)   // any step of the path but `Execute`
    | Begin(c: nat)               // processor `c` calls `Execute` with the token it has taken
    | Act(id: Id)                 // the next action of the call for `id`

  ghost predicate Init(s: State) {
    Pipeline.Init(s.x) && Routing.Init(s.a) && s.home.Keys == s.x.p.plan.jobs.Keys && s.stray == []
  }

  /** The handler stores its instance's address. */
  predicate Announces(step: Pipeline.Step) {
    step.Handle? && step.step.Announce?
  }

  predicate Deletes(step: Pipeline.Step) {
    step.Route? && step.move.Delete?
  }

  /** A processor deletes its entry only when its call has returned. */
  predicate Enabled(s: State, step: Step) {
    match step
    case Path(step) =>
      && !step.Execute? && Pipeline.Enabled(s.x, step)
      && (Announces(step) ==> step.id in s.home && Routing.Enabled(s.a, Routing.SetCallback(step.id, s.home[step.id])))
      && (Deletes(step) ==> s.x.r.gens[step.move.c].req !in s.a.calls)
    case Begin(c) =>
      && Streaming.Enabled(s.x.r, Streaming.Finish(c))
      && Routing.Enabled(s.a, Routing.Begin(s.x.r.gens[c].proc.tok.requestID, s.x.r.gens[c].proc.tok))
    case Act(id) => Routing.Enabled(s.a, Routing.Advance(id, true))
  }

  /** The processor of request `id` is executing `tok`, and the way is free for it. */
  predicate Executing(x: Pipeline.State, id: Id, tok: TokenEvent) {
    && id in x.r.w.channels && Pipeline.Enabled(x, Pipeline.Execute(x.r.w.channels[id], id))
    && x.r.gens[x.r.w.channels[id]].proc.tok == tok
  }

  /** The connection leads to one instance; only the request's own has a lane for the token. */
  function Land(s: State, m: Routing.Sent): State {
    if Executing(s.x, m.id, m.tok) && m.id in s.home && s.home[m.id] == m.addr then
      s.(x := Pipeline.Apply(s.x, Pipeline.Execute(s.x.r.w.channels[m.id], m.id)))
    else s.(stray := s.stray + [m])
  }

  function Apply(s: State, step: Step): State
    requires Enabled(s, step)
  {
    match step
    case Path(step) =>
      s.(x := Pipeline.Apply(s.x, step),
         a := if Announces(step) then Routing.Apply(s.a, Routing.SetCallback(step.id, s.home[step.id])) else s.a)
    case Begin(c) =>
      var tok := s.x.r.gens[c].proc.tok;
      s.(a := Routing.Apply(s.a, Routing.Begin(tok.requestID, tok)))
    case Act(id) =>
      var s' := s.(a := Routing.Apply(s.a, Routing.Advance(id, true)));
      if Instances.Sends(s.a, Routing.Advance(id, true)) then Land(s', Instances.SentBy(s.a, id)) else s'
  }

  ghost predicate Legal(s: State, run: seq<Step>)
    decreases |run|
  {
    run == [] || (Enabled(s, run[0]) && Legal(Apply(s, run[0]), run[1..]))
  }

  ghost function After(s: State, run: seq<Step>): State
    requires Legal(s, run)
    decreases |run|
  {
    if run == [] then s else After(Apply(s, run[0]), run[1..])
  }

  // ---------------------------------------------------------------- published before it is executed

  /** A token in a processor's hands was written by its producer, which began after the request was published. */
  lemma BusyIsPublished(x: Pipeline.State, id: Id)
    requires PipelineInvariant.Inv(x) && PipelineInvariant.Busy(x.r, id) != []
    ensures id in x.lanes && Delivery.Published(x.lanes[id])
  {
    BusyIsKnown(x, id);
    PipelineTheorems.DoneLastEverywhere(x);
    PipelineTheorems.LogIsStream(x, id);
    PipelineTheorems.ExecutedWithinLog(x.r, id);
    assert x.lanes[id].sent + PipelineInvariant.Busy(x.r, id) == Of(id, x.r.h.started);
    assert PipelineTheorems.Log(x, id) != [];
    WrittenIsBegun(x.p, id);
    assert PipelineInvariant.Begun(x, id);
  }

  lemma BusyIsKnown(x: Pipeline.State, id: Id)
    requires PipelineInvariant.Inv(x) && PipelineInvariant.Busy(x.r, id) != []
    ensures id in x.p.plan.jobs && id in x.lanes && id in x.r.b.home
  {
    var c := x.r.w.channels[id];
    assert StreamingInvariant.Mapped(x.r) && x.r.gens[c].req == id;
    assert StreamingInvariant.Known(x.r) && x.r.gens[c].req in x.r.b.home;
  }

  lemma WrittenIsBegun(p: Producers.State, id: Id)
    requires Producers.Inv(p) && id in p.plan.jobs && Producers.StreamOf(p, id) != []
    ensures p.prods[id] != Producers.Idle
  {
    assert Producers.At(p.plan.jobs[id], p.prods[id], Producers.StreamOf(p, id), Producers.PersistOf(p, id));
  }

  /** A processor that executes a token finds its request published and the lane ready. */
  lemma BusyCanExecute(x: Pipeline.State, id: Id, tok: TokenEvent)
    requires PipelineInvariant.Inv(x) && PipelineInvariant.Busy(x.r, id) == [tok]
    ensures Executing(x, id, tok)
  {
    BusyIsPublished(x, id);
    Progress.ExecutingCanSend(x, x.r.w.channels[id]);
  }

  /** Every token in a processor's hands can be sent: its request is published and its lane is there. */
  ghost predicate Unhindered(x: Pipeline.State) {
    && StreamingInvariant.Mapped(x.r) && StreamingInvariant.Queued(x.r)
    && forall id :: PipelineInvariant.Busy(x.r, id) != [] ==> Executing(x, id, PipelineInvariant.Busy(x.r, id)[0])
  }

  lemma PathIsUnhindered(x: Pipeline.State)
    requires PipelineInvariant.Inv(x)
    ensures Unhindered(x)
  {
    forall id | PipelineInvariant.Busy(x.r, id) != []
      ensures Executing(x, id, PipelineInvariant.Busy(x.r, id)[0])
    {
      BusyCanExecute(x, id, PipelineInvariant.Busy(x.r, id)[0]);
    }
  }

  lemma ExecutingIsBusy(x: Pipeline.State, c: nat)
    requires StreamingInvariant.Mapped(x.r) && StreamingInvariant.Queued(x.r)
    requires Streaming.Enabled(x.r, Streaming.Finish(c))
    ensures x.r.gens[c].proc.tok.requestID == x.r.gens[c].req
    ensures PipelineInvariant.Busy(x.r, x.r.gens[c].req) == [x.r.gens[c].proc.tok]
  {
    assert StreamingInvariant.Fifo(x.r.gens[c]);
    assert x.r.gens[c].proc.tok in x.r.gens[c].routed;
  }

  // ---------------------------------------------------------------- the invariant

  /** The call has not sent its token yet. */
  predicate Underway(at: Routing.Place) {
    !at.DropStream? && !at.DropAddr?
  }

  predicate Announced(l: Delivery.Lane) {
    l.handler != Delivery.Unborn && l.handler != Delivery.Registered
  }

  /** The store holds the address of exactly the announced requests, each its own instance's. */
  ghost predicate Addressed(s: State) {
    && s.home.Keys == s.x.lanes.Keys && s.a.store.live == s.a.store.registered
    && (forall id :: id in s.a.store.registered ==> id in s.home && s.a.store.registered[id] == s.home[id])
    && (forall id :: id in s.a.store.registered <==> id in s.x.lanes && Announced(s.x.lanes[id]))
  }

  /** A call that has not sent carries the token its request's processor is executing. */
  ghost predicate Called(s: State) {
    forall id :: id in s.a.calls ==>
      && id in s.x.lanes
      && (Underway(s.a.calls[id].at) ==> PipelineInvariant.Busy(s.x.r, id) == [s.a.calls[id].tok])
  }

  ghost predicate Arrived(s: State) {
    && s.stray == []
    && (forall m :: m in s.a.sent ==> m.id in s.x.lanes)
    && (forall id :: id in s.x.lanes ==> s.x.lanes[id].sent == Instances.TokensOf(s.a.sent, id))
  }

  /** What holds between the calls and the path. */
  ghost predicate Matched(s: State) {
    Routing.Inv(s.a) && Addressed(s) && Called(s) && Arrived(s)
  }

  ghost predicate Inv(s: State) {
    PipelineInvariant.Inv(s.x) && Matched(s)
  }

  lemma MatchedInitially(s: State)
    requires Routing.Init(s.a) && s.home.Keys == s.x.lanes.Keys && s.stray == []
    requires forall id :: id in s.x.lanes ==> s.x.lanes[id] == Delivery.FRESH
    ensures Matched(s)
  {
  }

  lemma InvInitially(s: State)
    requires Init(s)
    ensures Inv(s)
  {
    PipelineInvariant.LanesInitially(s.x);
    MatchedInitially(s);
    PipelineInvariant.InvInitially(s.x);
  }

  // ---------------------------------------------------------------- steps of the path

  /** What a step of the path other than `Execute` does to the lanes. */
  lemma LanesOf(x: Pipeline.State, step: Pipeline.Step)
    requires Pipeline.Enabled(x, step) && !step.Execute?
    ensures var x' := Pipeline.Apply(x, step);
            && x'.lanes.Keys == x.lanes.Keys
            && forall id :: id in x.lanes ==>
                 && x'.lanes[id].sent == x.lanes[id].sent
                 && (Announced(x'.lanes[id]) <==> Announced(x.lanes[id]) || (Announces(step) && step.id == id))
  {
    match step
    case Handle(id, move) =>
    case Publish(id) =>
    case Execute(c, id) =>
    case _ => assert Pipeline.Apply(x, step).lanes == x.lanes;
  }

  lemma AddressedPath(s: State, step: Pipeline.Step)
    requires Addressed(s) && Enabled(s, Path(step))
    ensures Addressed(Apply(s, Path(step)))
  {
    LanesOf(s.x, step);
  }

  lemma ArrivedPath(s: State, step: Pipeline.Step)
    requires Arrived(s) && Enabled(s, Path(step))
    ensures Arrived(Apply(s, Path(step)))
  {
    LanesOf(s.x, step);
  }

  /** A processor in the middle of a call stays there. */
  lemma BusyRoute(r: Streaming.State, move: Streaming.Step, id: Id)
    requires StreamingInvariant.Mapped(r) && Streaming.Enabled(r, move) && Pipeline.Routing(move)
    requires PipelineInvariant.Busy(r, id) != []
    ensures PipelineInvariant.Busy(Streaming.Apply(r, move), id) == PipelineInvariant.Busy(r, id)
  {
    var r' := Streaming.Apply(r, move);
    match move
    case Lookup => PipelineInvariant.BusyLookup(r);
    case Delete(c) => PipelineInvariant.BusyDelete(r, c);
    case Take(c) => assert r.w.channels[id] != c;
    case Fetch(p) => PipelineInvariant.BusyFrame(r, r');
    case Push => PipelineInvariant.BusyFrame(r, r');
    case _ =>
  }

  lemma BusyPath(x: Pipeline.State, step: Pipeline.Step, id: Id)
    requires StreamingInvariant.Mapped(x.r) && Pipeline.Enabled(x, step) && !step.Execute?
    requires PipelineInvariant.Busy(x.r, id) != []
    ensures PipelineInvariant.Busy(Pipeline.Apply(x, step).r, id) == PipelineInvariant.Busy(x.r, id)
  {
    match step
    case Route(move) => BusyRoute(x.r, move, id);
    case WriteStream(q) => PipelineInvariant.BusyFrame(x.r, Pipeline.Apply(x, step).r);
    case Execute(c, q) =>
    case _ => assert Pipeline.Apply(x, step).r == x.r;
  }

  lemma CalledPath(s: State, step: Pipeline.Step)
    requires StreamingInvariant.Mapped(s.x.r) && Called(s) && Enabled(s, Path(step))
    ensures Called(Apply(s, Path(step)))
  {
    var s' := Apply(s, Path(step));
    LanesOf(s.x, step);
    assert s'.a.calls == s.a.calls;
    forall id | id in s'.a.calls && Underway(s'.a.calls[id].at)
      ensures PipelineInvariant.Busy(s'.x.r, id) == [s'.a.calls[id].tok]
    {
      BusyPath(s.x, step, id);
    }
  }

  lemma PathKeeps(s: State, step: Pipeline.Step)
    requires StreamingInvariant.Mapped(s.x.r) && Matched(s) && Enabled(s, Path(step))
    ensures Matched(Apply(s, Path(step)))
  {
    AddressedPath(s, step);
    CalledPath(s, step);
    ArrivedPath(s, step);
    if Announces(step) { Routing.InvKept(s.a, Routing.SetCallback(step.id, s.home[step.id])); }
  }

  // ---------------------------------------------------------------- calls

  lemma CalledBegin(s: State, s': State, c: nat)
    requires Unhindered(s.x) && Called(s) && Enabled(s, Begin(c)) && s' == Apply(s, Begin(c))
    ensures Called(s')
  {
    ExecutingIsBusy(s.x, c);
    assert Executing(s.x, s.x.r.gens[c].proc.tok.requestID, s.x.r.gens[c].proc.tok);
  }

  lemma BeginLeaves(s: State, s': State, c: nat)
    requires Addressed(s) && Arrived(s) && Enabled(s, Begin(c)) && s' == Apply(s, Begin(c))
    ensures Addressed(s') && Arrived(s')
  {
  }

  lemma BeginKeeps(s: State, c: nat)
    requires Unhindered(s.x) && Matched(s) && Enabled(s, Begin(c))
    ensures Matched(Apply(s, Begin(c)))
  {
    var tok := s.x.r.gens[c].proc.tok;
    Routing.InvKept(s.a, Routing.Begin(tok.requestID, tok));
    CalledBegin(s, Apply(s, Begin(c)), c);
    BeginLeaves(s, Apply(s, Begin(c)), c);
  }

  /** What an action does to the calls: its own keeps its token, and does not come back from its send. */
  lemma CallsOf(a: Routing.State, id: Id)
    requires Routing.Enabled(a, Routing.Advance(id, true))
    ensures var a' := Routing.Apply(a, Routing.Advance(id, true));
            && a'.store == a.store
            && a'.sent == (if a.calls[id].at.SendToken? then a.sent + [Instances.SentBy(a, id)] else a.sent)
            && (forall q :: q in a'.calls ==> q in a.calls && (q != id ==> a'.calls[q] == a.calls[q]))
            && (id in a'.calls ==> a'.calls[id].tok == a.calls[id].tok)
            && (id in a'.calls && Underway(a'.calls[id].at) ==>
                  Underway(a.calls[id].at) && !a.calls[id].at.SendToken?)
  {
  }

  lemma QuietActKeeps(s: State, id: Id)
    requires Addressed(s) && Called(s) && Arrived(s) && Enabled(s, Act(id)) && !s.a.calls[id].at.SendToken?
    ensures Addressed(Apply(s, Act(id))) && Called(Apply(s, Act(id))) && Arrived(Apply(s, Act(id)))
    ensures Apply(s, Act(id)).x == s.x
  {
    CallsOf(s.a, id);
  }

  /** The token goes to the instance whose handler waits for it. */
  lemma SendLands(s: State, id: Id)
    requires Unhindered(s.x) && Matched(s) && Enabled(s, Act(id)) && s.a.calls[id].at.SendToken?
    ensures Executing(s.x, id, s.a.calls[id].tok) && id in s.home && s.home[id] == s.a.calls[id].at.conn.addr
  {
    assert Routing.Sane(s.a, id, s.a.calls[id].at);
    assert PipelineInvariant.Busy(s.x.r, id) == [s.a.calls[id].tok];
  }

  lemma BusyOthers(x: Pipeline.State, c: nat, id: Id)
    requires StreamingInvariant.Mapped(x.r) && StreamingInvariant.Queued(x.r)
    requires Pipeline.Enabled(x, Pipeline.Execute(c, id))
    ensures var x' := Pipeline.Apply(x, Pipeline.Execute(c, id));
            forall q :: q != id ==> PipelineInvariant.Busy(x'.r, q) == PipelineInvariant.Busy(x.r, q)
  {
    PipelineInvariant.BusyFinish(x.r, c);
    ExecutingIsBusy(x, c);
  }

  /** The lanes after an `Execute`: the token is on its way on its own lane. */
  lemma ExecuteSends(x: Pipeline.State, c: nat, id: Id)
    requires Pipeline.Enabled(x, Pipeline.Execute(c, id))
    ensures var x', l := Pipeline.Apply(x, Pipeline.Execute(c, id)), x.lanes[id];
            && x'.lanes == x.lanes[id := Delivery.Apply(l, Delivery.Send(x.r.gens[c].proc.tok))]
            && x'.lanes[id].sent == l.sent + [x.r.gens[c].proc.tok] && x'.lanes[id].handler == l.handler
  {
  }

  lemma ArrivedSend(s: State, s': State, m: Routing.Sent)
    requires Arrived(s) && s'.stray == s.stray && s'.a.sent == s.a.sent + [m] && m.id in s.x.lanes
    requires m.id in s'.x.lanes && s'.x.lanes == s.x.lanes[m.id := s'.x.lanes[m.id]]
    requires s'.x.lanes[m.id].sent == s.x.lanes[m.id].sent + [m.tok]
    ensures Arrived(s')
  {
    forall id | id in s'.x.lanes ensures s'.x.lanes[id].sent == Instances.TokensOf(s'.a.sent, id) {
      Instances.TokensOfSnoc(s.a.sent, m, id);
    }
  }

  lemma SendMoves(s: State, id: Id)
    requires Unhindered(s.x) && Matched(s) && Enabled(s, Act(id)) && s.a.calls[id].at.SendToken?
    ensures id in s.x.r.w.channels && Pipeline.Enabled(s.x, Pipeline.Execute(s.x.r.w.channels[id], id))
    ensures s.x.r.gens[s.x.r.w.channels[id]].proc.tok == s.a.calls[id].tok
    ensures Apply(s, Act(id)) == s.(a := Routing.Apply(s.a, Routing.Advance(id, true)),
        x := Pipeline.Apply(s.x, Pipeline.Execute(s.x.r.w.channels[id], id)))
  {
    SendLands(s, id);
  }

  lemma CalledSend(s: State, s': State, id: Id)
    requires Called(s) && Enabled(s, Act(id)) && s.a.calls[id].at.SendToken?
    requires s'.a == Routing.Apply(s.a, Routing.Advance(id, true)) && s'.x.lanes.Keys == s.x.lanes.Keys
    requires forall q :: q != id ==> PipelineInvariant.Busy(s'.x.r, q) == PipelineInvariant.Busy(s.x.r, q)
    ensures Called(s')
  {
    CallsOf(s.a, id);
  }

  lemma AddressedSend(s: State, s': State, id: Id)
    requires Addressed(s) && s'.home == s.home && s'.a.store == s.a.store && id in s.x.lanes && id in s'.x.lanes
    requires s'.x.lanes == s.x.lanes[id := s'.x.lanes[id]] && s'.x.lanes[id].handler == s.x.lanes[id].handler
    ensures Addressed(s')
  {
  }

  lemma SendKeeps(s: State, s': State, id: Id)
    requires Unhindered(s.x) && Matched(s) && Enabled(s, Act(id)) && s.a.calls[id].at.SendToken?
    requires s' == Apply(s, Act(id))
    ensures Addressed(s') && Called(s') && Arrived(s')
  {
    SendMoves(s, id);
    var c := s.x.r.w.channels[id];
    CallsOf(s.a, id);
    BusyOthers(s.x, c, id);
    ExecuteSends(s.x, c, id);
    CalledSend(s, s', id);
    AddressedSend(s, s', id);
    ArrivedSend(s, s', Instances.SentBy(s.a, id));
  }

  lemma ActKeeps(s: State, id: Id)
    requires Unhindered(s.x) && Matched(s) && Enabled(s, Act(id))
    ensures Matched(Apply(s, Act(id)))
  {
    Routing.InvKept(s.a, Routing.Advance(id, true));
    if s.a.calls[id].at.SendToken? {
      SendMoves(s, id);
      SendKeeps(s, Apply(s, Act(id)), id);
    } else {
      QuietActKeeps(s, id);
    }
  }

  lemma MatchedKept(s: State, step: Step)
    requires Unhindered(s.x) && Matched(s) && Enabled(s, step)
    ensures Matched(Apply(s, step))
  {
    match step
    case Path(step) => PathKeeps(s, step);
    case Begin(c) => BeginKeeps(s, c);
    case Act(id) => ActKeeps(s, id);
  }

  // ---------------------------------------------------------------- whole runs

  /** The step of the path that a step of the composition is: a call's send is the path's `Execute`. */
  lemma StepRefines(s: State, step: Step) returns (path: seq<Pipeline.Step>)
    requires Unhindered(s.x) && Matched(s) && Enabled(s, step)
    ensures |path| <= 1 && Pipeline.Legal(s.x, path) && Pipeline.After(s.x, path) == Apply(s, step).x
    ensures (path != [] && path[0].Execute?) <==> (step.Act? && s.a.calls[step.id].at.SendToken?)
  {
    path := [];
    match step
    case Path(move) =>
      path := [move];
      assert path[1..] == [];
    case Begin(c) =>
    case Act(id) =>
      if s.a.calls[id].at.SendToken? {
        SendMoves(s, id);
        path := [Pipeline.Execute(s.x.r.w.channels[id], id)];
        assert path[1..] == [];
      }
  }

  lemma StepKeeps(s: State, step: Step) returns (path: seq<Pipeline.Step>)
    requires Unhindered(s.x) && Matched(s) && Enabled(s, step)
    ensures Matched(Apply(s, step)) && Apply(s, step).home == s.home
    ensures Pipeline.Legal(s.x, path) && Pipeline.After(s.x, path) == Apply(s, step).x && |path| <= 1
  {
    MatchedKept(s, step);
    path := StepRefines(s, step);
  }

  /** Every step keeps the path's invariant and what holds between calls and path. */
  lemma InvKept(s: State, step: Step) returns (path: seq<Pipeline.Step>)
    requires Inv(s) && Enabled(s, step)
    ensures Inv(Apply(s, step)) && Apply(s, step).home == s.home
    ensures Pipeline.Legal(s.x, path) && Pipeline.After(s.x, path) == Apply(s, step).x && |path| <= 1
  {
    PathIsUnhindered(s.x);
    path := StepKeeps(s, step);
    PipelineInvariant.InvAlongRun(s.x, path);
  }

  lemma JoinPath(x: Pipeline.State, a: seq<Pipeline.Step>, b: seq<Pipeline.Step>)
    requires Pipeline.Legal(x, a) && Pipeline.Legal(Pipeline.After(x, a), b) && |a| <= 1
    ensures Pipeline.Legal(x, a + b) && Pipeline.After(x, a + b) == Pipeline.After(Pipeline.After(x, a), b)
  {
    if a == [] {
      assert a + b == b;
    } else {
      assert a[1..] == [] && (a + b)[0] == a[0] && (a + b)[1..] == b;
      assert Pipeline.After(x, a) == Pipeline.Apply(x, a[0]);
    }
  }

  /** Every run is a run of the path in which calls are one step. */
  lemma {:induction false} RunRefines(s: State, run: seq<Step>) returns (path: seq<Pipeline.Step>)
    requires Inv(s) && Legal(s, run)
    ensures Inv(After(s, run)) && After(s, run).home == s.home
    ensures Pipeline.Legal(s.x, path) && Pipeline.After(s.x, path) == After(s, run).x
    decreases |run|
  {
    if run == [] {
      path := [];
    } else {
      var first := InvKept(s, run[0]);
      var rest := RunRefines(Apply(s, run[0]), run[1..]);
      JoinPath(s.x, first, rest);
      path := first + rest;
    }
  }

  ghost predicate Reachable(s: State, run: seq<Step>, t: State) {
    Init(s) && Legal(s, run) && t == After(s, run)
  }

  lemma ReachableFacts(s: State, run: seq<Step>, t: State) returns (path: seq<Pipeline.Step>)
    requires Reachable(s, run, t)
    ensures Unhindered(t.x) && Matched(t) && t.home == s.home
    ensures PipelineTheorems.Reachable(s.x, path, t.x)
  {
    InvInitially(s);
    path := RunRefines(s, run);
    PathIsUnhindered(t.x);
  }

  /**
   With any number of instances and any interleaving of lookups, dials and sends with the rest of the path,
   without failures: no token is stray, every token went to its own instance's address, each lane was sent its
   own tokens in order, and what the path did is a run of the path in which a call is one step.
   */
  lemma EveryTokenReachesItsHandler(s: State, run: seq<Step>, t: State) returns (path: seq<Pipeline.Step>)
    requires Reachable(s, run, t)
    ensures t.stray == [] && t.home == s.home
    ensures forall m :: m in t.a.sent ==> m.id in t.home && t.home[m.id] == m.addr
    ensures forall id :: id in t.x.lanes ==> t.x.lanes[id].sent == Instances.TokensOf(t.a.sent, id)
    ensures PipelineTheorems.Reachable(s.x, path, t.x)
  {
    path := ReachableFacts(s, run, t);
    forall m | m in t.a.sent ensures m.id in t.home && t.home[m.id] == m.addr {
      assert Routing.Registered(t.a, m.id, m.addr);
    }
  }

  lemma ReachableIsUnhindered(s: State, run: seq<Step>, t: State)
    requires Reachable(s, run, t)
    ensures Unhindered(t.x)
  {
    var path := ReachableFacts(s, run, t);
  }

  lemma BeginIsBusy(t: State, c: nat)
    requires StreamingInvariant.Mapped(t.x.r) && StreamingInvariant.Queued(t.x.r) && Enabled(t, Begin(c))
    ensures PipelineInvariant.Busy(t.x.r, t.x.r.gens[c].proc.tok.requestID) != []
  {
    ExecutingIsBusy(t.x, c);
  }

  lemma BusyMeansPublished(x: Pipeline.State, id: Id)
    requires Unhindered(x) && PipelineInvariant.Busy(x.r, id) != []
    ensures id in x.lanes && Delivery.Published(x.lanes[id])
  {
    assert Executing(x, id, PipelineInvariant.Busy(x.r, id)[0]);
  }

  /** A call begins only for a request that has been published, although nothing makes it wait for that. */
  lemma CallsFollowPublication(s: State, run: seq<Step>, t: State, c: nat)
    requires Reachable(s, run, t) && Enabled(t, Begin(c))
    ensures var id := t.x.r.gens[c].proc.tok.requestID;
            id in t.x.lanes && Delivery.Published(t.x.lanes[id])
  {
    ReachableIsUnhindered(s, run, t);
    BeginIsBusy(t, c);
    BusyMeansPublished(t.x, t.x.r.gens[c].proc.tok.requestID);
  }

  // ---------------------------------------------------------------- calls do not block

  lemma CallCanAct(s: State, id: Id)
    requires Unhindered(s.x) && Addressed(s) && Called(s) && id in s.a.calls
    ensures Enabled(s, Act(id))
  {
    if s.a.calls[id].at == Routing.AskStore {
      BusyMeansPublished(s.x, id);
      assert id in s.a.store.registered;
    }
  }

  lemma AnnounceCanStore(s: State, step: Pipeline.Step)
    requires Addressed(s) && Pipeline.Enabled(s.x, step) && Announces(step)
    ensures Enabled(s, Path(step))
  {
  }

  ghost predicate Stopped(t: State) {
    forall step :: !Enabled(t, step)
  }

  lemma NoCallLeft(t: State)
    requires Unhindered(t.x) && Addressed(t) && Called(t) && Stopped(t)
    ensures t.a.calls == map[]
  {
    forall id ensures id !in t.a.calls {
      if id in t.a.calls { CallCanAct(t, id); }
    }
  }

  /** Whatever the path could do, the path with its calls can. */
  lemma PathCanMove(t: State, step: Pipeline.Step)
    requires StreamingInvariant.Queued(t.x.r) && Addressed(t) && t.a.calls == map[] && Pipeline.Enabled(t.x, step)
    ensures if step.Execute? then Enabled(t, Begin(step.c)) else Enabled(t, Path(step))
  {
    if Announces(step) { AnnounceCanStore(t, step); }
  }

  /** When nothing can move, no call is unfinished and the path without calls could not move either. */
  lemma StoppedIsStopped(t: State)
    requires Unhindered(t.x) && Matched(t) && Stopped(t)
    ensures Progress.Stopped(t.x) && t.a.calls == map[]
  {
    NoCallLeft(t);
    forall step ensures !Pipeline.Enabled(t.x, step) {
      if Pipeline.Enabled(t.x, step) {
        PathCanMove(t, step);
      }
    }
  }

  /** So every request of at most 1000 events has been served. */
  lemma StoppedIsServed(s: State, run: seq<Step>, t: State, id: Id)
    requires Reachable(s, run, t) && Stopped(t)
    requires id in s.x.p.plan.jobs && Progress.Short(s.x.p.plan.jobs[id])
    ensures id in t.x.lanes && t.x.lanes[id].handler == Delivery.Gone
    ensures t.x.lanes[id].chunks == Views(Producers.Events(s.x.p.plan.jobs[id]))
  {
    var path := ReachableFacts(s, run, t);
    StoppedIsStopped(t);
    Progress.StoppedIsServed(s.x, path, t.x, id);
  }
}
