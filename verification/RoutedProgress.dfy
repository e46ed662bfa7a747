/**
 The streaming path with its calls taken apart comes to an end as well: a call has at most twelve actions, and
 there is one call for each token executed.
 */
module RoutedProgress {
  import opened Types
  import opened Sums
  import Producers = ProducerMachine
  import Streaming = StreamingMachine
  import StreamingInvariant
  import Delivery = DeliveryMachine
  import Pipeline
  import PipelineInvariant
  import PipelineTheorems
  import Progress
  import Routing = AddressMachine
  import opened RoutedPipeline

  /** The actions a call still has before it, at most. */
  function Hops(at: Routing.Place): nat {
    match at
    case LoadStream => 12
    case LoadAddr => 11
    case AskStore => 10
    case KeepAddr(_) => 9
    case FindConn(_) => 8
    case MakeConn(_) => 7
    case KeepConn(_) => 6
    case OpenStream(_) => 5
    case KeepStream(_) => 4
    case SendToken(_) => 3
    case DropStream(_) => 2
    case DropAddr(_) => 1
  }

  predicate Calling(s: State, id: Id) {
    id in s.a.calls && Underway(s.a.calls[id].at)
  }

  /** The call under way for `id`, or the one still to begin for the token its processor has taken. */
  function CallWork(s: State, id: Id): nat {
    (if PipelineInvariant.Busy(s.x.r, id) != [] && !Calling(s, id) then 13 else 0)
    + (if id in s.a.calls then Hops(s.a.calls[id].at) else 0)
  }

  function CallWorks(s: State): map<Id, nat> {
    map id | id in s.x.lanes :: CallWork(s, id)
  }

  ghost function Work(s: State): nat {
    14 * Progress.Work(s.x) + MapSum(CallWorks(s))
  }

  /** The work of one request changes. */
  lemma OneCall(s: State, s': State, id: Id)
    requires id in s.x.lanes && s'.x.lanes.Keys == s.x.lanes.Keys
    requires forall q :: q != id ==> CallWork(s', q) == CallWork(s, q)
    ensures MapSum(CallWorks(s')) + CallWork(s, id) == MapSum(CallWorks(s)) + CallWork(s', id)
  {
    MapSumUpdate(CallWorks(s), id, CallWork(s', id));
    assert CallWorks(s') == CallWorks(s)[id := CallWork(s', id)];
  }

  /** A call begins for a request whose processor has taken a token. */
  lemma BeginsHere(s: State, s': State, id: Id)
    requires PipelineInvariant.Busy(s.x.r, id) != [] && id !in s.a.calls && id in s.x.lanes && s'.x == s.x
    requires id in s'.a.calls && s'.a.calls[id].at == Routing.LoadStream
    requires s'.a.calls == s.a.calls[id := s'.a.calls[id]]
    ensures MapSum(CallWorks(s')) < MapSum(CallWorks(s))
  {
    forall q | q != id ensures CallWork(s', q) == CallWork(s, q) {}
    OneCall(s, s', id);
  }

  lemma BusyHasLane(x: Pipeline.State, c: nat)
    requires Unhindered(x) && Streaming.Enabled(x.r, Streaming.Finish(c))
    ensures x.r.gens[c].proc.tok.requestID in x.lanes
    ensures PipelineInvariant.Busy(x.r, x.r.gens[c].proc.tok.requestID) != []
  {
    ExecutingIsBusy(x, c);
    BusyMeansPublished(x, x.r.gens[c].proc.tok.requestID);
  }

  lemma BeginLowers(s: State, s': State, c: nat)
    requires Unhindered(s.x) && Enabled(s, Begin(c)) && s' == Apply(s, Begin(c))
    ensures MapSum(CallWorks(s')) < MapSum(CallWorks(s))
  {
    BusyHasLane(s.x, c);
    BeginsHere(s, s', s.x.r.gens[c].proc.tok.requestID);
  }

  /** An action that sends nothing brings its call nearer to its end. */
  lemma HopsFall(a: Routing.State, id: Id)
    requires Routing.Enabled(a, Routing.Advance(id, true))
    ensures var a', at := Routing.Apply(a, Routing.Advance(id, true)), a.calls[id].at;
            && (id in a'.calls ==> Hops(a'.calls[id].at) < Hops(at))
            && (Underway(at) && !at.SendToken? ==> id in a'.calls && Underway(a'.calls[id].at))
  {
  }

  /** One action of the call for `id`; if it sends, the processor is done with its token. */
  lemma ActsHere(s: State, s': State, id: Id)
    requires id in s.a.calls && (id in s'.a.calls ==> Hops(s'.a.calls[id].at) < Hops(s.a.calls[id].at))
    requires Underway(s.a.calls[id].at) && !s.a.calls[id].at.SendToken? ==> Calling(s', id)
    requires PipelineInvariant.Busy(s'.x.r, id)
          == if s.a.calls[id].at.SendToken? then [] else PipelineInvariant.Busy(s.x.r, id)
    ensures CallWork(s', id) < CallWork(s, id)
  {
  }

  lemma ActLowers(s: State, s': State, id: Id)
    requires Routing.Enabled(s.a, Routing.Advance(id, true)) && s'.a == Routing.Apply(s.a, Routing.Advance(id, true))
    requires id in s.x.lanes && s'.x.lanes.Keys == s.x.lanes.Keys
    requires forall q :: q != id ==> PipelineInvariant.Busy(s'.x.r, q) == PipelineInvariant.Busy(s.x.r, q)
    requires PipelineInvariant.Busy(s'.x.r, id)
          == if s.a.calls[id].at.SendToken? then [] else PipelineInvariant.Busy(s.x.r, id)
    ensures MapSum(CallWorks(s')) < MapSum(CallWorks(s))
  {
    HopsFall(s.a, id);
    ActsHere(s, s', id);
    OthersStay(s, s', id);
    OneCall(s, s', id);
  }

  /** Calls and processors of other requests stay where they are. */
  lemma OthersStay(s: State, s': State, id: Id)
    requires Routing.Enabled(s.a, Routing.Advance(id, true)) && s'.a == Routing.Apply(s.a, Routing.Advance(id, true))
    requires forall q :: q != id ==> PipelineInvariant.Busy(s'.x.r, q) == PipelineInvariant.Busy(s.x.r, q)
    ensures forall q :: q != id ==> CallWork(s', q) == CallWork(s, q)
  {
    forall q | q != id ensures CallWork(s', q) == CallWork(s, q) {
      OtherCallStays(s.a, id, q);
    }
  }

  lemma OtherCallStays(a: Routing.State, id: Id, q: Id)
    requires Routing.Enabled(a, Routing.Advance(id, true)) && q != id
    ensures var a' := Routing.Apply(a, Routing.Advance(id, true));
            (q in a'.calls <==> q in a.calls) && (q in a.calls ==> a'.calls[q] == a.calls[q])
  {
  }

  lemma NoLongerBusy(x: Pipeline.State, c: nat, id: Id)
    requires StreamingInvariant.Mapped(x.r) && id in x.r.w.channels && x.r.w.channels[id] == c
    requires Pipeline.Enabled(x, Pipeline.Execute(c, id))
    ensures PipelineInvariant.Busy(Pipeline.Apply(x, Pipeline.Execute(c, id)).r, id) == []
  {
  }

  lemma SendLowers(s: State, s': State, id: Id)
    requires Unhindered(s.x) && Matched(s) && Enabled(s, Act(id)) && s.a.calls[id].at.SendToken?
    requires s' == Apply(s, Act(id))
    ensures MapSum(CallWorks(s')) < MapSum(CallWorks(s))
  {
    SendMoves(s, id);
    var c := s.x.r.w.channels[id];
    BusyOthers(s.x, c, id);
    ExecuteSends(s.x, c, id);
    NoLongerBusy(s.x, c, id);
    ActLowers(s, s', id);
  }

  lemma QuietActLowers(s: State, s': State, id: Id)
    requires Matched(s) && Enabled(s, Act(id)) && !s.a.calls[id].at.SendToken? && s' == Apply(s, Act(id))
    ensures MapSum(CallWorks(s')) < MapSum(CallWorks(s))
  {
    QuietActKeeps(s, id);
    ActLowers(s, s', id);
  }

  /** The request whose token a step hands to its processor. */
  function Taker(x: Pipeline.State, step: Pipeline.Step): Option<Id>
    requires Pipeline.Enabled(x, step)
  {
    if step.Route? && step.move.Take? then Some(x.r.gens[step.move.c].req) else None
  }

  lemma OnlyTheTaker(x: Pipeline.State, step: Pipeline.Step, id: Id)
    requires StreamingInvariant.Mapped(x.r) && Pipeline.Enabled(x, step) && !step.Execute? && Taker(x, step) != Some(id)
    ensures PipelineInvariant.Busy(Pipeline.Apply(x, step).r, id) == PipelineInvariant.Busy(x.r, id)
  {
    match step
    case Route(move) => OnlyTheTakerRoute(x.r, move, id);
    case WriteStream(q) => PipelineInvariant.BusyFrame(x.r, Pipeline.Apply(x, step).r);
    case Execute(c, q) =>
    case _ => assert Pipeline.Apply(x, step).r == x.r;
  }

  lemma OnlyTheTakerRoute(r: Streaming.State, move: Streaming.Step, id: Id)
    requires StreamingInvariant.Mapped(r) && Streaming.Enabled(r, move) && Pipeline.Routing(move)
    requires move.Take? ==> r.gens[move.c].req != id
    ensures PipelineInvariant.Busy(Streaming.Apply(r, move), id) == PipelineInvariant.Busy(r, id)
  {
    match move
    case Lookup => PipelineInvariant.BusyLookup(r);
    case Delete(c) => PipelineInvariant.BusyDelete(r, c);
    case Take(c) => assert id in r.w.channels ==> r.w.channels[id] != c;
    case Fetch(p) => PipelineInvariant.BusyFrame(r, Streaming.Apply(r, move));
    case Push => PipelineInvariant.BusyFrame(r, Streaming.Apply(r, move));
    case _ =>
  }

  lemma PathLeavesCalls(s: State, s': State, step: Pipeline.Step, id: Id)
    requires StreamingInvariant.Mapped(s.x.r) && Enabled(s, Path(step)) && s' == Apply(s, Path(step))
    ensures CallWork(s', id) <= CallWork(s, id) + 13
    ensures Taker(s.x, step) != Some(id) ==> CallWork(s', id) == CallWork(s, id)
  {
    assert s'.a.calls == s.a.calls;
    if Taker(s.x, step) != Some(id) { OnlyTheTaker(s.x, step, id); }
  }

  /** A step of the path makes work for at most one more call. */
  lemma PathRaises(s: State, step: Pipeline.Step)
    requires StreamingInvariant.Mapped(s.x.r) && Enabled(s, Path(step))
    ensures MapSum(CallWorks(Apply(s, Path(step)))) <= MapSum(CallWorks(s)) + 13
  {
    var s' := Apply(s, Path(step));
    LanesOf(s.x, step);
    forall q ensures CallWork(s', q) <= CallWork(s, q) + 13
             ensures Taker(s.x, step) != Some(q) ==> CallWork(s', q) == CallWork(s, q) {
      PathLeavesCalls(s, s', step, q);
    }
    SumRaises(s, s', Taker(s.x, step));
  }

  lemma SumRaises(s: State, s': State, taker: Option<Id>)
    requires s'.x.lanes.Keys == s.x.lanes.Keys
    requires forall q :: CallWork(s', q) <= CallWork(s, q) + 13
    requires forall q :: taker != Some(q) ==> CallWork(s', q) == CallWork(s, q)
    ensures MapSum(CallWorks(s')) <= MapSum(CallWorks(s)) + 13
  {
    if taker.Some? && taker.value in s.x.lanes {
      OneCall(s, s', taker.value);
    } else {
      assert CallWorks(s') == CallWorks(s);
    }
  }

  lemma ActStep(s: State, s': State, id: Id)
    requires Unhindered(s.x) && Matched(s) && Enabled(s, Act(id)) && s' == Apply(s, Act(id))
    ensures MapSum(CallWorks(s')) < MapSum(CallWorks(s))
  {
    if s.a.calls[id].at.SendToken? { SendLowers(s, s', id); } else { QuietActLowers(s, s', id); }
  }

  lemma PathDescends(x: Pipeline.State, path: seq<Pipeline.Step>)
    requires PipelineInvariant.Inv(x) && Pipeline.Legal(x, path) && |path| <= 1
    ensures Progress.Work(Pipeline.After(x, path)) <= Progress.Work(x)
  {
    Progress.WorkBoundsRuns(x, path);
  }

  lemma PathStepDescends(s: State, step: Pipeline.Step)
    requires PipelineInvariant.Inv(s.x) && Enabled(s, Path(step))
    ensures Work(Apply(s, Path(step))) < Work(s)
  {
    Progress.EveryStepDescends(s.x, step);
    PathRaises(s, step);
  }

  lemma CallStepDescends(s: State, s': State, step: Step)
    requires Inv(s) && Enabled(s, step) && !step.Path? && s' == Apply(s, step)
    requires MapSum(CallWorks(s')) < MapSum(CallWorks(s))
    ensures Work(s') < Work(s)
  {
    PathIsUnhindered(s.x);
    var path := StepRefines(s, step);
    PathDescends(s.x, path);
  }

  /** Every step of the path and of its calls lowers the remaining work. */
  lemma EveryStepDescends(s: State, step: Step)
    requires Inv(s) && Enabled(s, step)
    ensures Work(Apply(s, step)) < Work(s)
  {
    var s' := Apply(s, step);
    match step
    case Path(move) => PathStepDescends(s, move);
    case Begin(c) =>
      PathIsUnhindered(s.x);
      BeginLowers(s, s', c);
      CallStepDescends(s, s', step);
    case Act(id) =>
      PathIsUnhindered(s.x);
      ActStep(s, s', id);
      CallStepDescends(s, s', step);
  }

  lemma {:induction false} WorkBoundsRuns(s: State, run: seq<Step>)
    requires Inv(s) && Legal(s, run)
    ensures |run| + Work(After(s, run)) <= Work(s)
    decreases |run|
  {
    if run != [] {
      EveryStepDescends(s, run[0]);
      var path := InvKept(s, run[0]);
      WorkBoundsRuns(Apply(s, run[0]), run[1..]);
    }
  }

  lemma {:induction false} NoWork(m: map<Id, nat>)
    requires forall id :: id in m ==> m[id] == 0
    ensures MapSum(m) == 0
    decreases |m|
  {
    if m != map[] {
      var k :| k in m;
      MapSumAt(m, k);
      SmallerWithout(m, k);
      NoWork(m - {k});
    }
  }

  lemma NothingCalled(s: State)
    requires s.a.calls == map[] && s.x.r.w.channels == map[]
    ensures MapSum(CallWorks(s)) == 0
  {
    NoWork(CallWorks(s));
  }

  /** No run is longer than fourteen steps for each step the path itself may take. */
  lemma RunsAreBounded(s: State, run: seq<Step>)
    requires Init(s) && Legal(s, run)
    ensures |run| <= 14 * MapSum(Progress.Cost(s.x.p.plan.jobs))
  {
    InvInitially(s);
    NothingCalled(s);
    Progress.InitialWork(s.x);
    WorkBoundsRuns(s, run);
  }

  lemma {:induction false} Extend(s: State, run: seq<Step>, step: Step)
    requires Legal(s, run) && Enabled(After(s, run), step)
    ensures Legal(s, run + [step]) && After(s, run + [step]) == Apply(After(s, run), step)
    decreases |run|
  {
    var longer := run + [step];
    if run == [] {
      assert longer[1..] == [];
    } else {
      assert longer[0] == run[0] && longer[1..] == run[1..] + [step];
      Extend(Apply(s, run[0]), run[1..], step);
    }
  }

  lemma WorkAfter(s: State, run: seq<Step>, step: Step)
    requires Init(s) && Legal(s, run) && Enabled(After(s, run), step)
    ensures Work(Apply(After(s, run), step)) < Work(After(s, run))
  {
    InvInitially(s);
    var path := RunRefines(s, run);
    EveryStepDescends(After(s, run), step);
  }

  /** Every run can be continued to one in which nothing can move; there every short request has been served. */
  lemma {:induction false} EveryRunCompletes(s: State, run: seq<Step>) returns (run': seq<Step>)
    requires Init(s) && Legal(s, run)
    ensures Legal(s, run') && run <= run' && Stopped(After(s, run'))
    decreases Work(After(s, run))
  {
    var t := After(s, run);
    if Stopped(t) {
      run' := run;
    } else {
      var step :| Enabled(t, step);
      WorkAfter(s, run, step);
      Extend(s, run, step);
      run' := EveryRunCompletes(s, run + [step]);
    }
  }
}
