/**
 The persistence worker is never stuck: from every reachable state before cancellation the
 goroutines, without any failure, can bring every token that was appended into the table.
 */
module PersistenceProgress {
  import opened Types
  import opened FlushBatch
  import opened Sums
  import opened PersistenceMachine
  import opened PersistenceInvariant
  import opened PersistenceTheorems

  /** A step of the worker's own goroutines in which nothing fails. */
  predicate Clean(step: Step) {
    match step
    case Append(_, _) => false
    case Cancel => false
    case CrashRestart => false
    case Read(_, ok) => ok
    case Upsert(_, _, ok) => ok
    case _ => true
  }

  /** Everything appended so far was added, flushed and released. */
  ghost predicate Settled(s: State) {
    && s.w.loop == Fetching && s.w.flights == map[] && s.w.mem.buffers == map[]
    && |s.w.fetched| == |s.d.logs| && forall p :: 0 <= p < |s.d.logs| ==> s.w.fetched[p] == |s.d.logs[p]|
  }

  /** The flusher goroutine is inside a flush only while that flush exists, and stops only after cancellation. */
  ghost predicate FlusherSound(s: State) {
    && (s.w.flusher.Running? ==> s.w.flusher.id in s.w.flights && s.w.flights[s.w.flusher.id].kind != Threshold)
    && (s.w.flusher.Stopped? ==> s.h.everCancelled)
  }

  lemma FlusherStill(s: State, s': State)
    requires FlusherSound(s) && s'.w.flusher == s.w.flusher && (s.h.everCancelled ==> s'.h.everCancelled)
    requires s'.w.flights == s.w.flights
    ensures FlusherSound(s')
  {
  }

  /** One flight of an unchanged kind, or a new one, changes. */
  lemma FlusherOne(s: State, s': State, f: nat)
    requires FlusherSound(s) && s'.w.flusher == s.w.flusher && (s.h.everCancelled ==> s'.h.everCancelled)
    requires f in s'.w.flights && s'.w.flights == s.w.flights[f := s'.w.flights[f]]
    requires f in s.w.flights ==> s'.w.flights[f].kind == s.w.flights[f].kind
    ensures FlusherSound(s')
  {
  }

  lemma FlusherStarts(s: State, s': State)
    requires FlusherSound(s) && (s.h.everCancelled ==> s'.h.everCancelled)
    requires s' == s || (s'.w.flusher.Running? && s'.w.flusher.id in s'.w.flights &&
        s'.w.flights[s'.w.flusher.id].kind != Threshold)
    ensures FlusherSound(s')
  {
  }

  lemma FlusherRelease(s: State, f: nat)
    requires Guard(s) && FlusherSound(s) && Enabled(s, Release(f))
    ensures FlusherSound(Apply(s, Release(f)))
  {
  }

  lemma FlusherTurns(s: State, s': State, step: Step)
    requires Guard(s) && FlusherSound(s) && Enabled(s, step) && s' == Apply(s, step)
    requires !LoopStep(step) && !FlightStep(step)
    ensures FlusherSound(s')
  {
    match step
    case Tick(f) => FlusherStarts(s, s');
    case Stop(f) => FlusherStarts(s, s');
    case Release(f) => FlusherRelease(s, f);
    case Trigger(f) => if s.w.flushing { FlusherStill(s, s'); } else { FlusherOne(s, s', f); }
    case Cancel => FlusherStill(s, s');
    case _ =>
  }

  lemma FlusherKept(s: State, step: Step)
    requires Guard(s) && FlusherSound(s) && Enabled(s, step)
    ensures FlusherSound(Apply(s, step))
  {
    var s' := Apply(s, step);
    if LoopStep(step) {
      LoopStepKeeps(s, s', step);
      FlusherStill(s, s');
    } else if FlightStep(step) {
      FlightStepMoves(s, s', step);
      FlusherOne(s, s', step.f);
    } else {
      FlusherTurns(s, s', step);
    }
  }

  // ---------------------------------------------------------------- remaining work

  function UnreadCounts(logs: seq<seq<TokenEvent>>, fetched: seq<nat>): seq<nat> {
    seq(|logs|, p requires 0 <= p < |logs| =>
      if p < |fetched| && fetched[p] <= |logs[p]| then |logs[p]| - fetched[p] else 0)
  }

  function LoopWork(loop: Loop): nat {
    match loop
    case Fetching => 0
    case Committing(_) => 14
    case Adding(_) => 13
    case Checking => 6
    case Triggering => 5
  }

  function PhaseWork(phase: Phase): nat {
    match phase case Started => 4 case Snapped => 3 case Merged => 2 case Finished => 1
  }

  ghost function FlightWork(flights: map<nat, Flight>): nat {
    if flights == map[] then 0 else var f :| f in flights; PhaseWork(flights[f].phase)
  }

  function BufferWork(m: Memory): nat {
    if m.buffers == map[] then 0 else 6
  }

  ghost function Work(s: State): nat {
    15 * Sum(UnreadCounts(s.d.logs, s.w.fetched)) + LoopWork(s.w.loop) + FlightWork(s.w.flights) + BufferWork(s.w.mem)
  }

  lemma OnlyFlight(flights: map<nat, Flight>, f: nat)
    requires f in flights && forall g :: g in flights ==> g == f
    ensures FlightWork(flights) == PhaseWork(flights[f].phase)
  {
  }

  /** A step that is more than a tick of the clock or the broker catching up with a commit. */
  predicate Moving(step: Step) {
    !step.Tick? && !step.BrokerCommit?
  }

  /** The one flush in flight takes its next step. */
  lemma AdvanceFlight(s: State, f: nat) returns (step: Step)
    requires Guard(s) && !s.h.overlapped && f in s.w.flights
    ensures Moving(step) && Clean(step) && Enabled(s, step) && Work(Apply(s, step)) < Work(s)
  {
    var fl := s.w.flights[f];
    assert forall g :: g in s.w.flights ==> g == f;
    OnlyFlight(s.w.flights, f);
    match fl.phase
    case Started => step := Snapshot(f);
    case Snapped => step := Read(f, true);
    case Merged =>
      var order := Enumeration(fl.snap.Keys);
      step := Upsert(f, order, true);
    case Finished => step := Release(f);
    var s' := Apply(s, step);
    if fl.phase == Finished {
      assert s'.w.flights == map[];
    } else {
      OnlyFlight(s'.w.flights, f);
    }
  }

  /** Between flushes the consume loop takes its next step. */
  lemma AdvanceLoop(s: State) returns (step: Step)
    requires Guard(s) && Placed(s) && s.w.flights == map[] && s.w.loop != Fetching
    ensures Moving(step) && Clean(step) && Enabled(s, step) && Work(Apply(s, step)) < Work(s)
  {
    match s.w.loop
    case Committing(_) => step := Commit(true);
    case Adding(_) => step := AddToken;
    case Checking => step := CheckThreshold;
    case Triggering =>
      step := Trigger(0);
      assert !s.w.flushing by { assert forall f :: !Guarded(s, f); }
      OnlyFlight(Apply(s, step).w.flights, 0);
  }

  lemma AdvanceFetch(s: State, p: nat)
    requires Placed(s) && s.w.loop == Fetching && p < |s.d.logs| && s.w.fetched[p] != |s.d.logs[p]|
    ensures Enabled(s, Fetch(p)) && Work(Apply(s, Fetch(p))) < Work(s)
  {
    var u := UnreadCounts(s.d.logs, s.w.fetched);
    SumUpdate(u, p, u[p] - 1);
    assert UnreadCounts(s.d.logs, s.w.fetched[p := s.w.fetched[p] + 1]) == u[p := u[p] - 1];
  }

  /** The ticker starts the flush that picks up what is left in the buffers. */
  lemma AdvanceTick(s: State) returns (s1: State, s2: State)
    requires Guard(s) && s.w.flights == map[] && s.w.flusher == Waiting && s.w.mem.buffers != map[]
    ensures Enabled(s, Tick(0)) && s1 == Apply(s, Tick(0))
    ensures Enabled(s1, Snapshot(0)) && s2 == Apply(s1, Snapshot(0))
    ensures Work(s2) < Work(s)
  {
    assert !s.w.flushing by { assert forall f :: !Guarded(s, f); }
    s1 := Apply(s, Tick(0));
    s2 := Apply(s1, Snapshot(0));
    OnlyFlight(s2.w.flights, 0);
  }

  /** Nothing failed, nothing was cancelled. */
  ghost predicate Sound(s: State) {
    && Inv(s) && FlusherSound(s) && Faultless(s)
    && !s.h.failed && !s.h.everCancelled && !s.h.overlapped && !s.w.cancelled
  }

  lemma SoundInitially(s: State)
    requires Init(s)
    ensures Sound(s)
  {
    InvInitially(s);
  }

  lemma SoundFlags(s: State, step: Step)
    requires Guard(s) && !s.h.failed && !s.h.everCancelled && Enabled(s, step) && (Clean(step) || step.Append?)
    ensures var s' := Apply(s, step); !s'.h.failed && !s'.h.everCancelled
  {
  }

  lemma SoundKept(s: State, step: Step)
    requires Sound(s) && Enabled(s, step) && (Clean(step) || step.Append?)
    ensures Sound(Apply(s, step))
  {
    InvKept(s, step);
    FlusherKept(s, step);
    FollowsStep(s, step);
    SoundFlags(s, step);
  }

  ghost predicate AllClean(run: seq<Step>) {
    forall i :: 0 <= i < |run| ==> Clean(run[i])
  }

  lemma TickRun(s: State) returns (run: seq<Step>, s1: State, s2: State)
    requires Guard(s) && s.w.flights == map[] && s.w.flusher == Waiting && s.w.mem.buffers != map[]
    ensures Legal(s, run) && AllClean(run) && s2 == After(s, run) && Work(s2) < Work(s)
    ensures Enabled(s, Tick(0)) && s1 == Apply(s, Tick(0))
    ensures Enabled(s1, Snapshot(0)) && s2 == Apply(s1, Snapshot(0))
  {
    s1, s2 := AdvanceTick(s);
    Two(s, Tick(0), s1, Snapshot(0), s2);
    run := [Tick(0)] + [Snapshot(0)];
  }

  lemma SoundTwice(s: State, a: Step, s1: State, b: Step, s2: State)
    requires Sound(s) && Enabled(s, a) && Clean(a) && s1 == Apply(s, a)
    requires Enabled(s1, b) && Clean(b) && s2 == Apply(s1, b)
    ensures Sound(s2)
  {
    SoundKept(s, a);
    SoundKept(s1, b);
  }

  lemma TickOnce(s: State) returns (run: seq<Step>, t: State)
    requires Sound(s) && s.w.flights == map[] && s.w.flusher == Waiting && s.w.mem.buffers != map[]
    ensures Legal(s, run) && AllClean(run) && t == After(s, run)
    ensures Work(t) < Work(s) && Sound(t)
  {
    var s1;
    run, s1, t := TickRun(s);
    SoundTwice(s, Tick(0), s1, Snapshot(0), t);
  }

  lemma Unsettled(s: State)
    requires Sound(s) && !Settled(s) && s.w.flights == map[] && s.w.loop == Fetching
    ensures s.w.flusher == Waiting && |s.w.fetched| == |s.d.logs|
    ensures s.w.mem.buffers != map[] || exists p :: 0 <= p < |s.d.logs| && s.w.fetched[p] != |s.d.logs[p]|
  {
  }

  lemma Advance(s: State) returns (run: seq<Step>, t: State)
    requires Sound(s) && !Settled(s)
    ensures Legal(s, run) && AllClean(run) && t == After(s, run)
    ensures Work(t) < Work(s) && Sound(t)
  {
    if f :| f in s.w.flights {
      var step := AdvanceFlight(s, f);
      run, t := Single(s, step);
    } else if s.w.loop != Fetching {
      var step := AdvanceLoop(s);
      run, t := Single(s, step);
    } else {
      Unsettled(s);
      if s.w.mem.buffers != map[] {
        run, t := TickOnce(s);
      } else {
        var p :| 0 <= p < |s.d.logs| && s.w.fetched[p] != |s.d.logs[p]|;
        AdvanceFetch(s, p);
        run, t := Single(s, Fetch(p));
      }
    }
  }

  lemma Single(s: State, step: Step) returns (run: seq<Step>, t: State)
    requires Sound(s) && Enabled(s, step) && Clean(step)
    ensures Legal(s, run) && AllClean(run) && t == After(s, run)
    ensures t == Apply(s, step) && Sound(t)
  {
    One(s, step);
    SoundKept(s, step);
    run, t := [step], Apply(s, step);
  }

  /** From any such state a clean run brings every appended token into the table. */
  lemma {:induction false} CanSettle(s: State) returns (run: seq<Step>, t: State)
    requires Sound(s)
    ensures Legal(s, run) && AllClean(run) && t == After(s, run)
    ensures Settled(t) && Sound(t)
    decreases Work(s)
  {
    if Settled(s) {
      run, t := [], s;
    } else {
      var first, s1 := Advance(s);
      var rest;
      rest, t := CanSettle(s1);
      Join(s, first, rest);
      run := first + rest;
    }
  }

  // ---------------------------------------------------------------- every run, not only some

  /** The only flight moves on to its next phase, and may take the buffers with it. */
  lemma PhaseDescends(s: State, s': State, f: nat)
    requires f in s.w.flights && f in s'.w.flights && s'.w.flights == s.w.flights[f := s'.w.flights[f]]
    requires forall g :: g in s.w.flights ==> g == f
    requires s'.d.logs == s.d.logs && s'.w.fetched == s.w.fetched && s'.w.loop == s.w.loop
    requires PhaseWork(s'.w.flights[f].phase) < PhaseWork(s.w.flights[f].phase)
    requires s'.w.mem == s.w.mem || s'.w.mem == EMPTY
    ensures Work(s') < Work(s)
  {
    OnlyFlight(s.w.flights, f);
    OnlyFlight(s'.w.flights, f);
  }

  lemma SoleFlight(s: State, f: nat)
    requires Sound(s) && f in s.w.flights
    ensures forall g :: g in s.w.flights ==> g == f
  {
  }

  lemma ReleaseDescends(s: State, f: nat)
    requires Enabled(s, Release(f)) && forall g :: g in s.w.flights ==> g == f
    ensures Work(Apply(s, Release(f))) < Work(s)
  {
    OnlyFlight(s.w.flights, f);
    assert Apply(s, Release(f)).w.flights == map[];
  }

  lemma SoleFlightDescends(s: State, f: nat, step: Step)
    requires forall g :: g in s.w.flights ==> g == f
    requires Enabled(s, step) && Clean(step) && (step.Snapshot? || step.Read? || step.Upsert?) && f == step.f
    ensures Work(Apply(s, step)) < Work(s)
  {
    PhaseDescends(s, Apply(s, step), f);
  }

  lemma FlightDescends(s: State, f: nat, step: Step)
    requires Sound(s) && Enabled(s, step) && Clean(step)
    requires (step.Snapshot? || step.Read? || step.Upsert? || step.Release?) && f == step.f
    ensures Work(Apply(s, step)) < Work(s)
  {
    SoleFlight(s, f);
    if step.Release? { ReleaseDescends(s, f); } else { SoleFlightDescends(s, f, step); }
  }

  /** A flush that takes the flag starts alone. */
  lemma LaunchAlone(s: State)
    requires Guard(s) && !s.h.everCancelled && !s.w.flushing
    ensures s.w.flights == map[]
  {
    assert forall f :: f in s.w.flights ==> Guarded(s, f);
  }

  lemma TriggerDescends(s: State, f: nat)
    requires Guard(s) && !s.h.everCancelled && Enabled(s, Trigger(f))
    ensures Work(Apply(s, Trigger(f))) < Work(s)
  {
    if !s.w.flushing {
      LaunchAlone(s);
      OnlyFlight(Apply(s, Trigger(f)).w.flights, f);
    }
  }

  lemma LoopDescends(s: State, step: Step)
    requires Enabled(s, step) && (step.Commit? || step.AddToken? || step.CheckThreshold?)
    ensures Work(Apply(s, step)) < Work(s)
  {
  }

  lemma StepDescends(s: State, step: Step)
    requires Sound(s) && Enabled(s, step) && Clean(step) && Moving(step)
    ensures Work(Apply(s, step)) < Work(s)
  {
    match step
    case Fetch(p) => AdvanceFetch(s, p);
    case Trigger(f) => TriggerDescends(s, f);
    case Snapshot(f) => FlightDescends(s, f, step);
    case Read(f, ok) => FlightDescends(s, f, step);
    case Upsert(f, order, ok) => FlightDescends(s, f, step);
    case Release(f) => FlightDescends(s, f, step);
    case Stop(f) =>
    case _ => LoopDescends(s, step);
  }

  lemma TickAdds(s: State, f: nat)
    requires Guard(s) && !s.h.everCancelled && Enabled(s, Tick(f))
    ensures Work(Apply(s, Tick(f))) <= Work(s) + 4
  {
    if !s.w.flushing {
      LaunchAlone(s);
      OnlyFlight(Apply(s, Tick(f)).w.flights, f);
    }
  }

  /** A token appended to a log is work for the worker. */
  lemma AppendAdds(s: State, p: nat, tok: TokenEvent)
    requires Placed(s) && Enabled(s, Append(p, tok))
    ensures Work(Apply(s, Append(p, tok))) == Work(s) + 15
  {
    var u := UnreadCounts(s.d.logs, s.w.fetched);
    SumUpdate(u, p, u[p] + 1);
    assert UnreadCounts(s.d.logs[p := s.d.logs[p] + [tok]], s.w.fetched) == u[p := u[p] + 1];
  }

  function Moves(run: seq<Step>): nat {
    if run == [] then 0 else Count(Moving(run[0])) + Moves(run[1..])
  }

  function Ticks(run: seq<Step>): nat {
    if run == [] then 0 else Count(run[0].Tick?) + Ticks(run[1..])
  }

  lemma BrokerKeepsWork(s: State, p: nat)
    requires Enabled(s, BrokerCommit(p))
    ensures Work(Apply(s, BrokerCommit(p))) == Work(s)
  {
  }

  lemma StepBound(s: State, step: Step)
    requires Sound(s) && Enabled(s, step) && Clean(step)
    ensures Work(Apply(s, step)) + Count(Moving(step)) <= Work(s) + 4 * Count(step.Tick?)
  {
    match step
    case Tick(f) => TickAdds(s, f);
    case BrokerCommit(p) => BrokerKeepsWork(s, p);
    case _ => StepDescends(s, step);
  }

  /** Whatever the worker does, without failure it makes at most `Work` moves and four more for each tick. */
  lemma {:induction false} MovesAreBounded(s: State, run: seq<Step>)
    requires Sound(s) && Legal(s, run) && AllClean(run)
    ensures Sound(After(s, run)) && Work(After(s, run)) + Moves(run) <= Work(s) + 4 * Ticks(run)
    decreases |run|
  {
    if run != [] {
      StepBound(s, run[0]);
      SoundKept(s, run[0]);
      MovesAreBounded(Apply(s, run[0]), run[1..]);
    }
  }

  /** Only a tick, or the broker, can still do something. */
  ghost predicate Resting(s: State) {
    forall step :: Enabled(s, step) && Clean(step) ==> !Moving(step)
  }

  /** The consume loop has handed over everything and no flush is under way. */
  ghost predicate CaughtUp(s: State) {
    && s.w.loop == Fetching
    && |s.w.fetched| == |s.d.logs| && forall p :: 0 <= p < |s.d.logs| ==> s.w.fetched[p] == |s.d.logs[p]|
  }

  lemma RestingIsCaughtUp(s: State)
    requires Sound(s) && Resting(s)
    ensures CaughtUp(s) && s.w.flights == map[]
  {
    if f :| f in s.w.flights {
      var step := AdvanceFlight(s, f);
    } else if s.w.loop != Fetching {
      var step := AdvanceLoop(s);
    } else {
      forall p | 0 <= p < |s.d.logs| ensures s.w.fetched[p] == |s.d.logs[p]| {
        if s.w.fetched[p] != |s.d.logs[p]| { AdvanceFetch(s, p); }
      }
    }
  }

  /** A flush is about to take what is buffered, or nothing is. */
  ghost predicate Collecting(s: State) {
    CaughtUp(s) && (s.w.mem.buffers == map[] || exists f :: f in s.w.flights && s.w.flights[f].phase == Started)
  }

  lemma CollectingFlight(s: State, s': State, f: nat, step: Step)
    requires Sound(s) && Collecting(s) && Enabled(s, step) && Clean(step) && s' == Apply(s, step)
    requires (step.Snapshot? || step.Read? || step.Upsert? || step.Release?) && f == step.f
    ensures Collecting(s')
  {
    SoleFlight(s, f);
  }

  lemma CollectingTick(s: State, f: nat)
    requires Collecting(s) && Enabled(s, Tick(f))
    ensures Collecting(Apply(s, Tick(f)))
  {
    var s' := Apply(s, Tick(f));
    if g :| g in s.w.flights && s.w.flights[g].phase == Started {
      assert g in s'.w.flights && s'.w.flights[g].phase == Started;
    }
  }

  lemma CollectingKept(s: State, s': State, step: Step)
    requires Sound(s) && Collecting(s) && Enabled(s, step) && Clean(step) && s' == Apply(s, step)
    ensures Collecting(s')
  {
    match step
    case Tick(f) => CollectingTick(s, f);
    case Stop(f) =>
    case Snapshot(f) => CollectingFlight(s, s', f, step);
    case Read(f, ok) => CollectingFlight(s, s', f, step);
    case Upsert(f, order, ok) => CollectingFlight(s, s', f, step);
    case Release(f) => CollectingFlight(s, s', f, step);
    case _ =>
  }

  lemma {:induction false} CollectingAlongRun(s: State, run: seq<Step>)
    requires Sound(s) && Collecting(s) && Legal(s, run) && AllClean(run)
    ensures Sound(After(s, run)) && Collecting(After(s, run))
    decreases |run|
  {
    if run != [] {
      CollectingKept(s, Apply(s, run[0]), run[0]);
      SoundKept(s, run[0]);
      CollectingAlongRun(Apply(s, run[0]), run[1..]);
    }
  }

  lemma TickCollects(s: State, f: nat)
    requires Sound(s) && CaughtUp(s) && s.w.flights == map[] && Enabled(s, Tick(f))
    ensures Collecting(Apply(s, Tick(f)))
  {
    assert !s.w.flushing by { assert forall g :: !Guarded(s, g); }
    assert f in Apply(s, Tick(f)).w.flights;
  }

  /** If the worker rests, the clock ticks, and however it goes on from there it rests again, then it has settled. */
  lemma TickThenRestSettles(s: State, run: seq<Step>, t: State)
    requires Sound(s) && Resting(s) && Legal(s, run) && AllClean(run) && t == After(s, run)
    requires run != [] && run[0].Tick? && Resting(t)
    ensures Settled(t)
  {
    RestingIsCaughtUp(s);
    TickCollects(s, run[0].f);
    SoundKept(s, run[0]);
    CollectingAlongRun(Apply(s, run[0]), run[1..]);
    RestingIsCaughtUp(t);
  }
}
