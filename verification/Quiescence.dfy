/**
 Both halves come to rest in every run, not only in some: apart from the ticks of the clock there is
 a bound on what they can do, and a tick between two rests leaves nothing behind.
 */
module Quiescence {
  import opened Types
  import opened Sums
  import Pipeline
  import Progress
  import Persistence = PersistenceMachine
  import PersistenceProgress
  import opened EndToEnd

  /** A step of either half that is more than a tick of the clock or the broker catching up with a commit. */
  predicate Moving(step: Step) {
    step.Persisting? ==> PersistenceProgress.Moving(step.work)
  }

  predicate Ticking(step: Step) {
    step.Persisting? && step.work.Tick?
  }

  function Moves(run: seq<Step>): nat {
    if run == [] then 0 else Count(Moving(run[0])) + Moves(run[1..])
  }

  function Ticks(run: seq<Step>): nat {
    if run == [] then 0 else Count(Ticking(run[0])) + Ticks(run[1..])
  }

  /** A write to the persistence log makes work for the worker, so a step of the streaming path weighs more. */
  ghost function Work(s: State): nat {
    16 * Progress.Work(s.x) + PersistenceProgress.Work(s.d)
  }

  lemma StreamingDescends(s: State, move: Pipeline.Step)
    requires Inv(s) && Enabled(s, Streaming(move))
    ensures Work(Apply(s, Streaming(move))) < Work(s)
  {
    Progress.EveryStepDescends(s.x, move);
    if move.WritePersist? {
      var arrival := Arrival(s.x.p, move.id);
      PersistenceProgress.AppendAdds(s.d, arrival.p, arrival.tok);
    }
  }

  lemma WorkBound(s: State, work: Persistence.Step)
    requires PersistenceProgress.Sound(s.d) && Enabled(s, Persisting(work))
    ensures Work(Apply(s, Persisting(work))) + Count(PersistenceProgress.Moving(work))
         <= Work(s) + 4 * Count(work.Tick?)
  {
    PersistenceProgress.StepBound(s.d, work);
  }

  lemma StepBound(s: State, step: Step)
    requires Inv(s) && Enabled(s, step)
    ensures Work(Apply(s, step)) + Count(Moving(step))
         <= Work(s) + 4 * Count(Ticking(step))
  {
    match step
    case Streaming(move) => StreamingDescends(s, move);
    case Persisting(work) => WorkBound(s, work);
  }

  /** Every run of both halves makes at most `Work` moves and four more for each tick of the clock. */
  lemma {:induction false} MovesAreBounded(s: State, run: seq<Step>)
    requires Inv(s) && Legal(s, run)
    ensures Work(After(s, run)) + Moves(run) <= Work(s) + 4 * Ticks(run)
    decreases |run|
  {
    if run != [] {
      StepBound(s, run[0]);
      InvKept(s, run[0]);
      MovesAreBounded(Apply(s, run[0]), run[1..]);
    }
  }

  /** Only a tick, or the broker, can still do something. */
  ghost predicate Resting(s: State) {
    forall step :: Enabled(s, step) ==> !Moving(step)
  }

  lemma StreamingRests(s: State)
    requires Inv(s) && Resting(s)
    ensures Progress.Stopped(s.x)
  {
    forall move ensures !Pipeline.Enabled(s.x, move) {
      if Pipeline.Enabled(s.x, move) {
        StreamingEnabled(s, move);
        assert Moving(Streaming(move));
      }
    }
  }

  lemma WorkerRests(s: State)
    requires Resting(s)
    ensures PersistenceProgress.Resting(s.d)
  {
    forall work | Persistence.Enabled(s.d, work) && PersistenceProgress.Clean(work)
        ensures !PersistenceProgress.Moving(work) {
      assert Enabled(s, Persisting(work));
    }
  }

  /** From a state in which the streaming path has stopped only the worker moves. */
  lemma {:induction false} OnlyWork(s: State, run: seq<Step>) returns (work: seq<Persistence.Step>)
    requires Progress.Stopped(s.x) && Legal(s, run)
    ensures |work| == |run| && PersistenceProgress.AllClean(work)
    ensures forall i :: 0 <= i < |run| ==> run[i] == Persisting(work[i])
    ensures Persistence.Legal(s.d, work) && After(s, run) == s.(d := Persistence.After(s.d, work))
    decreases |run|
  {
    if run == [] {
      work := [];
    } else {
      assert run[0].Persisting?;
      var rest := OnlyWork(Apply(s, run[0]), run[1..]);
      work := [run[0].work] + rest;
      assert work[1..] == rest;
    }
  }

  /**
   However a run goes: if it comes to rest, then the clock ticks, and after that it comes to rest again,
   client, table and generator agree on every request of at most 1000 events.
   */
  lemma RestTickRestAgrees(s: State, run: seq<Step>, t: State, more: seq<Step>, id: Id)
    requires Reachable(s, run, t) && Resting(t) && Legal(t, more) && more != [] && Ticking(more[0])
    requires Resting(After(t, more)) && id in s.x.p.plan.jobs && Progress.Short(s.x.p.plan.jobs[id])
    ensures Agreed(s, After(t, more), id)
  {
    InvInitially(s);
    InvAlongRun(s, run);
    InvAlongRun(t, more);
    var u := After(t, more);
    StreamingRests(t);
    StreamingRests(u);
    WorkerRests(t);
    WorkerRests(u);
    var work := OnlyWork(t, more);
    PersistenceProgress.TickThenRestSettles(t.d, work, u.d);
    Joined(s, run, more);
    AgreementAtQuiescence(s, run + more, u, id);
  }

  lemma {:induction false} Joined(s: State, a: seq<Step>, b: seq<Step>)
    requires Legal(s, a) && Legal(After(s, a), b)
    ensures Legal(s, a + b) && After(s, a + b) == After(After(s, a), b)
    decreases |a|
  {
    if a == [] {
      assert a + b == b;
    } else {
      assert (a + b)[1..] == a[1..] + b;
      Joined(Apply(s, a[0]), a[1..], b);
    }
  }
}
