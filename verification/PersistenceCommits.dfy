/**
 What a commit is worth before a crash. Where commits take effect later, a position whose commit has
 returned is safe from the moment the broker has caught up with its partition, and not before.
 */
module PersistenceCommits {
  import opened Types
  import opened PersistenceMachine
  import opened PersistenceInvariant

  /** The commit of `x` has returned; whether it has been added since, and whether the broker has caught up with it. */
  ghost predicate Returned(s: State, x: Stamp, added: bool, caught: bool) {
    && Placed(s) && !s.k.sync && x.part < |s.d.logs| && x.off < s.w.acked[x.part]
    && (caught <==> x.off < s.d.committed[x.part])
    && (if added then x.off < Frontier(s, x.part) else s.w.loop == Adding(x))
  }

  lemma CommitReturns(s: State, x: Stamp)
    requires Placed(s) && !s.k.sync && s.w.loop == Committing(x) && Enabled(s, Commit(true))
    ensures Returned(Apply(s, Commit(true)), x, false, false)
  {
    PlacedKept(s, Commit(true));
  }

  lemma FrontierGrows(s: State, step: Step, p: nat)
    requires Placed(s) && Enabled(s, step) && !step.CrashRestart? && p < |s.w.fetched|
    ensures |Apply(s, step).w.fetched| == |s.w.fetched| && Frontier(s, p) <= Frontier(Apply(s, step), p)
  {
    if !step.AddToken? {
      FrontiersStay(s, step);
    }
  }

  /** Only the broker's catching up moves a committed offset. */
  lemma OnlyTheBroker(s: State, step: Step, p: nat)
    requires Placed(s) && !s.k.sync && Enabled(s, step) && !step.CrashRestart? && p < |s.d.logs|
    ensures var s' := Apply(s, step);
            && |s'.d.logs| == |s.d.logs| == |s'.d.committed| == |s'.w.acked| && !s'.k.sync
            && s.w.acked[p] <= s'.w.acked[p]
            && s'.d.committed[p] == if step == BrokerCommit(p) then s.w.acked[p] else s.d.committed[p]
  {
  }

  lemma WaitsForAdd(s: State, step: Step, x: Stamp)
    requires Placed(s) && Enabled(s, step) && !step.CrashRestart? && s.w.loop == Adding(x)
    ensures if step.AddToken? then x.part < |Apply(s, step).w.fetched| && x.off < Frontier(Apply(s, step), x.part)
            else Apply(s, step).w.loop == Adding(x)
  {
  }

  lemma ReturnedStep(s: State, step: Step, x: Stamp, added: bool, caught: bool)
    requires Returned(s, x, added, caught) && Enabled(s, step) && !step.CrashRestart?
    ensures Returned(Apply(s, step), x, added || step.AddToken?, caught || step == BrokerCommit(x.part))
  {
    PlacedKept(s, step);
    OnlyTheBroker(s, step, x.part);
    if added { FrontierGrows(s, step, x.part); } else { WaitsForAdd(s, step, x); }
  }

  lemma {:induction false} ReturnedAlongRun(s: State, run: seq<Step>, x: Stamp, added: bool, caught: bool)
    requires Returned(s, x, added, caught) && Legal(s, run) && CrashRestart !in run
    ensures Returned(After(s, run), x, added || Step.AddToken in run, caught || BrokerCommit(x.part) in run)
    decreases |run|
  {
    if run != [] {
      ReturnedStep(s, run[0], x, added, caught);
      assert run == [run[0]] + run[1..];
      var added', caught' := added || run[0].AddToken?, caught || run[0] == BrokerCommit(x.part);
      ReturnedAlongRun(Apply(s, run[0]), run[1..], x, added', caught');
    }
  }

  /**
   After the commit of `x` has returned, with commits that take effect later: the next crash replays `x` if and
   only if it was handed to the buffers and the broker did not catch up with its partition in between.
   */
  lemma ReplayedIffNotCaughtUp(s: State, run: seq<Step>, x: Stamp)
    requires Inv(s) && !s.k.sync && s.w.loop == Committing(x) && Enabled(s, Commit(true))
    requires Legal(Apply(s, Commit(true)), run) && CrashRestart !in run
    ensures var t := After(Apply(s, Commit(true)), run);
            var crashes := Apply(t, CrashRestart).h.crashes;
            && |crashes| == |t.h.crashes| + 1
            && (InGap(crashes[|t.h.crashes|], x) <==> Step.AddToken in run && BrokerCommit(x.part) !in run)
  {
    CommitReturns(s, x);
    ReturnedAlongRun(Apply(s, Commit(true)), run, x, false, false);
  }

  /** No crash of `t` after those of `s` replays `x`. */
  ghost predicate Spared(s: State, t: State, x: Stamp) {
    |s.h.crashes| <= |t.h.crashes| &&
    forall i :: |s.h.crashes| <= i < |t.h.crashes| ==> !InGap(t.h.crashes[i], x)
  }

  lemma CommittedGrows(s: State, step: Step, p: nat)
    requires Placed(s) && Enabled(s, step) && p < |s.d.committed|
    ensures p < |Apply(s, step).d.committed| && s.d.committed[p] <= Apply(s, step).d.committed[p]
  {
  }

  lemma CrashSpares(s: State, step: Step, x: Stamp)
    requires Enabled(s, step) && x.part < |s.d.committed| && x.off < s.d.committed[x.part]
    ensures Spared(s, Apply(s, step), x) && s.h.crashes <= Apply(s, step).h.crashes
  {
  }

  lemma SparedTransitive(s: State, t: State, u: State, x: Stamp)
    requires Spared(s, t, x) && Spared(t, u, x) && t.h.crashes <= u.h.crashes
    ensures Spared(s, u, x)
  {
    forall i | |s.h.crashes| <= i < |u.h.crashes| ensures !InGap(u.h.crashes[i], x) {
      if i < |t.h.crashes| { assert u.h.crashes[i] == t.h.crashes[i]; }
    }
  }

  /** What is committed is replayed by no crash any more, however the run goes on. */
  lemma {:induction false} CommittedIsSpared(s: State, run: seq<Step>, x: Stamp)
    requires Inv(s) && Legal(s, run) && x.part < |s.d.committed| && x.off < s.d.committed[x.part]
    ensures Spared(s, After(s, run), x) && s.h.crashes <= After(s, run).h.crashes
    decreases |run|
  {
    if run != [] {
      var s' := Apply(s, run[0]);
      InvKept(s, run[0]);
      CommittedGrows(s, run[0], x.part);
      CrashSpares(s, run[0], x);
      CommittedIsSpared(s', run[1..], x);
      SparedTransitive(s, s', After(s, run), x);
    }
  }

  /**
   Once the broker has caught up with the partition of a position whose commit had returned, no later crash
   replays it.
   */
  lemma CaughtUpIsSafe(s: State, x: Stamp, run: seq<Step>)
    requires Inv(s) && x.part < |s.w.acked| && x.off < s.w.acked[x.part] && Enabled(s, BrokerCommit(x.part))
    requires Legal(Apply(s, BrokerCommit(x.part)), run)
    ensures Spared(s, After(Apply(s, BrokerCommit(x.part)), run), x)
  {
    var s' := Apply(s, BrokerCommit(x.part));
    InvKept(s, BrokerCommit(x.part));
    CommittedIsSpared(s', run, x);
  }
}
