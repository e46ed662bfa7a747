/**
 How many tokens an unfailing worker can lose when it is cancelled: none up to the flush threshold,
 whatever flushes overlap, because until then at most one flush ever carries tokens.
 */
module PersistenceThreshold {
  import opened Types
  import opened MessageTable
  import opened FlushBatch
  import opened PersistenceMachine
  import opened PersistenceInvariant
  import opened PersistenceTheorems
  import opened PersistenceWitness

  /** Flight `f` carries tokens. */
  ghost predicate Laden(s: State, f: nat) {
    f in s.w.flights && s.w.flights[f].src != []
  }

  /** One flight at most carries tokens; ended flushes, that flight and the buffers hold what was added, in order. */
  ghost predicate Aligned(s: State) {
    && (forall f, g :: Laden(s, f) && Laden(s, g) ==> f == g)
    && (s.h.added == All(s.h.ended) + s.h.held || exists f :: Laden(s, f))
    && (forall f :: Laden(s, f) ==> s.h.added == All(s.h.ended) + s.w.flights[f].src + s.h.held)
  }

  /** The threshold was reached, or flushes overlapped, which takes a threshold flush. */
  ghost predicate Triggered(s: State) {
    s.w.loop == Triggering || s.h.overlapped || exists f :: f in s.w.flights && s.w.flights[f].kind == Threshold
  }

  /** Then that many tokens were added, and all of them or none are buffered. */
  ghost predicate Gathered(s: State) {
    Triggered(s) ==> |s.h.added| >= TOKEN_THRESHOLD && (s.h.held == [] || s.h.held == s.h.added)
  }

  /** The table spells what the ended flushes carried, and what a flush has read is still there. */
  ghost predicate TableCurrent(s: State) {
    && (forall r :: Stored(s.d.rows, r) == Stored(s.k.base, r) + Text(Of(r, Toks(All(s.h.ended)))))
    && (forall f :: f in s.w.flights && s.w.flights[f].phase == Merged ==> ReadIsCurrent(s, f))
  }

  ghost predicate Lossless(s: State) {
    Aligned(s) && Gathered(s) && TableCurrent(s)
  }

  lemma LosslessInitially(s: State)
    requires Init(s)
    ensures Lossless(s)
  {
    forall r ensures Stored(s.d.rows, r) == Stored(s.k.base, r) + Text(Of(r, Toks(All(s.h.ended)))) {
      assert Stored(s.k.base, r) + "" == Stored(s.k.base, r);
    }
  }

  // ---------------------------------------------------------------- in order

  lemma AlignedStill(s: State, s': State)
    requires Aligned(s) && s'.h.added == s.h.added && s'.h.ended == s.h.ended && s'.h.held == s.h.held
    requires forall f :: Laden(s', f) <==> Laden(s, f)
    requires forall f :: Laden(s, f) && Laden(s', f) ==> s'.w.flights[f].src == s.w.flights[f].src
    ensures Aligned(s')
  {
  }

  /** One flight starts, or moves on with what it carries. */
  lemma AlignedOne(s: State, s': State, f: nat)
    requires Aligned(s) && s'.h.added == s.h.added && s'.h.ended == s.h.ended && s'.h.held == s.h.held
    requires f in s'.w.flights && s'.w.flights == s.w.flights[f := s'.w.flights[f]]
    requires s'.w.flights[f].src == if f in s.w.flights then s.w.flights[f].src else []
    ensures Aligned(s')
  {
    forall g ensures Laden(s', g) <==> Laden(s, g) {}
    AlignedStill(s, s');
  }

  lemma AlignedAdd(s: State, s': State, st: Stamp)
    requires Aligned(s) && s'.w.flights == s.w.flights && s'.h.ended == s.h.ended
    requires s'.h.added == s.h.added + [st] && s'.h.held == s.h.held + [st]
    ensures Aligned(s')
  {
    forall g ensures Laden(s', g) <==> Laden(s, g) {}
    forall f | Laden(s', f) ensures s'.h.added == All(s'.h.ended) + s'.w.flights[f].src + s'.h.held {
      assert s.h.added == All(s.h.ended) + s.w.flights[f].src + s.h.held;
    }
    if !exists f :: Laden(s, f) {
      assert s'.h.added == All(s'.h.ended) + s'.h.held;
    }
  }

  /** Beside a flight that carries tokens one that carries none finds the buffers empty. */
  lemma NothingBuffered(s: State, f: nat, g: nat)
    requires Guard(s) && Aligned(s) && Gathered(s) && Laden(s, g)
    requires f in s.w.flights && s.w.flights[f].src == []
    ensures s.h.held == []
  {
    assert |s.h.added| == |All(s.h.ended)| + |s.w.flights[g].src| + |s.h.held|;
  }

  lemma AlignedSnapshot(s: State, s': State, f: nat)
    requires Guard(s) && Aligned(s) && Gathered(s) && f in s.w.flights && s.w.flights[f].src == [] && s.h.held != []
    requires s'.w.flights
          == s.w.flights[f := s.w.flights[f].(phase := Snapped, snap := s.w.mem.buffers, src := s.h.held)]
    requires s'.h.held == [] && s'.h.added == s.h.added && s'.h.ended == s.h.ended
    ensures Aligned(s')
  {
    forall g ensures !Laden(s, g) {
      if Laden(s, g) { NothingBuffered(s, f, g); }
    }
    assert Laden(s', f) && forall g :: Laden(s', g) ==> g == f;
    assert s'.h.added == All(s'.h.ended) + s'.w.flights[f].src + s'.h.held;
  }

  lemma AlignedEnd(s: State, s': State, f: nat)
    requires Aligned(s) && Laden(s, f)
    requires s'.w.flights == s.w.flights[f := s.w.flights[f].(phase := Finished, src := [])]
    requires s'.h.ended == s.h.ended + [Ended(s.w.flights[f].src, true)]
    requires s'.h.added == s.h.added && s'.h.held == s.h.held
    ensures Aligned(s')
  {
    EndedSnoc(s.h.ended, Ended(s.w.flights[f].src, true));
    forall g ensures !Laden(s', g) { assert Laden(s', g) ==> Laden(s, g); }
    assert s'.h.added == All(s'.h.ended) + s'.h.held;
  }

  lemma AlignedRelease(s: State, f: nat)
    requires Buffered(s) && Aligned(s) && Enabled(s, Release(f))
    ensures Aligned(Apply(s, Release(f)))
  {
    var s' := Apply(s, Release(f));
    assert Loads(s.w.flights[f]);
    forall g ensures Laden(s', g) <==> Laden(s, g) {}
    AlignedStill(s, s');
  }

  lemma HeldIffBuffered(s: State)
    requires Buffered(s)
    ensures s.h.held == [] <==> s.w.mem.buffers == map[]
    ensures |s.h.held| == s.w.mem.count
  {
    NothingCollected(Toks(s.h.held));
    CollectHolds(Toks(s.h.held), "");
  }

  lemma AlignedFlight(s: State, s': State, step: Step)
    requires Guard(s) && Buffered(s) && Aligned(s) && Gathered(s) && FlightStep(step)
    requires Enabled(s, step) && s' == Apply(s, step) && !s'.h.failed
    ensures Aligned(s')
  {
    HeldIffBuffered(s);
    assert Loads(s.w.flights[step.f]);
    match step
    case Snapshot(f) => if s.w.mem.buffers == map[] { AlignedOne(s, s', f); } else { AlignedSnapshot(s, s', f); }
    case Upsert(f, order, ok) => AlignedEnd(s, s', f);
    case Read(f, ok) => AlignedOne(s, s', f);
    case _ =>
  }

  lemma AlignedTurns(s: State, s': State, step: Step)
    requires Buffered(s) && Aligned(s) && !LoopStep(step) && !FlightStep(step)
    requires Enabled(s, step) && s' == Apply(s, step) && !s'.h.failed
    ensures Aligned(s')
  {
    match step
    case Release(f) => AlignedRelease(s, f);
    case Trigger(f) => if !s.w.flushing { AlignedOne(s, s', f); } else { AlignedStill(s, s'); }
    case Tick(f) => if !s.w.flushing { AlignedOne(s, s', f); }
    case Stop(f) => AlignedOne(s, s', f);
    case Cancel => AlignedStill(s, s');
    case _ =>
  }

  lemma AlignedKept(s: State, s': State, step: Step)
    requires Guard(s) && Buffered(s) && Aligned(s) && Gathered(s)
    requires Enabled(s, step) && s' == Apply(s, step) && !s'.h.failed
    ensures Aligned(s')
  {
    if step.AddToken? {
      AlignedAdd(s, s', s.w.loop.st);
    } else if LoopStep(step) {
      LoopStepKeeps(s, s', step);
      AlignedStill(s, s');
    } else if FlightStep(step) {
      AlignedFlight(s, s', step);
    } else {
      AlignedTurns(s, s', step);
    }
  }

  // ---------------------------------------------------------------- all of them or none

  /** The tokens stay where they are and the threshold is not passed. */
  lemma GatheredStill(s: State, s': State)
    requires Gathered(s) && s'.h.added == s.h.added && s'.h.held == s.h.held
    requires Triggered(s') ==> Triggered(s)
    ensures Gathered(s')
  {
  }

  lemma HeldIsLast(s: State)
    requires Aligned(s)
    ensures |s.h.held| <= |s.h.added| && (|s.h.held| == |s.h.added| ==> s.h.held == s.h.added)
  {
    if f :| Laden(s, f) {
      assert |s.h.added| == |All(s.h.ended)| + |s.w.flights[f].src| + |s.h.held|;
    } else {
      assert |s.h.added| == |All(s.h.ended)| + |s.h.held|;
    }
  }

  /** The test that sends the loop to its trigger has seen every token in the buffers. */
  lemma GatheredCheck(s: State, s': State)
    requires Buffered(s) && Aligned(s) && Gathered(s) && |s.h.added| <= TOKEN_THRESHOLD
    requires Enabled(s, CheckThreshold) && s' == Apply(s, CheckThreshold)
    ensures Gathered(s')
  {
    HeldIffBuffered(s);
    HeldIsLast(s);
  }

  lemma GatheredAdd(s: State, s': State)
    requires Gathered(s) && Enabled(s, AddToken) && s' == Apply(s, AddToken) && |s'.h.added| <= TOKEN_THRESHOLD
    ensures Gathered(s')
  {
    assert Triggered(s') ==> Triggered(s);
  }

  /** A flush that the consume loop or the shutdown starts beside another one meets a threshold flush. */
  lemma GatheredLaunch(s: State, s': State, f: nat, kind: Kind)
    requires Guard(s) && Gathered(s) && f !in s.w.flights
    requires if kind == Threshold then s.w.loop == Triggering else s.w.flusher == Waiting
    requires s'.w.flights == s.w.flights[f := Flight(kind, Started, map[], map[], [])]
    requires s'.h.added == s.h.added && s'.h.held == s.h.held
    requires s'.h.overlapped == (s.h.overlapped || s.w.flights != map[])
    requires s'.w.loop == Triggering ==> s.w.loop == Triggering
    ensures Gathered(s')
  {
    if kind != Threshold {
      assert forall g :: g in s.w.flights ==> s.w.flights[g].kind == Threshold;
    }
    GatheredStill(s, s');
  }

  lemma GatheredOne(s: State, s': State, f: nat)
    requires Gathered(s) && s'.h.added == s.h.added && (s'.h.held == s.h.held || s'.h.held == [])
    requires f in s.w.flights && f in s'.w.flights && s'.w.flights == s.w.flights[f := s'.w.flights[f]]
    requires s'.w.flights[f].kind == s.w.flights[f].kind
    requires s'.w.loop == s.w.loop && s'.h.overlapped == s.h.overlapped
    ensures Gathered(s')
  {
    assert Triggered(s') ==> Triggered(s);
  }

  lemma GatheredRelease(s: State, f: nat)
    requires Gathered(s) && Enabled(s, Release(f))
    ensures Gathered(Apply(s, Release(f)))
  {
    assert Triggered(Apply(s, Release(f))) ==> Triggered(s);
  }

  lemma GatheredTurns(s: State, s': State, step: Step)
    requires Guard(s) && Gathered(s) && !LoopStep(step) && !FlightStep(step)
    requires Enabled(s, step) && s' == Apply(s, step) && !s'.h.failed
    ensures Gathered(s')
  {
    match step
    case Trigger(f) => if s.w.flushing { GatheredStill(s, s'); } else { GatheredLaunch(s, s', f, Threshold); }
    case Tick(f) => if !s.w.flushing { GatheredLaunch(s, s', f, Ticker); }
    case Stop(f) => GatheredLaunch(s, s', f, Shutdown);
    case Release(f) => GatheredRelease(s, f);
    case Cancel => GatheredStill(s, s');
    case _ =>
  }

  lemma GatheredKept(s: State, s': State, step: Step)
    requires Guard(s) && Buffered(s) && Aligned(s) && Gathered(s)
    requires Enabled(s, step) && s' == Apply(s, step) && !s'.h.failed && |s'.h.added| <= TOKEN_THRESHOLD
    ensures Gathered(s')
  {
    if step.CheckThreshold? {
      GatheredCheck(s, s');
    } else if step.AddToken? {
      GatheredAdd(s, s');
    } else if LoopStep(step) {
      LoopStepKeeps(s, s', step);
      GatheredStill(s, s');
    } else if FlightStep(step) {
      FlightStepMoves(s, s', step);
      GatheredOne(s, s', step.f);
    } else {
      GatheredTurns(s, s', step);
    }
  }

  // ---------------------------------------------------------------- the table

  lemma CurrentStill(s: State, s': State)
    requires TableCurrent(s) && s'.d.rows == s.d.rows && s'.k == s.k && s'.h.ended == s.h.ended
    requires s'.w.flights == s.w.flights
    ensures TableCurrent(s')
  {
    forall f | f in s.w.flights ensures ReadIsCurrent(s', f) <==> ReadIsCurrent(s, f) {}
  }

  /** One flight starts, or moves on without having read. */
  lemma CurrentOne(s: State, s': State, f: nat)
    requires TableCurrent(s) && s'.d.rows == s.d.rows && s'.k == s.k && s'.h.ended == s.h.ended
    requires f in s'.w.flights && s'.w.flights == s.w.flights[f := s'.w.flights[f]] && s'.w.flights[f].phase != Merged
    ensures TableCurrent(s')
  {
    forall g | g in s'.w.flights && g != f ensures ReadIsCurrent(s', g) <==> ReadIsCurrent(s, g) {}
  }

  lemma CurrentRelease(s: State, f: nat)
    requires TableCurrent(s) && Enabled(s, Release(f))
    ensures TableCurrent(Apply(s, Release(f)))
  {
    var s' := Apply(s, Release(f));
    forall g | g in s'.w.flights ensures ReadIsCurrent(s', g) <==> ReadIsCurrent(s, g) {}
  }

  lemma CurrentRead(s: State, f: nat)
    requires TableCurrent(s) && Enabled(s, Read(f, true))
    ensures TableCurrent(Apply(s, Read(f, true)))
  {
    var s' := Apply(s, Read(f, true));
    forall g | g in s'.w.flights && s'.w.flights[g].phase == Merged ensures ReadIsCurrent(s', g) {
      if g != f { assert ReadIsCurrent(s, g); }
    }
  }

  /** The upsert finds what it read. */
  lemma CurrentText(s: State, f: nat, order: seq<Id>, rows: seq<Message>, r: Id)
    requires f in s.w.flights && Loads(s.w.flights[f]) && s.w.flights[f].phase == Merged && ReadIsCurrent(s, f)
    requires Stored(s.d.rows, r) == Stored(s.k.base, r) + Text(Of(r, Toks(All(s.h.ended))))
    requires Enumerates(order, s.w.flights[f].snap.Keys)
    requires rows == UpsertRows(s.d.rows, Batch(order, s.w.flights[f].snap, s.w.flights[f].existing))
    ensures Stored(rows, r)
         == Stored(s.k.base, r) + Text(Of(r, Toks(All(s.h.ended + [Ended(s.w.flights[f].src, true)]))))
  {
    var fl := s.w.flights[f];
    EndedSnoc(s.h.ended, Ended(fl.src, true));
    FlushSpells(s.d.rows, order, fl.snap, fl.existing, r, Stored(s.k.base, r), Toks(All(s.h.ended)), Toks(fl.src));
    ToksConcat(All(s.h.ended), fl.src);
  }

  /** Beside a flight that has read no other flight has. */
  lemma SoleReader(s: State, f: nat, g: nat)
    requires Buffered(s) && Aligned(s) && f in s.w.flights && s.w.flights[f].phase == Merged
    requires g in s.w.flights && s.w.flights[g].phase == Merged
    ensures f == g
  {
    assert Loads(s.w.flights[f]) && Loads(s.w.flights[g]);
    assert Laden(s, f) && Laden(s, g);
  }

  lemma NoReaderLeft(s: State, s': State, f: nat)
    requires Buffered(s) && Aligned(s) && f in s.w.flights && s.w.flights[f].phase == Merged && f in s'.w.flights
    requires s'.w.flights == s.w.flights[f := s'.w.flights[f]] && s'.w.flights[f].phase == Finished
    ensures forall g :: g in s'.w.flights ==> s'.w.flights[g].phase != Merged
  {
    forall g | g in s'.w.flights ensures s'.w.flights[g].phase != Merged {
      if g != f && s.w.flights[g].phase == Merged { SoleReader(s, f, g); }
    }
  }

  lemma CurrentUpsert(s: State, s': State, f: nat, order: seq<Id>)
    requires Buffered(s) && Aligned(s) && TableCurrent(s) && Enabled(s, Upsert(f, order, true)) && s'.k == s.k
    requires s'.d.rows == UpsertRows(s.d.rows, Batch(order, s.w.flights[f].snap, s.w.flights[f].existing))
    requires s'.h.ended == s.h.ended + [Ended(s.w.flights[f].src, true)]
    requires s'.w.flights == s.w.flights[f := s.w.flights[f].(phase := Finished, src := [])]
    ensures TableCurrent(s')
  {
    assert Loads(s.w.flights[f]) && ReadIsCurrent(s, f);
    forall r ensures Stored(s'.d.rows, r) == Stored(s'.k.base, r) + Text(Of(r, Toks(All(s'.h.ended)))) {
      CurrentText(s, f, order, s'.d.rows, r);
    }
    NoReaderLeft(s, s', f);
  }

  lemma CurrentKept(s: State, s': State, step: Step)
    requires Buffered(s) && Aligned(s) && TableCurrent(s)
    requires Enabled(s, step) && s' == Apply(s, step) && !s'.h.failed
    ensures TableCurrent(s')
  {
    match step
    case Upsert(f, order, ok) => CurrentUpsert(s, s', f, order);
    case Read(f, ok) => CurrentRead(s, f);
    case Trigger(f) => if s.w.flushing { CurrentStill(s, s'); } else { CurrentOne(s, s', f); }
    case Tick(f) => if !s.w.flushing { CurrentOne(s, s', f); }
    case Stop(f) => CurrentOne(s, s', f);
    case Snapshot(f) => CurrentOne(s, s', f);
    case Release(f) => CurrentRelease(s, f);
    case CrashRestart =>
    case _ => CurrentStill(s, s');
  }

  // ---------------------------------------------------------------- whole runs

  lemma LosslessKept(s: State, s': State, step: Step)
    requires Inv(s) && Lossless(s) && Enabled(s, step) && s' == Apply(s, step)
    requires !s'.h.failed && |s'.h.added| <= TOKEN_THRESHOLD
    ensures Lossless(s')
  {
    AlignedKept(s, s', step);
    GatheredKept(s, s', step);
    CurrentKept(s, s', step);
  }

  /** History only grows. */
  lemma HistoryStep(s: State, step: Step)
    requires Enabled(s, step)
    ensures |s.h.added| <= |Apply(s, step).h.added|
    ensures s.h.failed ==> Apply(s, step).h.failed
  {
  }

  lemma {:induction false} HistoryGrows(s: State, run: seq<Step>)
    requires Legal(s, run)
    ensures |s.h.added| <= |After(s, run).h.added|
    ensures s.h.failed ==> After(s, run).h.failed
    decreases |run|
  {
    if run != [] {
      HistoryStep(s, run[0]);
      HistoryGrows(Apply(s, run[0]), run[1..]);
    }
  }

  lemma {:induction false} LosslessAlongRun(s: State, run: seq<Step>)
    requires Inv(s) && Lossless(s) && Legal(s, run)
    requires !After(s, run).h.failed && |After(s, run).h.added| <= TOKEN_THRESHOLD
    ensures Lossless(After(s, run))
    decreases |run|
  {
    if run != [] {
      var s' := Apply(s, run[0]);
      HistoryGrows(s', run[1..]);
      LosslessKept(s, s', run[0]);
      InvKept(s, run[0]);
      LosslessAlongRun(s', run[1..]);
    }
  }

  lemma LadenTextIs(t: State, r: Id)
    requires Buffered(t) && Aligned(t)
    ensures Stored(t.k.base, r) + Text(Of(r, Toks(All(t.h.ended)))) + InFlightText(t, r)
            + BufferedText(t.w.mem.buffers, r)
         == Stored(t.k.base, r) + Text(Of(r, Toks(t.h.added)))
  {
    BufferedTextOf(Toks(t.h.held), r);
    if f :| f in t.w.flights && CarriesSnapshot(t.w.flights[f]) {
      forall g | g in t.w.flights && CarriesSnapshot(t.w.flights[g]) ensures g == f {
        assert Loads(t.w.flights[f]) && Loads(t.w.flights[g]) && Laden(t, f) && Laden(t, g);
      }
      assert Loads(t.w.flights[f]) && Laden(t, f);
      BufferedTextOf(Toks(t.w.flights[f].src), r);
      SplitText(r, All(t.h.ended), t.w.flights[f].src, t.h.held, Stored(t.k.base, r));
    } else {
      forall f ensures !Laden(t, f) { assert f in t.w.flights ==> Loads(t.w.flights[f]); }
      assert All(t.h.ended) + [] + t.h.held == t.h.added;
      assert Toks([]) == [];
      SplitText(r, All(t.h.ended), [], t.h.held, Stored(t.k.base, r));
    }
  }

  /**
   While no call has failed and at most TOKEN_THRESHOLD tokens were added, cancelled or not and whatever
   flushes overlap: table, snapshot in flight and buffers hold every delta exactly once and in order.
   */
  lemma ShortRunsLoseNothing(s: State, run: seq<Step>, t: State, r: Id)
    requires Reachable(s, run, t) && !t.h.failed && |t.h.added| <= TOKEN_THRESHOLD
    ensures Stored(t.d.rows, r) + InFlightText(t, r) + BufferedText(t.w.mem.buffers, r)
         == Stored(s.d.rows, r) + Text(Of(r, Toks(t.h.added)))
  {
    ReachableInv(s, run, t);
    FollowsRun(s, run);
    InvInitially(s);
    LosslessInitially(s);
    LosslessAlongRun(s, run);
    LadenTextIs(t, r);
  }

  // ---------------------------------------------------------------- the bound is exact

  /** The buffers are empty and no flush carries a snapshot. */
  ghost predicate Drained(t: State) {
    t.w.mem.buffers == map[] && forall f :: f in t.w.flights ==> !CarriesSnapshot(t.w.flights[f])
  }

  /** The table holds for `r` what it held at the start and then every delta that was added. */
  ghost predicate AllStored(s: State, t: State, r: Id) {
    Stored(t.d.rows, r) == Stored(s.d.rows, r) + Text(Of(r, Toks(t.h.added)))
  }

  /** A run of at most `n` tokens in which no call failed and everything was flushed. */
  ghost predicate Unfailing(s: State, run: seq<Step>, n: nat) {
    Legal(s, run) && !After(s, run).h.failed && |After(s, run).h.added| <= n && Drained(After(s, run))
  }

  /** Every such run has stored everything. */
  ghost predicate NothingLostUpTo(s: State, n: nat) {
    forall run, r :: Unfailing(s, run, n) ==> AllStored(s, After(s, run), r)
  }

  lemma DrainedShortRun(s: State, run: seq<Step>, t: State, r: Id)
    requires Reachable(s, run, t) && !t.h.failed && |t.h.added| <= TOKEN_THRESHOLD && Drained(t)
    ensures AllStored(s, t, r)
  {
    ShortRunsLoseNothing(s, run, t, r);
    assert Stored(t.d.rows, r) + "" + "" == Stored(t.d.rows, r);
  }

  lemma {:induction false} CopiesText(x: TokenEvent, n: nat)
    requires |x.delta| == 1
    ensures |Text(Of(x.requestID, Copies(x, n)))| == n
  {
    if n > 0 {
      CopiesText(x, n - 1);
      assert Copies(x, n)[..n - 1] == Copies(x, n - 1);
    }
  }

  /** One token more than the threshold, and the shutdown flush can overwrite a flush. */
  lemma LongerRunLoses(s: State) returns (run: seq<Step>, r: Id)
    requires Init(s) && 0 < |s.d.logs| && s.d.logs[0] == []
    ensures Unfailing(s, run, TOKEN_THRESHOLD + 1) && !AllStored(s, After(s, run), r)
  {
    var tok := TokenEvent("", "", "", "x", false);
    run := UnguardedShutdownLosesDeltas(s, tok);
    r := tok.requestID;
    var t := After(s, run);
    CopiesText(tok, TOKEN_THRESHOLD + 1);
    assert |Toks(t.h.added)| == |t.h.added|;
    assert |Stored(t.d.rows, r)| == |Stored(s.d.rows, r)| + 1;
  }

  /**
   No unfailing run of at most `n` tokens loses text, with any cancellation and any overlap of flushes, if
   `n` is at most the flush threshold; and, whatever the table and the other partitions hold, only if.
   */
  lemma LosslessIffWithinThreshold(s: State, n: nat)
    requires Init(s)
    ensures n <= TOKEN_THRESHOLD ==> NothingLostUpTo(s, n)
    ensures 0 < |s.d.logs| && s.d.logs[0] == [] ==> (NothingLostUpTo(s, n) <==> n <= TOKEN_THRESHOLD)
  {
    if n <= TOKEN_THRESHOLD {
      forall run, r | Unfailing(s, run, n) ensures AllStored(s, After(s, run), r) {
        DrainedShortRun(s, run, After(s, run), r);
      }
    } else if 0 < |s.d.logs| && s.d.logs[0] == [] {
      var run, r := LongerRunLoses(s);
      assert Unfailing(s, run, n);
    }
  }
}
