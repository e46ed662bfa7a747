/** The inductive invariant of the persistence machine, one lemma for each part. */
module PersistenceInvariant {
  import opened Types
  import opened MessageTable
  import opened FlushBatch
  import opened PersistenceMachine

  ghost predicate Inv(s: State) {
    Guard(s) && Buffered(s) && Written(s) && Accounted(s) && Counted(s) && Placed(s) && Ordered(s) && Copied(s) &&
        Pairs(s)
  }

  lemma InvInitially(s: State)
    requires Init(s)
    ensures Inv(s)
  {
  }

  lemma InvKept(s: State, step: Step)
    requires Inv(s) && Enabled(s, step)
    ensures Inv(Apply(s, step))
  {
    GuardKept(s, step);
    BufferedKept(s, step);
    WrittenKept(s, step);
    AccountedKept(s, step);
    GuardLeavesOneEach(s);
    GuardLeavesOneEach(Apply(s, step));
    CountedKept(s, Apply(s, step), step);
    PlacedKept(s, step);
    OrderedKept(s, step);
    CopiedKept(s, step);
    PairsKept(s, step);
  }

  lemma {:induction false} InvAlongRun(s: State, run: seq<Step>)
    requires Inv(s) && Legal(s, run)
    ensures Inv(After(s, run))
    decreases |run|
  {
    if run != [] {
      InvKept(s, run[0]);
      InvAlongRun(Apply(s, run[0]), run[1..]);
    }
  }

  // ---------------------------------------------------------------- kinds of steps

  /** A step of the producers, the broker or the consume loop up to its trigger: no flush and no row moves. */
  predicate LoopStep(step: Step) {
    step.Append? || step.Fetch? || step.Commit? || step.BrokerCommit? || step.AddToken? || step.CheckThreshold?
  }

  lemma LoopStepKeeps(s: State, s': State, step: Step)
    requires LoopStep(step) && Enabled(s, step) && s' == Apply(s, step)
    ensures s'.k == s.k && s'.d.rows == s.d.rows && s'.w.flights == s.w.flights && s'.w.flushing == s.w.flushing
    ensures s'.w.flusher == s.w.flusher && s'.w.cancelled == s.w.cancelled
    ensures s'.h.ended == s.h.ended && s'.h.everCancelled == s.h.everCancelled && s'.h.overlapped == s.h.overlapped
    ensures !step.AddToken? ==> s'.h.added == s.h.added && s'.h.held == s.h.held && s'.w.mem == s.w.mem
    ensures !step.CheckThreshold? ==> s'.w.loop != Triggering || s.w.loop == Triggering
  {
  }

  /** A flush goes on: only its own flight changes. */
  predicate FlightStep(step: Step) {
    step.Snapshot? || step.Read? || step.Upsert?
  }

  lemma FlightStepMoves(s: State, s': State, step: Step)
    requires FlightStep(step) && Enabled(s, step) && s' == Apply(s, step)
    ensures s'.k == s.k && s'.w.flushing == s.w.flushing && s'.w.flusher == s.w.flusher
    ensures s'.w.cancelled == s.w.cancelled && s'.w.loop == s.w.loop
    ensures step.f in s.w.flights && step.f in s'.w.flights
    ensures s'.w.flights == s.w.flights[step.f := s'.w.flights[step.f]]
    ensures s'.w.flights[step.f].kind == s.w.flights[step.f].kind
    ensures s'.h.everCancelled == s.h.everCancelled && s'.h.overlapped == s.h.overlapped && s'.h.added == s.h.added
    ensures s'.h.held == s.h.held || s'.h.held == []
  {
  }

  // ---------------------------------------------------------------- the guard

  ghost predicate Guarded(s: State, f: nat) {
    f in s.w.flights && s.w.flights[f].kind != Shutdown
  }

  /** At most one flush holds the flag, and the flusher goroutine is inside at most one flush. */
  ghost predicate Guard(s: State) {
    && (s.w.flushing <==> exists f :: Guarded(s, f))
    && (forall f, g :: Guarded(s, f) && Guarded(s, g) ==> f == g)
    && (forall f :: f in s.w.flights && s.w.flights[f].kind != Threshold ==> s.w.flusher == Running(f))
    && (forall f :: f in s.w.flights && s.w.flights[f].kind == Shutdown ==> s.h.everCancelled)
    && (s.w.cancelled || s.h.overlapped ==> s.h.everCancelled)
    && (!s.h.overlapped ==> forall f, g :: f in s.w.flights && g in s.w.flights ==> f == g)
  }

  lemma SameKinds(s: State, s': State)
    requires Guard(s)
    requires s'.w.flights.Keys == s.w.flights.Keys && forall f :: f in s.w.flights ==>
        s'.w.flights[f].kind == s.w.flights[f].kind
    requires s'.w.flushing == s.w.flushing && s'.w.flusher == s.w.flusher
    requires s'.w.cancelled == s.w.cancelled && s'.h.everCancelled == s.h.everCancelled
    requires s'.h.overlapped == s.h.overlapped
    ensures Guard(s')
  {
    forall f ensures Guarded(s', f) <==> Guarded(s, f) {
      assert f in s'.w.flights <==> f in s.w.flights;
    }
    assert forall f :: f in s'.w.flights ==> f in s.w.flights;
  }

  lemma GuardStill(s: State, s': State)
    requires Guard(s) && s'.w.flights == s.w.flights && s'.w.flushing == s.w.flushing && s'.w.flusher == s.w.flusher
    requires s'.w.cancelled == s.w.cancelled && s'.h.everCancelled == s.h.everCancelled
    requires s'.h.overlapped == s.h.overlapped
    ensures Guard(s')
  {
    SameKinds(s, s');
  }

  lemma GuardMove(s: State, s': State, f: nat)
    requires Guard(s) && f in s.w.flights && f in s'.w.flights && s'.w.flights[f].kind == s.w.flights[f].kind
    requires s'.w.flights == s.w.flights[f := s'.w.flights[f]]
    requires s'.w.flushing == s.w.flushing && s'.w.flusher == s.w.flusher && s'.w.cancelled == s.w.cancelled
    requires s'.h.everCancelled == s.h.everCancelled && s'.h.overlapped == s.h.overlapped
    ensures Guard(s')
  {
    SameKinds(s, s');
  }

  lemma GuardLaunch(s: State, s': State, f: nat, kind: Kind)
    requires Guard(s) && !s.w.flushing && f !in s.w.flights && kind != Shutdown
    requires s'.w.flights == s.w.flights[f := Flight(kind, Started, map[], map[], [])] && s'.w.flushing
    requires s'.h.overlapped == (s.h.overlapped || s.w.flights != map[])
    requires s'.w.cancelled == s.w.cancelled && s'.h.everCancelled == s.h.everCancelled
    requires kind == Ticker ==> s.w.flusher == Waiting && s'.w.flusher == Running(f)
    requires kind == Threshold ==> s'.w.flusher == s.w.flusher
    ensures Guard(s')
  {
    assert Guarded(s', f);
    forall g | g in s.w.flights ensures s.w.flights[g].kind == Shutdown {
      assert !Guarded(s, g);
    }
    assert forall g :: Guarded(s', g) ==> g == f;
  }

  lemma GuardCancel(s: State, s': State)
    requires Guard(s) && s' == Apply(s, Cancel)
    ensures Guard(s')
  {
    forall f ensures Guarded(s', f) <==> Guarded(s, f) {}
  }

  lemma GuardStop(s: State, s': State, f: nat)
    requires Guard(s) && Enabled(s, Step.Stop(f)) && s' == Apply(s, Step.Stop(f))
    ensures Guard(s')
  {
    forall g ensures Guarded(s', g) <==> Guarded(s, g) {}
  }

  lemma GuardRelease(s: State, s': State, f: nat)
    requires Guard(s) && Enabled(s, Release(f)) && s' == Apply(s, Release(f))
    ensures Guard(s')
  {
    forall g ensures Guarded(s', g) <==> Guarded(s, g) && g != f {}
    if s.w.flights[f].kind != Shutdown { assert Guarded(s, f); }
  }

  /** A flush starts or ends, or the worker does. */
  lemma GuardTurns(s: State, s': State, step: Step)
    requires Guard(s) && Enabled(s, step) && s' == Apply(s, step) && !LoopStep(step) && !FlightStep(step)
    ensures Guard(s')
  {
    match step
    case Trigger(f) => if s.w.flushing { GuardStill(s, s'); } else { GuardLaunch(s, s', f, Threshold); }
    case Tick(f) => if !s.w.flushing { GuardLaunch(s, s', f, Ticker); }
    case Stop(f) => GuardStop(s, s', f);
    case Release(f) => GuardRelease(s, s', f);
    case Cancel => GuardCancel(s, s');
    case _ =>
  }

  lemma GuardKept(s: State, step: Step)
    requires Guard(s) && Enabled(s, step)
    ensures Guard(Apply(s, step))
  {
    var s' := Apply(s, step);
    if LoopStep(step) {
      LoopStepKeeps(s, s', step);
      GuardStill(s, s');
    } else if FlightStep(step) {
      FlightStepMoves(s, s', step);
      GuardMove(s, s', step.f);
    } else {
      GuardTurns(s, s', step);
    }
  }

  // ---------------------------------------------------------------- buffers and snapshots

  ghost predicate CarriesSnapshot(fl: Flight) {
    fl.phase == Snapped || fl.phase == Merged
  }

  /** A flight holds its snapshot, or it carries nothing. */
  ghost predicate Loads(fl: Flight) {
    if CarriesSnapshot(fl) then fl.src != [] && fl.snap == Collect(Toks(fl.src)).buffers else fl.src == []
  }

  /** The buffers hold exactly the tokens added since the last snapshot; a snapshot holds exactly its own. */
  ghost predicate Buffered(s: State) {
    && s.w.mem == Collect(Toks(s.h.held))
    && forall f :: f in s.w.flights ==> Loads(s.w.flights[f])
  }

  lemma BufferedStill(s: State, s': State)
    requires Buffered(s) && s'.w.mem == s.w.mem && s'.h.held == s.h.held && s'.w.flights == s.w.flights
    ensures Buffered(s')
  {
  }

  /** One flight moves on; the others and the buffers stay. */
  lemma BufferedMove(s: State, s': State, f: nat)
    requires Buffered(s) && s'.w.mem == s.w.mem && s'.h.held == s.h.held && f in s'.w.flights
    requires s'.w.flights == s.w.flights[f := s'.w.flights[f]] && Loads(s'.w.flights[f])
    ensures Buffered(s')
  {
  }

  lemma BufferedRelease(s: State, f: nat)
    requires Buffered(s) && Enabled(s, Release(f))
    ensures Buffered(Apply(s, Release(f)))
  {
  }

  lemma BufferedCrash(s: State)
    ensures Buffered(Apply(s, CrashRestart))
  {
  }

  lemma BufferedRead(s: State, f: nat)
    requires Buffered(s) && Enabled(s, Read(f, true))
    ensures Buffered(Apply(s, Read(f, true)))
  {
    assert Loads(s.w.flights[f]);
    BufferedMove(s, Apply(s, Read(f, true)), f);
  }

  lemma BufferedAdd(s: State, s': State)
    requires Buffered(s) && s.w.loop.Adding? && s'.w.flights == s.w.flights
    requires s'.w.mem == Added(s.w.mem, s.w.loop.st.tok) && s'.h.held == s.h.held + [s.w.loop.st]
    ensures Buffered(s')
  {
    CollectSnoc(Toks(s.h.held), s.w.loop.st.tok);
    assert Toks(s'.h.held) == Toks(s.h.held) + [s.w.loop.st.tok];
  }

  lemma BufferedSnapshot(s: State, s': State, f: nat)
    requires Buffered(s) && f in s.w.flights && s.w.flights[f].phase == Started && s.w.mem.buffers != map[]
    requires s'.w.mem == EMPTY && s'.h.held == []
    requires s'.w.flights
          == s.w.flights[f := s.w.flights[f].(phase := Snapped, snap := s.w.mem.buffers, src := s.h.held)]
    ensures Buffered(s')
  {
    assert Toks(s.h.held) == [] <==> s.h.held == [];
    assert s.h.held != [];
    assert Toks(s'.h.held) == [];
  }

  lemma BufferedKept(s: State, step: Step)
    requires Buffered(s) && Enabled(s, step)
    ensures Buffered(Apply(s, step))
  {
    var s' := Apply(s, step);
    match step
    case AddToken => BufferedAdd(s, s');
    case Snapshot(f) => if s.w.mem.buffers == map[] { BufferedMove(s, s', f); } else { BufferedSnapshot(s, s', f); }
    case Trigger(f) => if s.w.flushing { BufferedStill(s, s'); } else { BufferedMove(s, s', f); }
    case Tick(f) => if !s.w.flushing { BufferedMove(s, s', f); }
    case Stop(f) => BufferedMove(s, s', f);
    case Read(f, ok) => if ok { BufferedRead(s, f); } else { BufferedMove(s, s', f); }
    case Upsert(f, order, ok) => BufferedMove(s, s', f);
    case Release(f) => BufferedRelease(s, f);
    case CrashRestart => BufferedCrash(s);
    case _ => BufferedStill(s, s');
  }

  // ---------------------------------------------------------------- the table

  /**
   Without overlapping flushes: stored text is the initial text and the successful snapshots, and what a flush
   read is still current.
   */
  ghost predicate Written(s: State) {
    !s.h.overlapped ==>
      && (forall r :: Stored(s.d.rows, r) == Stored(s.k.base, r) + Text(Of(r, Toks(Kept(s.h.ended)))))
      && (forall f :: f in s.w.flights && s.w.flights[f].phase == Merged ==> ReadIsCurrent(s, f))
  }

  ghost predicate ReadIsCurrent(s: State, f: nat)
    requires f in s.w.flights
  {
    forall r :: r in s.w.flights[f].snap ==> Entry(s.w.flights[f].existing, r) == Stored(s.d.rows, r)
  }

  lemma EndedSnoc(ended: seq<Ended>, e: Ended)
    ensures All(ended + [e]) == All(ended) + e.src
    ensures Kept(ended + [e]) == Kept(ended) + if e.ok then e.src else []
    ensures Lost(ended + [e]) == Lost(ended) + if e.ok then [] else e.src
  {
    assert (ended + [e])[..|ended|] == ended;
  }

  lemma ToksConcat(a: seq<Stamp>, b: seq<Stamp>)
    ensures Toks(a + b) == Toks(a) + Toks(b)
  {
  }

  /** No flight changes. */
  lemma WrittenStill(s: State, s': State)
    requires Written(s) && s'.d.rows == s.d.rows && s'.k.base == s.k.base && s'.h.ended == s.h.ended
    requires s'.h.overlapped == s.h.overlapped && s'.w.flights == s.w.flights
    ensures Written(s')
  {
    forall f | f in s.w.flights ensures ReadIsCurrent(s', f) <==> ReadIsCurrent(s, f) {}
  }

  /** One flight starts, or moves on without having read. */
  lemma WrittenOne(s: State, s': State, f: nat)
    requires Written(s) && s'.d.rows == s.d.rows && s'.k.base == s.k.base && s'.h.ended == s.h.ended
    requires s.h.overlapped ==> s'.h.overlapped
    requires f in s'.w.flights && s'.w.flights == s.w.flights[f := s'.w.flights[f]] && s'.w.flights[f].phase != Merged
    ensures Written(s')
  {
    forall g | g in s'.w.flights && g != f ensures ReadIsCurrent(s', g) <==> ReadIsCurrent(s, g) {}
  }

  lemma WrittenRelease(s: State, f: nat)
    requires Written(s) && Enabled(s, Release(f))
    ensures Written(Apply(s, Release(f)))
  {
    var s' := Apply(s, Release(f));
    forall g | g in s'.w.flights ensures ReadIsCurrent(s', g) <==> ReadIsCurrent(s, g) {}
  }

  lemma WrittenFailure(s: State, f: nat)
    requires Written(s) && f in s.w.flights
    ensures Written(End(s, f, false, s.d.rows))
  {
    var s' := End(s, f, false, s.d.rows);
    EndedSnoc(s.h.ended, Ended(s.w.flights[f].src, false));
    assert Kept(s'.h.ended) == Kept(s.h.ended);
    if !s.h.overlapped {
      forall r ensures Stored(s'.d.rows, r) == Stored(s'.k.base, r) + Text(Of(r, Toks(Kept(s'.h.ended)))) {
        assert Stored(s.d.rows, r) == Stored(s.k.base, r) + Text(Of(r, Toks(Kept(s.h.ended))));
      }
      forall g | g in s'.w.flights && s'.w.flights[g].phase == Merged ensures ReadIsCurrent(s', g) {
        assert ReadIsCurrent(s, g);
      }
    }
  }

  lemma WrittenRead(s: State, f: nat)
    requires Written(s) && Enabled(s, Read(f, true))
    ensures Written(Apply(s, Read(f, true)))
  {
    var s' := Apply(s, Read(f, true));
    if !s.h.overlapped {
      forall g | g in s'.w.flights && s'.w.flights[g].phase == Merged ensures ReadIsCurrent(s', g) {
        if g != f { assert ReadIsCurrent(s, g); }
      }
    }
  }

  lemma WrittenUpsert(s: State, f: nat, order: seq<Id>)
    requires Guard(s) && Buffered(s) && Written(s) && Enabled(s, Upsert(f, order, true)) && !s.h.overlapped
    ensures Written(Apply(s, Upsert(f, order, true)))
  {
    var s' := Apply(s, Upsert(f, order, true));
    var fl := s.w.flights[f];
    assert ReadIsCurrent(s, f);
    EndedSnoc(s.h.ended, Ended(fl.src, true));
    forall r ensures Stored(s'.d.rows, r) == Stored(s.k.base, r) + Text(Of(r, Toks(Kept(s'.h.ended)))) {
      FlushSpells(s.d.rows, order, fl.snap, fl.existing, r, Stored(s.k.base, r), Toks(Kept(s.h.ended)), Toks(fl.src));
      ToksConcat(Kept(s.h.ended), fl.src);
    }
  }

  lemma DiscardedEnds(s: State)
    ensures Kept(s.h.ended + Discarded(s)) == Kept(s.h.ended)
    ensures All(s.h.ended + Discarded(s)) ==
            All(s.h.ended) + Carried(s.w.flights, false) + Carried(s.w.flights, true) + s.h.held
  {
    var e, f, g := Discarded(s)[0], Discarded(s)[1], Discarded(s)[2];
    EndedSnoc(s.h.ended, e);
    EndedSnoc(s.h.ended + [e], f);
    EndedSnoc(s.h.ended + [e] + [f], g);
    assert s.h.ended + Discarded(s) == s.h.ended + [e] + [f] + [g];
  }

  lemma WrittenCrash(s: State)
    requires Written(s)
    ensures Written(Apply(s, CrashRestart))
  {
    var s' := Apply(s, CrashRestart);
    DiscardedEnds(s);
    assert Kept(s'.h.ended) == Kept(s.h.ended) && s'.d.rows == s.d.rows && s'.k == s.k;
    if !s.h.overlapped {
      forall r ensures Stored(s'.d.rows, r) == Stored(s'.k.base, r) + Text(Of(r, Toks(Kept(s'.h.ended)))) {
        assert Stored(s.d.rows, r) == Stored(s.k.base, r) + Text(Of(r, Toks(Kept(s.h.ended))));
      }
    }
  }

  lemma WrittenFlight(s: State, s': State, step: Step)
    requires Guard(s) && Buffered(s) && Written(s) && Enabled(s, step) && s' == Apply(s, step) && FlightStep(step)
    ensures Written(s')
  {
    match step
    case Upsert(f, order, ok) =>
      if !ok { WrittenFailure(s, f); } else if !s.h.overlapped { WrittenUpsert(s, f, order); }
    case Read(f, ok) => if ok { WrittenRead(s, f); } else { WrittenFailure(s, f); }
    case Snapshot(f) => WrittenOne(s, s', f);
    case _ =>
  }

  lemma WrittenKept(s: State, step: Step)
    requires Guard(s) && Buffered(s) && Written(s) && Enabled(s, step)
    ensures Written(Apply(s, step))
  {
    var s' := Apply(s, step);
    match step
    case CrashRestart => WrittenCrash(s);
    case Trigger(f) => if s.w.flushing { WrittenStill(s, s'); } else { WrittenOne(s, s', f); }
    case Tick(f) => if !s.w.flushing { WrittenOne(s, s', f); }
    case Stop(f) => WrittenOne(s, s', f);
    case Release(f) => WrittenRelease(s, f);
    case _ => if FlightStep(step) { WrittenFlight(s, s', step); } else { WrittenStill(s, s'); }
  }

  // ---------------------------------------------------------------- where every token went

  /**
   Without overlapping flushes: the tokens added so far are the ended ones, then the ones in flight, then the
   buffered ones.
   */
  ghost predicate Accounted(s: State) {
    !s.h.overlapped ==>
      && (s.w.flights == map[] ==> s.h.added == All(s.h.ended) + s.h.held)
      && (forall f :: f in s.w.flights ==> s.h.added == All(s.h.ended) + s.w.flights[f].src + s.h.held)
  }

  lemma AccountedFrame(s: State, s': State)
    requires Accounted(s) && s'.h.ended == s.h.ended && s'.h.added == s.h.added && s'.h.held == s.h.held
    requires s'.w.flights == s.w.flights && (s.h.overlapped ==> s'.h.overlapped)
    ensures Accounted(s')
  {
  }

  lemma AccountedLaunch(s: State, s': State, f: nat, kind: Kind)
    requires Accounted(s) && s'.h.ended == s.h.ended && s'.h.added == s.h.added && s'.h.held == s.h.held
    requires s'.w.flights == s.w.flights[f := Flight(kind, Started, map[], map[], [])]
    requires s'.h.overlapped == (s.h.overlapped || s.w.flights != map[])
    ensures Accounted(s')
  {
  }

  lemma AccountedAdd(s: State)
    requires Accounted(s) && Enabled(s, AddToken)
    ensures Accounted(Apply(s, AddToken))
  {
    var s' := Apply(s, AddToken);
    if !s.h.overlapped {
      forall f | f in s'.w.flights ensures s'.h.added == All(s'.h.ended) + s'.w.flights[f].src + s'.h.held {
        assert s.h.added == All(s.h.ended) + s.w.flights[f].src + s.h.held;
      }
    }
  }

  lemma AccountedSnapshot(s: State, s': State, f: nat)
    requires Guard(s) && Buffered(s) && Accounted(s) && f in s.w.flights && s.w.flights[f].phase == Started
    requires s'.w.flights
          == s.w.flights[f := s.w.flights[f].(phase := Snapped, snap := s.w.mem.buffers, src := s.h.held)]
    requires s'.h.held == [] && s'.h.added == s.h.added && s'.h.ended == s.h.ended && s'.h.overlapped == s.h.overlapped
    ensures Accounted(s')
  {
    assert s.w.flights[f].src == [] && f in s'.w.flights;
    if !s.h.overlapped {
      assert s'.h.added == All(s.h.ended) + s.w.flights[f].src + s.h.held;
      assert s'.h.added == All(s.h.ended) + s.h.held + s'.h.held;
      forall g | g in s'.w.flights ensures s'.h.added == All(s'.h.ended) + s'.w.flights[g].src + s'.h.held {
        assert g in s.w.flights && g == f;
      }
    }
  }

  lemma AccountedSkip(s: State, s': State, f: nat)
    requires Accounted(s) && f in s.w.flights
    requires s'.w.flights == s.w.flights[f := s.w.flights[f].(phase := Finished)]
    requires s'.h.held == s.h.held && s'.h.added == s.h.added && s'.h.ended == s.h.ended
    requires s'.h.overlapped == s.h.overlapped
    ensures Accounted(s')
  {
    assert forall g :: g in s'.w.flights ==> g in s.w.flights && s'.w.flights[g].src == s.w.flights[g].src;
  }

  lemma AccountedRelease(s: State, f: nat)
    requires Guard(s) && Buffered(s) && Accounted(s) && Enabled(s, Release(f))
    ensures Accounted(Apply(s, Release(f)))
  {
    assert s.w.flights[f].src == [];
  }

  lemma AccountedCrash(s: State)
    requires Guard(s) && Accounted(s)
    ensures Accounted(Apply(s, CrashRestart))
  {
    DiscardedEnds(s);
    if !s.h.overlapped {
      if f :| f in s.w.flights {
        CarriedAt(s.w.flights, f);
        assert s.h.added == All(s.h.ended) + s.w.flights[f].src + s.h.held;
      }
    }
  }

  lemma AccountedRead(s: State, f: nat)
    requires Accounted(s) && Enabled(s, Read(f, true))
    ensures Accounted(Apply(s, Read(f, true)))
  {
    var s' := Apply(s, Read(f, true));
    assert forall g :: g in s'.w.flights ==> g in s.w.flights && s'.w.flights[g].src == s.w.flights[g].src;
  }

  lemma AccountedEnd(s: State, f: nat, ok: bool)
    requires Guard(s) && Accounted(s) && f in s.w.flights
    ensures Accounted(End(s, f, ok, s.d.rows))
  {
    EndedSnoc(s.h.ended, Ended(s.w.flights[f].src, ok));
  }

  lemma AccountedFlight(s: State, s': State, step: Step)
    requires Guard(s) && Buffered(s) && Accounted(s) && Enabled(s, step) && s' == Apply(s, step) && FlightStep(step)
    ensures Accounted(s')
  {
    match step
    case Read(f, ok) => if ok { AccountedRead(s, f); } else { AccountedEnd(s, f, false); }
    case Upsert(f, order, ok) =>
      AccountedEnd(s, f, ok);
      AccountedFrame(End(s, f, ok, s.d.rows), s');
    case Snapshot(f) => if s.w.mem.buffers == map[] { AccountedSkip(s, s', f); } else { AccountedSnapshot(s, s', f); }
    case _ =>
  }

  lemma AccountedTurns(s: State, s': State, step: Step)
    requires Guard(s) && Buffered(s) && Accounted(s) && Enabled(s, step) && s' == Apply(s, step)
    requires !LoopStep(step) && !FlightStep(step)
    ensures Accounted(s')
  {
    match step
    case Trigger(f) => if s.w.flushing { AccountedFrame(s, s'); } else { AccountedLaunch(s, s', f, Threshold); }
    case Tick(f) => if !s.w.flushing { AccountedLaunch(s, s', f, Ticker); }
    case Stop(f) => AccountedLaunch(s, s', f, Shutdown);
    case Release(f) => AccountedRelease(s, f);
    case CrashRestart => AccountedCrash(s);
    case _ => AccountedFrame(s, s');
  }

  lemma AccountedKept(s: State, step: Step)
    requires Guard(s) && Buffered(s) && Accounted(s) && Enabled(s, step)
    ensures Accounted(Apply(s, step))
  {
    var s' := Apply(s, step);
    if step.AddToken? {
      AccountedAdd(s);
    } else if LoopStep(step) {
      LoopStepKeeps(s, s', step);
      AccountedFrame(s, s');
    } else if FlightStep(step) {
      AccountedFlight(s, s', step);
    } else {
      AccountedTurns(s, s', step);
    }
  }

  // ---------------------------------------------------------------- where every token went, overlaps included

  /** At most one flush of either kind: one that took the flag, and the shutdown flush. */
  ghost predicate OneEach(flights: map<nat, Flight>) {
    forall f, g :: f in flights && g in flights && (flights[f].kind == Shutdown <==> flights[g].kind == Shutdown) ==>
        f == g
  }

  lemma GuardLeavesOneEach(s: State)
    requires Guard(s)
    ensures OneEach(s.w.flights)
  {
    forall f, g | f in s.w.flights && g in s.w.flights &&
        (s.w.flights[f].kind == Shutdown <==> s.w.flights[g].kind == Shutdown)
      ensures f == g
    {
      if s.w.flights[f].kind != Shutdown {
        assert Guarded(s, f) && Guarded(s, g);
      } else {
        assert s.w.flusher == Running(f) && s.w.flusher == Running(g);
      }
    }
  }

  lemma CarriedAt(flights: map<nat, Flight>, f: nat)
    requires OneEach(flights) && f in flights
    ensures Carried(flights, flights[f].kind == Shutdown) == flights[f].src
    ensures (forall g :: g in flights ==> g == f) ==> Carried(flights, flights[f].kind != Shutdown) == []
  {
  }

  lemma CarriedSame(flights: map<nat, Flight>, flights': map<nat, Flight>, shutdown: bool)
    requires OneEach(flights) && OneEach(flights')
    requires forall f :: f in flights && (flights[f].kind == Shutdown <==> shutdown) ==>
               f in flights' && flights'[f].kind == flights[f].kind && flights'[f].src == flights[f].src
    requires forall f :: f in flights' && (flights'[f].kind == Shutdown <==> shutdown) ==>
               (f in flights && flights[f].kind == flights'[f].kind) || flights'[f].src == []
    ensures Carried(flights', shutdown) == Carried(flights, shutdown)
  {
    if f :| f in flights && (flights[f].kind == Shutdown <==> shutdown) {
      CarriedAt(flights, f);
      CarriedAt(flights', f);
    } else if f :| f in flights' && (flights'[f].kind == Shutdown <==> shutdown) {
      CarriedAt(flights', f);
    }
  }

  /** What the flushes under way carry. */
  ghost function InHand(s: State): multiset<Stamp> {
    multiset(Carried(s.w.flights, false)) + multiset(Carried(s.w.flights, true))
  }

  /** Every added token is in exactly one of the ended flushes, the flushes under way and the buffers. */
  ghost predicate Counted(s: State) {
    multiset(s.h.added) == multiset(All(s.h.ended)) + InHand(s) + multiset(s.h.held)
  }

  lemma CountedStill(s: State, s': State)
    requires Counted(s) && s'.w.flights == s.w.flights
    requires s'.h.added == s.h.added && s'.h.ended == s.h.ended && s'.h.held == s.h.held
    ensures Counted(s')
  {
  }

  /** One flight changes, or appears, without changing what it carries. */
  lemma InHandSame(s: State, s': State, f: nat)
    requires OneEach(s.w.flights) && OneEach(s'.w.flights) && f in s'.w.flights
    requires s'.w.flights == s.w.flights[f := s'.w.flights[f]]
    requires if f in s.w.flights then s'.w.flights[f].kind == s.w.flights[f].kind &&
        s'.w.flights[f].src == s.w.flights[f].src
             else s'.w.flights[f].src == []
    ensures InHand(s') == InHand(s)
  {
    CarriedSame(s.w.flights, s'.w.flights, false);
    CarriedSame(s.w.flights, s'.w.flights, true);
  }

  /** One flight changes what it carries. */
  lemma InHandMoves(s: State, s': State, f: nat)
    requires OneEach(s.w.flights) && OneEach(s'.w.flights) && f in s.w.flights && f in s'.w.flights
    requires s'.w.flights == s.w.flights[f := s'.w.flights[f]] && s'.w.flights[f].kind == s.w.flights[f].kind
    ensures InHand(s') + multiset(s.w.flights[f].src) == InHand(s) + multiset(s'.w.flights[f].src)
  {
    CarriedAt(s.w.flights, f);
    CarriedAt(s'.w.flights, f);
    CarriedSame(s.w.flights, s'.w.flights, s.w.flights[f].kind != Shutdown);
  }

  lemma HeldMoves(added: multiset<Stamp>, all: multiset<Stamp>, hand: multiset<Stamp>, held: multiset<Stamp>,
      hand': multiset<Stamp>)
    requires added == all + hand + held && hand' == hand + held
    ensures added == all + hand' + multiset{}
  {
  }

  lemma CountedSnapshot(s: State, s': State, f: nat)
    requires Buffered(s) && Counted(s) && OneEach(s.w.flights) && OneEach(s'.w.flights) && s.w.mem.buffers != map[]
    requires Enabled(s, Snapshot(f)) && s' == Apply(s, Snapshot(f))
    ensures Counted(s')
  {
    assert s.w.flights[f].src == [];
    InHandMoves(s, s', f);
    assert InHand(s') == InHand(s) + multiset(s.h.held);
    HeldMoves(multiset(s.h.added), multiset(All(s.h.ended)), InHand(s), multiset(s.h.held), InHand(s'));
  }

  lemma FlightEnds(added: multiset<Stamp>, all: multiset<Stamp>, hand: multiset<Stamp>, held: multiset<Stamp>,
                   hand': multiset<Stamp>, src: multiset<Stamp>)
    requires added == all + hand + held && hand' + src == hand
    ensures added == (all + src) + hand' + held
  {
  }

  lemma CountedEnd(s: State, s': State, f: nat, ok: bool)
    requires Counted(s) && OneEach(s.w.flights) && OneEach(s'.w.flights) && f in s.w.flights && f in s'.w.flights
    requires s'.w.flights == s.w.flights[f := s.w.flights[f].(phase := Finished, src := [])]
    requires s'.h.added == s.h.added && s'.h.held == s.h.held
    requires s'.h.ended == s.h.ended + [Ended(s.w.flights[f].src, ok)]
    ensures Counted(s')
  {
    var src := s.w.flights[f].src;
    EndedSnoc(s.h.ended, Ended(src, ok));
    InHandMoves(s, s', f);
    assert InHand(s') + multiset(src) == InHand(s);
    FlightEnds(multiset(s.h.added), multiset(All(s.h.ended)), InHand(s), multiset(s.h.held), InHand(s'), multiset(src));
    assert multiset(All(s.h.ended) + src) == multiset(All(s.h.ended)) + multiset(src);
  }

  lemma CountedRelease(s: State, s': State, f: nat)
    requires Buffered(s) && Counted(s) && OneEach(s.w.flights) && OneEach(s'.w.flights)
    requires Enabled(s, Release(f)) && s' == Apply(s, Release(f))
    ensures Counted(s')
  {
    assert s.w.flights[f].src == [];
    CarriedSame(s'.w.flights, s.w.flights, false);
    CarriedSame(s'.w.flights, s.w.flights, true);
  }

  lemma AllEnd(added: multiset<Stamp>, all: seq<Stamp>, a: seq<Stamp>, b: seq<Stamp>, held: seq<Stamp>)
    requires added == multiset(all) + (multiset(a) + multiset(b)) + multiset(held)
    ensures added == multiset(all + a + b + held)
  {
    assert multiset(all + a + b + held) == multiset(all) + multiset(a) + multiset(b) + multiset(held);
  }

  /** A crash ends everything under way. */
  lemma CountedCrash(s: State, s': State)
    requires Counted(s) && s'.h.added == s.h.added && s'.h.ended == s.h.ended + Discarded(s)
    requires s'.w.flights == map[] && s'.h.held == []
    ensures Counted(s')
  {
    DiscardedEnds(s);
    AllEnd(multiset(s.h.added), All(s.h.ended), Carried(s.w.flights, false), Carried(s.w.flights, true), s.h.held);
    assert Carried(s'.w.flights, false) == Carried(s'.w.flights, true) == [];
  }

  lemma CountedAdd(s: State, s': State, st: Stamp)
    requires Counted(s) && s'.w.flights == s.w.flights && s'.h.ended == s.h.ended
    requires s'.h.added == s.h.added + [st] && s'.h.held == s.h.held + [st]
    ensures Counted(s')
  {
  }

  lemma CountedKept(s: State, s': State, step: Step)
    requires Buffered(s) && Counted(s) && Enabled(s, step) && s' == Apply(s, step)
    requires OneEach(s.w.flights) && OneEach(s'.w.flights)
    ensures Counted(s')
  {
    match step
    case Tick(f) => if !s.w.flushing { InHandSame(s, s', f); }
    case Stop(f) => InHandSame(s, s', f);
    case Snapshot(f) => if s.w.mem.buffers == map[] { InHandSame(s, s', f); } else { CountedSnapshot(s, s', f); }
    case Read(f, ok) => if ok { InHandSame(s, s', f); } else { CountedEnd(s, s', f, ok); }
    case Upsert(f, order, ok) => CountedEnd(s, s', f, ok);
    case Release(f) => CountedRelease(s, s', f);
    case CrashRestart => CountedCrash(s, s');
    case AddToken => CountedAdd(s, s', s.w.loop.st);
    case Trigger(f) => if s.w.flushing { CountedStill(s, s'); } else { InHandSame(s, s', f); }
    case _ => CountedStill(s, s');
  }

  // ---------------------------------------------------------------- offsets

  ghost predicate InLog(s: State, st: Stamp) {
    st.part < |s.d.logs| && st.off < |s.d.logs[st.part]| && st.tok == s.d.logs[st.part][st.off]
  }

  ghost predicate Handing(s: State) {
    s.w.loop.Committing? || s.w.loop.Adding?
  }

  /** Committed, acknowledged and fetched offsets are in order, and every token carries its own position. */
  ghost predicate Placed(s: State) {
    && |s.d.committed| == |s.w.acked| == |s.w.fetched| == |s.d.logs|
    && (forall p :: 0 <= p < |s.d.logs| ==> s.d.committed[p] <= s.w.acked[p] <= s.w.fetched[p] <= |s.d.logs[p]|)
    && (Handing(s) ==> InLog(s, s.w.loop.st) && s.w.fetched[s.w.loop.st.part] == s.w.loop.st.off + 1)
    && (s.w.loop.Committing? ==> s.w.acked[s.w.loop.st.part] <= s.w.loop.st.off)
    && (s.k.sync && s.w.loop.Adding? ==> s.d.committed[s.w.loop.st.part] == s.w.loop.st.off + 1)
    && (forall x :: x in s.h.added ==> InLog(s, x))
    && (s.k.sync ==> forall p :: 0 <= p < |s.d.logs| ==> Frontier(s, p) <= s.d.committed[p])
    && (forall c :: c in s.h.crashes ==> |c.committed| == |c.reached| == |s.d.logs|)
    && (s.k.sync ==> forall c, p :: c in s.h.crashes && 0 <= p < |s.d.logs| ==> c.reached[p] <= c.committed[p])
  }

  lemma PlacedFrame(s: State, s': State)
    requires Placed(s) && s'.k.sync == s.k.sync && s'.d.logs == s.d.logs
    requires s'.d.committed == s.d.committed && s'.w.acked == s.w.acked && s'.w.fetched == s.w.fetched
    requires s'.h.crashes == s.h.crashes && s'.h.added == s.h.added
    requires s'.w.loop == s.w.loop || !(Handing(s) || Handing(s'))
    ensures Placed(s')
  {
    forall x | x in s'.h.added ensures InLog(s', x) { assert InLog(s, x); }
    assert forall p :: 0 <= p < |s.d.logs| ==> Frontier(s', p) == Frontier(s, p);
  }

  lemma PlacedAppend(s: State, p: nat, tok: TokenEvent)
    requires Placed(s) && Enabled(s, Append(p, tok))
    ensures Placed(Apply(s, Append(p, tok)))
  {
    var s' := Apply(s, Append(p, tok));
    forall x | x in s'.h.added ensures InLog(s', x) { assert InLog(s, x); }
    assert forall q :: 0 <= q < |s.d.logs| ==> Frontier(s', q) == Frontier(s, q);
  }

  lemma PlacedFetch(s: State, p: nat)
    requires Placed(s) && Enabled(s, Fetch(p))
    ensures Placed(Apply(s, Fetch(p)))
  {
    var s' := Apply(s, Fetch(p));
    forall x | x in s'.h.added ensures InLog(s', x) { assert InLog(s, x); }
    assert forall q :: 0 <= q < |s.d.logs| ==> Frontier(s', q) == Frontier(s, q);
  }

  lemma PlacedCommit(s: State, ok: bool)
    requires Placed(s) && Enabled(s, Commit(ok))
    ensures Placed(Apply(s, Commit(ok)))
  {
    var s' := Apply(s, Commit(ok));
    forall x | x in s'.h.added ensures InLog(s', x) { assert InLog(s, x); }
    assert forall q :: 0 <= q < |s.d.logs| ==> Frontier(s', q) == Frontier(s, q);
  }

  lemma PlacedBroker(s: State, p: nat)
    requires Placed(s) && Enabled(s, BrokerCommit(p))
    ensures Placed(Apply(s, BrokerCommit(p)))
  {
    var s' := Apply(s, BrokerCommit(p));
    forall x | x in s'.h.added ensures InLog(s', x) { assert InLog(s, x); }
  }

  lemma PlacedAdd(s: State)
    requires Placed(s) && Enabled(s, AddToken)
    ensures Placed(Apply(s, AddToken))
  {
    var s' := Apply(s, AddToken);
    forall x | x in s'.h.added ensures InLog(s', x) { assert x in s.h.added ==> InLog(s, x); }
    if s.k.sync {
      forall p | 0 <= p < |s.d.logs| ensures Frontier(s',
          p) <= s'.d.committed[p] { assert Frontier(s, p) <= s.d.committed[p]; }
    }
  }

  lemma PlacedCrash(s: State)
    requires Placed(s)
    ensures Placed(Apply(s, CrashRestart))
  {
    var s' := Apply(s, CrashRestart);
    forall x | x in s'.h.added ensures InLog(s', x) { assert InLog(s, x); }
    if s'.k.sync {
      forall c, p | c in s'.h.crashes && 0 <= p < |s'.d.logs| ensures c.reached[p] <= c.committed[p] {
        if c !in s.h.crashes { assert Frontier(s, p) <= s.d.committed[p]; }
      }
    }
  }

  lemma PlacedStill(s: State, s': State)
    requires Placed(s) && s'.k == s.k && s'.d.logs == s.d.logs && s'.d.committed == s.d.committed
    requires s'.w.acked == s.w.acked && s'.w.fetched == s.w.fetched && s'.w.loop == s.w.loop
    requires s'.h.crashes == s.h.crashes && s'.h.added == s.h.added
    ensures Placed(s')
  {
    PlacedFrame(s, s');
  }

  lemma PlacedKept(s: State, step: Step)
    requires Placed(s) && Enabled(s, step)
    ensures Placed(Apply(s, step))
  {
    match step
    case Append(p, tok) => PlacedAppend(s, p, tok);
    case Fetch(p) => PlacedFetch(s, p);
    case Commit(ok) => PlacedCommit(s, ok);
    case BrokerCommit(p) => PlacedBroker(s, p);
    case AddToken => PlacedAdd(s);
    case CrashRestart => PlacedCrash(s);
    case CheckThreshold => PlacedFrame(s, Apply(s, step));
    case Trigger(f) => PlacedFrame(s, Apply(s, step));
    case _ => PlacedStill(s, Apply(s, step));
  }

  /** At some crash the position had been handed to the buffers but was not yet committed. */
  ghost predicate Replayed(crashes: seq<Crash>, x: Stamp) {
    exists c :: c in crashes && InGap(c, x)
  }

  ghost predicate InGap(c: Crash, x: Stamp) {
    x.part < |c.committed| && x.part < |c.reached| && c.committed[x.part] <= x.off < c.reached[x.part]
  }

  /** Positions are handed over in increasing order, except for those a crash replays. */
  ghost predicate Ordered(s: State) {
    && |s.w.fetched| == |s.d.logs|
    && (forall x :: x in s.h.added ==>
        x.part < |s.w.fetched| && (x.off < Frontier(s, x.part) || Replayed(s.h.crashes, x)))
    && (forall i, j :: 0 <= i < j < |s.h.added| && s.h.added[i].part == s.h.added[j].part ==>
          s.h.added[i].off < s.h.added[j].off || Replayed(s.h.crashes, s.h.added[i]))
  }

  lemma OrderedFrame(s: State, s': State)
    requires Ordered(s) && s'.h.added == s.h.added && s'.h.crashes == s.h.crashes
    requires |s'.w.fetched| == |s'.d.logs| == |s.w.fetched|
    requires forall p :: 0 <= p < |s.w.fetched| ==> Frontier(s, p) <= Frontier(s', p)
    ensures Ordered(s')
  {
  }

  lemma OrderedAdd(s: State)
    requires Placed(s) && Ordered(s) && Enabled(s, AddToken)
    ensures Ordered(Apply(s, AddToken))
  {
    var s' := Apply(s, AddToken);
    forall x | x in s'.h.added ensures x.off < Frontier(s', x.part) || Replayed(s'.h.crashes, x) {
      assert x in s.h.added || x == s.w.loop.st;
    }
    forall i, j | 0 <= i < j < |s'.h.added| && s'.h.added[i].part == s'.h.added[j].part
      ensures s'.h.added[i].off < s'.h.added[j].off || Replayed(s'.h.crashes, s'.h.added[i])
    {
      assert s'.h.added[i] == s.h.added[i] && s.h.added[i] in s.h.added;
      if j < |s.h.added| { assert s'.h.added[j] == s.h.added[j]; }
    }
  }

  lemma OrderedCrash(s: State)
    requires Placed(s) && Ordered(s)
    ensures Ordered(Apply(s, CrashRestart))
  {
    var s' := Apply(s, CrashRestart);
    var c := Crash(s.d.committed, Reached(s));
    assert c in s'.h.crashes;
    forall x | Replayed(s.h.crashes, x) ensures Replayed(s'.h.crashes, x) {
      var d :| d in s.h.crashes && InGap(d, x);
      assert d in s'.h.crashes;
    }
    forall x | x in s'.h.added ensures x.off < Frontier(s', x.part) || Replayed(s'.h.crashes, x) {
      if s.d.committed[x.part] <= x.off < Frontier(s, x.part) { assert InGap(c, x); }
    }
  }

  lemma FrontiersSame(s: State, s': State)
    requires s'.w.fetched == s.w.fetched && (s'.w.loop == s.w.loop || !(Handing(s) || Handing(s')))
    ensures forall p :: 0 <= p < |s.w.fetched| ==> Frontier(s', p) == Frontier(s, p)
  {
  }

  lemma FrontiersFetch(s: State, p: nat)
    requires Enabled(s, Fetch(p))
    ensures |Apply(s, Fetch(p)).w.fetched| == |s.w.fetched|
    ensures forall q :: 0 <= q < |s.w.fetched| ==> Frontier(Apply(s, Fetch(p)), q) == Frontier(s, q)
  {
  }

  lemma FrontiersCommit(s: State, ok: bool)
    requires Enabled(s, Commit(ok))
    ensures Apply(s, Commit(ok)).w.fetched == s.w.fetched
    ensures forall q :: 0 <= q < |s.w.fetched| ==> Frontier(Apply(s, Commit(ok)), q) == Frontier(s, q)
  {
  }

  lemma FrontiersStay(s: State, step: Step)
    requires Enabled(s, step) && !step.AddToken? && !step.CrashRestart?
    ensures |Apply(s, step).w.fetched| == |s.w.fetched|
    ensures forall p :: 0 <= p < |s.w.fetched| ==> Frontier(Apply(s, step), p) == Frontier(s, p)
  {
    match step
    case Fetch(p) => FrontiersFetch(s, p);
    case Commit(ok) => FrontiersCommit(s, ok);
    case AddToken =>
    case CrashRestart =>
    case _ => FrontiersSame(s, Apply(s, step));
  }

  lemma OrderedKept(s: State, step: Step)
    requires Placed(s) && Ordered(s) && Enabled(s, step)
    ensures Ordered(Apply(s, step))
  {
    match step
    case AddToken => OrderedAdd(s);
    case CrashRestart => OrderedCrash(s);
    case _ =>
      FrontiersStay(s, step);
      OrderedFrame(s, Apply(s, step));
  }

  /** The added tokens of one partition. */
  function OnPart(p: nat, ss: seq<Stamp>): seq<TokenEvent> {
    if ss == [] then []
    else
      var rest := OnPart(p, ss[..|ss| - 1]);
      if ss[|ss| - 1].part == p then rest + [ss[|ss| - 1].tok] else rest
  }

  lemma OnPartSnoc(p: nat, ss: seq<Stamp>, x: Stamp)
    ensures OnPart(p, ss + [x]) == if x.part == p then OnPart(p, ss) + [x.tok] else OnPart(p, ss)
  {
    assert (ss + [x])[..|ss|] == ss;
  }

  /** Until the first crash, the tokens added from a partition are its log up to the frontier. */
  ghost predicate Copied(s: State) {
    s.h.crashes == [] ==>
      |s.w.fetched| == |s.d.logs| && forall p :: 0 <= p < |s.d.logs| ==>
        Frontier(s, p) <= |s.d.logs[p]| && OnPart(p, s.h.added) == s.d.logs[p][..Frontier(s, p)]
  }

  lemma CopiedFrame(s: State, s': State)
    requires Copied(s) && s'.h.added == s.h.added && s'.h.crashes == s.h.crashes
    requires |s'.w.fetched| == |s'.d.logs| == |s.w.fetched| == |s.d.logs|
    requires forall p :: 0 <= p < |s.d.logs| ==> Frontier(s', p) == Frontier(s, p) && s.d.logs[p] <= s'.d.logs[p]
    ensures Copied(s')
  {
  }

  lemma CopiedAdd(s: State)
    requires Placed(s) && Copied(s) && Enabled(s, AddToken)
    ensures Copied(Apply(s, AddToken))
  {
    var s' := Apply(s, AddToken);
    if s.h.crashes == [] {
      forall p | 0 <= p < |s.d.logs|
        ensures Frontier(s', p) <= |s'.d.logs[p]| && OnPart(p, s'.h.added) == s'.d.logs[p][..Frontier(s', p)]
      {
        assert OnPart(p, s.h.added) == s.d.logs[p][..Frontier(s, p)];
        OnPartSnoc(p, s.h.added, s.w.loop.st);
      }
    }
  }

  lemma CopiedKept(s: State, step: Step)
    requires Placed(s) && Copied(s) && Enabled(s, step)
    ensures Copied(Apply(s, step))
  {
    match step
    case AddToken => CopiedAdd(s);
    case CrashRestart =>
    case _ =>
      FrontiersStay(s, step);
      CopiedFrame(s, Apply(s, step));
  }

  // ---------------------------------------------------------------- history

  ghost predicate Pairs(s: State) {
    Paired(s.k.base) ==> Paired(s.d.rows)
  }

  lemma PairsUpsert(s: State, f: nat, order: seq<Id>)
    requires Pairs(s) && Enabled(s, Upsert(f, order, true))
    ensures Pairs(Apply(s, Upsert(f, order, true)))
  {
    if Paired(s.k.base) {
      BatchKeepsPairs(s.d.rows, order, s.w.flights[f].snap, s.w.flights[f].existing);
    }
  }

  lemma PairsKept(s: State, step: Step)
    requires Pairs(s) && Enabled(s, step)
    ensures Pairs(Apply(s, step))
  {
    if step.Upsert? && step.ok {
      PairsUpsert(s, step.f, step.order);
    }
  }
}
