/**
 The persistence worker as an object. Each method is one locked region, compare-and-swap, broker
 call or database statement of the consume loop, the ticker or a flush, and moves the object's
 abstract state by exactly one step of the persistence machine.
 */
module PersistenceWorker {
  import opened Types
  import opened FlushBatch
  import opened MessageStore
  import opened PersistSession
  import opened PersistenceMachine

  class PersistenceWorkerImpl {
    const useCase: PersistSessionUseCase
    const sync: bool

    // the reader's view of the broker
    var logs: seq<seq<TokenEvent>>
    var committed: seq<nat>
    var fetched: seq<nat>
    var acked: seq<nat>

    // the atomic flag and the context
    var flushing: bool
    var cancelled: bool

    // where the goroutines stand, and the run so far
    ghost var loop: Loop
    ghost var flusher: Flusher
    ghost var flights: map<nat, Flight>
    ghost var history: History
    ghost const base: seq<Message>

    ghost function Abs(): State
      reads this, useCase, useCase.store
    {
      State(Constants(sync, base), Durable(logs, committed, useCase.store.rows),
            Worker(fetched, acked, loop, useCase.Mem(), flushing, flusher, flights, cancelled), history)
    }

    ghost predicate Valid()
      reads this, useCase, useCase.store
    {
      && useCase.store.Valid()
      && |committed| == |acked| == |fetched| == |logs|
    }

    constructor (useCase: PersistSessionUseCase, logs: seq<seq<TokenEvent>>, sync: bool)
      requires useCase.store.Valid() && useCase.Mem() == EMPTY
      ensures Valid() && Init(Abs())
      ensures this.useCase == useCase && this.logs == logs && this.sync == sync
    {
      this.useCase, this.logs, this.sync := useCase, logs, sync;
      committed := seq(|logs|, i => 0);
      fetched, acked := seq(|logs|, i => 0), seq(|logs|, i => 0);
      flushing, cancelled := false, false;
      loop, flusher, flights := Fetching, Waiting, map[];
      history := History([], [], [], [], false, false, false);
      base := useCase.store.rows;
    }

    // ---------------------------------------------------------------- the consume loop

    method FetchMessage(p: nat) returns (msg: Stamp)
      requires Valid() && Enabled(Abs(), Fetch(p))
      modifies this
      ensures Valid() && Abs() == Apply(old(Abs()), Fetch(p)) && loop == Committing(msg)
      ensures msg == Stamp(p, old(fetched)[p], logs[p][old(fetched)[p]]) && fetched == old(fetched)[p := msg.off + 1]
    {
      msg := Stamp(p, fetched[p], logs[p][fetched[p]]);
      fetched := fetched[p := fetched[p] + 1];
      loop := Committing(msg);
    }

    /** The commit comes before the token is buffered; `ok` is whether the call succeeds. */
    method CommitMessages(msg: Stamp, ok: bool)
      requires Valid() && loop == Committing(msg) && Enabled(Abs(), Commit(ok))
      modifies this
      ensures Valid() && Abs() == Apply(old(Abs()), Commit(ok)) && loop == Adding(msg)
      ensures acked == if ok then old(acked)[msg.part := msg.off + 1] else old(acked)
      ensures committed == if ok && sync then old(committed)[msg.part := msg.off + 1] else old(committed)
    {
      if ok {
        acked := acked[msg.part := msg.off + 1];
        if sync {
          committed := committed[msg.part := msg.off + 1];
        }
      }
      loop := Adding(msg);
    }

    method AddToken(msg: Stamp)
      requires Valid() && loop == Adding(msg)
      modifies this, useCase
      ensures Valid() && Abs() == Apply(old(Abs()), Step.AddToken) && loop == Checking
    {
      useCase.AddToken(msg.tok);
      history := history.(held := history.held + [msg], added := history.added + [msg]);
      loop := Checking;
    }

    method ShouldFlush() returns (yes: bool)
      requires Valid() && loop == Checking
      modifies this
      ensures Valid() && Abs() == Apply(old(Abs()), CheckThreshold)
      ensures loop == if yes then Triggering else Fetching
    {
      yes := useCase.ShouldFlush(TOKEN_THRESHOLD);
      loop := if yes then Triggering else Fetching;
    }

    method CompareAndSwap() returns (won: bool)
      modifies this`flushing
      ensures won == !old(flushing) && flushing
    {
      won := !flushing;
      flushing := true;
    }

    /** The threshold trigger: whoever wins the flag starts a flush goroutine `f`. */
    method TryTrigger(ghost f: nat) returns (won: bool)
      requires Valid() && Enabled(Abs(), Trigger(f))
      modifies this
      ensures Valid() && Abs() == Apply(old(Abs()), Trigger(f)) && won == !old(flushing) && flushing
      ensures flights == if won then old(flights)[f := Flight(Threshold, Started, map[], map[], [])] else old(flights)
    {
      won := CompareAndSwap();
      loop := Fetching;
      if won {
        history := history.(overlapped := history.overlapped || flights != map[]);
        flights := flights[f := Flight(Threshold, Started, map[], map[], [])];
      }
    }

    // ---------------------------------------------------------------- the flusher goroutine

    method TryTick(ghost f: nat) returns (won: bool)
      requires Valid() && Enabled(Abs(), Tick(f))
      modifies this
      ensures Valid() && Abs() == Apply(old(Abs()), Tick(f)) && won == !old(flushing) && flushing
      ensures flights == if won then old(flights)[f := Flight(Ticker, Started, map[], map[], [])] else old(flights)
    {
      won := CompareAndSwap();
      if won {
        history := history.(overlapped := history.overlapped || flights != map[]);
        flights := flights[f := Flight(Ticker, Started, map[], map[], [])];
        flusher := Running(f);
      }
    }

    /** On cancellation the flusher flushes once more, without asking for the flag. */
    method StopFlusher(ghost f: nat)
      requires Valid() && Enabled(Abs(), Step.Stop(f))
      modifies this
      ensures Valid() && Abs() == Apply(old(Abs()), Step.Stop(f)) && flushing == old(flushing)
      ensures flights == old(flights)[f := Flight(Shutdown, Started, map[], map[], [])]
    {
      history := history.(overlapped := history.overlapped || flights != map[]);
      flights := flights[f := Flight(Shutdown, Started, map[], map[], [])];
      flusher := Running(f);
    }

    // ---------------------------------------------------------------- the phases of a flush

    method FlushSnapshot(ghost f: nat) returns (snapshot: map<Id, TokenBuffer>)
      requires Valid() && Enabled(Abs(), Snapshot(f))
      modifies this, useCase
      ensures Valid() && Abs() == Apply(old(Abs()), Snapshot(f)) && f in flights
      ensures if snapshot == map[] then flights[f].phase == Finished
              else flights[f].phase == Snapped && flights[f].snap == snapshot
    {
      snapshot := useCase.TakeSnapshot();
      if snapshot == map[] {
        flights := flights[f := flights[f].(phase := Finished)];
      } else {
        flights := flights[f := flights[f].(phase := Snapped, snap := snapshot, src := history.held)];
        history := history.(held := []);
      }
    }

    method FlushRead(ghost f: nat, snapshot: map<Id, TokenBuffer>, fault: bool)
        returns (err: bool, existing: map<Id, string>)
      requires Valid() && Enabled(Abs(), Read(f, !fault)) && flights[f].snap == snapshot && snapshot != map[]
      modifies this
      ensures Valid() && Abs() == Apply(old(Abs()), Read(f, !fault)) && f in flights && err == fault
      ensures !err ==> flights[f].phase == Merged && flights[f].snap == snapshot && flights[f].existing == existing
    {
      err, existing := useCase.ReadExisting(snapshot, fault);
      if err {
        history := history.(ended := history.ended + [Ended(flights[f].src, false)], failed := true);
        flights := flights[f := flights[f].(phase := Finished, src := [])];
      } else {
        flights := flights[f := flights[f].(phase := Merged, existing := existing)];
      }
    }

    method FlushWrite(ghost f: nat, snapshot: map<Id, TokenBuffer>, existing: map<Id, string>, fault: Fault)
      returns (err: bool, ghost order: seq<Id>)
      requires Valid() && f in flights && flights[f].phase == Merged && snapshot != map[]
      requires flights[f].snap == snapshot && flights[f].existing == existing
      modifies this, useCase.store
      ensures Valid() && err == (fault != NoFault)
      ensures Enabled(old(Abs()), Upsert(f, order, !err)) && Abs() == Apply(old(Abs()), Upsert(f, order, !err))
    {
      var msgs;
      msgs, order := useCase.BuildBatch(snapshot, existing);
      assert |order| > 0 by { var r :| r in snapshot; assert r in order; }
      err := useCase.store.BulkUpsertMessages(msgs, fault);
      history := history.(ended := history.ended + [Ended(flights[f].src, !err)], failed := history.failed || err);
      flights := flights[f := flights[f].(phase := Finished, src := [])];
      assert Abs() == End(old(Abs()), f, !err, useCase.store.rows);
    }

    /** A guarded flush hands the flag back when it has returned. */
    method ReleaseFlight(ghost f: nat, guarded: bool)
      requires Valid() && Enabled(Abs(), Release(f)) && guarded == (flights[f].kind != Shutdown)
      modifies this
      ensures Valid() && Abs() == Apply(old(Abs()), Release(f))
      ensures flights == old(flights) - {f} && flushing == (old(flushing) && !guarded)
    {
      flusher := match flights[f].kind case Threshold => flusher case Ticker => Waiting case Shutdown => Stopped;
      flights := flights - {f};
      if guarded {
        flushing := false;
      }
    }

    // ---------------------------------------------------------------- the order the code runs them in

    /** One turn of the consume loop when nothing else runs: fetch, commit, buffer, then the trigger. */
    method Consume(p: nat, ok: bool, ghost f: nat) returns (spawn: bool, ghost run: seq<Step>)
      requires Valid() && Enabled(Abs(), Fetch(p)) && (sync ==> ok) && f !in flights
      modifies this, useCase
      ensures Valid() && Legal(old(Abs()), run) && Abs() == After(old(Abs()), run)
      ensures run == [Fetch(p), Commit(ok), Step.AddToken, CheckThreshold]
                     + if old(useCase.count) + 1 >= TOKEN_THRESHOLD then [Trigger(f)] else []
      ensures spawn <==> old(useCase.count) + 1 >= TOKEN_THRESHOLD && !old(flushing)
    {
      ghost var s := Abs();
      var msg;
      msg, run := Take(p, ok, s);
      ghost var s1 := Abs();
      AddToken(msg);
      run := Ran(s, run, s1, Step.AddToken, Abs());
      spawn, run := TestAndTrigger(f, s, run);
    }

    /** Fetch and commit: the offset is committed before the token is buffered. */
    method Take(p: nat, ok: bool, ghost s: State) returns (msg: Stamp, ghost run: seq<Step>)
      requires Valid() && Enabled(Abs(), Fetch(p)) && (sync ==> ok) && s == Abs()
      modifies this
      ensures Valid() && Legal(s, run) && Abs() == After(s, run) && run == [Fetch(p), Commit(ok)]
      ensures loop == Adding(msg) && flights == old(flights) && flushing == old(flushing)
    {
      msg := FetchMessage(p);
      run := Ran(s, [], s, Fetch(p), Abs());
      ghost var s1 := Abs();
      CommitMessages(msg, ok);
      run := Ran(s, run, s1, Commit(ok), Abs());
    }

    /** Threshold test and compare-and-swap: two atomic actions, the second only if the first says yes. */
    method TestAndTrigger(ghost f: nat, ghost s: State, ghost before: seq<Step>)
        returns (spawn: bool, ghost run: seq<Step>)
      requires Valid() && loop == Checking && f !in flights
      requires Legal(s, before) && Abs() == After(s, before)
      modifies this
      ensures Valid() && Legal(s, run) && Abs() == After(s, run)
      ensures run == before + [CheckThreshold] + if useCase.count >= TOKEN_THRESHOLD then [Trigger(f)] else []
      ensures spawn <==> useCase.count >= TOKEN_THRESHOLD && !old(flushing)
    {
      ghost var s1 := Abs();
      spawn := ShouldFlush();
      run := Ran(s, before, s1, CheckThreshold, Abs());
      if spawn {
        s1 := Abs();
        spawn := TryTrigger(f);
        run := Ran(s, run, s1, Trigger(f), Abs());
      }
    }

    /** The part of a flush that talks to the database. */
    method MergeAndUpsert(ghost f: nat, snapshot: map<Id, TokenBuffer>, readFault: bool, writeFault: Fault,
        ghost s: State, ghost before: seq<Step>)
      returns (err: bool, ghost run: seq<Step>)
      requires Valid() && f in flights && flights[f].phase == Snapped && flights[f].snap == snapshot
      requires snapshot != map[]
      requires Legal(s, before) && Abs() == After(s, before)
      modifies this, useCase.store
      ensures Valid() && Legal(s, run) && Abs() == After(s, run)
      ensures f in flights && flights[f].phase == Finished && flights[f].kind == old(flights[f].kind)
      ensures before <= run && (err <==> readFault || writeFault != NoFault)
    {
      ghost var s1 := Abs();
      var existing;
      err, existing := FlushRead(f, snapshot, readFault);
      run := Ran(s, before, s1, Read(f, !readFault), Abs());
      if !err {
        s1 := Abs();
        ghost var order;
        err, order := FlushWrite(f, snapshot, existing, writeFault);
        run := Ran(s, run, s1, Upsert(f, order, !err), Abs());
      }
    }

    /** A flush up to its end: the snapshot, and if there was anything to take, the database work. */
    method SnapshotAndWrite(ghost f: nat, readFault: bool, writeFault: Fault, ghost s: State)
        returns (err: bool, ghost run: seq<Step>)
      requires Valid() && f in flights && flights[f].phase == Started && s == Abs()
      modifies this, useCase, useCase.store
      ensures Valid() && Legal(s, run) && Abs() == After(s, run)
      ensures f in flights && flights[f].phase == Finished && flights[f].kind == old(flights[f].kind)
      ensures [Snapshot(f)] <= run
      ensures err <==> old(useCase.buffers) != map[] && (readFault || writeFault != NoFault)
    {
      err := false;
      var snapshot := FlushSnapshot(f);
      run := Ran(s, [], s, Snapshot(f), Abs());
      if snapshot != map[] {
        err, run := MergeAndUpsert(f, snapshot, readFault, writeFault, s, run);
      }
    }

    /** One flush when nothing else runs: snapshot first, the flag handed back last. */
    method RunFlush(ghost f: nat, guarded: bool, readFault: bool, writeFault: Fault)
        returns (err: bool, ghost run: seq<Step>)
      requires Valid() && f in flights && flights[f].phase == Started && guarded == (flights[f].kind != Shutdown)
      modifies this, useCase, useCase.store
      ensures Valid() && Legal(old(Abs()), run) && Abs() == After(old(Abs()), run)
      ensures |run| >= 2 && run[0] == Snapshot(f) && run[|run| - 1] == Release(f) && f !in flights
      ensures err <==> old(useCase.buffers) != map[] && (readFault || writeFault != NoFault)
    {
      ghost var s := Abs();
      err, run := SnapshotAndWrite(f, readFault, writeFault, s);
      ghost var s1 := Abs();
      ReleaseFlight(f, guarded);
      run := Ran(s, run, s1, Release(f), Abs());
    }
  }

  lemma Ran(s: State, run: seq<Step>, s1: State, step: Step, s2: State) returns (run': seq<Step>)
    requires Legal(s, run) && s1 == After(s, run) && Enabled(s1, step) && s2 == Apply(s1, step)
    ensures run' == run + [step] && Legal(s, run') && s2 == After(s, run')
  {
    Extend(s, run, step);
    run' := run + [step];
  }
}
