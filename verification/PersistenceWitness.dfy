/**
 Two runs of the persistence machine that no step fails in and that nevertheless leave the table
 wrong: one shows why every flush must take the guard, the other why commits must not lag.
 */
module PersistenceWitness {
  import opened Types
  import opened MessageTable
  import opened FlushBatch
  import opened PersistenceMachine
  import opened PersistenceInvariant
  import opened PersistenceTheorems

  /** The consume loop can take a token of partition 0. */
  ghost predicate Ready(s: State) {
    && 0 < |s.d.logs| == |s.w.fetched| == |s.w.acked| == |s.d.committed|
    && s.w.fetched[0] < |s.d.logs[0]| && s.w.loop == Fetching
  }

  /** One turn of the consume loop over partition 0, up to the threshold test. */
  ghost function Consumed(s: State): State
    requires Ready(s)
  {
    var off := s.w.fetched[0];
    var st := Stamp(0, off, s.d.logs[0][off]);
    var mem := Added(s.w.mem, st.tok);
    s.(w := s.w.(fetched := s.w.fetched[0 := off + 1], acked := s.w.acked[0 := off + 1], mem := mem,
                 loop := if mem.count >= TOKEN_THRESHOLD then Triggering else Fetching),
       d := s.d.(committed := if s.k.sync then s.d.committed[0 := off + 1] else s.d.committed),
       h := s.h.(held := s.h.held + [st], added := s.h.added + [st]))
  }

  lemma Go(s: State, run: seq<Step>, step: Step) returns (run': seq<Step>)
    requires Legal(s, run) && Enabled(After(s, run), step)
    ensures Legal(s, run') && After(s, run') == Apply(After(s, run), step)
  {
    Extend(s, run, step);
    run' := run + [step];
  }

  lemma Take(s: State, run: seq<Step>) returns (run': seq<Step>)
    requires Legal(s, run) && Ready(After(s, run))
    ensures Legal(s, run')
    ensures var t := After(s, run);
            var off := t.w.fetched[0];
            After(s, run') == t.(w := t.w.(fetched := t.w.fetched[0 := off + 1], acked := t.w.acked[0 := off + 1],
                                           loop := Adding(Stamp(0, off, t.d.logs[0][off]))),
                                 d := if t.k.sync then t.d.(committed := t.d.committed[0 := off + 1]) else t.d)
  {
    run' := Go(s, run, Fetch(0));
    run' := Go(s, run', Commit(true));
  }

  lemma HandOver(s: State, run: seq<Step>) returns (run': seq<Step>)
    requires Legal(s, run) && After(s, run).w.loop.Adding?
    ensures Legal(s, run')
    ensures var t := After(s, run);
            var st := t.w.loop.st;
            var mem := Added(t.w.mem, st.tok);
            var loop := if mem.count >= TOKEN_THRESHOLD then Triggering else Fetching;
            After(s, run') == t.(w := t.w.(mem := mem, loop := loop),
                                 h := t.h.(held := t.h.held + [st], added := t.h.added + [st]))
  {
    run' := Go(s, run, AddToken);
    run' := Go(s, run', CheckThreshold);
  }

  lemma Turn(s: State, run: seq<Step>) returns (run': seq<Step>)
    requires Legal(s, run) && Ready(After(s, run))
    ensures Legal(s, run') && After(s, run') == Consumed(After(s, run))
  {
    run' := Take(s, run);
    run' := HandOver(s, run');
  }

  /** The flight has taken the buffers and read the table. */
  ghost function Loaded(s: State, f: nat): State
    requires f in s.w.flights
  {
    var snap := s.w.mem.buffers;
    var fl := s.w.flights[f].(phase := Merged, snap := snap, src := s.h.held,
      existing := ReadContents(s.d.rows, snap.Keys));
    s.(w := s.w.(flights := s.w.flights[f := fl], mem := EMPTY), h := s.h.(held := []))
  }

  lemma Load(s: State, run: seq<Step>, f: nat) returns (run': seq<Step>)
    requires Legal(s, run)
    requires var t := After(s, run);
             f in t.w.flights && t.w.flights[f].phase == Started && t.w.mem.buffers != map[]
    ensures Legal(s, run') && After(s, run') == Loaded(After(s, run), f)
  {
    run' := Go(s, run, Snapshot(f));
    run' := Go(s, run', Read(f, true));
    var t := After(s, run);
    var snapped := t.w.flights[f].(phase := Snapped, snap := t.w.mem.buffers, src := t.h.held);
    assert t.w.flights[f := snapped][f := Loaded(t, f).w.flights[f]] == Loaded(t, f).w.flights;
  }

  // ---------------------------------------------------------------- lagging commits

  /** A worker that has just started, or started again, with nothing committed and a token in partition 0. */
  ghost predicate Restarted(s: State) {
    && 0 < |s.d.logs| && s.d.logs[0] != [] && s.d.committed == seq(|s.d.logs|, i => 0) && !s.k.sync
    && s.w == Worker(s.d.committed, s.d.committed, Fetching, EMPTY, false, Waiting, map[], false)
    && !s.h.overlapped && !s.h.everCancelled && s.h.held == []
  }

  /** The first token of partition 0. */
  function First(s: State): Stamp
    requires 0 < |s.d.logs| && s.d.logs[0] != []
  {
    Stamp(0, 0, s.d.logs[0][0])
  }

  /** The ticker's flush carries the first token and has read the table. */
  ghost predicate FirstLoaded(t: State, u: State)
    requires 0 < |t.d.logs| && t.d.logs[0] != []
  {
    var tok := First(t).tok;
    && u.w.flights.Keys == {0} && u.w.flights[0].phase == Merged && u.w.flights[0].src == [First(t)]
    && u.w.flights[0].snap == map[tok.requestID := TokenBuffer(tok.sessionID, tok.userMessage, tok.delta)]
    && u.w.flights[0].existing == ReadContents(t.d.rows, {tok.requestID})
    && u.d == t.d && u.k == t.k && u.h.ended == t.h.ended && !u.h.overlapped && !u.h.everCancelled
  }

  lemma LoadFirst(s: State, run: seq<Step>) returns (run': seq<Step>)
    requires Legal(s, run) && Restarted(After(s, run))
    ensures Legal(s, run') && FirstLoaded(After(s, run), After(s, run'))
  {
    var tok := First(After(s, run)).tok;
    run' := Turn(s, run);
    run' := Go(s, run', Tick(0));
    assert "" + tok.delta == tok.delta;
    assert After(s, run').w.mem.buffers == map[tok.requestID := TokenBuffer(tok.sessionID, tok.userMessage, tok.delta)];
    assert tok.requestID in After(s, run').w.mem.buffers;
    run' := Load(s, run', 0);
  }

  /** The first token is stored, and the worker crashes before the broker has learnt of the commit. */
  lemma StoreOnceThenCrash(s: State, run: seq<Step>) returns (run': seq<Step>)
    requires Legal(s, run) && Restarted(After(s, run))
    ensures Legal(s, run') && Restarted(After(s, run'))
    ensures var t, u := After(s, run), After(s, run');
            var tok := First(t).tok;
            && u.d.logs == t.d.logs && Kept(u.h.ended) == Kept(t.h.ended) + [First(t)]
            && Stored(u.d.rows, tok.requestID) == Stored(t.d.rows, tok.requestID) + tok.delta
  {
    var t := After(s, run);
    var r := First(t).tok.requestID;
    run' := LoadFirst(s, run);
    var fl := After(s, run').w.flights[0];
    run' := Go(s, run', Upsert(0, [r], true));
    var u := After(s, run');
    FlushAppends(t.d.rows, [r], fl.snap, fl.existing, r);
    EndedSnoc(t.h.ended, Ended(fl.src, true));
    DiscardedEnds(u);
    run' := Go(s, run', CrashRestart);
  }

  /**
   The documentation calls the upsert idempotent on replay. With lagging commits it is not: whatever
   the logs and the partitions, a crash between the upsert and the broker's commit has the first
   token stored again, although no database call fails and no flushes overlap.
   */
  lemma ReplayDuplicatesText(s: State) returns (run: seq<Step>, x: Stamp)
    requires Init(s) && !s.k.sync && s.d.logs != []
    ensures Legal(s, run) && !After(s, run).h.overlapped
    ensures Kept(After(s, run).h.ended) == [x, x]
    ensures Stored(After(s, run).d.rows, x.tok.requestID) == Stored(s.d.rows, x.tok.requestID) + x.tok.delta +
        x.tok.delta
    ensures s.d.logs[0] != [] ==> After(s, run).d.logs == s.d.logs && x == First(s)
  {
    run := [];
    if s.d.logs[0] == [] {
      run := Go(s, run, Append(0, TokenEvent("", "", "", "", true)));
    }
    var t := After(s, run);
    assert t.h.ended == [];
    x := First(t);
    run := StoreOnceThenCrash(s, run);
    run := StoreOnceThenCrash(s, run);
    assert [] + [x] + [x] == [x, x];
  }

  /** In no run do successful upserts carry a position twice. */
  ghost predicate AtMostOnceForSure(s: State) {
    forall run, x :: Legal(s, run) ==> multiset(Kept(After(s, run).h.ended))[x] <= 1
  }

  /**
   In no run, crashes, failures and overlapping flushes included, do successful upserts carry a position
   twice, if and only if commits take effect when they return or there is nothing to read.
   */
  lemma AtMostOnceIffSync(s: State)
    requires Init(s)
    ensures AtMostOnceForSure(s) <==> s.k.sync || s.d.logs == []
  {
    if s.k.sync {
      forall run, x | Legal(s, run) ensures multiset(Kept(After(s, run).h.ended))[x] <= 1 {
        SyncCommitStoresAtMostOnce(s, run, After(s, run));
      }
    } else if s.d.logs == [] {
      forall run, x | Legal(s, run) ensures multiset(Kept(After(s, run).h.ended))[x] <= 1 {
        NothingToRead(s, run, x);
      }
    } else {
      var run, x := ReplayDuplicatesText(s);
      assert multiset([x, x])[x] == 2;
    }
  }

  lemma NothingToRead(s: State, run: seq<Step>, x: Stamp)
    requires Init(s) && s.d.logs == [] && Legal(s, run)
    ensures multiset(Kept(After(s, run).h.ended))[x] == 0
  {
    var t := After(s, run);
    ReachableInv(s, run, t);
    FollowsRun(s, run);
    KeptWereAdded(t, x);
    assert x in t.h.added ==> InLog(t, x);
  }

  // ---------------------------------------------------------------- the shutdown flush

  function Copies(x: TokenEvent, n: nat): seq<TokenEvent> {
    seq(n, i => x)
  }

  /** From an empty partition 0, `n` copies of `tok` are appended to it. */
  lemma {:induction false} Supply(s: State, tok: TokenEvent, n: nat) returns (run: seq<Step>)
    requires 0 < |s.d.logs| && s.d.logs[0] == []
    ensures Legal(s, run) && After(s, run) == s.(d := s.d.(logs := s.d.logs[0 := Copies(tok, n)]))
  {
    if n == 0 {
      run := [];
      assert s.d.logs[0 := []] == s.d.logs;
    } else {
      run := Supply(s, tok, n - 1);
      run := Go(s, run, Append(0, tok));
      assert Copies(tok, n - 1) + [tok] == Copies(tok, n);
    }
  }

  /** Of the copies of `tok` in partition 0 the first `n` have been consumed. */
  ghost predicate Advanced(s: State, t: State, tok: TokenEvent, n: nat) {
    && t.k == s.k && t.d.rows == s.d.rows && !t.h.failed && Toks(t.h.added) == Copies(tok, n)
    && t.d.logs == s.d.logs && 0 < |t.d.logs| == |t.w.fetched| == |t.w.acked| == |t.d.committed|
    && t.d.logs[0] == Copies(tok, TOKEN_THRESHOLD + 1) && t.w.fetched[0] == n
  }

  /** No flush has started, and the buffers hold `n` copies of `tok`. */
  ghost predicate Unflushed(t: State, tok: TokenEvent, n: nat) {
    && t.w.loop == (if n == TOKEN_THRESHOLD then Triggering else Fetching)
    && t.w.mem == Collect(Copies(tok, n)) && t.w.mem.count == n
    && !t.w.flushing && t.w.flusher == Waiting && t.w.flights == map[]
  }

  lemma {:induction false} Fill(s: State, tok: TokenEvent, n: nat) returns (run: seq<Step>)
    requires Init(s) && 0 < |s.d.logs| && s.d.logs[0] == Copies(tok, TOKEN_THRESHOLD + 1) && n <= TOKEN_THRESHOLD
    ensures Legal(s, run) && Advanced(s, After(s, run), tok, n) && Unflushed(After(s, run), tok, n)
  {
    if n == 0 {
      run := [];
    } else {
      var before := Fill(s, tok, n - 1);
      var t := After(s, before);
      run := Turn(s, before);
      AdvancedNext(s, t, tok, n - 1);
      UnflushedNext(s, t, tok, n - 1);
    }
  }

  lemma AdvancedNext(s: State, t: State, tok: TokenEvent, n: nat)
    requires Advanced(s, t, tok, n) && t.w.loop == Fetching && n <= TOKEN_THRESHOLD
    ensures Ready(t) && Advanced(s, Consumed(t), tok, n + 1)
  {
    var u := Consumed(t);
    assert Toks(u.h.added) == Toks(t.h.added) + [tok];
    assert Copies(tok, n) + [tok] == Copies(tok, n + 1);
  }

  lemma UnflushedNext(s: State, t: State, tok: TokenEvent, n: nat)
    requires Advanced(s, t, tok, n) && Unflushed(t, tok, n) && n < TOKEN_THRESHOLD
    ensures Ready(t) && Unflushed(Consumed(t), tok, n + 1)
  {
    CollectSnoc(Copies(tok, n), tok);
    assert Copies(tok, n) + [tok] == Copies(tok, n + 1);
  }

  lemma SoleBuffer(tok: TokenEvent, n: nat)
    requires n > 0
    ensures Collect(Copies(tok, n)).buffers.Keys == {tok.requestID}
  {
    forall r ensures r in Collect(Copies(tok, n)).buffers <==> r == tok.requestID {
      CollectHolds(Copies(tok, n), r);
      OfMembers(r, Copies(tok, n));
      if r == tok.requestID { assert Copies(tok, n)[0] in Copies(tok, n); assert tok in Of(r, Copies(tok, n)); }
      if Of(r, Copies(tok, n)) != [] { assert Of(r, Copies(tok, n))[0] in Of(r, Copies(tok, n)); }
    }
  }

  /** The threshold flush has read the table; one more token waits in the buffers. */
  ghost predicate Overtaken(t: State, tok: TokenEvent) {
    && t.w.flights.Keys == {0} && t.w.flights[0].phase == Merged
    && t.w.flights[0].snap == Collect(Copies(tok, TOKEN_THRESHOLD)).buffers
    && t.w.mem == Collect(Copies(tok, 1)) && t.w.flusher == Waiting
  }

  lemma Overtake(s: State, tok: TokenEvent) returns (run: seq<Step>)
    requires Init(s) && 0 < |s.d.logs| && s.d.logs[0] == Copies(tok, TOKEN_THRESHOLD + 1)
    ensures Legal(s, run) && Overtaken(After(s, run), tok) && Advanced(s, After(s, run), tok, TOKEN_THRESHOLD + 1)
  {
    run := Fill(s, tok, TOKEN_THRESHOLD);
    run := Go(s, run, Trigger(0));
    SoleBuffer(tok, TOKEN_THRESHOLD);
    assert tok.requestID in After(s, run).w.mem.buffers;
    run := Load(s, run, 0);
    var t := After(s, run);
    assert t.w.mem == Collect([]);
    CollectSnoc([], tok);
    assert [] + [tok] == Copies(tok, 1);
    AdvancedNext(s, t, tok, TOKEN_THRESHOLD);
    run := Turn(s, run);
  }

  /** The shutdown flush `g` has taken the buffers of `t` and read the table beside the flights of `t`. */
  ghost predicate ReadBeside(t: State, g: nat, u: State) {
    && u.d == t.d && u.w.mem == EMPTY && u.h.failed == t.h.failed && u.h.added == t.h.added
    && u.w.flights == t.w.flights[g := Flight(Shutdown, Merged, t.w.mem.buffers,
        ReadContents(t.d.rows, t.w.mem.buffers.Keys), t.h.held)]
  }

  lemma ShutdownReads(t: State, g: nat) returns (run: seq<Step>)
    requires t.w.flusher == Waiting && g !in t.w.flights && t.w.mem.buffers != map[]
    ensures Legal(t, run) && ReadBeside(t, g, After(t, run))
  {
    run := Go(t, [], Cancel);
    run := Go(t, run, Step.Stop(g));
    var u := After(t, run);
    run := Load(t, run, g);
    assert u.w.flights[g := Loaded(u, g).w.flights[g]] == t.w.flights[g := Loaded(u, g).w.flights[g]];
  }

  /** Flight `f` writes, then flight `g`, which read before that. */
  ghost predicate WroteAfter(u: State, f: nat, g: nat, v: State)
    requires f in u.w.flights && g in u.w.flights
  {
    && v.w.mem == u.w.mem && v.h.failed == u.h.failed && v.h.added == u.h.added && v.w.flights.Keys == u.w.flights.Keys
    && v.w.flights[f].phase == v.w.flights[g].phase == Finished
    && (forall h :: h in u.w.flights && h != f && h != g ==> v.w.flights[h] == u.w.flights[h])
    && (forall r :: r in u.w.flights[g].snap ==>
          Stored(v.d.rows, r) == Entry(u.w.flights[g].existing, r) + u.w.flights[g].snap[r].content)
  }

  lemma BothWrite(u: State, f: nat, g: nat) returns (run: seq<Step>)
    requires f in u.w.flights && g in u.w.flights && f != g && u.w.flights[f].phase == u.w.flights[g].phase == Merged
    ensures Legal(u, run) && WroteAfter(u, f, g, After(u, run))
  {
    var first := Enumeration(u.w.flights[f].snap.Keys);
    var second := Enumeration(u.w.flights[g].snap.Keys);
    var fl := u.w.flights[g];
    run := Go(u, [], Upsert(f, first, true));
    var rows := After(u, run).d.rows;
    run := Go(u, run, Upsert(g, second, true));
    forall r | r in fl.snap ensures Stored(After(u, run).d.rows, r) == Entry(fl.existing, r) + fl.snap[r].content {
      LookupBatch(rows, second, fl.snap, fl.existing, r, Assistant);
    }
  }

  /**
   Whenever a flush has read and not yet written, and the buffers hold more of a request it carries,
   the shutdown flush can undo it: no call fails, every buffer is flushed, and the stored text of
   the request grows by the buffered text alone.
   */
  lemma OvertakenFlushIsLost(t: State, f: nat, g: nat, r: Id) returns (run: seq<Step>)
    requires f in t.w.flights && t.w.flights[f].phase == Merged && t.w.flusher == Waiting && g !in t.w.flights
    requires r in t.w.flights[f].snap && r in t.w.mem.buffers
    ensures Legal(t, run)
    ensures var v := After(t, run);
            && v.w.mem == EMPTY && v.h.failed == t.h.failed && v.h.added == t.h.added
            && v.w.flights.Keys == t.w.flights.Keys + {g}
            && (forall h :: h in v.w.flights ==>
                  if h == f || h == g then v.w.flights[h].phase == Finished else v.w.flights[h] == t.w.flights[h])
            && Stored(v.d.rows, r) == Stored(t.d.rows, r) + t.w.mem.buffers[r].content
  {
    var first := ShutdownReads(t, g);
    var u := After(t, first);
    var second := BothWrite(u, f, g);
    Join(t, first, second);
    run := first + second;
  }

  /**
   An instance of this from the start, whatever the table and the other partitions hold: 501 copies of a
   token are added, the threshold flush takes 500 of them and the shutdown flush the last one. Every call
   succeeds, and one delta is stored.
   */
  lemma UnguardedShutdownLosesDeltas(s: State, tok: TokenEvent) returns (run: seq<Step>)
    requires Init(s) && 0 < |s.d.logs| && s.d.logs[0] == []
    ensures Legal(s, run) && !After(s, run).h.failed
    ensures After(s, run).w.mem == EMPTY && forall f :: f in After(s, run).w.flights ==>
        After(s, run).w.flights[f].phase == Finished
    ensures Toks(After(s, run).h.added) == Copies(tok, TOKEN_THRESHOLD + 1)
    ensures Stored(After(s, run).d.rows, tok.requestID) == Stored(s.d.rows, tok.requestID) + tok.delta
  {
    var supply := Supply(s, tok, TOKEN_THRESHOLD + 1);
    var s1 := After(s, supply);
    var before := Overtake(s1, tok);
    var t := After(s1, before);
    OneCopy(tok);
    SoleBuffer(tok, TOKEN_THRESHOLD);
    var rest := OvertakenFlushIsLost(t, 0, 1, tok.requestID);
    Join(s1, before, rest);
    Join(s, supply, before + rest);
    run := supply + (before + rest);
  }

  lemma OneCopy(tok: TokenEvent)
    ensures Copies(tok, 1) == [tok]
    ensures tok.requestID in Collect([tok]).buffers && Collect([tok]).buffers[tok.requestID].content == tok.delta
  {
    CollectSnoc([], tok);
    assert [] + [tok] == [tok];
    assert "" + tok.delta == tok.delta;
  }
}
