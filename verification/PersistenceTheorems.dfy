/** What the persistence machine guarantees over whole runs. */
module PersistenceTheorems {
  import opened Types
  import opened Subsequences
  import opened MessageTable
  import opened FlushBatch
  import opened PersistenceMachine
  import opened PersistenceInvariant
  import opened PersistenceSpelling
  import opened PersistenceOwnership

  ghost predicate Reachable(s: State, run: seq<Step>, t: State) {
    Init(s) && Legal(s, run) && t == After(s, run)
  }

  lemma ReachableInv(s: State, run: seq<Step>, t: State)
    requires Reachable(s, run, t)
    ensures Inv(t)
  {
    InvInitially(s);
    InvAlongRun(s, run);
  }

  /** What no step changes or shortens. */
  ghost predicate Follows(s: State, t: State) {
    && t.k.base == s.k.base && t.k.sync == s.k.sync
    && |t.d.logs| == |s.d.logs| && (forall p :: 0 <= p < |s.d.logs| ==> s.d.logs[p] <= t.d.logs[p])
    && (Faultless(s) ==> Faultless(t))
  }

  /** A run without failure or crash has only successful flushes behind it. */
  ghost predicate Faultless(s: State) {
    !s.h.failed ==> s.h.crashes == [] && forall e :: e in s.h.ended ==> e.ok
  }

  lemma FollowsStep(s: State, step: Step)
    requires Enabled(s, step)
    ensures Follows(s, Apply(s, step))
  {
    match step
    case Append(p, tok) =>
    case CrashRestart =>
    case _ => assert Apply(s, step).d.logs == s.d.logs;
  }

  lemma {:induction false} FollowsRun(s: State, run: seq<Step>)
    requires Legal(s, run)
    ensures Follows(s, After(s, run))
    decreases |run|
  {
    if run != [] {
      FollowsStep(s, run[0]);
      FollowsRun(Apply(s, run[0]), run[1..]);
      FollowsTransitively(s, Apply(s, run[0]), After(s, run));
    }
  }

  lemma FollowsTransitively(s: State, t: State, u: State)
    requires Follows(s, t) && Follows(t, u)
    ensures Follows(s, u)
  {
  }

  // ---------------------------------------------------------------- exactly once, in order

  /** The text of the snapshot a flush is carrying towards the table. */
  ghost function InFlight(s: State): seq<Stamp> {
    if s.w.flights == map[] then [] else var f :| f in s.w.flights; s.w.flights[f].src
  }

  ghost function InFlightText(s: State, r: Id): string {
    if exists f :: f in s.w.flights && CarriesSnapshot(s.w.flights[f]) then
      var f :| f in s.w.flights && CarriesSnapshot(s.w.flights[f]);
      BufferedText(s.w.flights[f].snap, r)
    else ""
  }

  lemma InFlightTextIs(s: State, r: Id)
    requires Guard(s) && Buffered(s) && !s.h.overlapped
    ensures InFlightText(s, r) == Text(Of(r, Toks(InFlight(s))))
  {
    if exists f :: f in s.w.flights && CarriesSnapshot(s.w.flights[f]) {
      var f :| f in s.w.flights && CarriesSnapshot(s.w.flights[f]);
      BufferedTextOf(Toks(s.w.flights[f].src), r);
    } else {
      assert Toks(InFlight(s)) == [];
    }
  }

  lemma {:induction false} KeptIsAll(ended: seq<Ended>)
    requires forall e :: e in ended ==> e.ok
    ensures Kept(ended) == All(ended)
  {
    if ended != [] {
      KeptIsAll(ended[..|ended| - 1]);
    }
  }

  lemma AddedSplits(s: State)
    requires Guard(s) && Buffered(s) && Accounted(s) && !s.h.overlapped
    ensures s.h.added == All(s.h.ended) + InFlight(s) + s.h.held
  {
    if s.w.flights == map[] {
      assert All(s.h.ended) + [] + s.h.held == All(s.h.ended) + s.h.held;
    }
  }

  /**
   With `AddToken` running between any phases of a flush, and no failure and no overlapping flushes,
   the table, the snapshot in flight and the buffers hold every delta exactly once and in order.
   */
  lemma EveryDeltaOnceInOrder(s: State, run: seq<Step>, t: State, r: Id)
    requires Reachable(s, run, t) && !t.h.overlapped && !t.h.failed
    ensures Stored(t.d.rows, r) + InFlightText(t, r) + BufferedText(t.w.mem.buffers, r)
         == Stored(s.d.rows, r) + Text(Of(r, Toks(t.h.added)))
  {
    ReachableInv(s, run, t);
    FollowsRun(s, run);
    DeltasOnceInOrder(t, r);
  }

  lemma DeltasOnceInOrder(t: State, r: Id)
    requires Guard(t) && Buffered(t) && Written(t) && Accounted(t) && Faultless(t) && !t.h.overlapped && !t.h.failed
    ensures Stored(t.d.rows, r) + InFlightText(t, r) + BufferedText(t.w.mem.buffers, r)
         == Stored(t.k.base, r) + Text(Of(r, Toks(t.h.added)))
  {
    KeptIsAll(t.h.ended);
    AddedSplits(t);
    InFlightTextIs(t, r);
    BufferedTextOf(Toks(t.h.held), r);
    assert Stored(t.d.rows, r) == Stored(t.k.base, r) + Text(Of(r, Toks(Kept(t.h.ended))));
    SplitText(r, All(t.h.ended), InFlight(t), t.h.held, Stored(t.k.base, r));
  }

  lemma SplitText(r: Id, a: seq<Stamp>, b: seq<Stamp>, c: seq<Stamp>, initial: string)
    ensures initial + Text(Of(r, Toks(a))) + Text(Of(r, Toks(b))) + Text(Of(r, Toks(c)))
         == initial + Text(Of(r, Toks(a + b + c)))
  {
    ToksConcat(a + b, c);
    ToksConcat(a, b);
    SpelledConcat(r, Toks(a + b), Toks(c));
    SpelledConcat(r, Toks(a), Toks(b));
    Associate(initial, Text(Of(r, Toks(a))), Text(Of(r, Toks(b))));
    Associate(initial, Text(Of(r, Toks(a + b))), Text(Of(r, Toks(c))));
  }

  // ---------------------------------------------------------------- failures

  lemma {:induction false} KeptOrLost(ended: seq<Ended>)
    ensures multiset(All(ended)) == multiset(Kept(ended)) + multiset(Lost(ended))
  {
    if ended != [] {
      KeptOrLost(ended[..|ended| - 1]);
    }
  }

  /** The table spells `picked` for `r`: all successful flushes, if none overlapped. */
  lemma TableSpelled(s: State, run: seq<Step>, t: State, r: Id) returns (picked: seq<Ended>)
    requires Reachable(s, run, t)
    ensures SpelledBy(s.d.rows, t.h.ended, r, Stored(t.d.rows, r), picked)
    ensures multiset(All(picked)) <= multiset(Kept(t.h.ended))
    ensures !t.h.overlapped ==> All(picked) == Kept(t.h.ended)
  {
    ReachableInv(s, run, t);
    FollowsRun(s, run);
    if t.h.overlapped {
      SpellingInitially(s);
      InvInitially(s);
      SpellingAlongRun(s, run);
      assert Spelled(s.d.rows, t.h.ended, r, Stored(t.d.rows, r));
      picked :| SpelledBy(s.d.rows, t.h.ended, r, Stored(t.d.rows, r), picked);
    } else {
      picked := Successes(t.h.ended);
      SuccessesCarryKept(t.h.ended);
    }
    PickedAreKept(picked, t.h.ended);
  }

  lemma Leftover(added: multiset<Stamp>, kept: multiset<Stamp>, others: multiset<Stamp>, stored: multiset<Stamp>)
    requires added == kept + others && stored <= kept
    ensures added == stored + (kept - stored) + others
  {
  }

  /**
   When reads, upserts and whole workers may fail, and flushes may overlap: in every run the table
   holds for `r` the initial text and the texts of some successful flushes, in the order they ended.
   Every added token of `r` is in exactly one of those flushes, a successful flush that another one
   overwrote, a failed or crashed snapshot, the flushes under way and the buffers. Without overlap
   nothing is overwritten, and the tokens lie there in the order they were added.
   */
  lemma FailuresAccounted(s: State, run: seq<Step>, t: State, r: Id)
    returns (picked: seq<Ended>, overwritten: multiset<Stamp>)
    requires Reachable(s, run, t)
    ensures SpelledBy(s.d.rows, t.h.ended, r, Stored(t.d.rows, r), picked)
    ensures overwritten <= multiset(Kept(t.h.ended))
    ensures forall x: Stamp :: x.tok.requestID == r ==>
              multiset(t.h.added)[x] == multiset(All(picked))[x] + overwritten[x] + multiset(Lost(t.h.ended))[x]
                + InHand(t)[x] + multiset(t.h.held)[x]
    ensures t.w.mem == Collect(Toks(t.h.held)) && t.w.mem.count == |t.h.held|
    ensures !t.h.overlapped ==>
              && overwritten == multiset{} && All(picked) == Kept(t.h.ended)
              && t.h.added == All(t.h.ended) + InFlight(t) + t.h.held
  {
    ReachableInv(s, run, t);
    picked := TableSpelled(s, run, t, r);
    overwritten := multiset(Kept(t.h.ended)) - multiset(All(picked));
    KeptOrLost(t.h.ended);
    Leftover(multiset(t.h.added), multiset(Kept(t.h.ended)),
             multiset(Lost(t.h.ended)) + InHand(t) + multiset(t.h.held), multiset(All(picked)));
    CollectHolds(Toks(t.h.held), r);
    if !t.h.overlapped {
      AddedSplits(t);
    }
  }

  // ---------------------------------------------------------------- single flight

  /**
   Before cancellation at most one flush lies between its compare-and-swap and its release,
   and what it read is still what the table holds when it upserts.
   */
  lemma SingleFlight(s: State, run: seq<Step>, t: State)
    requires Reachable(s, run, t) && !t.h.everCancelled
    ensures !t.h.overlapped
    ensures forall f, g :: f in t.w.flights && g in t.w.flights ==> f == g
    ensures t.w.flushing <==> t.w.flights != map[]
    ensures forall f :: f in t.w.flights && t.w.flights[f].phase == Merged ==> ReadIsCurrent(t, f)
  {
    ReachableInv(s, run, t);
    if t.w.flights != map[] {
      var f :| f in t.w.flights;
      assert Guarded(t, f);
    }
  }

  /**
   An upsert adds its whole snapshot to the table, for every request, if and only if what its flush read is
   still there.
   */
  lemma UpsertAddsSnapshotIffCurrent(s: State, f: nat, order: seq<Id>)
    requires Enabled(s, Upsert(f, order, true))
    ensures (forall r ::
              Stored(Apply(s, Upsert(f, order, true)).d.rows, r)
                == Stored(s.d.rows, r) + BufferedText(s.w.flights[f].snap, r))
            <==> ReadIsCurrent(s, f)
  {
    var fl := s.w.flights[f];
    AppendsIffCurrent(s.d.rows, order, fl.snap, fl.existing);
    assert Current(s.d.rows, fl.snap, fl.existing) <==> ReadIsCurrent(s, f);
  }

  /** Even after cancellation there are never two guarded flushes, nor two shutdown flushes. */
  lemma AtMostTwoFlights(s: State, run: seq<Step>, t: State)
    requires Reachable(s, run, t)
    ensures OneEach(t.w.flights)
  {
    ReachableInv(s, run, t);
    GuardLeavesOneEach(t);
  }

  // ---------------------------------------------------------------- crashes

  /** Within a partition positions increase, except for positions that some crash replays. */
  ghost predicate Ascending(ss: seq<Stamp>, crashes: seq<Crash>) {
    forall i, j :: 0 <= i < j < |ss| && ss[i].part == ss[j].part ==> ss[i].off < ss[j].off || Replayed(crashes, ss[i])
  }

  lemma {:induction false} KeptAscending(ended: seq<Ended>, crashes: seq<Crash>)
    requires Ascending(All(ended), crashes)
    ensures Ascending(Kept(ended), crashes)
    ensures forall x :: x in Kept(ended) ==> x in All(ended)
  {
    if ended != [] {
      var init, e := ended[..|ended| - 1], ended[|ended| - 1];
      var a, k := All(init), Kept(init);
      assert forall i :: 0 <= i < |a| ==> All(ended)[i] == a[i];
      KeptAscending(init, crashes);
      if e.ok {
        AscendingJoin(a, k, e.src, crashes);
      }
    }
  }

  lemma AscendingJoin(a: seq<Stamp>, k: seq<Stamp>, src: seq<Stamp>, crashes: seq<Crash>)
    requires Ascending(a + src, crashes) && Ascending(k, crashes) && forall x :: x in k ==> x in a
    ensures Ascending(k + src, crashes)
  {
    var b := a + src;
    forall i, j | 0 <= i < j < |k + src| && (k + src)[i].part == (k + src)[j].part
      ensures (k + src)[i].off < (k + src)[j].off || Replayed(crashes, (k + src)[i])
    {
      if i < |k| <= j {
        assert k[i] in a;
        var i' :| 0 <= i' < |a| && a[i'] == k[i];
        assert b[i'] == k[i] && b[|a| + j - |k|] == (k + src)[j];
      } else if |k| <= i {
        assert b[|a| + i - |k|] == (k + src)[i] && b[|a| + j - |k|] == (k + src)[j];
      }
    }
  }

  lemma StoredAscending(s: State, run: seq<Step>, t: State)
    requires Reachable(s, run, t) && !t.h.overlapped
    ensures Ascending(Kept(t.h.ended), t.h.crashes)
  {
    ReachableInv(s, run, t);
    AddedSplits(t);
    var a := All(t.h.ended);
    forall i | 0 <= i < |a| ensures a[i] == t.h.added[i] {}
    KeptAscending(t.h.ended, t.h.crashes);
  }

  lemma NothingReplayed(t: State, x: Stamp)
    requires Placed(t) && t.k.sync
    ensures !Replayed(t.h.crashes, x)
  {
    forall c | c in t.h.crashes ensures !InGap(c, x) {
      if x.part < |c.committed| { assert c.reached[x.part] <= c.committed[x.part]; }
    }
  }

  /** Two different places of `ss` hold `x`. */
  ghost predicate Twice(ss: seq<Stamp>, x: Stamp) {
    exists i, j :: 0 <= i < j < |ss| && ss[i] == ss[j] == x
  }

  lemma {:induction false} CountedTwice(ss: seq<Stamp>, x: Stamp)
    requires multiset(ss)[x] > 1
    ensures Twice(ss, x)
  {
    var n := |ss| - 1;
    assert ss == ss[..n] + [ss[n]];
    assert multiset(ss) == multiset(ss[..n]) + multiset{ss[n]};
    if multiset(ss[..n])[x] > 1 {
      CountedTwice(ss[..n], x);
      var i, j :| 0 <= i < j < n && ss[..n][i] == ss[..n][j] == x;
      assert ss[i] == ss[j] == x;
    } else {
      assert x in multiset(ss[..n]);
      var i :| 0 <= i < n && ss[..n][i] == x;
      assert ss[i] == ss[n] == x;
    }
  }

  /** A position that was added twice was replayed. */
  lemma AddedTwiceWasReplayed(t: State, x: Stamp)
    requires Ordered(t) && multiset(t.h.added)[x] > 1
    ensures Replayed(t.h.crashes, x)
  {
    CountedTwice(t.h.added, x);
    var i, j :| 0 <= i < j < |t.h.added| && t.h.added[i] == t.h.added[j] == x;
    assert t.h.added[i].off < t.h.added[j].off || Replayed(t.h.crashes, t.h.added[i]);
  }

  lemma KeptWereAdded(t: State, x: Stamp)
    requires Counted(t)
    ensures multiset(Kept(t.h.ended))[x] <= multiset(t.h.added)[x]
  {
    KeptOrLost(t.h.ended);
  }

  ghost predicate NoneTwice(ss: seq<Stamp>) {
    forall x :: multiset(ss)[x] <= 1
  }

  /** `text` is spelled by successful flushes that carried no position twice. */
  ghost predicate SpelledWithoutRepeat(base: seq<Message>, ended: seq<Ended>, r: Id, text: string) {
    exists picked :: SpelledBy(base, ended, r, text, picked) && NoneTwice(All(picked))
  }

  lemma SyncKeepsAtMostOnce(s: State, run: seq<Step>, t: State)
    requires Reachable(s, run, t) && s.k.sync
    ensures NoneTwice(Kept(t.h.ended))
  {
    ReachableInv(s, run, t);
    FollowsRun(s, run);
    forall x ensures multiset(Kept(t.h.ended))[x] <= 1 {
      KeptWereAdded(t, x);
      NothingReplayed(t, x);
      if multiset(t.h.added)[x] > 1 { AddedTwiceWasReplayed(t, x); }
    }
  }

  /**
   If a commit takes effect when it returns, then whatever crashes happen, and whether or not
   flushes overlap, successful upserts carry no position twice, and so the table spells none twice.
   Without overlap the positions stored are strictly increasing in each partition.
   */
  lemma SyncCommitStoresAtMostOnce(s: State, run: seq<Step>, t: State)
    requires Reachable(s, run, t) && s.k.sync
    ensures NoneTwice(Kept(t.h.ended))
    ensures forall r :: SpelledWithoutRepeat(s.d.rows, t.h.ended, r, Stored(t.d.rows, r))
    ensures !t.h.overlapped ==>
              forall i, j :: 0 <= i < j < |Kept(t.h.ended)| && Kept(t.h.ended)[i].part == Kept(t.h.ended)[j].part ==>
                Kept(t.h.ended)[i].off < Kept(t.h.ended)[j].off
  {
    SyncKeepsAtMostOnce(s, run, t);
    forall r ensures SpelledWithoutRepeat(s.d.rows, t.h.ended, r, Stored(t.d.rows, r)) {
      var picked := TableSpelled(s, run, t, r);
      FewerNoneTwice(All(picked), Kept(t.h.ended));
    }
    if !t.h.overlapped {
      ReachableInv(s, run, t);
      FollowsRun(s, run);
      StoredAscending(s, run, t);
      forall x ensures !Replayed(t.h.crashes, x) { NothingReplayed(t, x); }
    }
  }

  lemma FewerNoneTwice(a: seq<Stamp>, b: seq<Stamp>)
    requires multiset(a) <= multiset(b) && NoneTwice(b)
    ensures NoneTwice(a)
  {
    forall x ensures multiset(a)[x] <= 1 { assert multiset(a)[x] <= multiset(b)[x]; }
  }

  /**
   With commits that lag, a position that successful upserts carried more than once had, at some crash,
   already been handed to the buffers and was not yet committed, whether or not flushes overlap.
   */
  lemma LaggingCommitReplaysTheGap(s: State, run: seq<Step>, t: State, x: Stamp)
    requires Reachable(s, run, t) && multiset(Kept(t.h.ended))[x] > 1
    ensures exists c :: c in t.h.crashes && InGap(c, x)
  {
    ReachableInv(s, run, t);
    KeptWereAdded(t, x);
    AddedTwiceWasReplayed(t, x);
  }

  /** Without overlap the same goes for positions stored out of order. */
  lemma DisorderComesFromReplay(s: State, run: seq<Step>, t: State, i: nat, j: nat)
    requires Reachable(s, run, t) && !t.h.overlapped
    requires i < j < |Kept(t.h.ended)| && Kept(t.h.ended)[i].part == Kept(t.h.ended)[j].part
    requires Kept(t.h.ended)[j].off <= Kept(t.h.ended)[i].off
    ensures exists c :: c in t.h.crashes && InGap(c, Kept(t.h.ended)[i])
  {
    StoredAscending(s, run, t);
    assert Replayed(t.h.crashes, Kept(t.h.ended)[i]);
  }

  // ---------------------------------------------------------------- history

  lemma RowsStay(s: State, step: Step)
    requires Enabled(s, step)
    ensures KeepsPlaces(s.d.rows, Apply(s, step).d.rows)
  {
    match step
    case Upsert(f, order, ok) =>
      if ok {
        UpsertRowsKeepPlaces(s.d.rows, Batch(order, s.w.flights[f].snap, s.w.flights[f].existing));
      }
    case _ => assert Apply(s, step).d.rows == s.d.rows;
  }

  lemma PlacesTransitive(a: seq<Message>, b: seq<Message>, c: seq<Message>)
    requires KeepsPlaces(a, b) && KeepsPlaces(b, c)
    ensures KeepsPlaces(a, c)
  {
    forall i | 0 <= i < |a| ensures c[i].(content := a[i].content) == a[i] {
      assert b[i].(content := a[i].content) == a[i] && c[i].(content := b[i].content) == b[i];
    }
  }

  lemma {:induction false} RowsStayAlongRun(s: State, run: seq<Step>)
    requires Legal(s, run)
    ensures KeepsPlaces(s.d.rows, After(s, run).d.rows)
    decreases |run|
  {
    if run != [] {
      RowsStay(s, run[0]);
      RowsStayAlongRun(Apply(s, run[0]), run[1..]);
      PlacesTransitive(s.d.rows, Apply(s, run[0]).d.rows, After(s, run).d.rows);
    }
  }

  /**
   However a run goes on from a state, failures, crashes and overlapping flushes included: a session's history
   keeps every message where it was, and new ones come after. It lies in the table in id order.
   */
  lemma HistoryGrowsAtItsEnd(s: State, run: seq<Step>, session: Id) returns (ix: seq<nat>)
    requires Legal(s, run)
    ensures KeepsPlaces(OfSession(s.d.rows, session), OfSession(After(s, run).d.rows, session))
    ensures Picks(ix, OfSession(After(s, run).d.rows, session), After(s, run).d.rows)
  {
    RowsStayAlongRun(s, run);
    HistoryKeepsPlaces(s.d.rows, After(s, run).d.rows, session);
    ix := SessionPositions(After(s, run).d.rows, session);
  }

  /** After any run, failed and overlapping flushes included, history is question and answer pairs. */
  lemma HistoryWellPaired(s: State, run: seq<Step>, t: State, session: Id)
    requires Reachable(s, run, t) && Paired(s.d.rows)
    ensures PairedByPosition(t.d.rows) && PairedByPosition(OfSession(t.d.rows, session))
    ensures UniqueKeys(t.d.rows)
    ensures forall m :: m in OfSession(t.d.rows, session) <==> m in t.d.rows && m.sessionID == session
  {
    ReachableInv(s, run, t);
    FollowsRun(s, run);
    PairedPositions(t.d.rows);
    SessionHistoryPaired(t.d.rows, session);
    PairedPositions(OfSession(t.d.rows, session));
    PairedHasUniqueKeys(t.d.rows);
  }

  lemma OwnLogsBefore(s: State, t: State, requests: map<Id, ChatRequest>)
    requires Follows(s, t) && OwnLogs(t, requests)
    ensures OwnLogs(s, requests)
  {
    forall p, e | 0 <= p < |s.d.logs| && e in s.d.logs[p] ensures OwnToken(e, requests) {
      assert s.d.logs[p] <= t.d.logs[p];
      assert e in t.d.logs[p];
    }
  }

  lemma {:induction false} OwnAlongRun(s: State, run: seq<Step>, requests: map<Id, ChatRequest>)
    requires Inv(s) && Own(s, requests) && Quoted(s, requests) && Legal(s, run) && OwnLogs(After(s, run), requests)
    ensures Own(After(s, run), requests) && Quoted(After(s, run), requests)
    ensures OwnRows(s.d.rows, requests, s.k.base) ==> OwnRows(After(s, run).d.rows, requests, s.k.base)
    decreases |run|
  {
    if run != [] {
      FollowsRun(s, run);
      FollowsStep(s, run[0]);
      OwnLogsBefore(s, After(s, run), requests);
      OwnKept(s, run[0], requests);
      QuotedKept(s, run[0], requests);
      if OwnRows(s.d.rows, requests, s.k.base) { OwnRowsKept(s, run[0], requests); }
      InvKept(s, run[0]);
      OwnAlongRun(Apply(s, run[0]), run[1..], requests);
    }
  }

  /**
   Whichever flush wrote it, a row lies in its own request's session and a user row quotes its own
   request's prompt, if the rows there at the start do; a row of no such request was there at the start.
   Once a successful upsert has carried any token of a request, its user row is there, with the prompt.
   */
  lemma RowsQuoteTheirRequest(s: State, run: seq<Step>, t: State, requests: map<Id, ChatRequest>)
    requires Reachable(s, run, t) && OwnLogs(t, requests)
    ensures OwnRows(s.d.rows, requests, s.d.rows) ==> forall m :: m in t.d.rows ==>
              if m.requestID in requests then
                m.sessionID == requests[m.requestID].sessionID && (m.role == User ==>
                    m.content == requests[m.requestID].content)
              else m in s.d.rows
    ensures forall x :: x in Kept(t.h.ended) ==>
              && x.tok.requestID in requests
              && Lookup(t.d.rows, x.tok.requestID, User) == Some(requests[x.tok.requestID].content)
  {
    InvInitially(s);
    FollowsRun(s, run);
    OwnAlongRun(s, run, requests);
    if OwnRows(s.d.rows, requests, s.d.rows) {
      forall m | m in t.d.rows ensures OwnRow(m, requests, s.d.rows) {}
    }
    forall x | x in Kept(t.h.ended) ensures Quotes(t.d.rows, x.tok.requestID, requests) {}
  }
}
