/** What the streaming worker guarantees over whole runs. */
module StreamingTheorems {
  import opened Types
  import opened Subsequences
  import opened StreamingMachine
  import opened StreamingInvariant

  ghost predicate Reachable(s: State, run: seq<Step>, t: State) {
    Init(s) && Legal(s, run) && t == After(s, run)
  }

  lemma ReachableInv(s: State, run: seq<Step>, t: State)
    requires Reachable(s, run, t)
    ensures Inv(t)
  {
    InvInitially(s);
    InvAlongRun(s, run);
  }

  /**
   At most one processor that may still call `Execute` exists for a request, the map holds its
   channel, and only its own exit removes the entry.
   */
  lemma OneProcessor(s: State, run: seq<Step>, t: State, c: nat, d: nat)
    requires Reachable(s, run, t) && c < |t.gens| && d < |t.gens|
    requires t.gens[c].req == t.gens[d].req && Live(t.gens[c]) && t.gens[d].proc != Gone
    ensures c == d
    ensures t.gens[c].req in t.w.channels && t.w.channels[t.gens[c].req] == c
  {
    ReachableInv(s, run, t);
  }

  lemma OnlyTheOwnerRemoves(s: State, step: Step, r: Id)
    requires Mapped(s) && Enabled(s, step) && r in s.w.channels && r !in Apply(s, step).w.channels
    ensures step == Delete(s.w.channels[r]) && s.gens[s.w.channels[r]].proc == Leaving
  {
    assert step.Delete?;
  }

  // ---------------------------------------------------------------- order

  lemma {:induction false} ExecutedWithinRouted(gens: seq<Gen>, r: Id)
    requires forall c :: 0 <= c < |gens| ==> Fifo(gens[c])
    ensures Subsequence(Executed(gens, r), Routed(gens, r))
  {
    if gens != [] {
      var init, g := gens[..|gens| - 1], gens[|gens| - 1];
      ExecutedWithinRouted(init, r);
      assert Fifo(g);
      if g.req == r {
        SubsequenceJoin(Executed(init, r), Routed(init, r), g.executed);
        SubsequenceOfLonger(Executed(init, r) + g.executed, Routed(init, r) + g.executed, g.queue);
        assert Routed(init, r) + g.executed + g.queue == Routed(gens, r);
        assert Executed(gens, r) == Executed(init, r) + g.executed;
      } else {
        assert Executed(gens, r) == Executed(init, r) && Routed(gens, r) == Routed(init, r);
      }
    }
  }

  ghost predicate Whole(s: State) {
    !s.h.timedOut && !s.w.cancelled
  }

  /**
   For each generation of a request's channel what was executed is a prefix of what was routed to
   it, and all the generations together executed a subsequence of the request's log, timeouts and
   cancellation included. What was routed is a prefix of the log unless a cancelled router gave up
   a token.
   */
  lemma OrderAcrossGenerations(s: State, run: seq<Step>, t: State, r: Id)
    requires Reachable(s, run, t) && r in t.b.home
    ensures forall c :: 0 <= c < |t.gens| ==> Prefix(t.gens[c].executed, t.gens[c].routed)
    ensures t.b.home[r] < |t.b.logs|
    ensures Subsequence(Executed(t.gens, r), Of(r, t.b.logs[t.b.home[r]]))
    ensures Subsequence(Routed(t.gens, r), Of(r, t.b.logs[t.b.home[r]]))
    ensures !t.h.abandoned ==> Prefix(Routed(t.gens, r), Of(r, t.b.logs[t.b.home[r]]))
  {
    ReachableInv(s, run, t);
    forall c | 0 <= c < |t.gens| ensures Prefix(t.gens[c].executed, t.gens[c].routed) { assert Fifo(t.gens[c]); }
    RoutedThinsLog(t, r);
    ExecutedWithinRouted(t.gens, r);
    SubsequenceTransitive(Executed(t.gens, r), Routed(t.gens, r), Of(r, t.b.logs[t.b.home[r]]));
    if !t.h.abandoned {
      RoutedWithinLog(t, r);
    }
  }

  /** What was routed for a request is its log with some tokens left out. */
  lemma RoutedThinsLog(t: State, r: Id)
    requires Thinned(t) && Summed(t) && Homed(t) && r in t.b.home
    ensures Subsequence(Routed(t.gens, r), Of(r, t.b.logs[t.b.home[r]]))
  {
    var p := t.b.home[r];
    var pushed := Of(r, t.h.pushed);
    assert Subsequence(pushed + InHand(t, r), Of(r, t.h.fetched));
    if InHand(t, r) == [] {
      assert pushed + [] == pushed;
    } else {
      SubsequenceDropLast(pushed, t.w.hand.tok, Of(r, t.h.fetched));
    }
    SplitLog(r, t.b.logs[p], t.w.off[p]);
    SubsequenceOfLonger(pushed, Of(r, t.h.fetched), Of(r, t.b.logs[p][t.w.off[p]..]));
  }

  /** What was routed, what is in hand and what is unread make up the request's log. */
  lemma RoutedWithinLog(t: State, r: Id)
    requires Passed(t) && Summed(t) && Homed(t) && r in t.b.home && !t.h.abandoned
    ensures var p := t.b.home[r];
            Of(r, t.b.logs[p]) == Routed(t.gens, r) + InHand(t, r) + Of(r, t.b.logs[p][t.w.off[p]..])
    ensures Prefix(Routed(t.gens, r), Of(r, t.b.logs[t.b.home[r]]))
  {
    var p := t.b.home[r];
    SplitLog(r, t.b.logs[p], t.w.off[p]);
    assert Of(r, t.h.fetched) == Of(r, t.h.pushed) + InHand(t, r);
  }

  lemma SplitLog(r: Id, log: seq<TokenEvent>, off: nat)
    requires off <= |log|
    ensures Of(r, log) == Of(r, log[..off]) + Of(r, log[off..])
  {
    OfConcat(r, log[..off], log[off..]);
    assert log == log[..off] + log[off..];
  }

  // ---------------------------------------------------------------- Done last

  lemma {:induction false} RoutedSplit(gens: seq<Gen>, c: nat) returns (pre: seq<TokenEvent>, post: seq<TokenEvent>)
    requires c < |gens|
    ensures Routed(gens, gens[c].req) == pre + gens[c].routed + post
  {
    var n := |gens| - 1;
    if c == n {
      pre, post := Routed(gens[..n], gens[c].req), [];
    } else {
      pre, post := RoutedSplit(gens[..n], c);
      post := post + if gens[n].req == gens[c].req then gens[n].routed else [];
    }
  }

  /** Once Done was executed nothing waits behind it, neither in the channel nor in the router's hand. */
  lemma NothingAfterDone(t: State, c: nat)
    requires Inv(t) && Whole(t) && c < |t.gens| && !Live(t.gens[c])
    requires DoneLast(Of(t.gens[c].req, t.b.logs[t.b.home[t.gens[c].req]]))
    ensures t.gens[c].queue == [] && InHand(t, t.gens[c].req) == []
  {
    var g := t.gens[c];
    var r := g.req;
    assert Fifo(g);
    RoutedWithinLog(t, r);
    var pre, post := RoutedSplit(t.gens, c);
    var log := Of(r, t.b.logs[t.b.home[r]]);
    var k := |pre| + |g.executed| - 1;
    assert log[k] == Routed(t.gens, r)[k] == g.executed[|g.executed| - 1];
    assert log[k].done;
  }

  /** The processor behind the channel the router is sending to is live: the router cannot block for ever. */
  lemma LiveBehindTheRouter(t: State)
    requires Inv(t) && Whole(t) && t.w.hand.Pushing?
    requires DoneLast(Of(t.w.hand.tok.requestID, t.b.logs[t.b.home[t.w.hand.tok.requestID]]))
    ensures t.w.hand.c < |t.gens| && Live(t.gens[t.w.hand.c])
  {
    assert InHand(t, t.w.hand.tok.requestID) == [t.w.hand.tok];
    if !Live(t.gens[t.w.hand.c]) {
      NothingAfterDone(t, t.w.hand.c);
    }
  }

  ghost predicate Internal(step: Step) {
    step.Fetch? || step.Lookup? || step.Push? || step.Take? || step.Finish? || step.Delete?
  }

  /** No goroutine of the worker can move. */
  ghost predicate Quiescent(s: State) {
    forall step :: Internal(step) ==> !Enabled(s, step)
  }

  ghost predicate AllDoneLast(s: State) {
    forall r :: r in s.b.home ==> s.b.home[r] < |s.b.logs| && DoneLast(Of(r, s.b.logs[s.b.home[r]]))
  }

  /** Quiescence spelled out. */
  ghost predicate AtRest(s: State) {
    && !s.w.hand.Routing?
    && (s.w.hand.Pushing? && s.w.hand.c < |s.gens| ==> |s.gens[s.w.hand.c].queue| >= CHANNEL_CAPACITY)
    && (s.w.hand.Idle? ==> forall p :: 0 <= p < |s.b.logs| && p < |s.w.off| ==> s.w.off[p] >= |s.b.logs[p]|)
    && (forall c :: 0 <= c < |s.gens| ==>
          !s.gens[c].proc.Executing? && s.gens[c].proc != Leaving && (s.gens[c].proc == Waiting ==>
              s.gens[c].queue == []))
  }

  lemma QuiescentIsAtRest(s: State)
    requires Quiescent(s)
    ensures AtRest(s)
  {
    assert !Enabled(s, Step.Lookup) && !Enabled(s, Step.Push);
    forall p | 0 <= p < |s.b.logs| && p < |s.w.off| && s.w.hand == Idle ensures s.w.off[p] >= |s.b.logs[p]| {
      assert !Enabled(s, Fetch(p));
    }
    forall c | 0 <= c < |s.gens|
      ensures !s.gens[c].proc.Executing? && s.gens[c].proc != Leaving
      ensures (s.gens[c].proc == Waiting ==> s.gens[c].queue == [])
    {
      assert !Enabled(s, Take(c)) && !Enabled(s, Finish(c)) && !Enabled(s, Delete(c));
    }
  }

  lemma {:induction false} ExecutedIsRouted(gens: seq<Gen>, r: Id)
    requires forall c :: 0 <= c < |gens| && gens[c].req == r ==> gens[c].executed == gens[c].routed
    ensures Executed(gens, r) == Routed(gens, r)
  {
    if gens != [] {
      ExecutedIsRouted(gens[..|gens| - 1], r);
    }
  }

  lemma RestingRouter(t: State)
    requires Inv(t) && Whole(t) && AtRest(t) && AllDoneLast(t)
    ensures t.w.hand == Idle && |t.w.off| == |t.b.logs| && forall p :: 0 <= p < |t.b.logs| ==>
        t.w.off[p] == |t.b.logs[p]|
  {
    if t.w.hand.Pushing? {
      LiveBehindTheRouter(t);
    }
  }

  lemma RestingChannel(t: State, c: nat)
    requires Inv(t) && Whole(t) && AtRest(t) && AllDoneLast(t) && c < |t.gens|
    ensures t.gens[c].executed == t.gens[c].routed
  {
    assert Fifo(t.gens[c]);
    if !Live(t.gens[c]) {
      NothingAfterDone(t, c);
    }
  }

  /**
   Without timeout or cancellation, and with Done last in every request's log, a worker that has
   come to rest has executed every request's whole log, in order.
   */
  lemma CompleteAtRest(s: State, run: seq<Step>, t: State, r: Id)
    requires Reachable(s, run, t) && Whole(t) && Quiescent(t) && AllDoneLast(t) && r in t.b.home
    ensures Executed(t.gens, r) == Of(r, t.b.logs[t.b.home[r]])
  {
    ReachableInv(s, run, t);
    QuiescentIsAtRest(t);
    CompleteWhenResting(t, r);
  }

  lemma CompleteWhenResting(t: State, r: Id)
    requires Inv(t) && Whole(t) && AtRest(t) && AllDoneLast(t) && r in t.b.home
    ensures Executed(t.gens, r) == Of(r, t.b.logs[t.b.home[r]])
  {
    RestingRouter(t);
    forall c | 0 <= c < |t.gens| ensures t.gens[c].executed == t.gens[c].routed { RestingChannel(t, c); }
    ExecutedIsRouted(t.gens, r);
    RoutedWithinLog(t, r);
    var p := t.b.home[r];
    assert t.b.logs[p][t.w.off[p]..] == [];
  }

  // ---------------------------------------------------------------- what a timeout can do

  /** The router is sending to a full channel whose processor is gone. */
  ghost predicate Stuck(s: State, tok: TokenEvent, c: nat) {
    && s.w.hand == Pushing(tok, c) && c < |s.gens| && |s.gens[c].queue| == CHANNEL_CAPACITY && s.gens[c].proc == Gone
  }

  /** A router stuck that way routes nothing more, whatever else happens, until it is cancelled. */
  lemma {:induction false} StuckForEver(s: State, run: seq<Step>, tok: TokenEvent, c: nat)
    requires Legal(s, run) && Stuck(s, tok, c) && !After(s, run).w.cancelled
    ensures Stuck(After(s, run), tok, c) && After(s, run).h.pushed == s.h.pushed
    decreases |run|
  {
    if run != [] {
      CancelledStays(s, run);
      StuckStays(s, run[0], tok, c);
      StuckForEver(Apply(s, run[0]), run[1..], tok, c);
    }
  }

  lemma StuckStays(s: State, step: Step, tok: TokenEvent, c: nat)
    requires Enabled(s, step) && Stuck(s, tok, c) && !s.w.cancelled
    ensures Stuck(Apply(s, step), tok, c) && Apply(s, step).h.pushed == s.h.pushed
  {
  }

  lemma {:induction false} CancelledStays(s: State, run: seq<Step>)
    requires Legal(s, run)
    ensures s.w.cancelled ==> After(s, run).w.cancelled
    decreases |run|
  {
    if run != [] {
      CancelledStays(Apply(s, run[0]), run[1..]);
    }
  }

  lemma Go(s: State, run: seq<Step>, step: Step) returns (run': seq<Step>)
    requires Legal(s, run) && Enabled(After(s, run), step)
    ensures Legal(s, run') && After(s, run') == Apply(After(s, run), step)
  {
    Extend(s, run, step);
    run' := run + [step];
  }

  /** The router is stuck with a token of request `r`. */
  ghost predicate StuckOn(s: State, r: Id) {
    s.w.hand.Pushing? && s.w.hand.tok.requestID == r && Stuck(s, s.w.hand.tok, s.w.hand.c)
  }

  /** A full channel and a token in hand make 33 events: a request of fewer never blocks the router. */
  lemma ShortNeverStuck(t: State, r: Id)
    requires Inv(t) && !t.h.abandoned && r in t.b.home
    requires |Of(r, t.b.logs[t.b.home[r]])| <= CHANNEL_CAPACITY
    ensures !StuckOn(t, r)
  {
    if StuckOn(t, r) {
      var c := t.w.hand.c;
      var pre, post := RoutedSplit(t.gens, c);
      assert Fifo(t.gens[c]);
      RoutedWithinLog(t, r);
    }
  }

  /**
   `n` tokens wait in the channel of `r`, whose processor timed out on an empty queue and is about to delete
   its entry.
   */
  ghost predicate Backlog(t: State, r: Id, p: nat, n: nat) {
    && r in t.b.home && t.b.home[r] == p < |t.b.logs| == |t.w.off|
    && t.w.off[p] == |t.b.logs[p]| == n && t.w.hand == Idle && !t.w.cancelled
    && |t.gens| == 1 && t.gens[0].req == r && t.gens[0].proc == Leaving && |t.gens[0].queue| == n
    && t.w.channels == map[r := 0]
  }

  lemma {:induction false} FillUp(s: State, r: Id, n: nat) returns (run: seq<Step>)
    requires Init(s) && r in s.b.home && 1 <= n <= CHANNEL_CAPACITY
    ensures Legal(s, run) && Backlog(After(s, run), r, s.b.home[r], n)
  {
    var p, tok := s.b.home[r], TokenEvent(r, "", "", "", false);
    if n == 1 {
      run := Go(s, [], Append(p, tok));
      run := Go(s, run, Fetch(p));
      run := Go(s, run, Step.Lookup);
      run := Go(s, run, Timeout(0));
      run := Go(s, run, Step.Push);
    } else {
      run := FillUp(s, r, n - 1);
      run := Go(s, run, Append(p, tok));
      run := Go(s, run, Fetch(p));
      run := Go(s, run, Step.Lookup);
      run := Go(s, run, Step.Push);
    }
  }

  /**
   The timer of a processor fires while its channel is empty. Before it has deleted its entry the
   router looks the channel up for 33 tokens; 32 fit, and nobody will ever take one.
   */
  lemma TimeoutCanBlockTheRouter(s: State, r: Id) returns (run: seq<Step>)
    requires Init(s) && r in s.b.home
    ensures Legal(s, run) && StuckOn(After(s, run), r) && !After(s, run).w.cancelled
    ensures var t := After(s, run);
            r in t.b.home && t.b.home[r] < |t.b.logs| && |t.b.logs[t.b.home[r]]| == CHANNEL_CAPACITY + 1
  {
    var p, tok := s.b.home[r], TokenEvent(r, "", "", "", false);
    run := FillUp(s, r, CHANNEL_CAPACITY);
    run := Go(s, run, Append(p, tok));
    run := Go(s, run, Fetch(p));
    run := Go(s, run, Step.Lookup);
    run := Go(s, run, Delete(0));
  }

  lemma {:induction false} OfShorter(r: Id, es: seq<TokenEvent>)
    ensures |Of(r, es)| <= |es|
  {
    if es != [] {
      OfShorter(r, es[..|es| - 1]);
    }
  }

  lemma {:induction false} HomeKept(s: State, run: seq<Step>)
    requires Legal(s, run)
    ensures After(s, run).b.home == s.b.home && |After(s, run).b.logs| == |s.b.logs|
    decreases |run|
  {
    if run != [] {
      HomeKept(Apply(s, run[0]), run[1..]);
    }
  }

  /** In no uncancelled run in which the log of `r` has at most `n` events does `r` block the router. */
  ghost predicate NeverStuckWithin(s: State, r: Id, n: nat)
    requires Init(s) && r in s.b.home
  {
    forall run :: Legal(s, run) && !After(s, run).w.cancelled && LogWithin(After(s, run), r, n) ==>
        !StuckOn(After(s, run), r)
  }

  ghost predicate LogWithin(t: State, r: Id, n: nat) {
    r in t.b.home && t.b.home[r] < |t.b.logs| && |Of(r, t.b.logs[t.b.home[r]])| <= n
  }

  /**
   With timeouts a request can block the router for good exactly if it has more events than its
   channel has room: for any partitions and any other requests, 32 events never do, 33 can.
   */
  lemma RouterBlocksIffOverCapacity(s: State, r: Id, n: nat)
    requires Init(s) && r in s.b.home
    ensures NeverStuckWithin(s, r, n) <==> n <= CHANNEL_CAPACITY
  {
    if n <= CHANNEL_CAPACITY {
      forall run | Legal(s, run) && !After(s, run).w.cancelled && LogWithin(After(s, run), r, n)
        ensures !StuckOn(After(s, run), r)
      {
        ReachableInv(s, run, After(s, run));
        ShortNeverStuck(After(s, run), r);
      }
    } else {
      var run := TimeoutCanBlockTheRouter(s, r);
      var t := After(s, run);
      OfShorter(r, t.b.logs[t.b.home[r]]);
      assert LogWithin(t, r, n);
    }
  }
}
