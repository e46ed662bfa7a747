/** The inductive invariant of the streaming machine, one lemma for each part. */
module StreamingInvariant {
  import opened Types
  import opened Subsequences
  import opened StreamingMachine

  ghost predicate Inv(s: State) {
    && Mapped(s) && Queued(s) && Latest(s) && Passed(s) && Thinned(s)
    && Summed(s) && Homed(s) && Known(s) && Ending(s)
  }

  lemma InvInitially(s: State)
    requires Init(s)
    ensures Inv(s)
  {
  }

  lemma InvKept(s: State, step: Step)
    requires Inv(s) && Enabled(s, step)
    ensures Inv(Apply(s, step))
  {
    MappedKept(s, step);
    QueuedKept(s, step);
    LatestKept(s, step);
    PassedKept(s, step);
    ThinnedKept(s, step);
    SummedKept(s, step);
    HomedKept(s, step);
    KnownKept(s, step);
    EndingKept(s, step);
  }

  lemma {:induction false} InvAlongRun(s: State, run: seq<Step>)
    requires Inv(s) && Legal(s, run)
    ensures Inv(After(s, run))
    decreases |run|
  {
    if run != [] {
      InvKept(s, run[0]);
      InvAlongRun(Apply(s, run[0]), run[1..]);
    }
  }

  // ---------------------------------------------------------------- the channel map

  /** The map holds exactly the channels whose processor has not deleted its entry yet. */
  ghost predicate Mapped(s: State) {
    && (forall r :: r in s.w.channels ==>
          s.w.channels[r] < |s.gens| && s.gens[s.w.channels[r]].req == r && s.gens[s.w.channels[r]].proc != Gone)
    && (forall c :: 0 <= c < |s.gens| && s.gens[c].proc != Gone ==>
          s.gens[c].req in s.w.channels && s.w.channels[s.gens[c].req] == c)
  }

  lemma MappedStill(s: State, s': State)
    requires Mapped(s) && s'.w.channels == s.w.channels && s'.gens == s.gens
    ensures Mapped(s')
  {
  }

  /** One channel changes; its processor has not gone. */
  lemma MappedOne(s: State, s': State, c: nat)
    requires Mapped(s) && s'.w.channels == s.w.channels && c < |s.gens| == |s'.gens|
    requires s'.gens == s.gens[c := s'.gens[c]] && s'.gens[c].req == s.gens[c].req
    requires s'.gens[c].proc == Gone <==> s.gens[c].proc == Gone
    ensures Mapped(s')
  {
  }

  lemma MappedDelete(s: State, c: nat)
    requires Mapped(s) && Enabled(s, Delete(c))
    ensures Mapped(Apply(s, Delete(c)))
  {
    var s' := Apply(s, Delete(c));
    forall d | 0 <= d < |s'.gens| && s'.gens[d].proc != Gone
      ensures s'.gens[d].req in s'.w.channels && s'.w.channels[s'.gens[d].req] == d
    {
      assert s.gens[d] == s'.gens[d];
      assert s.w.channels[s.gens[c].req] == c;
    }
  }

  lemma MappedLookup(s: State)
    requires Mapped(s) && Enabled(s, Step.Lookup)
    ensures Mapped(Apply(s, Step.Lookup))
  {
  }

  lemma MappedKept(s: State, step: Step)
    requires Mapped(s) && Enabled(s, step)
    ensures Mapped(Apply(s, step))
  {
    var s' := Apply(s, step);
    match step
    case Delete(c) => MappedDelete(s, c);
    case Lookup => MappedLookup(s);
    case Push => MappedOne(s, s', s.w.hand.c);
    case Take(c) => MappedOne(s, s', c);
    case Finish(c) => MappedOne(s, s', c);
    case Timeout(c) => MappedOne(s, s', c);
    case Quit(c) => MappedOne(s, s', c);
    case _ => MappedStill(s, s');
  }

  // ---------------------------------------------------------------- inside one channel

  /** A channel is FIFO: what went in is what came out followed by what waits. */
  ghost predicate Fifo(g: Gen) {
    && g.routed == g.executed + g.queue
    && (forall e :: e in g.routed ==> e.requestID == g.req)
    && |g.queue| <= CHANNEL_CAPACITY
    && (g.proc.Executing? ==> g.executed != [] && g.executed[|g.executed| - 1] == g.proc.tok)
  }

  ghost predicate Queued(s: State) {
    && (forall c :: 0 <= c < |s.gens| ==> Fifo(s.gens[c]))
    && (s.w.hand.Pushing? ==> s.w.hand.c < |s.gens| && s.gens[s.w.hand.c].req == s.w.hand.tok.requestID)
  }

  /** One channel changes and stays FIFO. */
  lemma QueuedOne(s: State, s': State, c: nat)
    requires Queued(s) && c < |s.gens| == |s'.gens| && s'.gens == s.gens[c := s'.gens[c]]
    requires s'.gens[c].req == s.gens[c].req && Fifo(s'.gens[c])
    requires s'.w.hand == s.w.hand || !s'.w.hand.Pushing?
    ensures Queued(s')
  {
  }

  lemma QueuedLookup(s: State)
    requires Mapped(s) && Queued(s) && Enabled(s, Step.Lookup)
    ensures Queued(Apply(s, Step.Lookup))
  {
  }

  lemma QueuedPush(s: State)
    requires Queued(s) && Enabled(s, Push)
    ensures Queued(Apply(s, Push))
  {
    var s' := Apply(s, Push);
    PushFifo(s.gens[s.w.hand.c], s'.gens[s.w.hand.c], s.w.hand.tok);
    QueuedOne(s, s', s.w.hand.c);
  }

  lemma PushFifo(g: Gen, g': Gen, tok: TokenEvent)
    requires Fifo(g) && |g.queue| < CHANNEL_CAPACITY && tok.requestID == g.req
    requires g' == g.(queue := g.queue + [tok], routed := g.routed + [tok])
    ensures Fifo(g')
  {
  }

  /** A processor moves on without taking anything. */
  lemma QueuedProc(s: State, s': State, c: nat)
    requires Queued(s) && c < |s.gens| == |s'.gens| && s'.w.hand == s.w.hand && !s'.gens[c].proc.Executing?
    requires s'.gens == s.gens[c := s.gens[c].(proc := s'.gens[c].proc)]
    ensures Queued(s')
  {
    assert Fifo(s.gens[c]);
    QueuedOne(s, s', c);
  }

  lemma QueuedTake(s: State, c: nat)
    requires Queued(s) && Enabled(s, Take(c))
    ensures Queued(Apply(s, Take(c)))
  {
    var s' := Apply(s, Take(c));
    TakeFifo(s.gens[c], s'.gens[c]);
    QueuedOne(s, s', c);
  }

  lemma QueuedKept(s: State, step: Step)
    requires Mapped(s) && Queued(s) && Enabled(s, step)
    ensures Queued(Apply(s, step))
  {
    var s' := Apply(s, step);
    match step
    case Take(c) => QueuedTake(s, c);
    case Push => QueuedPush(s);
    case Lookup => QueuedLookup(s);
    case Finish(c) => QueuedProc(s, s', c);
    case Timeout(c) => QueuedProc(s, s', c);
    case Quit(c) => QueuedProc(s, s', c);
    case Delete(c) => QueuedProc(s, s', c);
    case _ => assert s'.gens == s.gens;
  }

  lemma TakeFifo(g: Gen, g': Gen)
    requires Fifo(g) && g.queue != []
    requires g' == g.(queue := g.queue[1..], proc := Executing(g.queue[0]), executed := g.executed + [g.queue[0]])
    ensures Fifo(g')
  {
    assert g.queue == [g.queue[0]] + g.queue[1..];
  }

  // ---------------------------------------------------------------- generations

  /** A channel that is live, or that the router is sending to, is its request's latest. */
  ghost predicate Latest(s: State) {
    && (forall c, d :: 0 <= c < d < |s.gens| && s.gens[c].proc != Gone ==> s.gens[c].req != s.gens[d].req)
    && (s.w.hand.Pushing? ==> forall d :: s.w.hand.c < d < |s.gens| ==> s.gens[d].req != s.w.hand.tok.requestID)
  }

  lemma LatestKept(s: State, step: Step)
    requires Mapped(s) && Queued(s) && Latest(s) && Enabled(s, step)
    ensures Latest(Apply(s, step))
  {
    var s' := Apply(s, step);
    match step
    case Lookup => LatestLookup(s);
    case Push => LatestOne(s, s', s.w.hand.c);
    case Take(c) => LatestOne(s, s', c);
    case Finish(c) => LatestOne(s, s', c);
    case Timeout(c) => LatestOne(s, s', c);
    case Quit(c) => LatestOne(s, s', c);
    case Delete(c) => LatestOne(s, s', c);
    case _ => LatestStill(s, s');
  }

  lemma LatestLookup(s: State)
    requires Mapped(s) && Latest(s) && Enabled(s, Step.Lookup)
    ensures Latest(Apply(s, Step.Lookup))
  {
    var tok := s.w.hand.tok;
    if tok.requestID in s.w.channels {
      var c := s.w.channels[tok.requestID];
      assert s.gens[c].req == tok.requestID && s.gens[c].proc != Gone;
    } else {
      assert forall c :: 0 <= c < |s.gens| && s.gens[c].proc != Gone ==> s.gens[c].req != tok.requestID;
    }
  }

  lemma LatestStill(s: State, s': State)
    requires Latest(s) && s'.gens == s.gens && (s'.w.hand == s.w.hand || !s'.w.hand.Pushing?)
    ensures Latest(s')
  {
  }

  /** One channel changes; a processor that has gone stays away. */
  lemma LatestOne(s: State, s': State, c: nat)
    requires Latest(s) && c < |s.gens| == |s'.gens| && s'.gens == s.gens[c := s'.gens[c]]
    requires s'.gens[c].req == s.gens[c].req && (s'.gens[c].proc != Gone ==> s.gens[c].proc != Gone)
    requires s'.w.hand == s.w.hand || !s'.w.hand.Pushing?
    ensures Latest(s')
  {
  }

  // ---------------------------------------------------------------- order through the worker

  /** Unless the router gave up on a token, everything fetched for a request was pushed or is in hand. */
  ghost predicate Passed(s: State) {
    !s.h.abandoned ==> forall r :: Of(r, s.h.fetched) == Of(r, s.h.pushed) + InHand(s, r)
  }

  lemma PassedKept(s: State, step: Step)
    requires Passed(s) && Enabled(s, step)
    ensures Passed(Apply(s, step))
  {
    match step
    case Fetch(p) => PassedFetch(s, p);
    case Push => PassedPush(s);
    case _ => PassedFrame(s, Apply(s, step));
  }

  lemma PassedFrame(s: State, s': State)
    requires Passed(s) && s'.h.fetched == s.h.fetched && s'.h.pushed == s.h.pushed
    requires s'.h.abandoned || (!s.h.abandoned && (s'.w.hand == s.w.hand ||
        (!s.w.hand.Idle? && !s'.w.hand.Idle? && s'.w.hand.tok == s.w.hand.tok)))
    ensures Passed(s')
  {
    if !s'.h.abandoned {
      forall r ensures Of(r, s'.h.fetched) == Of(r, s'.h.pushed) + InHand(s', r) {
        assert InHand(s', r) == InHand(s, r);
      }
    }
  }

  lemma PassedFetch(s: State, p: nat)
    requires Passed(s) && Enabled(s, Fetch(p))
    ensures Passed(Apply(s, Fetch(p)))
  {
    var s' := Apply(s, Fetch(p));
    if !s'.h.abandoned {
      forall r ensures Of(r, s'.h.fetched) == Of(r, s'.h.pushed) + InHand(s', r) {
        OfSnoc(r, s.h.fetched, s'.w.hand.tok);
        assert Of(r, s.h.fetched) == Of(r, s.h.pushed) + InHand(s, r);
      }
    }
  }

  lemma PassedPush(s: State)
    requires Passed(s) && Enabled(s, Push)
    ensures Passed(Apply(s, Push))
  {
    var s' := Apply(s, Push);
    if !s'.h.abandoned {
      forall r ensures Of(r, s'.h.fetched) == Of(r, s'.h.pushed) + InHand(s', r) {
        OfSnoc(r, s.h.pushed, s.w.hand.tok);
        assert Of(r, s.h.fetched) == Of(r, s.h.pushed) + InHand(s, r);
      }
    }
  }

  /**
   Even if the router gave tokens up: what was pushed and what is in hand is fetched, in order, with some left
   out.
   */
  ghost predicate Thinned(s: State) {
    forall r :: Subsequence(Of(r, s.h.pushed) + InHand(s, r), Of(r, s.h.fetched))
  }

  lemma ThinnedFetch(s: State, p: nat)
    requires Thinned(s) && Enabled(s, Fetch(p))
    ensures Thinned(Apply(s, Fetch(p)))
  {
    var s' := Apply(s, Fetch(p));
    var tok := s'.w.hand.tok;
    forall r ensures Subsequence(Of(r, s'.h.pushed) + InHand(s', r), Of(r, s'.h.fetched)) {
      OfSnoc(r, s.h.fetched, tok);
      assert Of(r, s.h.pushed) + InHand(s, r) == Of(r, s.h.pushed);
      assert Subsequence(Of(r, s.h.pushed) + InHand(s, r), Of(r, s.h.fetched));
      if tok.requestID == r {
        SubsequenceSnoc(Of(r, s.h.pushed), Of(r, s.h.fetched), tok);
      } else {
        assert InHand(s', r) == InHand(s, r);
      }
    }
  }

  lemma ThinnedPush(s: State)
    requires Thinned(s) && Enabled(s, Push)
    ensures Thinned(Apply(s, Push))
  {
    var s' := Apply(s, Push);
    forall r ensures Subsequence(Of(r, s'.h.pushed) + InHand(s', r), Of(r, s'.h.fetched)) {
      OfSnoc(r, s.h.pushed, s.w.hand.tok);
      assert Of(r, s'.h.pushed) + InHand(s', r) == Of(r, s.h.pushed) + InHand(s, r);
      assert Subsequence(Of(r, s.h.pushed) + InHand(s, r), Of(r, s.h.fetched));
    }
  }

  lemma ThinnedAbandon(s: State)
    requires Thinned(s) && Enabled(s, Abandon)
    ensures Thinned(Apply(s, Abandon))
  {
    var s' := Apply(s, Abandon);
    forall r ensures Subsequence(Of(r, s'.h.pushed) + InHand(s', r), Of(r, s'.h.fetched)) {
      assert Subsequence(Of(r, s.h.pushed) + InHand(s, r), Of(r, s.h.fetched));
      assert Of(r, s.h.pushed) + [] == Of(r, s.h.pushed);
      if s.w.hand.tok.requestID == r {
        SubsequenceDropLast(Of(r, s.h.pushed), s.w.hand.tok, Of(r, s.h.fetched));
      }
    }
  }

  lemma ThinnedFrame(s: State, s': State)
    requires Thinned(s) && s'.h.fetched == s.h.fetched && s'.h.pushed == s.h.pushed
    requires s'.w.hand == s.w.hand || (!s.w.hand.Idle? && !s'.w.hand.Idle? && s'.w.hand.tok == s.w.hand.tok)
    ensures Thinned(s')
  {
    forall r ensures Subsequence(Of(r, s'.h.pushed) + InHand(s', r), Of(r, s'.h.fetched)) {
      assert InHand(s', r) == InHand(s, r);
      assert Subsequence(Of(r, s.h.pushed) + InHand(s, r), Of(r, s.h.fetched));
    }
  }

  lemma ThinnedKept(s: State, step: Step)
    requires Thinned(s) && Enabled(s, step)
    ensures Thinned(Apply(s, step))
  {
    match step
    case Fetch(p) => ThinnedFetch(s, p);
    case Push => ThinnedPush(s);
    case Abandon => ThinnedAbandon(s);
    case _ => ThinnedFrame(s, Apply(s, step));
  }

  /** The generations of a request, in turn, carry what was pushed and what was executed for it. */
  ghost predicate Summed(s: State) {
    forall r :: Routed(s.gens, r) == Of(r, s.h.pushed) && Executed(s.gens, r) == Of(r, s.h.started)
  }

  lemma {:induction false} RoutedUpdate(gens: seq<Gen>, c: nat, g: Gen, r: Id)
    requires c < |gens| && g.req == gens[c].req && g.routed == gens[c].routed && g.executed == gens[c].executed
    ensures Routed(gens[c := g], r) == Routed(gens, r) && Executed(gens[c := g], r) == Executed(gens, r)
  {
    var n := |gens| - 1;
    if c < n {
      RoutedUpdate(gens[..n], c, g, r);
      assert gens[c := g][..n] == gens[..n][c := g];
    } else {
      assert gens[c := g][..n] == gens[..n];
    }
  }

  /** Adding to the latest generation of a request adds at the end of what its generations carry. */
  lemma {:induction false} RoutedGrows(gens: seq<Gen>, c: nat, g: Gen, r: Id, tok: TokenEvent)
    requires c < |gens| && g.req == gens[c].req && g.routed == gens[c].routed + [tok] && g.executed == gens[c].executed
    requires forall d :: c < d < |gens| ==> gens[d].req != g.req
    ensures Routed(gens[c := g], r) == Routed(gens, r) + (if r == g.req then [tok] else [])
    ensures Executed(gens[c := g], r) == Executed(gens, r)
  {
    var n := |gens| - 1;
    if c < n {
      RoutedGrows(gens[..n], c, g, r, tok);
      assert gens[c := g][..n] == gens[..n][c := g];
    } else {
      assert gens[c := g][..n] == gens[..n];
    }
  }

  lemma {:induction false} ExecutedGrows(gens: seq<Gen>, c: nat, g: Gen, r: Id, tok: TokenEvent)
    requires c < |gens| && g.req == gens[c].req && g.executed == gens[c].executed + [tok] && g.routed == gens[c].routed
    requires forall d :: c < d < |gens| ==> gens[d].req != g.req
    ensures Executed(gens[c := g], r) == Executed(gens, r) + (if r == g.req then [tok] else [])
    ensures Routed(gens[c := g], r) == Routed(gens, r)
  {
    var n := |gens| - 1;
    if c < n {
      ExecutedGrows(gens[..n], c, g, r, tok);
      assert gens[c := g][..n] == gens[..n][c := g];
    } else {
      assert gens[c := g][..n] == gens[..n];
    }
  }

  lemma SummedPush(s: State)
    requires Queued(s) && Latest(s) && Summed(s) && Enabled(s, Push)
    ensures Summed(Apply(s, Push))
  {
    var s' := Apply(s, Push);
    var tok, c := s.w.hand.tok, s.w.hand.c;
    forall r ensures Routed(s'.gens, r) == Of(r, s'.h.pushed) && Executed(s'.gens, r) == Of(r, s'.h.started) {
      OfSnoc(r, s.h.pushed, tok);
      RoutedGrows(s.gens, c, s'.gens[c], r, tok);
    }
  }

  lemma SummedTake(s: State, c: nat)
    requires Queued(s) && Latest(s) && Summed(s) && Enabled(s, Take(c))
    ensures Summed(Apply(s, Take(c)))
  {
    var s' := Apply(s, Take(c));
    var tok := s.gens[c].queue[0];
    assert tok in s.gens[c].routed;
    forall r ensures Routed(s'.gens, r) == Of(r, s'.h.pushed) && Executed(s'.gens, r) == Of(r, s'.h.started) {
      OfSnoc(r, s.h.started, tok);
      ExecutedGrows(s.gens, c, s'.gens[c], r, tok);
    }
  }

  lemma SummedLookup(s: State)
    requires Summed(s) && Enabled(s, Step.Lookup)
    ensures Summed(Apply(s, Step.Lookup))
  {
    var s' := Apply(s, Step.Lookup);
    if |s'.gens| > |s.gens| { assert s'.gens[..|s.gens|] == s.gens; }
  }

  lemma SummedUpdate(s: State, s': State, c: nat)
    requires Summed(s) && c < |s.gens| && s'.h.pushed == s.h.pushed && s'.h.started == s.h.started
    requires exists proc :: s'.gens == s.gens[c := s.gens[c].(proc := proc)]
    ensures Summed(s')
  {
    forall r ensures Routed(s'.gens, r) == Of(r, s'.h.pushed) && Executed(s'.gens, r) == Of(r, s'.h.started) {
      RoutedUpdate(s.gens, c, s'.gens[c], r);
    }
  }

  lemma SummedKept(s: State, step: Step)
    requires Queued(s) && Latest(s) && Summed(s) && Enabled(s, step)
    ensures Summed(Apply(s, step))
  {
    var s' := Apply(s, step);
    match step
    case Push => SummedPush(s);
    case Take(c) => SummedTake(s, c);
    case Lookup => SummedLookup(s);
    case Finish(c) => SummedUpdate(s, s', c);
    case Timeout(c) => SummedUpdate(s, s', c);
    case Quit(c) => SummedUpdate(s, s', c);
    case Delete(c) => SummedUpdate(s, s', c);
    case _ => assert s'.gens == s.gens && s'.h.pushed == s.h.pushed && s'.h.started == s.h.started;
  }

  // ---------------------------------------------------------------- the log

  /** All events of a request lie in its home partition, and fetching keeps their order. */
  ghost predicate Homed(s: State) {
    && |s.w.off| == |s.b.logs|
    && (forall p :: 0 <= p < |s.b.logs| ==> s.w.off[p] <= |s.b.logs[p]|)
    && (forall r :: r in s.b.home ==> s.b.home[r] < |s.b.logs|)
    && (forall p, e :: 0 <= p < |s.b.logs| && e in s.b.logs[p] ==>
        e.requestID in s.b.home && s.b.home[e.requestID] == p)
    && (forall r :: r in s.b.home ==> Of(r, s.h.fetched) == Of(r, s.b.logs[s.b.home[r]][..s.w.off[s.b.home[r]]]))
  }

  lemma HomedAppend(s: State, p: nat, tok: TokenEvent)
    requires Homed(s) && Enabled(s, Append(p, tok))
    ensures Homed(Apply(s, Append(p, tok)))
  {
    var s' := Apply(s, Append(p, tok));
    forall r | r in s.b.home
      ensures Of(r, s'.h.fetched) == Of(r, s'.b.logs[s.b.home[r]][..s'.w.off[s.b.home[r]]])
    {
      var q := s.b.home[r];
      assert s'.b.logs[q][..s.w.off[q]] == s.b.logs[q][..s.w.off[q]];
    }
  }

  lemma HomedFetch(s: State, p: nat)
    requires Homed(s) && Enabled(s, Fetch(p))
    ensures Homed(Apply(s, Fetch(p)))
  {
    var s' := Apply(s, Fetch(p));
    var off := s.w.off[p];
    var tok := s.b.logs[p][off];
    assert tok in s.b.logs[p];
    assert s.b.logs[p][..off + 1] == s.b.logs[p][..off] + [tok];
    forall r | r in s.b.home
      ensures Of(r, s'.h.fetched) == Of(r, s'.b.logs[s.b.home[r]][..s'.w.off[s.b.home[r]]])
    {
      OfSnoc(r, s.h.fetched, tok);
      OfSnoc(r, s.b.logs[p][..off], tok);
    }
  }

  lemma HomedKept(s: State, step: Step)
    requires Homed(s) && Enabled(s, step)
    ensures Homed(Apply(s, step))
  {
    match step
    case Append(p, tok) => HomedAppend(s, p, tok);
    case Fetch(p) => HomedFetch(s, p);
    case _ =>
      var s' := Apply(s, step);
      assert s'.b == s.b && s'.w.off == s.w.off && s'.h.fetched == s.h.fetched;
  }

  /** The router and every channel serve requests that have a home partition. */
  ghost predicate Known(s: State) {
    && (!s.w.hand.Idle? ==> s.w.hand.tok.requestID in s.b.home)
    && (forall c :: 0 <= c < |s.gens| ==> s.gens[c].req in s.b.home)
  }

  lemma KnownKept(s: State, step: Step)
    requires Homed(s) && Known(s) && Enabled(s, step)
    ensures Known(Apply(s, step))
  {
    if step.Fetch? {
      assert s.b.logs[step.p][s.w.off[step.p]] in s.b.logs[step.p];
    }
  }

  // ---------------------------------------------------------------- how processors end

  /** Without timeout and cancellation a processor leaves only after executing Done. */
  ghost predicate Ending(s: State) {
    && (s.h.abandoned ==> s.w.cancelled)
    && (!s.h.timedOut && !s.w.cancelled ==>
          forall c :: 0 <= c < |s.gens| && !Live(s.gens[c]) ==>
            s.gens[c].executed != [] && s.gens[c].executed[|s.gens[c].executed| - 1].done)
  }

  lemma EndingKept(s: State, step: Step)
    requires Queued(s) && Ending(s) && Enabled(s, step)
    ensures Ending(Apply(s, step))
  {
    var s' := Apply(s, step);
    match step
    case Finish(c) => assert Fifo(s.gens[c]);
    case Take(c) =>
    case Push =>
    case Lookup =>
    case Delete(c) =>
    case Timeout(c) =>
    case Quit(c) =>
    case _ => assert s'.gens == s.gens;
  }
}
