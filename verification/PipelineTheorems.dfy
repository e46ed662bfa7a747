/** What the client of the streaming path has read, in every reachable state. */
module PipelineTheorems {
  import opened Types
  import opened Subsequences
  import opened TokenHub
  import Producers = ProducerMachine
  import Streaming = StreamingMachine
  import StreamingInvariant
  import StreamingTheorems
  import Delivery = DeliveryMachine
  import opened Pipeline
  import opened PipelineInvariant

  ghost predicate Reachable(s: State, run: seq<Step>, t: State) {
    Init(s) && Legal(s, run) && t == After(s, run)
  }

  lemma ReachableInv(s: State, run: seq<Step>, t: State)
    requires Reachable(s, run, t)
    ensures Inv(t)
  {
    InvInitially(s);
    InvAlongRun(s, run);
  }

  lemma {:induction false} PlanKept(s: State, run: seq<Step>)
    requires Legal(s, run)
    ensures After(s, run).p.plan == s.p.plan
    decreases |run|
  {
    if run != [] {
      PlanStays(s, run[0]);
      PlanKept(Apply(s, run[0]), run[1..]);
    }
  }

  lemma PlanStays(s: State, step: Step)
    requires Enabled(s, step)
    ensures Apply(s, step).p.plan == s.p.plan
  {
    match step
    case StartRequest(id) =>
    case WriteStream(id) =>
    case WritePersist(id) =>
    case _ => assert Apply(s, step).p == s.p;
  }

  // ---------------------------------------------------------------- decoding

  lemma {:induction false} OfViews(r: Id, es: seq<TokenEvent>)
    ensures Of(r, Views(es)) == Views(Of(r, es))
  {
    if es != [] {
      var init, e := es[..|es| - 1], es[|es| - 1];
      OfViews(r, init);
      assert Views(es)[..|es| - 1] == Views(init);
      assert Views(Of(r, init) + [e]) == Views(Of(r, init)) + [View(e)];
    }
  }

  lemma ViewsPrefix(a: seq<TokenEvent>, b: seq<TokenEvent>)
    requires Prefix(a, b)
    ensures Prefix(Views(a), Views(b))
  {
  }

  lemma ViewsDoneLast(es: seq<TokenEvent>)
    requires DoneLast(es)
    ensures DoneLast(Views(es))
  {
    forall i | 0 <= i < |Views(es)| && Views(es)[i].done ensures i == |Views(es)| - 1 {
      assert es[i].done;
    }
  }

  lemma PrefixTransitive<T>(a: seq<T>, b: seq<T>, c: seq<T>)
    requires Prefix(a, b) && Prefix(b, c)
    ensures Prefix(a, c)
  {
  }

  /** The log the router reads for a request is what its producer has written, decoded. */
  ghost function Log(t: State, id: Id): seq<TokenEvent>
    requires id in t.r.b.home && t.r.b.home[id] < |t.r.b.logs|
  {
    Of(id, t.r.b.logs[t.r.b.home[id]])
  }

  lemma LogIsStream(t: State, id: Id)
    requires Producers.Inv(t.p) && Wired(t) && id in t.p.plan.jobs
    ensures id in t.r.b.home && t.r.b.home[id] < |t.r.b.logs|
    ensures Log(t, id) == Views(Producers.StreamOf(t.p, id))
    ensures Prefix(Log(t, id), Views(Producers.Events(t.p.plan.jobs[id])))
    ensures DoneLast(Log(t, id))
  {
    OfViews(id, t.p.slogs[t.p.plan.streamHome[id]]);
    Producers.LagAt(t.p.plan.jobs[id], t.p.prods[id], Producers.StreamOf(t.p, id), Producers.PersistOf(t.p, id));
    ViewsPrefix(Producers.StreamOf(t.p, id), Producers.Events(t.p.plan.jobs[id]));
    ViewsDoneLast(Producers.StreamOf(t.p, id));
  }

  lemma DoneLastEverywhere(t: State)
    requires Producers.Inv(t.p) && Wired(t)
    ensures StreamingTheorems.AllDoneLast(t.r)
  {
    forall id | id in t.r.b.home ensures t.r.b.home[id] < |t.r.b.logs| && DoneLast(Of(id, t.r.b.logs[t.r.b.home[id]])) {
      LogIsStream(t, id);
    }
  }

  // ---------------------------------------------------------------- through the worker

  /** Of the channels of a request only the latest may still hold tokens. */
  ghost predicate OnlyLatestHolds(gens: seq<Streaming.Gen>, r: Id) {
    forall c, d :: 0 <= c < d < |gens| && gens[c].req == r && gens[d].req == r ==> gens[c].queue == []
  }

  lemma {:induction false} ExecutedPrefix(gens: seq<Streaming.Gen>, r: Id)
    requires OnlyLatestHolds(gens, r) && forall c :: 0 <= c < |gens| ==> StreamingInvariant.Fifo(gens[c])
    ensures Prefix(Streaming.Executed(gens, r), Streaming.Routed(gens, r))
  {
    if gens != [] {
      var n := |gens| - 1;
      var init, g := gens[..n], gens[n];
      assert StreamingInvariant.Fifo(g);
      if g.req == r {
        forall c | 0 <= c < |init| && init[c].req == r ensures init[c].executed == init[c].routed {
          assert StreamingInvariant.Fifo(gens[c]) && gens[c].queue == [];
        }
        StreamingTheorems.ExecutedIsRouted(init, r);
      } else {
        ExecutedPrefix(init, r);
      }
    }
  }

  lemma LatestHolds(t: Streaming.State, r: Id)
    requires StreamingInvariant.Inv(t) && StreamingTheorems.Whole(t) && StreamingTheorems.AllDoneLast(t)
    ensures OnlyLatestHolds(t.gens, r)
  {
    forall c, d | 0 <= c < d < |t.gens| && t.gens[c].req == r && t.gens[d].req == r ensures t.gens[c].queue == [] {
      StreamingTheorems.NothingAfterDone(t, c);
    }
  }

  /** What `Execute` was called with for a request, over all its channels, is a prefix of its log. */
  lemma ExecutedWithinLog(t: Streaming.State, r: Id)
    requires StreamingInvariant.Inv(t) && StreamingTheorems.Whole(t) && StreamingTheorems.AllDoneLast(t)
    requires !t.h.abandoned && r in t.b.home
    ensures Prefix(Of(r, t.h.started), Of(r, t.b.logs[t.b.home[r]]))
  {
    LatestHolds(t, r);
    ExecutedPrefix(t.gens, r);
    StreamingTheorems.RoutedWithinLog(t, r);
    PrefixTransitive(Streaming.Executed(t.gens, r), Streaming.Routed(t.gens, r), Of(r, t.b.logs[t.b.home[r]]));
  }

  // ---------------------------------------------------------------- to the client

  lemma SentWithinLog(t: State, id: Id)
    requires Inv(t) && id in t.p.plan.jobs
    ensures id in t.r.b.home && t.r.b.home[id] < |t.r.b.logs|
    ensures Prefix(t.lanes[id].delivered, Log(t, id)) && Prefix(t.lanes[id].sent, Log(t, id))
    ensures |t.lanes[id].delivered| <= |Producers.Events(t.p.plan.jobs[id])|
  {
    var l := t.lanes[id];
    DoneLastEverywhere(t);
    LogIsStream(t, id);
    ExecutedWithinLog(t.r, id);
    assert Delivery.Inv(l) && l.sent + Busy(t.r, id) == Of(id, t.r.h.started);
    PrefixTransitive(l.delivered, l.sent, Of(id, t.r.h.started));
    PrefixTransitive(l.delivered, Of(id, t.r.h.started), Log(t, id));
    PrefixTransitive(l.sent, Of(id, t.r.h.started), Log(t, id));
  }

  lemma WithinLog(l: Delivery.Lane, log: seq<TokenEvent>)
    requires Subsequence(l.chunks, l.delivered) && Prefix(l.delivered, log)
    ensures Subsequence(l.chunks, log)
  {
    assert l.delivered + log[|l.delivered|..] == log;
    SubsequenceOfLonger(l.chunks, l.delivered, log[|l.delivered|..]);
  }

  /** Overflow or not, the client has read tokens of its log in order. */
  lemma ChunksInOrder(t: State, id: Id)
    requires Inv(t) && id in t.p.plan.jobs
    ensures Subsequence(t.lanes[id].chunks, Views(Producers.StreamOf(t.p, id)))
    ensures DoneLast(t.lanes[id].chunks)
  {
    var l := t.lanes[id];
    SentWithinLog(t, id);
    LogIsStream(t, id);
    assert Delivery.Inv(l);
    WithinLog(l, Log(t, id));
  }

  lemma ChunksWithinLog(t: State, id: Id)
    requires Inv(t) && id in t.p.plan.jobs
    requires !t.lanes[id].dropped || |Producers.Events(t.p.plan.jobs[id])| <= QUEUE_CAPACITY
    ensures Prefix(t.lanes[id].chunks, Views(Producers.StreamOf(t.p, id)))
    ensures Prefix(Text(t.lanes[id].chunks), Producers.Joined(t.p.plan.jobs[id].deltas))
    ensures DoneLast(t.lanes[id].chunks)
  {
    var l, j := t.lanes[id], t.p.plan.jobs[id];
    SentWithinLog(t, id);
    LogIsStream(t, id);
    assert Delivery.Inv(l);
    PrefixTransitive(l.chunks, l.delivered, Log(t, id));
    PrefixTransitive(l.chunks, Log(t, id), Views(Producers.Events(j)));
    PrefixText(l.chunks, Views(Producers.Events(j)));
    ViewsKeepText(Producers.Events(j));
    Producers.EventsSpell(j);
  }

  /**
   Over every interleaving of any number of requests and sessions, without failure, timeout or
   departure: the events the client of a request has read are events its producer has written to the
   stream log, in order. Unless the hub's queue overflowed they are a prefix of them, and the text it
   has read is a prefix of what the generator says.
   */
  lemma ClientReadsPrefix(s: State, run: seq<Step>, t: State, id: Id)
    requires Reachable(s, run, t) && id in s.p.plan.jobs
    ensures Producers.Shape(t.p) && t.p.plan == s.p.plan && id in t.lanes
    ensures Subsequence(t.lanes[id].chunks, Views(Producers.StreamOf(t.p, id)))
    ensures !t.lanes[id].dropped ==>
              && Prefix(t.lanes[id].chunks, Views(Producers.StreamOf(t.p, id)))
              && Prefix(Text(t.lanes[id].chunks), Producers.Joined(s.p.plan.jobs[id].deltas))
  {
    ReachableInv(s, run, t);
    PlanKept(s, run);
    ChunksInOrder(t, id);
    if !t.lanes[id].dropped {
      ChunksWithinLog(t, id);
    }
  }

  lemma NothingDropped(l: Delivery.Lane, log: seq<TokenEvent>)
    requires Delivery.Inv(l) && Parted(l) && Prefix(l.delivered, log) && DoneLast(log)
    requires |l.delivered| <= QUEUE_CAPACITY
    ensures !l.dropped
  {
    if l.handler == Delivery.Finished || l.handler == Delivery.Gone {
      var k := |l.chunks| - 1;
      assert log[k] == l.chunks[k];
      assert |log| == |l.chunks|;
    }
  }

  /** A request of at most 1000 events never finds its queue missing or full. */
  lemma ShortRequestNeverOverflows(s: State, run: seq<Step>, t: State, id: Id)
    requires Reachable(s, run, t) && id in s.p.plan.jobs
    requires |Producers.Events(s.p.plan.jobs[id])| <= QUEUE_CAPACITY
    ensures id in t.lanes && !t.lanes[id].dropped
  {
    ReachableInv(s, run, t);
    PlanKept(s, run);
    ShortLane(t, id);
  }

  lemma ShortLane(t: State, id: Id)
    requires Inv(t) && id in t.p.plan.jobs && |Producers.Events(t.p.plan.jobs[id])| <= QUEUE_CAPACITY
    ensures id in t.lanes && !t.lanes[id].dropped
  {
    SentWithinLog(t, id);
    LogIsStream(t, id);
    NothingDropped(t.lanes[id], Log(t, id));
  }
}
