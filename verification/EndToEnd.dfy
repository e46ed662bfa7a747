/**
 The two halves together: what the producers append to the persistence log is what the persistence
 worker reads. Without failure, timeout, departure or cancellation, the client and the table agree.
 */
module EndToEnd {
  import opened Types
  import opened Subsequences
  import opened MessageTable
  import opened FlushBatch
  import Producers = ProducerMachine
  import Delivery = DeliveryMachine
  import Pipeline
  import PipelineInvariant
  import PipelineTheorems
  import Progress
  import StreamingTheorems
  import Persistence = PersistenceMachine
  import PersistenceInvariant
  import PersistenceTheorems
  import PersistenceOwnership
  import PersistenceProgress
  import FlushSchedules

  /** The streaming path with its producers, and the persistence worker with its log and its table. */
  datatype State = State(x: Pipeline.State, d: Persistence.State)

  datatype Step = Streaming(step: Pipeline.Step) | Persisting(work: Persistence.Step)

  ghost predicate Init(s: State) {
    Pipeline.Init(s.x) && Persistence.Init(s.d) && s.d.d.logs == s.x.p.plogs
  }

  /** The second append of an event, as the persistence worker's broker sees it. */
  function Arrival(p: Producers.State, id: Id): Persistence.Step
    requires Producers.Enabled(p, Producers.Persist(id, true))
  {
    Persistence.Append(p.plan.persistHome[id], Producers.Event(p.plan.jobs[id], p.prods[id].k))
  }

  ghost predicate Enabled(s: State, step: Step) {
    match step
    case Streaming(step) => Pipeline.Enabled(s.x, step) && (step.WritePersist? ==>
      Persistence.Enabled(s.d, Arrival(s.x.p, step.id)))
    case Persisting(work) => PersistenceProgress.Clean(work) && Persistence.Enabled(s.d, work)
  }

  ghost function Apply(s: State, step: Step): State
    requires Enabled(s, step)
  {
    match step
    case Streaming(step) =>
      var d := if step.WritePersist? then Persistence.Apply(s.d, Arrival(s.x.p, step.id)) else s.d;
      State(Pipeline.Apply(s.x, step), d)
    case Persisting(work) => s.(d := Persistence.Apply(s.d, work))
  }

  ghost predicate Legal(s: State, run: seq<Step>)
    decreases |run|
  {
    run == [] || (Enabled(s, run[0]) && Legal(Apply(s, run[0]), run[1..]))
  }

  ghost function After(s: State, run: seq<Step>): State
    requires Legal(s, run)
    decreases |run|
  {
    if run == [] then s else After(Apply(s, run[0]), run[1..])
  }

  /** The requests of the jobs. */
  function Requests(plan: Producers.Plan): map<Id, ChatRequest> {
    map id | id in plan.jobs :: plan.jobs[id].req
  }

  /** What the worker carries and writes belongs to the jobs; its rows do if the initial ones did. */
  ghost predicate Owned(s: State) {
    var requests := Requests(s.x.p.plan);
    && PersistenceOwnership.Own(s.d, requests) && PersistenceOwnership.Quoted(s.d, requests)
    && (OwnRows(s.d.k.base, requests, s.d.k.base) ==> OwnRows(s.d.d.rows, requests, s.d.k.base))
  }

  ghost predicate Inv(s: State) {
    PipelineInvariant.Inv(s.x) && PersistenceProgress.Sound(s.d) && s.d.d.logs == s.x.p.plogs && Owned(s)
  }

  lemma OwnedInitially(s: State)
    requires Persistence.Init(s.d)
    ensures Owned(s)
  {
    PersistenceOwnership.OwnInitially(s.d, Requests(s.x.p.plan));
  }

  lemma InvInitially(s: State)
    requires Init(s)
    ensures Inv(s)
  {
    PipelineInvariant.InvInitially(s.x);
    PersistenceProgress.SoundInitially(s.d);
    OwnedInitially(s);
  }

  lemma LogsKept(s: State, step: Step)
    requires s.d.d.logs == s.x.p.plogs && Enabled(s, step)
    ensures Apply(s, step).d.d.logs == Apply(s, step).x.p.plogs
  {
    match step
    case Streaming(move) => StreamingLogs(s, move);
    case Persisting(work) => CleanKeepsLogs(s.d, work);
  }

  lemma CleanKeepsLogs(d: Persistence.State, work: Persistence.Step)
    requires PersistenceProgress.Clean(work) && Persistence.Enabled(d, work)
    ensures Persistence.Apply(d, work).d.logs == d.d.logs && Persistence.Apply(d, work).k == d.k
  {
  }

  lemma StreamingLogs(s: State, move: Pipeline.Step)
    requires s.d.d.logs == s.x.p.plogs && Enabled(s, Streaming(move))
    ensures Apply(s, Streaming(move)).d.d.logs == Apply(s, Streaming(move)).x.p.plogs
  {
    match move
    case WritePersist(id) =>
    case WriteStream(id) =>
    case StartRequest(id) =>
    case _ => assert Pipeline.Apply(s.x, move).p == s.x.p;
  }

  lemma EventIsOwn(plan: Producers.Plan, id: Id, e: TokenEvent)
    requires id in plan.jobs && plan.jobs[id].req.requestID == id && e in Producers.Events(plan.jobs[id])
    ensures PersistenceOwnership.OwnToken(e, Requests(plan))
  {
  }

  /** The producers quote the request they answer in every event. */
  lemma LogsAreOwn(s: State)
    requires Producers.Shape(s.x.p) && Producers.OwnEvents(s.x.p.plogs, s.x.p.plan.persistHome, s.x.p.plan.jobs)
    requires s.d.d.logs == s.x.p.plogs
    ensures PersistenceOwnership.OwnLogs(s.d, Requests(s.x.p.plan))
  {
    forall p, e | 0 <= p < |s.d.d.logs| && e in s.d.d.logs[p]
        ensures PersistenceOwnership.OwnToken(e, Requests(s.x.p.plan)) {
      EventIsOwn(s.x.p.plan, e.requestID, e);
    }
  }

  lemma OwnedWork(s: State, d': Persistence.State, work: Persistence.Step)
    requires Inv(s) && Persistence.Enabled(s.d, work) && d' == Persistence.Apply(s.d, work) && d'.k == s.d.k
    ensures Owned(s.(d := d'))
  {
    var requests := Requests(s.x.p.plan);
    LogsAreOwn(s);
    PersistenceOwnership.OwnKept(s.d, work, requests);
    PersistenceOwnership.QuotedKept(s.d, work, requests);
    if OwnRows(s.d.d.rows, requests, s.d.k.base) { PersistenceOwnership.OwnRowsKept(s.d, work, requests); }
  }

  lemma OwnedKept(s: State, step: Step)
    requires Inv(s) && Enabled(s, step)
    ensures Owned(Apply(s, step))
  {
    ConstantsStay(s, step);
    var s' := Apply(s, step);
    match step
    case Streaming(move) =>
      if move.WritePersist? {
        OwnedWork(s, s'.d, Arrival(s.x.p, move.id));
      }
      assert Requests(s'.x.p.plan) == Requests(s.x.p.plan);
    case Persisting(work) => OwnedWork(s, s'.d, work);
  }

  lemma InvKept(s: State, step: Step)
    requires Inv(s) && Enabled(s, step)
    ensures Inv(Apply(s, step))
  {
    LogsKept(s, step);
    OwnedKept(s, step);
    match step
    case Streaming(move) =>
      PipelineInvariant.InvKept(s.x, move);
      if move.WritePersist? { PersistenceProgress.SoundKept(s.d, Arrival(s.x.p, move.id)); }
    case Persisting(work) => PersistenceProgress.SoundKept(s.d, work);
  }

  lemma {:induction false} InvAlongRun(s: State, run: seq<Step>)
    requires Inv(s) && Legal(s, run)
    ensures Inv(After(s, run))
    decreases |run|
  {
    if run != [] {
      InvKept(s, run[0]);
      InvAlongRun(Apply(s, run[0]), run[1..]);
    }
  }

  ghost predicate Reachable(s: State, run: seq<Step>, t: State) {
    Init(s) && Legal(s, run) && t == After(s, run)
  }

  lemma ConstantsStay(s: State, step: Step)
    requires Enabled(s, step)
    ensures Apply(s, step).x.p.plan == s.x.p.plan && Apply(s, step).d.k == s.d.k
  {
    match step
    case Streaming(move) => PipelineTheorems.PlanStays(s.x, move);
    case Persisting(work) => CleanKeepsLogs(s.d, work);
  }

  lemma {:induction false} ConstantsKept(s: State, run: seq<Step>)
    requires Legal(s, run)
    ensures After(s, run).x.p.plan == s.x.p.plan && After(s, run).d.k == s.d.k
    decreases |run|
  {
    if run != [] {
      ConstantsStay(s, run[0]);
      ConstantsKept(Apply(s, run[0]), run[1..]);
    }
  }

  // ---------------------------------------------------------------- what the table holds

  lemma {:induction false} OfOnPart(ss: seq<Persistence.Stamp>, h: nat, r: Id)
    requires forall x :: x in ss && x.tok.requestID == r ==> x.part == h
    ensures Of(r, Persistence.Toks(ss)) == Of(r, PersistenceInvariant.OnPart(h, ss))
  {
    if ss != [] {
      var init, x := ss[..|ss| - 1], ss[|ss| - 1];
      OfOnPart(init, h, r);
      assert Persistence.Toks(ss) == Persistence.Toks(init) + [x.tok];
      assert ss == init + [x];
      OfSnoc(r, Persistence.Toks(init), x.tok);
      OfSnoc(r, PersistenceInvariant.OnPart(h, init), x.tok);
    }
  }

  /** Every token handed to the buffers came from its request's own partition. */
  lemma AddedAtHome(s: State, id: Id, x: Persistence.Stamp)
    requires Producers.Inv(s.x.p) && PersistenceInvariant.Placed(s.d) && s.d.d.logs == s.x.p.plogs
    requires x in s.d.h.added && x.tok.requestID == id && id in s.x.p.plan.persistHome
    ensures x.part == s.x.p.plan.persistHome[id]
  {
    assert PersistenceInvariant.InLog(s.d, x);
    assert x.tok in s.x.p.plogs[x.part];
  }

  /** What of a request's persistence log the worker has not yet handed to `AddToken`. */
  function Unread(s: State, id: Id): seq<TokenEvent>
    requires id in s.x.p.plan.persistHome && s.x.p.plan.persistHome[id] < |s.d.d.logs|
    requires |s.d.w.fetched| == |s.d.d.logs|
    requires Persistence.Frontier(s.d, s.x.p.plan.persistHome[id]) <= |s.d.d.logs[s.x.p.plan.persistHome[id]]|
  {
    var h := s.x.p.plan.persistHome[id];
    Of(id, s.d.d.logs[h][Persistence.Frontier(s.d, h)..])
  }

  lemma LogSplits(s: State, id: Id)
    requires Inv(s) && id in s.x.p.plan.jobs
    ensures id in s.x.p.plan.persistHome && s.x.p.plan.persistHome[id] < |s.d.d.logs| == |s.d.w.fetched|
    ensures Persistence.Frontier(s.d, s.x.p.plan.persistHome[id]) <= |s.d.d.logs[s.x.p.plan.persistHome[id]]|
    ensures Producers.PersistOf(s.x.p, id) == Of(id, Persistence.Toks(s.d.h.added)) + Unread(s, id)
  {
    var h := s.x.p.plan.persistHome[id];
    assert PersistenceInvariant.Copied(s.d) && PersistenceProgress.Sound(s.d);
    forall x | x in s.d.h.added && x.tok.requestID == id ensures x.part == h { AddedAtHome(s, id, x); }
    OfOnPart(s.d.h.added, h, id);
    StreamingTheorems.SplitLog(id, s.d.d.logs[h], Persistence.Frontier(s.d, h));
  }

  /**
   The stored text of a request, its snapshot in flight, its buffer and the unread rest of its
   persistence log spell, in this order, exactly its initial text and its whole persistence log.
   */
  ghost predicate Accounted(s: State, id: Id) {
    && id in s.x.p.plan.persistHome && s.x.p.plan.persistHome[id] < |s.x.p.plogs| == |s.d.d.logs| == |s.d.w.fetched|
    && Persistence.Frontier(s.d, s.x.p.plan.persistHome[id]) <= |s.d.d.logs[s.x.p.plan.persistHome[id]]|
    && Stored(s.d.d.rows, id) + PersistenceTheorems.InFlightText(s.d, id) + BufferedText(s.d.w.mem.buffers, id) +
        Text(Unread(s, id))
       == Stored(s.d.k.base, id) + Text(Producers.PersistOf(s.x.p, id))
  }

  lemma TableAccounts(s: State, id: Id)
    requires Inv(s) && id in s.x.p.plan.jobs
    ensures Accounted(s, id)
  {
    PersistenceTheorems.DeltasOnceInOrder(s.d, id);
    LogSplits(s, id);
    TextConcat(Of(id, Persistence.Toks(s.d.h.added)), Unread(s, id));
    Associate(Stored(s.d.k.base, id), Text(Of(id, Persistence.Toks(s.d.h.added))), Text(Unread(s, id)));
  }

  lemma LogsLag(p: Producers.State, id: Id)
    requires Producers.Inv(p) && id in p.plan.jobs
    ensures Prefix(Producers.PersistOf(p, id), Producers.StreamOf(p, id))
    ensures |Producers.StreamOf(p, id)| <= |Producers.PersistOf(p, id)| + 1
  {
    Producers.LagAt(p.plan.jobs[id], p.prods[id], Producers.StreamOf(p, id), Producers.PersistOf(p, id));
  }

  /**
   The persistence log of a request follows its stream log, at most one event behind; and what its
   client has read are events of the stream log in order, the first ones unless the hub's queue overflowed.
   */
  ghost predicate Followed(x: Pipeline.State, id: Id) {
    && Producers.Shape(x.p) && id in x.p.plan.jobs && id in x.lanes
    && Prefix(Producers.PersistOf(x.p, id), Producers.StreamOf(x.p, id))
    && |Producers.StreamOf(x.p, id)| <= |Producers.PersistOf(x.p, id)| + 1
    && Subsequence(x.lanes[id].chunks, Views(Producers.StreamOf(x.p, id)))
    && (!x.lanes[id].dropped ==> Prefix(x.lanes[id].chunks, Views(Producers.StreamOf(x.p, id))))
  }

  /**
   In every reachable state, over every interleaving of any number of requests and sessions: the
   persistence log of a request is a prefix of its stream log, at most one event behind; table,
   flight, buffer and unread log account for exactly the persistence log; and what the client has
   read are events of the stream log in order, a prefix of it unless the hub's queue overflowed.
   */
  lemma HalvesAgree(s: State, run: seq<Step>, t: State, id: Id)
    requires Reachable(s, run, t) && id in s.x.p.plan.jobs
    ensures t.x.p.plan == s.x.p.plan && t.d.k.base == s.d.d.rows
    ensures Accounted(t, id) && Followed(t.x, id)
  {
    InvInitially(s);
    InvAlongRun(s, run);
    ConstantsKept(s, run);
    TableAccounts(t, id);
    PathAgrees(t.x, id);
  }

  lemma PathAgrees(x: Pipeline.State, id: Id)
    requires PipelineInvariant.Inv(x) && id in x.p.plan.jobs
    ensures Followed(x, id)
  {
    LogsLag(x.p, id);
    PipelineTheorems.ChunksInOrder(x, id);
    if !x.lanes[id].dropped {
      PipelineTheorems.ChunksWithinLog(x, id);
    }
  }

  // ---------------------------------------------------------------- whose rows they are

  lemma OwnedAlongRun(s: State, run: seq<Step>, t: State)
    requires Reachable(s, run, t)
    ensures PersistenceOwnership.Quoted(t.d, Requests(s.x.p.plan))
    ensures OwnRows(s.d.d.rows, Requests(s.x.p.plan), s.d.d.rows) ==>
        OwnRows(t.d.d.rows, Requests(s.x.p.plan), s.d.d.rows)
  {
    InvInitially(s);
    InvAlongRun(s, run);
    ConstantsKept(s, run);
  }

  /** No row that is there at the start names a job. */
  ghost predicate FreshIds(rows: seq<Message>, plan: Producers.Plan) {
    forall m :: m in rows ==> m.requestID !in plan.jobs
  }

  lemma FreshIdsOwnTheirRows(rows: seq<Message>, plan: Producers.Plan)
    requires FreshIds(rows, plan)
    ensures OwnRows(rows, Requests(plan), rows)
  {
  }

  /**
   In every reachable state a row of a job lies in the job's session and a user row quotes what its
   user asked, if the rows there at the start do, as they do when request ids are fresh; and once a
   successful upsert has carried a token of a job, its user row is there.
   */
  lemma RowsQuoteTheirJob(s: State, run: seq<Step>, t: State)
    requires Reachable(s, run, t)
    ensures FreshIds(s.d.d.rows, s.x.p.plan) ==> OwnRows(s.d.d.rows, Requests(s.x.p.plan), s.d.d.rows)
    ensures OwnRows(s.d.d.rows, Requests(s.x.p.plan), s.d.d.rows) ==>
              forall m :: m in t.d.d.rows && m.requestID in s.x.p.plan.jobs ==>
                var req := s.x.p.plan.jobs[m.requestID].req;
                m.sessionID == req.sessionID && (m.role == User ==> m.content == req.content)
    ensures forall x :: x in Persistence.Kept(t.d.h.ended) ==>
              && x.tok.requestID in s.x.p.plan.jobs
              && Lookup(t.d.d.rows, x.tok.requestID, User) == Some(s.x.p.plan.jobs[x.tok.requestID].req.content)
  {
    OwnedAlongRun(s, run, t);
    var requests := Requests(s.x.p.plan);
    if FreshIds(s.d.d.rows, s.x.p.plan) { FreshIdsOwnTheirRows(s.d.d.rows, s.x.p.plan); }
    if OwnRows(s.d.d.rows, requests, s.d.d.rows) {
      forall m | m in t.d.d.rows ensures OwnRow(m, requests, s.d.d.rows) {}
    }
    forall x | x in Persistence.Kept(t.d.h.ended)
        ensures PersistenceOwnership.Quotes(t.d.d.rows, x.tok.requestID, requests) {}
  }

  /** The producers agree on the prompt of a request, so it does not depend on when flushes happen. */
  lemma ProducersQuoteOnePrompt(s: State, run: seq<Step>, t: State, id: Id, rows: seq<Message>)
    requires Reachable(s, run, t)
    ensures forall p :: 0 <= p < |t.x.p.plogs| ==> FlushSchedules.OnePrompt(id, t.x.p.plogs[p])
    ensures forall p :: 0 <= p < |t.x.p.plogs| ==> FlushSchedules.PromptIndependent(rows, t.x.p.plogs[p], id)
  {
    InvInitially(s);
    InvAlongRun(s, run);
    LogsAreOwn(t);
    forall p | 0 <= p < |t.x.p.plogs|
      ensures FlushSchedules.OnePrompt(id, t.x.p.plogs[p]) && FlushSchedules.PromptIndependent(rows, t.x.p.plogs[p], id)
    {
      OwnLogHasOnePrompt(t.x.p.plogs[p], id, Requests(t.x.p.plan));
      FlushSchedules.PromptIndependentIff(rows, t.x.p.plogs[p], id);
    }
  }

  lemma OwnLogHasOnePrompt(log: seq<TokenEvent>, id: Id, requests: map<Id, ChatRequest>)
    requires forall e :: e in log ==> PersistenceOwnership.OwnToken(e, requests)
    ensures FlushSchedules.OnePrompt(id, log)
  {
    forall i | 0 <= i < |log| && log[i].requestID == id
      ensures id in requests && log[i].userMessage == requests[id].content
    {
      assert log[i] in log;
    }
  }

  // ---------------------------------------------------------------- at quiescence

  lemma NothingLeft(d: Persistence.State, r: Id)
    requires PersistenceProgress.Settled(d)
    ensures PersistenceTheorems.InFlightText(d, r) == "" && BufferedText(d.w.mem.buffers, r) == ""
    ensures forall p :: 0 <= p < |d.d.logs| && |d.w.fetched| == |d.d.logs| ==>
        d.d.logs[p][Persistence.Frontier(d, p)..] == []
  {
  }

  lemma SettledText(s: State, id: Id)
    requires Accounted(s, id) && PersistenceProgress.Settled(s.d)
    ensures Stored(s.d.d.rows, id) == Stored(s.d.k.base, id) + Text(Producers.PersistOf(s.x.p, id))
  {
    NothingLeft(s.d, id);
    assert Unread(s, id) == [];
    assert Text(Unread(s, id)) == "";
    var stored := Stored(s.d.d.rows, id);
    assert stored + "" + "" + "" == stored;
  }

  /** When nothing is under way, every added token has been stored. */
  lemma AllStored(d: Persistence.State)
    requires PersistenceProgress.Sound(d) && PersistenceProgress.Settled(d)
    ensures Persistence.Kept(d.h.ended) == d.h.added
  {
    PersistenceTheorems.AddedSplits(d);
    PersistenceTheorems.KeptIsAll(d.h.ended);
    FlushBatch.NothingCollected(Persistence.Toks(d.h.held));
    assert d.h.held == [];
    assert Persistence.All(d.h.ended) + [] + [] == Persistence.All(d.h.ended);
  }

  lemma StampOf(ss: seq<Persistence.Stamp>, id: Id) returns (x: Persistence.Stamp)
    requires Of(id, Persistence.Toks(ss)) != []
    ensures x in ss && x.tok.requestID == id
  {
    var e := Of(id, Persistence.Toks(ss))[0];
    assert e in Of(id, Persistence.Toks(ss));
    OfMembers(id, Persistence.Toks(ss));
    var i :| 0 <= i < |ss| && Persistence.Toks(ss)[i] == e;
    x := ss[i];
  }

  lemma SomeTokenStored(s: State, id: Id) returns (x: Persistence.Stamp)
    requires Inv(s) && id in s.x.p.plan.jobs && PersistenceProgress.Settled(s.d)
    requires id in s.x.p.plan.persistHome && Producers.PersistOf(s.x.p, id) != []
    ensures x in Persistence.Kept(s.d.h.ended) && x.tok.requestID == id
  {
    LogSplits(s, id);
    NothingLeft(s.d, id);
    assert Unread(s, id) == [];
    AllStored(s.d);
    x := StampOf(s.d.h.added, id);
  }

  /**
   When the streaming path has stopped and the persistence worker has settled, the text the client
   of a request of at most 1000 events has read, the text stored for it and what its generator said
   are the same, and its user row holds what its user asked.
   */
  lemma AgreementAtQuiescence(s: State, run: seq<Step>, t: State, id: Id)
    requires Reachable(s, run, t) && id in s.x.p.plan.jobs && Progress.Short(s.x.p.plan.jobs[id])
    requires Progress.Stopped(t.x) && PersistenceProgress.Settled(t.d)
    ensures Agreed(s, t, id)
  {
    InvInitially(s);
    InvAlongRun(s, run);
    ConstantsKept(s, run);
    Progress.Served(t.x, id);
    TableAccounts(t, id);
    SettledText(t, id);
    ViewsKeepText(Producers.Events(s.x.p.plan.jobs[id]));
    Producers.EventsSpell(s.x.p.plan.jobs[id]);
    var x := SomeTokenStored(t, id);
    RowsQuoteTheirJob(s, run, t);
  }

  ghost predicate Agreed(s: State, t: State, id: Id) {
    && id in s.x.p.plan.jobs && id in t.x.lanes && t.x.lanes[id].handler == Delivery.Gone
    && Text(t.x.lanes[id].chunks) == Producers.Joined(s.x.p.plan.jobs[id].deltas)
    && Stored(t.d.d.rows, id) == Stored(s.d.d.rows, id) + Producers.Joined(s.x.p.plan.jobs[id].deltas)
    && Lookup(t.d.d.rows, id, User) == Some(s.x.p.plan.jobs[id].req.content)
  }

  /** Nothing is unread or buffered, and the flushes under way carry nothing. */
  ghost predicate Drained(d: Persistence.State) {
    && d.w.loop == Persistence.Fetching && d.w.mem.buffers == map[]
    && (forall f :: f in d.w.flights ==> !PersistenceInvariant.CarriesSnapshot(d.w.flights[f]))
    && |d.w.fetched| == |d.d.logs| && forall p :: 0 <= p < |d.d.logs| ==> d.w.fetched[p] == |d.d.logs[p]|
  }

  lemma DrainedKept(d: Persistence.State, work: Persistence.Step)
    requires Drained(d) && PersistenceProgress.Clean(work) && Persistence.Enabled(d, work)
    ensures Drained(Persistence.Apply(d, work)) && Persistence.Apply(d, work).d.rows == d.d.rows
  {
  }

  lemma {:induction false} QuiescenceLasts(t: State, run: seq<Step>)
    requires Progress.Stopped(t.x) && Drained(t.d) && Legal(t, run)
    ensures After(t, run).x == t.x && After(t, run).d.d.rows == t.d.d.rows && Drained(After(t, run).d)
    decreases |run|
  {
    if run != [] {
      assert run[0].Persisting?;
      DrainedKept(t.d, run[0].work);
      QuiescenceLasts(Apply(t, run[0]), run[1..]);
    }
  }

  /** However the run goes on, the client's text and the table stay as they are and agree. */
  lemma AgreementLasts(s: State, run: seq<Step>, t: State, more: seq<Step>, id: Id)
    requires Reachable(s, run, t) && id in s.x.p.plan.jobs && Progress.Short(s.x.p.plan.jobs[id])
    requires Progress.Stopped(t.x) && PersistenceProgress.Settled(t.d) && Legal(t, more)
    ensures Agreed(s, After(t, more), id)
    ensures After(t, more).x == t.x && After(t, more).d.d.rows == t.d.d.rows
  {
    AgreementAtQuiescence(s, run, t, id);
    QuiescenceLasts(t, more);
  }

  // ---------------------------------------------------------------- quiescence can be reached

  lemma {:induction false} Extend(s: State, run: seq<Step>, step: Step)
    requires Legal(s, run) && Enabled(After(s, run), step)
    ensures Legal(s, run + [step]) && After(s, run + [step]) == Apply(After(s, run), step)
    decreases |run|
  {
    var longer := run + [step];
    if run == [] {
      assert longer[1..] == [];
    } else {
      assert longer[0] == run[0] && longer[1..] == run[1..] + [step];
      Extend(Apply(s, run[0]), run[1..], step);
    }
  }

  /** The persistence worker never holds up the streaming path. */
  lemma StreamingEnabled(t: State, move: Pipeline.Step)
    requires Inv(t) && Pipeline.Enabled(t.x, move)
    ensures Enabled(t, Streaming(move))
  {
  }

  lemma {:induction false} StreamingCompletes(s: State, run: seq<Step>) returns (run': seq<Step>)
    requires Inv(s) && Legal(s, run)
    ensures Legal(s, run') && run <= run' && Progress.Stopped(After(s, run').x)
    decreases Progress.Work(After(s, run).x)
  {
    var t := After(s, run);
    InvAlongRun(s, run);
    if Progress.Stopped(t.x) {
      run' := run;
    } else {
      var move :| Pipeline.Enabled(t.x, move);
      StreamingEnabled(t, move);
      Progress.EveryStepDescends(t.x, move);
      Extend(s, run, Streaming(move));
      run' := StreamingCompletes(s, run + [Streaming(move)]);
    }
  }

  lemma {:induction false} Persist(s: State, run: seq<Step>, work: seq<Persistence.Step>) returns (run': seq<Step>)
    requires Legal(s, run) && Persistence.Legal(After(s, run).d, work) && PersistenceProgress.AllClean(work)
    ensures Legal(s, run') && run <= run'
    ensures After(s, run') == After(s, run).(d := Persistence.After(After(s, run).d, work))
    decreases |work|
  {
    if work == [] {
      run' := run;
    } else {
      assert PersistenceProgress.Clean(work[0]);
      assert PersistenceProgress.AllClean(work[1..]);
      Extend(s, run, Persisting(work[0]));
      run' := Persist(s, run + [Persisting(work[0])], work[1..]);
    }
  }

  /** Every run can be continued until the streaming path has stopped and the persistence worker has settled. */
  lemma EveryRunReachesQuiescence(s: State, run: seq<Step>) returns (run': seq<Step>)
    requires Init(s) && Legal(s, run)
    ensures Legal(s, run') && run <= run'
    ensures Progress.Stopped(After(s, run').x) && PersistenceProgress.Settled(After(s, run').d)
  {
    InvInitially(s);
    var stopped := StreamingCompletes(s, run);
    InvAlongRun(s, stopped);
    var work, d := PersistenceProgress.CanSettle(After(s, stopped).d);
    run' := Persist(s, stopped, work);
  }
}
