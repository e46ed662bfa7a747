/**
 The producers as a step machine: every request is a goroutine that appends each of its events to
 the stream log and then to the persistence log. Requests run concurrently and share partitions;
 an append may fail, and then its request stops.
 */
module ProducerMachine {
  import opened Types

  /** A request and the deltas its generator emits before it closes its channel. */
  datatype Job = Job(req: ChatRequest, deltas: seq<string>)

  /** The k-th event of a job: its deltas in order, then Done. */
  function Event(j: Job, k: nat): TokenEvent {
    if k < |j.deltas| then TokenEvent(j.req.requestID, j.req.sessionID, j.req.content, j.deltas[k], false)
    else TokenEvent(j.req.requestID, j.req.sessionID, j.req.content, "", true)
  }

  function Events(j: Job): seq<TokenEvent> {
    seq(|j.deltas| + 1, k requires 0 <= k < |j.deltas| + 1 => Event(j, k))
  }

  function Joined(ds: seq<string>): string {
    if ds == [] then "" else Joined(ds[..|ds| - 1]) + ds[|ds| - 1]
  }

  lemma {:induction false} PrefixOfEventsSpells(j: Job, k: nat)
    requires k <= |j.deltas|
    ensures Text(Events(j)[..k]) == Joined(j.deltas[..k])
  {
    if k > 0 {
      PrefixOfEventsSpells(j, k - 1);
      assert Events(j)[..k] == Events(j)[..k - 1] + [Event(j, k - 1)];
      TextSnoc(Events(j)[..k - 1], Event(j, k - 1));
      assert j.deltas[..k][..k - 1] == j.deltas[..k - 1];
    }
  }

  /** The events spell what the generator said: Done adds no text. */
  lemma EventsSpell(j: Job)
    ensures Text(Events(j)) == Joined(j.deltas)
    ensures DoneLast(Events(j)) && forall e :: e in Events(j) ==> e.requestID == j.req.requestID
  {
    var n := |j.deltas|;
    PrefixOfEventsSpells(j, n);
    assert Events(j) == Events(j)[..n] + [Event(j, n)];
    TextSnoc(Events(j)[..n], Event(j, n));
    assert j.deltas[..n] == j.deltas;
  }

  /** Before the k-th append to the stream log, between its two appends (`half`), or returned at that point. */
  datatype Prod = Idle | Writing(k: nat, half: bool) | Returned(err: bool, k: nat, half: bool)

  /** `streamHome` and `persistHome` are the partitions the session key hashes to in the two topics. */
  datatype Plan = Plan(jobs: map<Id, Job>, streamHome: map<Id, nat>, persistHome: map<Id, nat>)

  datatype State = State(plan: Plan, slogs: seq<seq<TokenEvent>>, plogs: seq<seq<TokenEvent>>, prods: map<Id, Prod>)

  datatype Step = Start(r: Id) | Stream(r: Id, ok: bool) | Persist(r: Id, ok: bool)

  ghost predicate WellPlanned(plan: Plan, ns: nat, np: nat) {
    && plan.streamHome.Keys == plan.jobs.Keys && plan.persistHome.Keys == plan.jobs.Keys
    && forall r :: r in plan.jobs ==>
         plan.jobs[r].req.requestID == r && plan.streamHome[r] < ns && plan.persistHome[r] < np
  }

  ghost predicate Init(s: State) {
    && WellPlanned(s.plan, |s.slogs|, |s.plogs|)
    && (forall p :: 0 <= p < |s.slogs| ==> s.slogs[p] == [])
    && (forall p :: 0 <= p < |s.plogs| ==> s.plogs[p] == [])
    && s.prods == map r | r in s.plan.jobs :: Idle
  }

  predicate Enabled(s: State, step: Step) {
    && step.r in s.plan.jobs && step.r in s.plan.streamHome && step.r in s.plan.persistHome && step.r in s.prods
    && s.plan.streamHome[step.r] < |s.slogs| && s.plan.persistHome[step.r] < |s.plogs|
    && match step
       case Start(r) => s.prods[r] == Idle
       case Stream(r, ok) => s.prods[r].Writing? && !s.prods[r].half
       case Persist(r, ok) => s.prods[r].Writing? && s.prods[r].half
  }

  /** After its k-th event is in both logs a producer goes on, or returns without an error. */
  function Next(j: Job, k: nat): Prod {
    if k == |j.deltas| then Returned(false, k + 1, false) else Writing(k + 1, false)
  }

  function Apply(s: State, step: Step): State
    requires Enabled(s, step)
  {
    match step
    case Start(r) => s.(prods := s.prods[r := Writing(0, false)])
    case Stream(r, ok) =>
      var k := s.prods[r].k;
      var p := s.plan.streamHome[r];
      if ok then
        s.(slogs := s.slogs[p := s.slogs[p] + [Event(s.plan.jobs[r], k)]], prods := s.prods[r := Writing(k, true)])
      else s.(prods := s.prods[r := Returned(true, k, false)])
    case Persist(r, ok) =>
      var k := s.prods[r].k;
      var p := s.plan.persistHome[r];
      if ok then
        s.(plogs := s.plogs[p := s.plogs[p] + [Event(s.plan.jobs[r], k)]],
           prods := s.prods[r := Next(s.plan.jobs[r], k)])
      else s.(prods := s.prods[r := Returned(true, k, true)])
  }

  ghost predicate Legal(s: State, run: seq<Step>)
    decreases |run|
  {
    run == [] || (Enabled(s, run[0]) && Legal(Apply(s, run[0]), run[1..]))
  }

  ghost function After(s: State, run: seq<Step>): State
    requires Legal(s, run)
    decreases |run|
  {
    if run == [] then s else After(Apply(s, run[0]), run[1..])
  }

  /** How many events of a request the persistence log has, and whether the stream log has one more. */
  function Count(p: Prod): nat {
    match p case Idle => 0 case Writing(k, _) => k case Returned(_, k, _) => k
  }

  function Half(p: Prod): bool {
    match p case Idle => false case Writing(_, half) => half case Returned(_, _, half) => half
  }

  /** What the two logs of one request look like when its producer stands at `p`. */
  ghost predicate At(j: Job, p: Prod, sl: seq<TokenEvent>, pl: seq<TokenEvent>) {
    var es := Events(j);
    && Count(p) + (if Half(p) then 1 else 0) <= |es|
    && (p.Writing? ==> p.k < |es|)
    && (p.Returned? ==> (p.err <==> p.k < |es|))
    && sl == es[..Count(p) + if Half(p) then 1 else 0]
    && pl == es[..Count(p)]
  }

  lemma AtStream(j: Job, k: nat, sl: seq<TokenEvent>, pl: seq<TokenEvent>)
    requires At(j, Writing(k, false), sl, pl)
    ensures At(j, Writing(k, true), sl + [Event(j, k)], pl) && Event(j, k) in Events(j)
  {
    assert Events(j)[k] == Event(j, k);
  }

  lemma AtPersist(j: Job, k: nat, sl: seq<TokenEvent>, pl: seq<TokenEvent>)
    requires At(j, Writing(k, true), sl, pl)
    ensures At(j, Next(j, k), sl, pl + [Event(j, k)])
    ensures Event(j, k) in Events(j)
  {
    assert Events(j)[k] == Event(j, k);
  }

  ghost predicate Shape(s: State) {
    WellPlanned(s.plan, |s.slogs|, |s.plogs|) && s.prods.Keys == s.plan.jobs.Keys
  }

  /** The events of request `r` in its partition of the stream log. */
  function StreamOf(s: State, r: Id): seq<TokenEvent>
    requires r in s.plan.streamHome && s.plan.streamHome[r] < |s.slogs|
  {
    Of(r, s.slogs[s.plan.streamHome[r]])
  }

  /** The events of request `r` in its partition of the persistence log. */
  function PersistOf(s: State, r: Id): seq<TokenEvent>
    requires r in s.plan.persistHome && s.plan.persistHome[r] < |s.plogs|
  {
    Of(r, s.plogs[s.plan.persistHome[r]])
  }

  ghost predicate Lagging(s: State)
    requires Shape(s)
  {
    forall r :: r in s.plan.jobs ==>
      At(s.plan.jobs[r], s.prods[r], StreamOf(s, r), PersistOf(s, r))
  }

  /** Every event lies in its request's partition and belongs to its request's job. */
  ghost predicate OwnEvents(logs: seq<seq<TokenEvent>>, home: map<Id, nat>, jobs: map<Id, Job>) {
    forall p, e :: 0 <= p < |logs| && e in logs[p] ==>
      e.requestID in jobs && e.requestID in home && home[e.requestID] == p && e in Events(jobs[e.requestID])
  }

  ghost predicate Inv(s: State) {
    && Shape(s) && Lagging(s)
    && OwnEvents(s.slogs, s.plan.streamHome, s.plan.jobs)
    && OwnEvents(s.plogs, s.plan.persistHome, s.plan.jobs)
  }

  lemma InvInitially(s: State)
    requires Init(s)
    ensures Inv(s)
  {
  }

  lemma OwnAppend(logs: seq<seq<TokenEvent>>, home: map<Id, nat>, jobs: map<Id, Job>, p: nat, e: TokenEvent)
    requires OwnEvents(logs, home, jobs) && p < |logs|
    requires e.requestID in jobs && e.requestID in home && home[e.requestID] == p && e in Events(jobs[e.requestID])
    ensures OwnEvents(logs[p := logs[p] + [e]], home, jobs)
  {
  }

  /** Appending an event of one request leaves the others' events alone. */
  lemma OthersUnmoved(logs: seq<seq<TokenEvent>>, home: map<Id, nat>, p: nat, e: TokenEvent)
    requires p < |logs| && e.requestID in home && home[e.requestID] == p && forall q :: q in home ==> home[q] < |logs|
    ensures var logs' := logs[p := logs[p] + [e]];
            && Of(e.requestID, logs'[p]) == Of(e.requestID, logs[p]) + [e]
            && forall q :: q in home && q != e.requestID ==> Of(q, logs'[home[q]]) == Of(q, logs[home[q]])
  {
    forall q ensures Of(q, logs[p] + [e]) == if e.requestID == q then Of(q, logs[p]) + [e] else Of(q, logs[p]) {
      OfSnoc(q, logs[p], e);
    }
  }

  lemma LaggingStep(s: State, s': State, r: Id)
    requires Shape(s) && Lagging(s) && Shape(s') && s'.plan == s.plan && r in s.plan.jobs
    requires forall q :: q in s.plan.jobs && q != r ==>
               && s'.prods[q] == s.prods[q]
               && StreamOf(s', q) == StreamOf(s, q) && PersistOf(s', q) == PersistOf(s, q)
    requires At(s.plan.jobs[r], s'.prods[r], StreamOf(s', r), PersistOf(s', r))
    ensures Lagging(s')
  {
  }

  lemma StreamMoves(s: State, r: Id)
    requires Shape(s) && Enabled(s, Stream(r, true))
    ensures var s' := Apply(s, Stream(r, true));
            && Shape(s') && StreamOf(s', r) == StreamOf(s, r) + [Event(s.plan.jobs[r], s.prods[r].k)]
            && PersistOf(s', r) == PersistOf(s, r)
            && forall q :: q in s.plan.jobs && q != r ==>
                 s'.prods[q] == s.prods[q] && StreamOf(s', q) == StreamOf(s, q) && PersistOf(s', q) == PersistOf(s, q)
  {
    OthersUnmoved(s.slogs, s.plan.streamHome, s.plan.streamHome[r], Event(s.plan.jobs[r], s.prods[r].k));
  }

  lemma StreamLags(s: State, r: Id)
    requires Shape(s) && Lagging(s) && Enabled(s, Stream(r, true))
    ensures Shape(Apply(s, Stream(r, true))) && Lagging(Apply(s, Stream(r, true)))
    ensures Event(s.plan.jobs[r], s.prods[r].k) in Events(s.plan.jobs[r])
  {
    StreamMoves(s, r);
    AtStream(s.plan.jobs[r], s.prods[r].k, StreamOf(s, r), PersistOf(s, r));
    LaggingStep(s, Apply(s, Stream(r, true)), r);
  }

  lemma StreamKeeps(s: State, r: Id)
    requires Inv(s) && Enabled(s, Stream(r, true))
    ensures Inv(Apply(s, Stream(r, true)))
  {
    StreamLags(s, r);
    OwnAppend(s.slogs, s.plan.streamHome, s.plan.jobs, s.plan.streamHome[r], Event(s.plan.jobs[r], s.prods[r].k));
  }

  lemma PersistMoves(s: State, r: Id)
    requires Shape(s) && Enabled(s, Persist(r, true))
    ensures var s' := Apply(s, Persist(r, true));
            && Shape(s') && PersistOf(s', r) == PersistOf(s, r) + [Event(s.plan.jobs[r], s.prods[r].k)]
            && StreamOf(s', r) == StreamOf(s, r)
            && forall q :: q in s.plan.jobs && q != r ==>
                 s'.prods[q] == s.prods[q] && StreamOf(s', q) == StreamOf(s, q) && PersistOf(s', q) == PersistOf(s, q)
  {
    OthersUnmoved(s.plogs, s.plan.persistHome, s.plan.persistHome[r], Event(s.plan.jobs[r], s.prods[r].k));
  }

  lemma PersistLags(s: State, s': State, r: Id)
    requires Shape(s) && Lagging(s) && Enabled(s, Persist(r, true)) && s' == Apply(s, Persist(r, true))
    ensures Shape(s') && Lagging(s') && Event(s.plan.jobs[r], s.prods[r].k) in Events(s.plan.jobs[r])
  {
    PersistMoves(s, r);
    var j, k := s.plan.jobs[r], s.prods[r].k;
    assert At(j, Writing(k, true), StreamOf(s, r), PersistOf(s, r));
    AtPersist(j, k, StreamOf(s, r), PersistOf(s, r));
    assert s'.prods[r] == Next(j, k);
    LaggingStep(s, s', r);
  }

  lemma PersistKeeps(s: State, r: Id)
    requires Inv(s) && Enabled(s, Persist(r, true))
    ensures Inv(Apply(s, Persist(r, true)))
  {
    PersistLags(s, Apply(s, Persist(r, true)), r);
    OwnAppend(s.plogs, s.plan.persistHome, s.plan.jobs, s.plan.persistHome[r], Event(s.plan.jobs[r], s.prods[r].k));
  }

  /** Starting, or stopping at a failed append, writes nothing. */
  lemma OtherKeeps(s: State, r: Id, prod: Prod)
    requires Inv(s) && r in s.plan.jobs
    requires Count(prod) == Count(s.prods[r]) && Half(prod) == Half(s.prods[r])
    requires prod.Idle? || (prod.Writing? && prod.k <= |s.plan.jobs[r].deltas|) ||
        (prod.Returned? && prod.err && prod.k <= |s.plan.jobs[r].deltas|)
    ensures Inv(s.(prods := s.prods[r := prod]))
  {
    var s' := s.(prods := s.prods[r := prod]);
    assert At(s.plan.jobs[r], s.prods[r], StreamOf(s, r), PersistOf(s, r));
    LaggingStep(s, s', r);
  }

  lemma InvKept(s: State, step: Step)
    requires Inv(s) && Enabled(s, step)
    ensures Inv(Apply(s, step))
  {
    assert At(s.plan.jobs[step.r], s.prods[step.r], StreamOf(s, step.r), PersistOf(s, step.r));
    match step
    case Start(r) => OtherKeeps(s, r, Writing(0, false));
    case Stream(r, ok) => if ok { StreamKeeps(s, r); } else { OtherKeeps(s, r, Returned(true, s.prods[r].k, false)); }
    case Persist(r, ok) => if ok { PersistKeeps(s, r); } else { OtherKeeps(s, r, Returned(true, s.prods[r].k, true)); }
  }

  lemma {:induction false} InvAlongRun(s: State, run: seq<Step>)
    requires Inv(s) && Legal(s, run)
    ensures Inv(After(s, run))
    decreases |run|
  {
    if run != [] {
      InvKept(s, run[0]);
      InvAlongRun(Apply(s, run[0]), run[1..]);
    }
  }

  lemma {:induction false} PlanKept(s: State, run: seq<Step>)
    requires Legal(s, run)
    ensures After(s, run).plan == s.plan
    decreases |run|
  {
    if run != [] {
      PlanKept(Apply(s, run[0]), run[1..]);
    }
  }

  /**
   With either append allowed to fail, each request's persistence log is a prefix of its stream log
   and at most one event behind, Done is last wherever it occurs, and the request returned without
   an error exactly when the persistence log, and then also the stream log, has all its events.
   */
  lemma DualLogLag(s: State, run: seq<Step>, t: State, r: Id)
    requires Init(s) && Legal(s, run) && t == After(s, run) && r in s.plan.jobs
    ensures Inv(t) && t.plan == s.plan
    ensures var sl, pl, es := StreamOf(t, r), PersistOf(t, r), Events(t.plan.jobs[r]);
            && Prefix(pl, sl) && Prefix(sl, es) && |sl| <= |pl| + 1
            && DoneLast(sl) && DoneLast(pl)
            && (t.prods[r].Returned? && !t.prods[r].err <==> pl == es)
            && (pl == es ==> sl == es)
  {
    InvInitially(s);
    InvAlongRun(s, run);
    PlanKept(s, run);
    LagAt(t.plan.jobs[r], t.prods[r], StreamOf(t, r), PersistOf(t, r));
  }

  lemma LagAt(j: Job, p: Prod, sl: seq<TokenEvent>, pl: seq<TokenEvent>)
    requires At(j, p, sl, pl)
    ensures Prefix(pl, sl) && Prefix(sl, Events(j)) && |sl| <= |pl| + 1 && DoneLast(sl) && DoneLast(pl)
    ensures p.Returned? && !p.err <==> pl == Events(j)
    ensures pl == Events(j) ==> sl == Events(j)
  {
    EventsSpell(j);
  }
}
