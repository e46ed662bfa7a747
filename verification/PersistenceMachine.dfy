/**
 The persistence worker as a step machine. One step is one locked region, one compare-and-swap,
 one broker call or one database statement; `AddToken` may run between any two phases of a flush.
 History variables record what was handed to the buffers and what became of it.
 */
module PersistenceMachine {
  import opened Types
  import opened MessageTable
  import opened FlushBatch

  const TOKEN_THRESHOLD: nat := 500

  /** A token together with its place in the persistence log. */
  datatype Stamp = Stamp(part: nat, off: nat, tok: TokenEvent)

  datatype Kind = Threshold | Ticker | Shutdown

  /** Where a flush stands: before its locked snapshot, before its read, before its upsert, after it returned. */
  datatype Phase = Started | Snapped | Merged | Finished

  datatype Flight = Flight(kind: Kind, phase: Phase, snap: map<Id, TokenBuffer>, existing: map<Id, string>,
      src: seq<Stamp>)

  /** The consume loop: after fetching, before committing, before `AddToken`, and at the two trigger tests. */
  datatype Loop = Fetching | Committing(st: Stamp) | Adding(st: Stamp) | Checking | Triggering

  /** The flusher goroutine: waiting on its select, inside a flush, or returned. */
  datatype Flusher = Waiting | Running(id: nat) | Stopped

  /** The tokens of one flush that has returned, or that a crash discarded, and whether its upsert succeeded. */
  datatype Ended = Ended(src: seq<Stamp>, ok: bool)

  /** At a crash: the committed offsets and how far tokens had been handed to the buffers. */
  datatype Crash = Crash(committed: seq<nat>, reached: seq<nat>)

  /** Fixed for a run: whether a commit takes effect when it returns, and the initial table. */
  datatype Constants = Constants(sync: bool, base: seq<Message>)

  /** The broker's logs and committed offsets, one of each for a partition, and the `messages` table. */
  datatype Durable = Durable(logs: seq<seq<TokenEvent>>, committed: seq<nat>, rows: seq<Message>)

  /** The memory of one worker process. */
  datatype Worker = Worker(
    fetched: seq<nat>, acked: seq<nat>, loop: Loop, mem: Memory, flushing: bool,
    flusher: Flusher, flights: map<nat, Flight>, cancelled: bool)

  /** History variables: no step depends on them. */
  datatype History = History(
    added: seq<Stamp>, held: seq<Stamp>, ended: seq<Ended>, crashes: seq<Crash>,
    everCancelled: bool, overlapped: bool, failed: bool)

  datatype State = State(k: Constants, d: Durable, w: Worker, h: History)

  datatype Step =
    | Append(p: nat, tok: TokenEvent)
    | Fetch(p: nat)
    | Commit(ok: bool)
    | BrokerCommit(p: nat)
    | AddToken
    | CheckThreshold
    | Trigger(f: nat)
    | Tick(f: nat)
    | Stop(f: nat)
    | Cancel
    | Snapshot(f: nat)
    | Read(f: nat, ok: bool)
    | Upsert(f: nat, order: seq<Id>, ok: bool)
    | Release(f: nat)
    | CrashRestart

  function Toks(ss: seq<Stamp>): seq<TokenEvent> {
    seq(|ss|, i requires 0 <= i < |ss| => ss[i].tok)
  }

  /** The tokens of all ended flushes, in the order the flushes ended. */
  function All(ended: seq<Ended>): seq<Stamp> {
    if ended == [] then [] else All(ended[..|ended| - 1]) + ended[|ended| - 1].src
  }

  /** The tokens carried by an upsert that succeeded; with overlapping flushes a later one may overwrite it. */
  function Kept(ended: seq<Ended>): seq<Stamp> {
    if ended == [] then []
    else
      var e := ended[|ended| - 1];
      Kept(ended[..|ended| - 1]) + if e.ok then e.src else []
  }

  /** The tokens of the flushes that failed. */
  function Lost(ended: seq<Ended>): seq<Stamp> {
    if ended == [] then []
    else
      var e := ended[|ended| - 1];
      Lost(ended[..|ended| - 1]) + if e.ok then [] else e.src
  }

  /** The offset of partition `p` that will be handed to `AddToken` next. */
  function Frontier(s: State, p: nat): nat
    requires p < |s.w.fetched|
  {
    if (s.w.loop.Committing? || s.w.loop.Adding?) && s.w.loop.st.part == p then s.w.loop.st.off else s.w.fetched[p]
  }

  function Reached(s: State): seq<nat> {
    seq(|s.w.fetched|, p requires 0 <= p < |s.w.fetched| => Frontier(s, p))
  }

  predicate Init(s: State) {
    && s.d.committed == seq(|s.d.logs|, i => 0) && s.d.rows == s.k.base
    && s.w == Worker(s.d.committed, s.d.committed, Fetching, EMPTY, false, Waiting, map[], false)
    && s.h == History([], [], [], [], false, false, false)
  }

  ghost predicate Enabled(s: State, step: Step) {
    match step
    case Append(p, tok) => p < |s.d.logs|
    case Fetch(p) => p < |s.d.logs| && p < |s.w.fetched| && s.w.loop == Fetching && s.w.fetched[p] < |s.d.logs[p]|
    case Commit(ok) => s.w.loop.Committing? && s.w.loop.st.part < |s.d.committed| && s.w.loop.st.part < |s.w.acked| &&
      (s.k.sync ==> ok)
    case BrokerCommit(p) => p < |s.d.committed| && p < |s.w.acked| && !s.k.sync
    case AddToken => s.w.loop.Adding?
    case CheckThreshold => s.w.loop == Checking
    case Trigger(f) => s.w.loop == Triggering && f !in s.w.flights
    case Tick(f) => s.w.flusher == Waiting && f !in s.w.flights
    case Stop(f) => s.w.flusher == Waiting && s.w.cancelled && f !in s.w.flights
    case Cancel => true
    case Snapshot(f) => f in s.w.flights && s.w.flights[f].phase == Started
    case Read(f, ok) => f in s.w.flights && s.w.flights[f].phase == Snapped
    case Upsert(f, order, ok) =>
      f in s.w.flights && s.w.flights[f].phase == Merged && Enumerates(order, s.w.flights[f].snap.Keys)
    case Release(f) => f in s.w.flights && s.w.flights[f].phase == Finished
    case CrashRestart => true
  }

  /** A flush starts; every kind but the shutdown flush has just won the compare-and-swap. */
  function Launch(s: State, f: nat, kind: Kind, loop: Loop, flusher: Flusher): State {
    s.(w := s.w.(flights := s.w.flights[f := Flight(kind, Started, map[], map[], [])],
                 flushing := s.w.flushing || kind != Shutdown, loop := loop, flusher := flusher),
       h := s.h.(overlapped := s.h.overlapped || s.w.flights != map[]))
  }

  /** Flight `f` becomes `fl`. */
  function Move(s: State, f: nat, fl: Flight): State {
    s.(w := s.w.(flights := s.w.flights[f := fl]))
  }

  /** A flush returns, with the table now `rows`: its upsert succeeded, or it failed. */
  function End(s: State, f: nat, ok: bool, rows: seq<Message>): State
    requires f in s.w.flights
  {
    var fl := s.w.flights[f];
    s.(d := s.d.(rows := rows),
       w := s.w.(flights := s.w.flights[f := fl.(phase := Finished, src := [])]),
       h := s.h.(ended := s.h.ended + [Ended(fl.src, ok)], failed := s.h.failed || !ok))
  }

  /** The tokens carried by the shutdown flush, or by the flush that holds the flag. */
  ghost function Carried(flights: map<nat, Flight>, shutdown: bool): seq<Stamp> {
    if exists f :: f in flights && (flights[f].kind == Shutdown <==> shutdown) then
      var f :| f in flights && (flights[f].kind == Shutdown <==> shutdown);
      flights[f].src
    else []
  }

  /** What a crash throws away: the snapshots in flight and the buffers. */
  ghost function Discarded(s: State): seq<Ended> {
    [Ended(Carried(s.w.flights, false), false), Ended(Carried(s.w.flights, true), false), Ended(s.h.held, false)]
  }

  ghost function Apply(s: State, step: Step): State
    requires Enabled(s, step)
  {
    match step
    case Append(p, tok) => s.(d := s.d.(logs := s.d.logs[p := s.d.logs[p] + [tok]]))
    case Fetch(p) =>
      s.(w := s.w.(loop := Committing(Stamp(p, s.w.fetched[p], s.d.logs[p][s.w.fetched[p]])),
                   fetched := s.w.fetched[p := s.w.fetched[p] + 1]))
    case Commit(ok) =>
      var st := s.w.loop.st;
      if !ok then s.(w := s.w.(loop := Adding(st)))
      else
        s.(w := s.w.(loop := Adding(st), acked := s.w.acked[st.part := st.off + 1]),
           d := s.d.(committed := if s.k.sync then s.d.committed[st.part := st.off + 1] else s.d.committed))
    case BrokerCommit(p) => s.(d := s.d.(committed := s.d.committed[p := s.w.acked[p]]))
    case AddToken =>
      var st := s.w.loop.st;
      s.(w := s.w.(loop := Checking, mem := Added(s.w.mem, st.tok)),
         h := s.h.(held := s.h.held + [st], added := s.h.added + [st]))
    case CheckThreshold =>
      s.(w := s.w.(loop := if s.w.mem.count >= TOKEN_THRESHOLD then Triggering else Fetching))
    case Trigger(f) =>
      if s.w.flushing then s.(w := s.w.(loop := Fetching)) else Launch(s, f, Threshold, Fetching, s.w.flusher)
    case Tick(f) =>
      if s.w.flushing then s else Launch(s, f, Ticker, s.w.loop, Running(f))
    case Stop(f) => Launch(s, f, Shutdown, s.w.loop, Running(f))
    case Cancel => s.(w := s.w.(cancelled := true), h := s.h.(everCancelled := true))
    case Snapshot(f) =>
      var fl := s.w.flights[f];
      if s.w.mem.buffers == map[] then Move(s, f, fl.(phase := Finished))
      else
        s.(w := s.w.(flights := s.w.flights[f := fl.(phase := Snapped, snap := s.w.mem.buffers, src := s.h.held)],
                     mem := EMPTY),
           h := s.h.(held := []))
    case Read(f, ok) =>
      var fl := s.w.flights[f];
      if ok then Move(s, f, fl.(phase := Merged, existing := ReadContents(s.d.rows, fl.snap.Keys)))
      else End(s, f, false, s.d.rows)
    case Upsert(f, order, ok) =>
      var fl := s.w.flights[f];
      End(s, f, ok, if ok then UpsertRows(s.d.rows, Batch(order, fl.snap, fl.existing)) else s.d.rows)
    case Release(f) =>
      var kind := s.w.flights[f].kind;
      s.(w := s.w.(flights := s.w.flights - {f}, flushing := s.w.flushing && kind == Shutdown,
                   flusher := match kind case Threshold => s.w.flusher case Ticker => Waiting case Shutdown => Stopped))
    case CrashRestart =>
      s.(w := Worker(s.d.committed, s.d.committed, Fetching, EMPTY, false, Waiting, map[], false),
         h := s.h.(held := [], ended := s.h.ended + Discarded(s),
                   crashes := s.h.crashes + [Crash(s.d.committed, Reached(s))], failed := true))
  }

  ghost predicate Legal(s: State, run: seq<Step>)
    decreases |run|
  {
    run == [] || (Enabled(s, run[0]) && Legal(Apply(s, run[0]), run[1..]))
  }

  ghost function After(s: State, run: seq<Step>): State
    requires Legal(s, run)
    decreases |run|
  {
    if run == [] then s else After(Apply(s, run[0]), run[1..])
  }

  lemma {:induction false} Extend(s: State, run: seq<Step>, step: Step)
    requires Legal(s, run) && Enabled(After(s, run), step)
    ensures Legal(s, run + [step]) && After(s, run + [step]) == Apply(After(s, run), step)
    decreases |run|
  {
    var longer := run + [step];
    if run == [] {
      assert longer[1..] == [];
    } else {
      assert longer[0] == run[0] && longer[1..] == run[1..] + [step];
      Extend(Apply(s, run[0]), run[1..], step);
    }
  }

  lemma One(s: State, step: Step)
    requires Enabled(s, step)
    ensures Legal(s, [step]) && After(s, [step]) == Apply(s, step)
  {
    assert [step][1..] == [];
  }

  lemma {:induction false} Join(s: State, a: seq<Step>, b: seq<Step>)
    requires Legal(s, a) && Legal(After(s, a), b)
    ensures Legal(s, a + b) && After(s, a + b) == After(After(s, a), b)
    decreases |a|
  {
    if a == [] {
      assert a + b == b;
    } else {
      assert (a + b)[1..] == a[1..] + b;
      Join(Apply(s, a[0]), a[1..], b);
    }
  }

  lemma Two(s: State, a: Step, s1: State, b: Step, s2: State)
    requires Enabled(s, a) && s1 == Apply(s, a) && Enabled(s1, b) && s2 == Apply(s1, b)
    ensures Legal(s, [a] + [b]) && After(s, [a] + [b]) == s2
  {
    One(s, a);
    One(s1, b);
    Join(s, [a], [b]);
  }
}
