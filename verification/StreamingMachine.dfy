/**
 The streaming worker as a step machine: one router goroutine reading the stream log, one bounded
 channel and one processor goroutine per request. A channel that is created after an earlier one of
 the same request has been deleted is a new generation.
 */
module StreamingMachine {
  import opened Types

  const CHANNEL_CAPACITY: nat := 32

  /** A processor waits in its select, is inside `Execute`, has left its loop, or has deleted its map entry. */
  datatype Proc = Waiting | Executing(tok: TokenEvent) | Leaving | Gone

  /** One channel and its processor; `routed` and `executed` record what ever went in and out. */
  datatype Gen = Gen(req: Id, queue: seq<TokenEvent>, proc: Proc, routed: seq<TokenEvent>, executed: seq<TokenEvent>)

  /** The router: fetching, holding a token before the locked lookup, or sending it to channel `c`. */
  datatype Hand = Idle | Routing(tok: TokenEvent) | Pushing(tok: TokenEvent, c: nat)

  /** The stream log, one sequence for a partition, and the partition of every request. */
  datatype Broker = Broker(logs: seq<seq<TokenEvent>>, home: map<Id, nat>)

  datatype Router = Router(off: seq<nat>, hand: Hand, channels: map<Id, nat>, cancelled: bool)

  datatype History = History(fetched: seq<TokenEvent>, pushed: seq<TokenEvent>, started: seq<TokenEvent>,
                             timedOut: bool, abandoned: bool)

  datatype State = State(b: Broker, w: Router, gens: seq<Gen>, h: History)

  datatype Step =
    | Append(p: nat, tok: TokenEvent)
    | Fetch(p: nat)
    | Lookup
    | Push
    | Abandon
    | Take(c: nat)
    | Finish(c: nat)
    | Timeout(c: nat)
    | Quit(c: nat)
    | Delete(c: nat)
    | Cancel

  ghost predicate Init(s: State) {
    && (forall p :: 0 <= p < |s.b.logs| ==> s.b.logs[p] == [])
    && (forall r :: r in s.b.home ==> s.b.home[r] < |s.b.logs|)
    && s.w == Router(seq(|s.b.logs|, i => 0), Idle, map[], false)
    && s.gens == [] && s.h == History([], [], [], false, false)
  }

  predicate Enabled(s: State, step: Step) {
    match step
    case Append(p, tok) => p < |s.b.logs| && tok.requestID in s.b.home && s.b.home[tok.requestID] == p
    case Fetch(p) => p < |s.b.logs| && p < |s.w.off| && s.w.hand == Idle && s.w.off[p] < |s.b.logs[p]|
    case Lookup => s.w.hand.Routing?
    case Push => s.w.hand.Pushing? && s.w.hand.c < |s.gens| && |s.gens[s.w.hand.c].queue| < CHANNEL_CAPACITY
    case Abandon => s.w.hand.Pushing? && s.w.cancelled
    case Take(c) => c < |s.gens| && s.gens[c].proc == Waiting && s.gens[c].queue != []
    case Finish(c) => c < |s.gens| && s.gens[c].proc.Executing?
    case Timeout(c) => c < |s.gens| && s.gens[c].proc == Waiting
    case Quit(c) => c < |s.gens| && s.gens[c].proc == Waiting && s.w.cancelled
    case Delete(c) => c < |s.gens| && s.gens[c].proc == Leaving
    case Cancel => true
  }

  function SetProc(s: State, c: nat, proc: Proc): State
    requires c < |s.gens|
  {
    s.(gens := s.gens[c := s.gens[c].(proc := proc)])
  }

  function Apply(s: State, step: Step): State
    requires Enabled(s, step)
  {
    match step
    case Append(p, tok) => s.(b := s.b.(logs := s.b.logs[p := s.b.logs[p] + [tok]]))
    case Fetch(p) =>
      var tok := s.b.logs[p][s.w.off[p]];
      s.(w := s.w.(off := s.w.off[p := s.w.off[p] + 1], hand := Routing(tok)),
         h := s.h.(fetched := s.h.fetched + [tok]))
    case Lookup =>
      var tok := s.w.hand.tok;
      if tok.requestID in s.w.channels then s.(w := s.w.(hand := Pushing(tok, s.w.channels[tok.requestID])))
      else
        s.(w := s.w.(hand := Pushing(tok, |s.gens|), channels := s.w.channels[tok.requestID := |s.gens|]),
           gens := s.gens + [Gen(tok.requestID, [], Waiting, [], [])])
    case Push =>
      var tok, c := s.w.hand.tok, s.w.hand.c;
      var g := s.gens[c];
      s.(w := s.w.(hand := Idle),
         gens := s.gens[c := g.(queue := g.queue + [tok], routed := g.routed + [tok])],
         h := s.h.(pushed := s.h.pushed + [tok]))
    case Abandon => s.(w := s.w.(hand := Idle), h := s.h.(abandoned := true))
    case Take(c) =>
      var g := s.gens[c];
      s.(gens := s.gens[c := g.(queue := g.queue[1..], proc := Executing(g.queue[0]),
          executed := g.executed + [g.queue[0]])],
         h := s.h.(started := s.h.started + [g.queue[0]]))
    case Finish(c) => SetProc(s, c, if s.gens[c].proc.tok.done then Leaving else Waiting)
    case Timeout(c) => SetProc(s, c, Leaving).(h := s.h.(timedOut := true))
    case Quit(c) => SetProc(s, c, Leaving)
    case Delete(c) => SetProc(s, c, Gone).(w := s.w.(channels := s.w.channels - {s.gens[c].req}))
    case Cancel => s.(w := s.w.(cancelled := true))
  }

  ghost predicate Legal(s: State, run: seq<Step>)
    decreases |run|
  {
    run == [] || (Enabled(s, run[0]) && Legal(Apply(s, run[0]), run[1..]))
  }

  ghost function After(s: State, run: seq<Step>): State
    requires Legal(s, run)
    decreases |run|
  {
    if run == [] then s else After(Apply(s, run[0]), run[1..])
  }

  lemma {:induction false} Extend(s: State, run: seq<Step>, step: Step)
    requires Legal(s, run) && Enabled(After(s, run), step)
    ensures Legal(s, run + [step]) && After(s, run + [step]) == Apply(After(s, run), step)
    decreases |run|
  {
    var longer := run + [step];
    if run == [] {
      assert longer[1..] == [];
    } else {
      assert longer[0] == run[0] && longer[1..] == run[1..] + [step];
      Extend(Apply(s, run[0]), run[1..], step);
    }
  }

  /** What went into the channels of request `r`, generation after generation. */
  function Routed(gens: seq<Gen>, r: Id): seq<TokenEvent> {
    if gens == [] then []
    else
      var g := gens[|gens| - 1];
      Routed(gens[..|gens| - 1], r) + if g.req == r then g.routed else []
  }

  /** What was passed to `Execute` for request `r`, generation after generation. */
  function Executed(gens: seq<Gen>, r: Id): seq<TokenEvent> {
    if gens == [] then []
    else
      var g := gens[|gens| - 1];
      Executed(gens[..|gens| - 1], r) + if g.req == r then g.executed else []
  }

  /** The token the router holds for request `r`, if any. */
  function InHand(s: State, r: Id): seq<TokenEvent> {
    if s.w.hand.Idle? || s.w.hand.tok.requestID != r then [] else [s.w.hand.tok]
  }

  function Live(g: Gen): bool {
    g.proc == Waiting || g.proc.Executing?
  }
}
