/**
 The streaming worker as an object: the reader, the locked map from requests to channels, and the
 channels. Each method is one atomic action of the router or of a processor and moves the abstract
 state by exactly one step of the streaming machine.
 */
module StreamingWorker {
  import opened Types
  import opened Draining
  import opened StreamingMachine

  /** How the router's select ends: the token is sent, given up, or neither can happen yet. */
  datatype Handed = Sent | GivenUp | Blocked

  class StreamingWorkerImpl {
    // the reader's view of the broker
    var logs: seq<seq<TokenEvent>>
    var off: seq<nat>
    ghost const home: map<Id, nat>

    // the locked map, from a request to the handle of its channel, and the channels' buffers
    var channels: map<Id, nat>
    var queues: seq<seq<TokenEvent>>
    var cancelled: bool

    // where the goroutines stand, and the run so far
    ghost var hand: Hand
    ghost var gens: seq<Gen>
    ghost var history: History

    ghost function Abs(): State
      reads this
    {
      State(Broker(logs, home), Router(off, hand, channels, cancelled), gens, history)
    }

    ghost predicate Valid()
      reads this
    {
      && |off| == |logs|
      && |queues| == |gens| && (forall c :: 0 <= c < |gens| ==> gens[c].queue == queues[c])
      && (forall r :: r in channels ==> channels[r] < |queues|)
    }

    constructor (partitions: nat, ghost home: map<Id, nat>)
      requires forall r :: r in home ==> home[r] < partitions
      ensures Valid() && Init(Abs()) && this.home == home
    {
      logs, off := seq(partitions, i => []), seq(partitions, i => 0);
      channels, queues, cancelled := map[], [], false;
      hand, gens, history := Idle, [], History([], [], [], false, false);
      this.home := home;
    }

    // ---------------------------------------------------------------- the router

    method FetchMessage(p: nat) returns (token: TokenEvent)
      requires Valid() && Enabled(Abs(), Fetch(p))
      modifies this
      ensures Valid() && Abs() == Apply(old(Abs()), Fetch(p)) && hand == Routing(token)
      ensures token == logs[p][old(off)[p]] && off == old(off)[p := old(off)[p] + 1] && logs == old(logs)
    {
      token := logs[p][off[p]];
      off := off[p := off[p] + 1];
      hand := Routing(token);
      history := history.(fetched := history.fetched + [token]);
    }

    /** Under the lock: find the request's channel, or make one and start its processor. */
    method Route(token: TokenEvent) returns (ch: nat, spawn: bool)
      requires Valid() && hand == Routing(token)
      modifies this
      ensures Valid() && Abs() == Apply(old(Abs()), Lookup) && hand == Pushing(token, ch)
      ensures spawn <==> token.requestID !in old(channels)
      ensures channels == old(channels)[token.requestID := ch]
      ensures queues == if spawn then old(queues) + [[]] else old(queues)
      ensures if spawn then ch == |old(queues)| else ch == old(channels)[token.requestID]
    {
      spawn := token.requestID !in channels;
      if spawn {
        ch := |queues|;
        queues := queues + [[]];
        channels := channels[token.requestID := ch];
        gens := gens + [Gen(token.requestID, [], Waiting, [], [])];
      } else {
        ch := channels[token.requestID];
      }
      hand := Pushing(token, ch);
    }

    /** The channel send, once the buffer has room. */
    method Send(token: TokenEvent, ch: nat)
      requires Valid() && hand == Pushing(token, ch) && Enabled(Abs(), Push)
      modifies this
      ensures Valid() && Abs() == Apply(old(Abs()), Push)
      ensures ch < |old(queues)| && queues == old(queues)[ch := old(queues)[ch] + [token]] && hand == Idle
    {
      queues := queues[ch := queues[ch] + [token]];
      gens := gens[ch := gens[ch].(queue := gens[ch].queue + [token], routed := gens[ch].routed + [token])];
      hand := Idle;
      history := history.(pushed := history.pushed + [token]);
    }

    /** The other branch of that select: cancelled while the channel is full, the router gives the token up. */
    method GiveUp()
      requires Valid() && Enabled(Abs(), Abandon)
      modifies this
      ensures Valid() && Abs() == Apply(old(Abs()), Abandon) && hand == Idle && queues == old(queues)
    {
      hand := Idle;
      history := history.(abandoned := true);
    }

    /** What waits in the channel of request `r`. */
    function Waits(r: Id): seq<TokenEvent>
      requires Valid()
      reads this
    {
      if r in channels then queues[channels[r]] else []
    }

    /**
     The router with a token in hand: the locked lookup, and then the select. `send` is Go's choice where both
     branches are ready.
     */
    method RouteToken(token: TokenEvent, send: bool) returns (handed: Handed, ghost run: seq<Step>)
      requires Valid() && hand == Routing(token)
      modifies this
      ensures Valid() && Legal(old(Abs()), run) && Abs() == After(old(Abs()), run)
      ensures handed == Blocked <==> !cancelled && |old(Waits(token.requestID))| >= CHANNEL_CAPACITY
      ensures handed == GivenUp ==> cancelled
      ensures token.requestID in channels && cancelled == old(cancelled)
      ensures Waits(token.requestID) == old(Waits(token.requestID)) + if handed == Sent then [token] else []
      ensures hand == if handed == Blocked then Pushing(token, channels[token.requestID]) else Idle
      ensures history.abandoned <==> old(history.abandoned) || handed == GivenUp
    {
      ghost var s := Abs();
      var ch, spawn := Route(token);
      run := Ran(s, [], s, Lookup, Abs());
      ghost var s1 := Abs();
      var room := |queues[ch]| < CHANNEL_CAPACITY;
      if room && (send || !cancelled) {
        Send(token, ch);
        run := Ran(s, run, s1, Push, Abs());
        handed := Sent;
      } else if cancelled {
        GiveUp();
        run := Ran(s, run, s1, Abandon, Abs());
        handed := GivenUp;
      } else {
        handed := Blocked;
      }
    }

    // ---------------------------------------------------------------- a processor

    /** The channel receive; the token is then passed to `Execute`. */
    method Receive(ch: nat) returns (token: TokenEvent)
      requires Valid() && Enabled(Abs(), Take(ch))
      modifies this
      ensures Valid() && Abs() == Apply(old(Abs()), Take(ch)) && gens[ch].proc == Executing(token)
      ensures ch < |old(queues)| && [token] + queues[ch] == old(queues)[ch] && queues == old(queues)[ch := queues[ch]]
    {
      token := queues[ch][0];
      queues := queues[ch := queues[ch][1..]];
      gens := gens[ch := gens[ch].(queue := gens[ch].queue[1..], proc := Executing(token),
          executed := gens[ch].executed + [token])];
      history := history.(started := history.started + [token]);
    }

    /** Whatever `Execute` returned, the processor goes on unless the token was Done. */
    method Executed(ch: nat, token: TokenEvent) returns (leave: bool)
      requires Valid() && ch < |gens| && gens[ch].proc == Executing(token)
      modifies this
      ensures Valid() && Abs() == Apply(old(Abs()), Finish(ch)) && leave == token.done
      ensures gens == old(gens)[ch := old(gens)[ch].(proc := if leave then Leaving else Waiting)]
    {
      leave := token.done;
      gens := gens[ch := gens[ch].(proc := if leave then Leaving else Waiting)];
    }

    method TimedOut(ghost ch: nat)
      requires Valid() && Enabled(Abs(), Timeout(ch))
      modifies this
      ensures Valid() && Abs() == Apply(old(Abs()), Timeout(ch)) && gens[ch].proc == Leaving && queues == old(queues)
    {
      gens := gens[ch := gens[ch].(proc := Leaving)];
      history := history.(timedOut := true);
    }

    method Cancelled(ghost ch: nat)
      requires Valid() && Enabled(Abs(), Quit(ch))
      modifies this
      ensures Valid() && Abs() == Apply(old(Abs()), Quit(ch)) && gens[ch].proc == Leaving && queues == old(queues)
    {
      gens := gens[ch := gens[ch].(proc := Leaving)];
    }

    /** The deferred exit: under the lock, remove the request's entry. */
    method Exit(requestID: Id, ghost ch: nat)
      requires Valid() && Enabled(Abs(), Delete(ch)) && gens[ch].req == requestID
      modifies this
      ensures Valid() && Abs() == Apply(old(Abs()), Delete(ch))
      ensures channels == old(channels) - {requestID} && queues == old(queues)
    {
      channels := channels - {requestID};
      gens := gens[ch := gens[ch].(proc := Gone)];
    }

    /**
     A processor left alone with what its channel holds: it executes token after token up to the
     first Done, or all of them and then leaves, on its timer or because the worker is cancelled; then it
     removes its entry.
     */
    method ProcessRequest(requestID: Id, ch: nat) returns (ghost run: seq<Step>)
      requires Valid() && ch < |gens| && gens[ch].proc == Waiting && gens[ch].req == requestID
      modifies this
      ensures Valid() && Legal(old(Abs()), run) && Abs() == After(old(Abs()), run)
      ensures |gens| == |old(gens)| && gens[ch].proc == Gone && requestID !in channels
      ensures gens[ch].executed == old(gens[ch].executed) + UpToDone(old(queues[ch]))
      ensures UpToDone(old(queues[ch])) + queues[ch] == old(queues[ch])
      ensures cancelled == old(cancelled)
      ensures history.timedOut <==> old(history.timedOut) || (!cancelled && !EndsInDone(UpToDone(old(queues[ch]))))
    {
      ghost var s, executed, queue, late := Abs(), gens[ch].executed, queues[ch], history.timedOut;
      ghost var taken: seq<TokenEvent> := [];
      var left := false;
      run := [];
      TakenNone(executed, queue);
      while !left && |queues[ch]| > 0
        invariant Valid() && |gens| == |old(gens)| && ch < |gens| && gens[ch].req == requestID
        invariant gens[ch].proc == if left then Leaving else Waiting
        invariant Legal(s, run) && Abs() == After(s, run)
        invariant Taken(executed, queue, taken, left, gens[ch].executed, queues[ch])
        invariant history.timedOut == late && cancelled == old(cancelled)
        decreases |queues[ch]|
      {
        ghost var token, done, rest := queues[ch][0], gens[ch].executed, queues[ch];
        left, token, run := ExecuteNext(ch, s, run);
        TakenNext(executed, queue, taken, done, rest);
        taken := taken + [token];
      }
      TakenAll(executed, queue, taken, left, gens[ch].executed, queues[ch]);
      run := Leave(requestID, ch, left, s, run);
    }

    /** One turn of a processor's loop. */
    method ExecuteNext(ch: nat, ghost s: State, ghost before: seq<Step>)
        returns (left: bool, ghost token: TokenEvent, ghost run: seq<Step>)
      requires Valid() && Enabled(Abs(), Take(ch)) && Legal(s, before) && Abs() == After(s, before)
      modifies this
      ensures Valid() && Legal(s, run) && Abs() == After(s, run)
      ensures |gens| == |old(gens)| && ch < |gens| && gens[ch].req == old(gens[ch].req)
      ensures history.timedOut == old(history.timedOut) && cancelled == old(cancelled)
      ensures [token] + queues[ch] == old(queues[ch]) && gens[ch].executed == old(gens[ch].executed) + [token]
      ensures left == token.done && gens[ch].proc == if left then Leaving else Waiting
    {
      ghost var s1 := Abs();
      var tok := Receive(ch);
      run := Ran(s, before, s1, Take(ch), Abs());
      s1 := Abs();
      left := Executed(ch, tok);
      token := tok;
      run := Ran(s, run, s1, Finish(ch), Abs());
    }

    /**
     A processor that has not left after Done leaves on its timer, or at once if the worker is cancelled, and in
     any case removes its entry.
     */
    method Leave(requestID: Id, ch: nat, left: bool, ghost s: State, ghost before: seq<Step>)
        returns (ghost run: seq<Step>)
      requires Valid() && ch < |gens| && gens[ch].req == requestID && gens[ch].proc == if left then Leaving else Waiting
      requires Legal(s, before) && Abs() == After(s, before)
      modifies this
      ensures Valid() && Legal(s, run) && Abs() == After(s, run)
      ensures |gens| == |old(gens)| && gens[ch] == old(gens[ch]).(proc := Gone) && requestID !in channels
      ensures queues == old(queues) && cancelled == old(cancelled)
      ensures history.timedOut <==> old(history.timedOut) || (!left && !cancelled)
    {
      ghost var s1 := Abs();
      run := before;
      if !left && cancelled {
        Cancelled(ch);
        run := Ran(s, run, s1, Quit(ch), Abs());
      } else if !left {
        TimedOut(ch);
        run := Ran(s, run, s1, Timeout(ch), Abs());
      }
      s1 := Abs();
      Exit(requestID, ch);
      run := Ran(s, run, s1, Delete(ch), Abs());
    }
  }

  lemma Ran(s: State, run: seq<Step>, s1: State, step: Step, s2: State) returns (run': seq<Step>)
    requires Legal(s, run) && s1 == After(s, run) && Enabled(s1, step) && s2 == Apply(s1, step)
    ensures run' == run + [step] && Legal(s, run') && s2 == After(s, run')
  {
    Extend(s, run, step);
    run' := run + [step];
  }
}
