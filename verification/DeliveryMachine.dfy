/**
 The last leg of one request as a step machine: the stream from the worker to the API instance, the
 hub's queue, and the handler that drains it to the client. Requests do not share any of these, so
 an interleaving of many requests is an interleaving of independent lanes.
 */
module DeliveryMachine {
  import opened Types
  import opened Subsequences
  import opened TokenHub

  /**
   The handler: not there yet, registered with the hub, its address stored, request published and draining,
   leaving, gone.
   */
  datatype Handler = Unborn | Registered | Announced | Reading | Finished | Gone

  datatype Lane = Lane(
    handler: Handler,
    queue: Option<seq<TokenEvent>>,  // the hub's queue, while it is registered
    wire: seq<TokenEvent>,           // sent by the worker, not yet received by the instance
    sent: seq<TokenEvent>, delivered: seq<TokenEvent>, chunks: seq<TokenEvent>, dropped: bool)

  const FRESH := Lane(Unborn, None, [], [], [], [], false)

  datatype Step =
    | Register
    | Announce
    | Publish(ok: bool)
    | Send(tok: TokenEvent)
    | Deliver
    | Read
    | Depart(tookOne: bool)
    | Cleanup

  /** A request can only be answered once it has been published. */
  predicate Published(l: Lane) {
    l.handler == Reading || l.handler == Finished || l.handler == Gone
  }

  predicate Enabled(l: Lane, step: Step) {
    match step
    case Register => l.handler == Unborn
    case Announce => l.handler == Registered
    case Publish(ok) => l.handler == Announced
    case Send(tok) => Published(l)
    case Deliver => l.wire != []
    case Read => l.handler == Reading && l.queue.Some? && l.queue.value != []
    case Depart(tookOne) => l.handler == Reading && l.queue.Some? && (tookOne ==> l.queue.value != [])
    case Cleanup => l.handler == Finished
  }

  function Apply(l: Lane, step: Step): Lane
    requires Enabled(l, step)
  {
    match step
    case Register => l.(handler := Registered, queue := Some([]))
    case Announce => l.(handler := Announced)
    case Publish(ok) => l.(handler := if ok then Reading else Finished)
    case Send(tok) => l.(wire := l.wire + [tok], sent := l.sent + [tok])
    case Deliver =>
      var l' := l.(wire := l.wire[1..], delivered := l.delivered + [l.wire[0]]);
      if l.queue.Some? && |l.queue.value| < QUEUE_CAPACITY then l'.(queue := Some(l.queue.value + [l.wire[0]]))
      else l'.(dropped := true)
    case Read =>
      var tok := l.queue.value[0];
      var next := if tok.done then Finished else Reading;
      l.(queue := Some(l.queue.value[1..]), chunks := l.chunks + [tok], handler := next)
    case Depart(tookOne) => l.(handler := Finished, queue := if tookOne then Some(l.queue.value[1..]) else l.queue)
    case Cleanup => l.(handler := Gone, queue := None)
  }

  ghost predicate Legal(l: Lane, run: seq<Step>)
    decreases |run|
  {
    run == [] || (Enabled(l, run[0]) && Legal(Apply(l, run[0]), run[1..]))
  }

  ghost function After(l: Lane, run: seq<Step>): Lane
    requires Legal(l, run)
    decreases |run|
  {
    if run == [] then l else After(Apply(l, run[0]), run[1..])
  }

  ghost predicate Inv(l: Lane) {
    Queueing(l) && InOrder(l)
  }

  /** What is sent, delivered, queued and read, and that nothing was dropped below the bound. */
  ghost predicate Queueing(l: Lane) {
    && l.sent == l.delivered + l.wire
    && (l.queue.Some? <==> l.handler != Unborn && l.handler != Gone)
    && (l.queue.Some? ==> |l.queue.value| <= QUEUE_CAPACITY)
    && (!Published(l) ==> l.sent == [] && l.chunks == [] && (l.queue.Some? ==> l.queue.value == []) && !l.dropped)
    && (l.handler == Reading && !l.dropped ==> l.delivered == l.chunks + l.queue.value)
    && (l.handler == Reading && l.dropped ==> |l.delivered| > QUEUE_CAPACITY)
    && (!l.dropped || |l.delivered| <= QUEUE_CAPACITY ==> Prefix(l.chunks, l.delivered))
    && DoneLast(l.chunks)
    && (l.handler == Reading ==> forall i :: 0 <= i < |l.chunks| ==> !l.chunks[i].done)
    && |l.chunks| + Waiting(l) + (if l.dropped then 1 else 0) <= |l.delivered|
  }

  /** Overflow or not, the client reads delivered tokens in order; while it reads, the queue continues them. */
  ghost predicate InOrder(l: Lane) {
    && Subsequence(l.chunks, l.delivered)
    && (l.handler == Reading && l.queue.Some? ==> Subsequence(l.chunks + l.queue.value, l.delivered))
  }

  function Waiting(l: Lane): nat {
    if l.queue.Some? then |l.queue.value| else 0
  }

  lemma InvKept(l: Lane, step: Step)
    requires Inv(l) && Enabled(l, step)
    ensures Inv(Apply(l, step))
  {
    InOrderKept(l, step);
    match step
    case Read => ReadKeeps(l);
    case Deliver => DeliverKeeps(l);
    case _ =>
  }

  lemma InOrderKept(l: Lane, step: Step)
    requires Inv(l) && Enabled(l, step)
    ensures InOrder(Apply(l, step))
  {
    match step
    case Deliver => InOrderDeliver(l);
    case Read => InOrderRead(l);
    case Publish(ok) => assert l.chunks == [] && l.queue == Some([]);
    case _ =>
  }

  lemma InOrderDeliver(l: Lane)
    requires InOrder(l) && Enabled(l, Deliver)
    ensures InOrder(Apply(l, Deliver))
  {
    var tok := l.wire[0];
    SubsequenceOfLonger(l.chunks, l.delivered, [tok]);
    if l.handler == Reading && l.queue.Some? {
      SubsequenceOfLonger(l.chunks + l.queue.value, l.delivered, [tok]);
      SubsequenceSnoc(l.chunks + l.queue.value, l.delivered, tok);
      assert l.chunks + l.queue.value + [tok] == l.chunks + (l.queue.value + [tok]);
    }
  }

  lemma InOrderRead(l: Lane)
    requires InOrder(l) && Enabled(l, Read)
    ensures InOrder(Apply(l, Read))
  {
    var tok, rest := l.queue.value[0], l.queue.value[1..];
    assert l.chunks + l.queue.value == l.chunks + [tok] + rest;
    SubsequenceOfPart(l.chunks + [tok], rest, l.delivered);
  }

  lemma ReadKeeps(l: Lane)
    requires Queueing(l) && Enabled(l, Read)
    ensures Queueing(Apply(l, Read))
  {
    var l', tok := Apply(l, Read), l.queue.value[0];
    assert l.queue.value == [tok] + l.queue.value[1..];
    if !l.dropped {
      assert l'.chunks + l'.queue.value == l.chunks + l.queue.value;
    }
    assert !l.dropped || |l.delivered| <= QUEUE_CAPACITY ==> l.delivered == l.chunks + l.queue.value;
    assert Prefix(l'.chunks, l.chunks + l.queue.value);
  }

  lemma DeliverKeeps(l: Lane)
    requires Queueing(l) && Enabled(l, Deliver)
    ensures Queueing(Apply(l, Deliver))
  {
    var l' := Apply(l, Deliver);
    assert l.wire == [l.wire[0]] + l.wire[1..];
    assert l'.delivered + l'.wire == l.delivered + l.wire;
    assert |l'.delivered| == |l.delivered| + 1;
    assert Prefix(l.chunks, l.delivered) ==> Prefix(l.chunks, l'.delivered);
  }

  lemma {:induction false} InvAlongRun(l: Lane, run: seq<Step>)
    requires Inv(l) && Legal(l, run)
    ensures Inv(After(l, run))
    decreases |run|
  {
    if run != [] {
      InvKept(l, run[0]);
      InvAlongRun(Apply(l, run[0]), run[1..]);
    }
  }

  /**
   While the handler runs and at most 1000 tokens have been delivered, none has found the queue
   missing or full, whatever the interleaving; and the client has been given a prefix of them.
   */
  lemma NeverDropsWithinBound(run: seq<Step>, l: Lane)
    requires Legal(FRESH, run) && l == After(FRESH, run)
    requires |l.delivered| <= QUEUE_CAPACITY
    ensures l.handler != Finished && l.handler != Gone ==> !l.dropped
    ensures Prefix(l.chunks, l.delivered) && Prefix(l.chunks, l.sent)
    ensures DoneLast(l.chunks)
  {
    InvAlongRun(FRESH, run);
  }

  /**
   However many tokens were delivered, and whatever was dropped or the client left: what it has been
   given is what was sent with some tokens left out, in order, and Done can only be its last.
   */
  lemma ReadsInOrder(run: seq<Step>, l: Lane)
    requires Legal(FRESH, run) && l == After(FRESH, run)
    ensures Subsequence(l.chunks, l.delivered) && Subsequence(l.chunks, l.sent)
    ensures DoneLast(l.chunks)
  {
    InvAlongRun(FRESH, run);
    SubsequenceOfLonger(l.chunks, l.delivered, l.wire);
  }

  /**
   The bound is sharp: `toks` delivered to a handler that does not read are all kept exactly when there is
   room for all.
   */
  lemma Flood(l: Lane, toks: seq<TokenEvent>) returns (run: seq<Step>)
    requires Inv(l) && l.handler == Reading && l.wire == [] && !l.dropped
    ensures Legal(l, run)
    ensures var l' := After(l, run);
            && l'.delivered == l.delivered + toks && l'.handler == Reading && l'.wire == [] && l'.queue.Some?
            && (l'.dropped <==> |l.queue.value| + |toks| > QUEUE_CAPACITY)
            && (!l'.dropped ==> l'.queue == Some(l.queue.value + toks))
            && (l'.dropped ==> |l'.queue.value| == QUEUE_CAPACITY)
  {
    run := [];
    var l1 := l;
    var i := 0;
    assert l.queue.value + toks[..0] == l.queue.value;
    while i < |toks|
      invariant 0 <= i <= |toks| && Legal(l, run) && l1 == After(l, run)
      invariant l1.delivered == l.delivered + toks[..i] && l1.handler == Reading && l1.wire == [] && l1.queue.Some?
      invariant l1.dropped <==> |l.queue.value| + i > QUEUE_CAPACITY
      invariant if l1.dropped then |l1.queue.value| == QUEUE_CAPACITY else l1.queue == Some(l.queue.value + toks[..i])
    {
      Extend(l, run, Send(toks[i]));
      run := run + [Send(toks[i])];
      Extend(l, run, Deliver);
      run := run + [Deliver];
      l1 := After(l, run);
      assert toks[..i + 1] == toks[..i] + [toks[i]];
      assert l.queue.value + toks[..i + 1] == (l.queue.value + toks[..i]) + [toks[i]];
      i := i + 1;
    }
    assert toks[..|toks|] == toks;
  }

  lemma {:induction false} Extend(l: Lane, run: seq<Step>, step: Step)
    requires Legal(l, run) && Enabled(After(l, run), step)
    ensures Legal(l, run + [step]) && After(l, run + [step]) == Apply(After(l, run), step)
    decreases |run|
  {
    var longer := run + [step];
    if run == [] {
      assert longer[1..] == [];
    } else {
      assert longer[0] == run[0] && longer[1..] == run[1..] + [step];
      Extend(Apply(l, run[0]), run[1..], step);
    }
  }
}
