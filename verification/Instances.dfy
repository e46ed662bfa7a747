/**
 Several API instances, each with its own hub, and the streaming worker that has to find the right
 one: the address machine together with the delivery lane of every request at the instance its
 handler runs on. A token sent to any other instance, or before the request was published, is stray.
 */
module Instances {
  import opened Types
  import Routing = AddressMachine
  import Delivery = DeliveryMachine

  /** `home` is the advertised address of the instance that handles a request. */
  datatype State = State(
    a: Routing.State, home: map<Id, Routing.Addr>, lanes: map<Id, Delivery.Lane>, stray: seq<Routing.Sent>)

  datatype Step =
    | Arrive(id: Id, addr: Routing.Addr)
    | Announce(id: Id, ok: bool)
    | Handle(id: Id, move: Delivery.Step)   // publish, receive a delivery, read a chunk, leave, clean up
    | Call(step: Routing.Step)              // begin a call, its next action, an expiry

  predicate Init(s: State) {
    Routing.Init(s.a) && s.home == map[] && s.lanes == map[] && s.stray == []
  }

  predicate LaneEnabled(s: State, id: Id, move: Delivery.Step) {
    id in s.lanes && id in s.home && Delivery.Enabled(s.lanes[id], move)
  }

  predicate Handling(move: Delivery.Step) {
    move.Publish? || move.Deliver? || move.Read? || move.Depart? || move.Cleanup?
  }

  /**
   The handler of a request runs on one instance. That a token is executed only once its request was published is
   assumed here; it follows where the producers are in the picture.
   */
  predicate Enabled(s: State, step: Step) {
    match step
    case Arrive(id, addr) => id !in s.home
    case Announce(id, ok) =>
      LaneEnabled(s, id, Delivery.Announce) && (ok ==> Routing.Enabled(s.a, Routing.SetCallback(id, s.home[id])))
    case Handle(id, move) => Handling(move) && LaneEnabled(s, id, move)
    case Call(step) =>
      && !step.SetCallback? && Routing.Enabled(s.a, step)
      && (step.Begin? ==> step.id in s.lanes && Delivery.Published(s.lanes[step.id]))
  }

  function OnLane(s: State, id: Id, move: Delivery.Step): State
    requires LaneEnabled(s, id, move)
  {
    s.(lanes := s.lanes[id := Delivery.Apply(s.lanes[id], move)])
  }

  /** The connection leads to one instance; only the request's own has a lane for the token. */
  function Land(s: State, m: Routing.Sent): State {
    if LaneEnabled(s, m.id, Delivery.Send(m.tok)) && s.home[m.id] == m.addr then OnLane(s, m.id, Delivery.Send(m.tok))
    else s.(stray := s.stray + [m])
  }

  /** The action is a send that succeeds. */
  predicate Sends(a: Routing.State, step: Routing.Step)
    requires Routing.Enabled(a, step)
  {
    step.Advance? && step.ok && a.calls[step.id].at.SendToken?
  }

  function SentBy(a: Routing.State, id: Id): Routing.Sent
    requires id in a.calls && a.calls[id].at.SendToken?
  {
    Routing.Sent(id, a.calls[id].at.conn.addr, a.calls[id].tok)
  }

  function Apply(s: State, step: Step): State
    requires Enabled(s, step)
  {
    match step
    case Arrive(id, addr) =>
      s.(home := s.home[id := addr], lanes := s.lanes[id := Delivery.Apply(Delivery.FRESH, Delivery.Register)])
    case Announce(id, ok) =>
      OnLane(s, id, Delivery.Announce).(
        a := if ok then Routing.Apply(s.a, Routing.SetCallback(id, s.home[id])) else s.a)
    case Handle(id, move) => OnLane(s, id, move)
    case Call(step) =>
      var s' := s.(a := Routing.Apply(s.a, step));
      if Sends(s.a, step) then Land(s', SentBy(s.a, step.id)) else s'
  }

  ghost predicate Legal(s: State, run: seq<Step>)
    decreases |run|
  {
    run == [] || (Enabled(s, run[0]) && Legal(Apply(s, run[0]), run[1..]))
  }

  ghost function After(s: State, run: seq<Step>): State
    requires Legal(s, run)
    decreases |run|
  {
    if run == [] then s else After(Apply(s, run[0]), run[1..])
  }

  /** The tokens sent for request `id`, in order, to whatever address. */
  function TokensOf(sent: seq<Routing.Sent>, id: Id): seq<TokenEvent> {
    if sent == [] then []
    else
      var m := sent[|sent| - 1];
      TokensOf(sent[..|sent| - 1], id) + if m.id == id then [m.tok] else []
  }

  lemma TokensOfSnoc(sent: seq<Routing.Sent>, m: Routing.Sent, id: Id)
    ensures TokensOf(sent + [m], id) == TokensOf(sent, id) + if m.id == id then [m.tok] else []
  {
    assert (sent + [m])[..|sent|] == sent;
  }

  /** What the store holds for a request is the address of its own instance, put there before it was published. */
  ghost predicate Placed(s: State) {
    && s.home.Keys == s.lanes.Keys
    && (forall id :: id in s.a.store.registered ==>
          && id in s.home && s.a.store.registered[id] == s.home[id]
          && s.lanes[id].handler != Delivery.Unborn && s.lanes[id].handler != Delivery.Registered)
    && (forall id :: id in s.a.calls ==> id in s.lanes && Delivery.Published(s.lanes[id]))
  }

  ghost predicate Arrived(s: State) {
    && s.stray == []
    && (forall m :: m in s.a.sent ==> m.id in s.lanes)
    && (forall id :: id in s.lanes ==> s.lanes[id].sent == TokensOf(s.a.sent, id))
  }

  ghost predicate Inv(s: State) {
    Routing.Inv(s.a) && Placed(s) && Arrived(s)
  }

  lemma {:induction false} NoneSent(sent: seq<Routing.Sent>, id: Id)
    requires forall m :: m in sent ==> m.id != id
    ensures TokensOf(sent, id) == []
  {
    if sent != [] {
      NoneSent(sent[..|sent| - 1], id);
    }
  }

  lemma ArriveKeeps(s: State, id: Id, addr: Routing.Addr)
    requires Inv(s) && Enabled(s, Arrive(id, addr))
    ensures Inv(Apply(s, Arrive(id, addr)))
  {
    NoneSent(s.a.sent, id);
  }

  /** A handler's own steps send nothing and take no publication back. */
  lemma HandlerOnly(l: Delivery.Lane, move: Delivery.Step)
    requires Delivery.Enabled(l, move) && (Handling(move) || move.Announce?)
    ensures var l' := Delivery.Apply(l, move);
            && l'.sent == l.sent && (Delivery.Published(l) ==> Delivery.Published(l'))
            && (move.Deliver? || (l'.handler != Delivery.Unborn && l'.handler != Delivery.Registered))
            && (move.Announce? ==> l'.handler == Delivery.Announced) && (move.Deliver? ==> l'.handler == l.handler)
  {
  }

  lemma HandlerKeeps(s: State, id: Id, move: Delivery.Step)
    requires Placed(s) && Arrived(s) && LaneEnabled(s, id, move) && (Handling(move) || move.Announce?)
    ensures Placed(OnLane(s, id, move)) && Arrived(OnLane(s, id, move))
    ensures move.Announce? ==> OnLane(s, id, move).lanes[id].handler == Delivery.Announced
  {
    HandlerOnly(s.lanes[id], move);
  }

  lemma AnnounceKeeps(s: State, id: Id, ok: bool)
    requires Inv(s) && Enabled(s, Announce(id, ok))
    ensures Inv(Apply(s, Announce(id, ok)))
  {
    HandlerKeeps(s, id, Delivery.Announce);
    if ok {
      Routing.InvKept(s.a, Routing.SetCallback(id, s.home[id]));
    }
  }

  lemma CallBookkeeping(a: Routing.State, step: Routing.Step)
    requires Routing.Enabled(a, step) && !step.SetCallback?
    ensures Routing.Apply(a, step).store.registered == a.store.registered
    ensures forall id :: id in Routing.Apply(a, step).calls ==> id in a.calls || (step.Begin? && id == step.id)
    ensures Routing.Apply(a, step).sent ==
            if Sends(a, step) then a.sent + [SentBy(a, step.id)] else a.sent
  {
  }

  /** A token on its way out goes to the instance whose handler waits for it. */
  lemma SendsHome(s: State, step: Routing.Step)
    requires Inv(s) && Enabled(s, Call(step)) && Sends(s.a, step)
    ensures step.id in s.lanes && Delivery.Published(s.lanes[step.id])
    ensures s.home[step.id] == s.a.calls[step.id].at.conn.addr
  {
    assert Routing.Sane(s.a, step.id, s.a.calls[step.id].at);
  }

  lemma QuietCallKeeps(s: State, step: Routing.Step)
    requires Placed(s) && Arrived(s) && Enabled(s, Call(step)) && !Sends(s.a, step)
    ensures Placed(Apply(s, Call(step))) && Arrived(Apply(s, Call(step)))
  {
    CallBookkeeping(s.a, step);
    assert Apply(s, Call(step)) == s.(a := Routing.Apply(s.a, step));
  }

  /** No call appears, and one lane moves without its handler. */
  lemma PlacedSend(s: State, s': State, id: Id)
    requires Placed(s) && s'.home == s.home && id in s.lanes && id in s'.lanes
    requires s'.lanes == s.lanes[id := s'.lanes[id]] && s'.lanes[id].handler == s.lanes[id].handler
    requires s'.a.store.registered == s.a.store.registered && forall q :: q in s'.a.calls ==> q in s.a.calls
    ensures Placed(s')
  {
  }

  lemma ArrivedSend(s: State, s': State, m: Routing.Sent)
    requires Arrived(s) && s'.stray == s.stray && s'.a.sent == s.a.sent + [m] && m.id in s.lanes
    requires m.id in s'.lanes && s'.lanes == s.lanes[m.id := s'.lanes[m.id]]
    requires s'.lanes[m.id].sent == s.lanes[m.id].sent + [m.tok]
    ensures Arrived(s')
  {
    forall id | id in s'.lanes ensures s'.lanes[id].sent == TokensOf(s'.a.sent, id) {
      TokensOfSnoc(s.a.sent, m, id);
    }
  }

  lemma SendKeeps(s: State, step: Routing.Step)
    requires Inv(s) && Enabled(s, Call(step)) && Sends(s.a, step)
    ensures Placed(Apply(s, Call(step))) && Arrived(Apply(s, Call(step)))
  {
    CallBookkeeping(s.a, step);
    SendsHome(s, step);
    var m := SentBy(s.a, step.id);
    var s' := Apply(s, Call(step));
    assert s' == OnLane(s.(a := Routing.Apply(s.a, step)), m.id, Delivery.Send(m.tok));
    PlacedSend(s, s', m.id);
    ArrivedSend(s, s', m);
  }

  lemma CallKeeps(s: State, step: Routing.Step)
    requires Inv(s) && Enabled(s, Call(step))
    ensures Inv(Apply(s, Call(step)))
  {
    Routing.InvKept(s.a, step);
    if Sends(s.a, step) {
      SendKeeps(s, step);
    } else {
      QuietCallKeeps(s, step);
    }
    CallMovesRouting(s, step);
  }

  lemma CallMovesRouting(s: State, step: Routing.Step)
    requires Enabled(s, Call(step))
    ensures Apply(s, Call(step)).a == Routing.Apply(s.a, step)
  {
  }

  lemma InvKept(s: State, step: Step)
    requires Inv(s) && Enabled(s, step)
    ensures Inv(Apply(s, step))
  {
    match step
    case Arrive(id, addr) => ArriveKeeps(s, id, addr);
    case Announce(id, ok) => AnnounceKeeps(s, id, ok);
    case Handle(id, move) => HandlerKeeps(s, id, move);
    case Call(step) => CallKeeps(s, step);
  }

  lemma {:induction false} InvAlongRun(s: State, run: seq<Step>)
    requires Inv(s) && Legal(s, run)
    ensures Inv(After(s, run))
    decreases |run|
  {
    if run != [] {
      InvKept(s, run[0]);
      InvAlongRun(Apply(s, run[0]), run[1..]);
    }
  }

  /**
   With any number of instances, over opens, failures, evictions and expiries: no token is ever
   stray, and the lane of a request at its own instance has been sent exactly the tokens sent for
   the request, in order.
   */
  lemma EveryTokenReachesItsInstance(s: State, run: seq<Step>, t: State)
    requires Init(s) && Legal(s, run) && t == After(s, run)
    ensures t.stray == []
    ensures forall m :: m in t.a.sent ==> m.id in t.home && t.home[m.id] == m.addr
    ensures forall id :: id in t.lanes ==> t.lanes[id].sent == TokensOf(t.a.sent, id)
  {
    InvAlongRun(s, run);
    forall m | m in t.a.sent ensures m.id in t.home && t.home[m.id] == m.addr {
      assert Routing.Registered(t.a, m.id, m.addr);
    }
  }

  // ---------------------------------------------------------------- a token gets through

  /** A published request stays published while calls act. */
  lemma CallKeepsPublished(s: State, step: Routing.Step, id: Id)
    requires Enabled(s, Call(step)) && id in s.lanes && Delivery.Published(s.lanes[id])
    ensures id in Apply(s, Call(step)).lanes && Delivery.Published(Apply(s, Call(step)).lanes[id])
  {
  }

  /** A run of one call is a run here. */
  lemma {:induction false} CallRun(s: State, calls: seq<Routing.Step>, id: Id) returns (run: seq<Step>)
    requires id in s.lanes && Delivery.Published(s.lanes[id])
    requires Routing.Legal(s.a, calls) && Routing.OnlyCall(calls, id)
    ensures Legal(s, run) && After(s, run).a == Routing.After(s.a, calls)
    decreases |calls|
  {
    if calls == [] {
      run := [];
    } else {
      var step := Call(calls[0]);
      CallMovesRouting(s, calls[0]);
      CallKeepsPublished(s, calls[0], id);
      var rest := CallRun(Apply(s, step), calls[1..], id);
      run := [step] + rest;
      assert run[1..] == rest;
    }
  }

  /** While the stored address has not expired, a token of a published request can be brought to its lane. */
  lemma TokenGetsThrough(s: State, id: Id, tok: TokenEvent) returns (run: seq<Step>)
    requires Inv(s) && id in s.lanes && Delivery.Published(s.lanes[id])
    requires id in s.a.store.live && id !in s.a.calls && tok.requestID == id
    ensures Legal(s, run) && id in After(s, run).lanes
    ensures After(s, run).lanes[id].sent == s.lanes[id].sent + [tok]
  {
    var luck := Routing.Luck(Some(s.a.store.live[id]), true, true, true);
    var calls := Routing.CallIsARun(s.a, id, tok, luck);
    ResolvesToLive(s.a, id);
    Routing.WhatACallDoes(s.a.c, id, tok, luck);
    run := CallRun(s, calls, id);
    var t := After(s, run);
    InvAlongRun(s, run);
    var o := Routing.Executed(s.a.c, id, tok, luck);
    assert t.a.sent == s.a.sent + [Routing.Sent(id, o.over.value.addr, tok)];
    TokensOfSnoc(s.a.sent, Routing.Sent(id, o.over.value.addr, tok), id);
    assert Routing.Sent(id, o.over.value.addr, tok) in t.a.sent;
  }

  lemma ResolvesToLive(a: Routing.State, id: Id)
    requires Routing.Inv(a) && id in a.store.live
    ensures Routing.HasStream(a.c, id, Routing.Luck(Some(a.store.live[id]), true, true, true))
    ensures forall q :: q in a.c.streams ==> q in a.c.addrs && a.c.streams[q].addr == a.c.addrs[q]
    ensures forall x :: x in a.c.conns ==> a.c.conns[x].addr == x
  {
  }

  /** A handler stores its address and publishes. */
  lemma AnnounceAndPublish(s: State, id: Id) returns (t: State)
    requires Inv(s) && Enabled(s, Announce(id, true))
    ensures Inv(t) && id in t.lanes && Delivery.Published(t.lanes[id]) && id in t.a.store.live
    ensures t.a.calls == s.a.calls && t.lanes[id].sent == s.lanes[id].sent
    ensures var s1 := Apply(s, Announce(id, true));
            Enabled(s1, Handle(id, Delivery.Publish(true))) && t == Apply(s1, Handle(id, Delivery.Publish(true)))
  {
    var s1 := Apply(s, Announce(id, true));
    InvKept(s, Announce(id, true));
    t := Apply(s1, Handle(id, Delivery.Publish(true)));
    InvKept(s1, Handle(id, Delivery.Publish(true)));
  }

  lemma PrependTwo(s: State, a: Step, b: Step, rest: seq<Step>) returns (run: seq<Step>)
    requires Enabled(s, a) && Enabled(Apply(s, a), b) && Legal(Apply(Apply(s, a), b), rest)
    ensures |run| >= 2 && run[0] == a && run[1] == b
    ensures Legal(s, run) && After(s, run) == After(Apply(Apply(s, a), b), rest)
  {
    run := [a] + ([b] + rest);
    assert run[1..] == [b] + rest && run[1..][1..] == rest;
  }

  /** A handler that stores its address and publishes can be sent a token at once. */
  lemma AnnouncedTokenArrives(s: State, id: Id, tok: TokenEvent) returns (run: seq<Step>)
    requires Inv(s) && Enabled(s, Announce(id, true)) && id !in s.a.calls && tok.requestID == id
    ensures |run| >= 2 && run[0] == Announce(id, true) && run[1] == Handle(id, Delivery.Publish(true))
    ensures Legal(s, run) && id in After(s, run).lanes
    ensures After(s, run).lanes[id].sent == s.lanes[id].sent + [tok]
  {
    var t := AnnounceAndPublish(s, id);
    var rest := TokenGetsThrough(t, id, tok);
    run := PrependTwo(s, Announce(id, true), Handle(id, Delivery.Publish(true)), rest);
  }
}
