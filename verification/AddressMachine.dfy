/**
 How the streaming worker finds the API instance of a request: a cache of addresses, streams and
 connections in front of the callback store. One call of `Execute` for a request is a sequence of
 atomic actions; calls for different requests interleave at every action, calls for the same
 request do not overlap. Entries of the callback store may expire at any time.
 */
module AddressMachine {
  import opened Types

  type Addr = string

  /** One client connection, and the address it was made for. Two connections may share an address. */
  datatype Conn = Conn(addr: Addr, serial: nat)

  /** `streams`, `addrMap` and `connMap`; a stream is known by the connection it was opened over. */
  datatype Caches = Caches(streams: map<Id, Conn>, addrs: map<Id, Addr>, conns: map<Addr, Conn>, made: nat)

  /** The callback store, and what API instances ever put into it. */
  datatype Callbacks = Callbacks(live: map<Id, Addr>, registered: map<Id, Addr>)

  /** The next action of a call. */
  datatype Place =
    | LoadStream
    | LoadAddr
    | AskStore
    | KeepAddr(addr: Addr)
    | FindConn(addr: Addr)
    | MakeConn(addr: Addr)
    | KeepConn(conn: Conn)
    | OpenStream(conn: Conn)
    | KeepStream(conn: Conn)
    | SendToken(conn: Conn)
    | DropStream(failed: bool)
    | DropAddr(failed: bool)

  datatype Call = Call(tok: TokenEvent, at: Place)

  datatype Sent = Sent(id: Id, addr: Addr, tok: TokenEvent)

  datatype State = State(store: Callbacks, c: Caches, calls: map<Id, Call>, sent: seq<Sent>, errors: nat)

  datatype Step =
    | SetCallback(id: Id, addr: Addr)
    | Expire(id: Id)
    | Begin(id: Id, tok: TokenEvent)
    | Advance(id: Id, ok: bool)

  predicate Init(s: State) {
    s == State(Callbacks(map[], map[]), Caches(map[], map[], map[], 0), map[], [], 0)
  }

  /** A request id is fresh, so its address is set once; a call starts when the previous one has returned. */
  predicate Enabled(s: State, step: Step) {
    match step
    case SetCallback(id, addr) => id !in s.store.registered
    case Expire(id) => id in s.store.live
    case Begin(id, tok) => id !in s.calls && tok.requestID == id
    case Advance(id, ok) => id in s.calls && (s.calls[id].at == AskStore && ok ==> id in s.store.live)
  }

  function Goto(s: State, id: Id, at: Place): State
    requires id in s.calls
  {
    s.(calls := s.calls[id := s.calls[id].(at := at)])
  }

  function Return(s: State, id: Id, failed: bool): State {
    s.(calls := s.calls - {id}, errors := s.errors + if failed then 1 else 0)
  }

  /** One action of the call for `id`; `ok` is the luck of the action where it can fail. */
  function Move(s: State, id: Id, ok: bool): State
    requires Enabled(s, Advance(id, ok))
  {
    var c, tok := s.c, s.calls[id].tok;
    match s.calls[id].at
    case LoadStream => Goto(s, id, if id in c.streams then SendToken(c.streams[id]) else LoadAddr)
    case LoadAddr => Goto(s, id, if id in c.addrs then FindConn(c.addrs[id]) else AskStore)
    case AskStore => if ok then Goto(s, id, KeepAddr(s.store.live[id])) else Return(s, id, true)
    case KeepAddr(addr) => Goto(s, id, FindConn(addr)).(c := c.(addrs := c.addrs[id := addr]))
    case FindConn(addr) => Goto(s, id, if addr in c.conns then OpenStream(c.conns[addr]) else MakeConn(addr))
    case MakeConn(addr) =>
      if ok then Goto(s, id, KeepConn(Conn(addr, c.made))).(c := c.(made := c.made + 1)) else Return(s, id, true)
    case KeepConn(conn) => Goto(s, id, OpenStream(conn)).(c := c.(conns := c.conns[conn.addr := conn]))
    case OpenStream(conn) => if ok then Goto(s, id, KeepStream(conn)) else Return(s, id, true)
    case KeepStream(conn) => Goto(s, id, SendToken(conn)).(c := c.(streams := c.streams[id := conn]))
    case SendToken(conn) =>
      if !ok then Goto(s, id, DropStream(true))
      else
        var s' := s.(sent := s.sent + [Sent(id, conn.addr, tok)]);
        if tok.done then Goto(s', id, DropStream(false)) else Return(s', id, false)
    case DropStream(failed) => Goto(s, id, DropAddr(failed)).(c := c.(streams := c.streams - {id}))
    case DropAddr(failed) => Return(s, id, failed).(c := c.(addrs := c.addrs - {id}))
  }

  function Apply(s: State, step: Step): State
    requires Enabled(s, step)
  {
    match step
    case SetCallback(id, addr) =>
      s.(store := Callbacks(s.store.live[id := addr], s.store.registered[id := addr]))
    case Expire(id) => s.(store := s.store.(live := s.store.live - {id}))
    case Begin(id, tok) => s.(calls := s.calls[id := Call(tok, LoadStream)])
    case Advance(id, ok) => Move(s, id, ok)
  }

  ghost predicate Legal(s: State, run: seq<Step>)
    decreases |run|
  {
    run == [] || (Enabled(s, run[0]) && Legal(Apply(s, run[0]), run[1..]))
  }

  ghost function After(s: State, run: seq<Step>): State
    requires Legal(s, run)
    decreases |run|
  {
    if run == [] then s else After(Apply(s, run[0]), run[1..])
  }

  // ---------------------------------------------------------------- coherence

  /** `addr` is the address the API instance of request `id` stored. */
  predicate Registered(s: State, id: Id, addr: Addr) {
    id in s.store.registered && s.store.registered[id] == addr
  }

  /** Every cached address, every open stream and every connection leads where it should. */
  ghost predicate Coherent(s: State) {
    && (forall id :: id in s.store.live ==> Registered(s, id, s.store.live[id]))
    && (forall id :: id in s.c.addrs ==> Registered(s, id, s.c.addrs[id]))
    && (forall id :: id in s.c.streams ==> Registered(s, id, s.c.streams[id].addr) && id in s.c.addrs)
    && (forall addr :: addr in s.c.conns ==> s.c.conns[addr].addr == addr)
  }

  predicate Held(s: State, id: Id, addr: Addr) {
    Registered(s, id, addr) && id in s.c.addrs
  }

  /** What a call knows at the place it has reached. */
  predicate Sane(s: State, id: Id, at: Place) {
    match at
    case KeepAddr(addr) => Registered(s, id, addr)
    case FindConn(addr) => Held(s, id, addr)
    case MakeConn(addr) => Held(s, id, addr)
    case KeepConn(conn) => Held(s, id, conn.addr)
    case OpenStream(conn) => Held(s, id, conn.addr)
    case KeepStream(conn) => Held(s, id, conn.addr)
    case SendToken(conn) => Held(s, id, conn.addr)
    case DropAddr(_) => id !in s.c.streams
    case _ => true
  }

  ghost predicate Inv(s: State) {
    && Coherent(s)
    && (forall id :: id in s.calls ==> Sane(s, id, s.calls[id].at) && s.calls[id].tok.requestID == id)
    && (forall m :: m in s.sent ==> Registered(s, m.id, m.addr) && m.tok.requestID == m.id)
  }

  /** The call for `id` moves on; nothing another request relies on is taken away. */
  lemma OthersSane(s: State, s': State, id: Id)
    requires Inv(s) && s'.store == s.store
    requires forall q :: q in s'.calls && q != id ==> q in s.calls && s'.calls[q] == s.calls[q]
    requires forall q :: q != id ==> (q in s'.c.addrs <==> q in s.c.addrs) && (q in s'.c.streams <==> q in s.c.streams)
    requires id in s'.calls ==> Sane(s', id, s'.calls[id].at) && s'.calls[id].tok.requestID == id
    ensures forall q :: q in s'.calls ==> Sane(s', q, s'.calls[q].at) && s'.calls[q].tok.requestID == q
  {
    forall q | q in s'.calls ensures Sane(s', q, s'.calls[q].at) && s'.calls[q].tok.requestID == q {
      if q != id { assert Sane(s, q, s.calls[q].at); }
    }
  }

  lemma MoveKeepsCoherence(s: State, id: Id, ok: bool)
    requires Inv(s) && Enabled(s, Advance(id, ok))
    ensures Coherent(Move(s, id, ok)) && Move(s, id, ok).store == s.store
  {
    assert Sane(s, id, s.calls[id].at);
  }

  lemma MoveStaysSane(s: State, id: Id, ok: bool)
    requires Inv(s) && Enabled(s, Advance(id, ok))
    ensures var s' := Move(s, id, ok); id in s'.calls ==>
        Sane(s', id, s'.calls[id].at) && s'.calls[id].tok.requestID == id
  {
    assert Sane(s, id, s.calls[id].at);
  }

  lemma MoveKeepsSent(s: State, id: Id, ok: bool)
    requires Inv(s) && Enabled(s, Advance(id, ok))
    ensures forall m :: m in Move(s, id, ok).sent ==> Registered(s, m.id, m.addr) && m.tok.requestID == m.id
  {
    assert Sane(s, id, s.calls[id].at);
  }

  /** A call's action changes the entries of no other request and no other call. */
  lemma MoveLeavesOthers(s: State, id: Id, ok: bool)
    requires Enabled(s, Advance(id, ok))
    ensures var s' := Move(s, id, ok);
            && (forall q :: q in s'.calls && q != id ==> q in s.calls && s'.calls[q] == s.calls[q])
            && (forall q :: q != id ==>
                  (q in s'.c.addrs <==> q in s.c.addrs) && (q in s'.c.streams <==> q in s.c.streams))
  {
  }

  lemma AdvanceKeeps(s: State, s': State, id: Id, ok: bool)
    requires Inv(s) && Enabled(s, Advance(id, ok)) && s' == Move(s, id, ok)
    ensures Inv(s')
  {
    MoveKeepsCoherence(s, id, ok);
    MoveStaysSane(s, id, ok);
    MoveKeepsSent(s, id, ok);
    MoveLeavesOthers(s, id, ok);
    OthersSane(s, s', id);
  }

  lemma SetCallbackKeeps(s: State, id: Id, addr: Addr)
    requires Inv(s) && Enabled(s, SetCallback(id, addr))
    ensures Inv(Apply(s, SetCallback(id, addr)))
  {
    var s' := Apply(s, SetCallback(id, addr));
    forall q, a | Registered(s, q, a) ensures Registered(s', q, a) {}
    forall q | q in s'.calls ensures Sane(s', q, s'.calls[q].at) { assert Sane(s, q, s.calls[q].at); }
  }

  lemma ExpireKeeps(s: State, id: Id)
    requires Inv(s) && Enabled(s, Expire(id))
    ensures Inv(Apply(s, Expire(id)))
  {
    var s' := Apply(s, Expire(id));
    forall q | q in s'.calls ensures Sane(s', q, s'.calls[q].at) { assert Sane(s, q, s.calls[q].at); }
  }

  lemma BeginKeeps(s: State, id: Id, tok: TokenEvent)
    requires Inv(s) && Enabled(s, Begin(id, tok))
    ensures Inv(Apply(s, Begin(id, tok)))
  {
    OthersSane(s, Apply(s, Begin(id, tok)), id);
  }

  lemma InvKept(s: State, step: Step)
    requires Inv(s) && Enabled(s, step)
    ensures Inv(Apply(s, step))
  {
    match step
    case Advance(id, ok) => AdvanceKeeps(s, Apply(s, step), id, ok);
    case SetCallback(id, addr) => SetCallbackKeeps(s, id, addr);
    case Begin(id, tok) => BeginKeeps(s, id, tok);
    case Expire(id) => ExpireKeeps(s, id);
  }

  lemma {:induction false} InvAlongRun(s: State, run: seq<Step>)
    requires Inv(s) && Legal(s, run)
    ensures Inv(After(s, run))
    decreases |run|
  {
    if run != [] {
      InvKept(s, run[0]);
      InvAlongRun(Apply(s, run[0]), run[1..]);
    }
  }

  /**
   In every reachable state each cached address is the one the API stored for that request, each
   open stream was opened over a connection to that address, every request with a stream has a
   cached address, and every token ever sent went to the instance that registered its request.
   */
  lemma CachesAgreeWithStore(s: State, run: seq<Step>, t: State)
    requires Init(s) && Legal(s, run) && t == After(s, run)
    ensures Coherent(t)
    ensures forall m :: m in t.sent ==> Registered(t, m.id, m.addr) && m.tok.requestID == m.id
  {
    InvAlongRun(s, run);
  }

  lemma ExpiredStays(s: State, step: Step, id: Id)
    requires Enabled(s, step) && id in s.store.registered && id !in s.store.live
    ensures id in Apply(s, step).store.registered && id !in Apply(s, step).store.live
  {
  }

  lemma {:induction false} ExpiredAlongRun(s: State, run: seq<Step>, id: Id)
    requires Legal(s, run) && id in s.store.registered && id !in s.store.live
    ensures id in After(s, run).store.registered && id !in After(s, run).store.live
    decreases |run|
  {
    if run != [] {
      ExpiredStays(s, run[0], id);
      ExpiredAlongRun(Apply(s, run[0]), run[1..], id);
    }
  }

  /** An address that has expired is gone for good: whatever happens then, the store never answers a call with it. */
  lemma ExpiryIsFinal(s: State, id: Id, run: seq<Step>)
    requires Inv(s) && Enabled(s, Expire(id)) && Legal(Apply(s, Expire(id)), run)
    ensures var t := After(Apply(s, Expire(id)), run);
            id in t.calls && t.calls[id].at == AskStore ==> !Enabled(t, Advance(id, true))
  {
    ExpiredAlongRun(Apply(s, Expire(id)), run, id);
  }

  // ---------------------------------------------------------------- one call by itself

  /** What can go wrong around one call: the callback store's answer, and the fate of each network action. */
  datatype Luck = Luck(found: Option<Addr>, made: bool, streamed: bool, sent: bool)

  /** What one call leaves behind: the caches, the connection it sent over, and whether it failed. */
  datatype Outcome = Outcome(c: Caches, over: Option<Conn>, failed: bool)

  /** The address a call finds, if any. */
  function Resolved(c: Caches, id: Id, luck: Luck): Option<Addr> {
    if id in c.addrs then Some(c.addrs[id]) else luck.found
  }

  function Connected(c: Caches, addr: Addr, luck: Luck): (Caches, Option<Conn>) {
    if addr in c.conns then (c, Some(c.conns[addr]))
    else if !luck.made then (c, None)
    else (c.(conns := c.conns[addr := Conn(addr, c.made)], made := c.made + 1), Some(Conn(addr, c.made)))
  }

  /** The send, and what is forgotten after a failure or after Done. */
  function Closed(c: Caches, id: Id, tok: TokenEvent, conn: Conn, luck: Luck): Outcome {
    if luck.sent && !tok.done then Outcome(c, Some(conn), false)
    else
      var c' := c.(streams := c.streams - {id}, addrs := c.addrs - {id});
      Outcome(c', if luck.sent then Some(conn) else None, !luck.sent)
  }

  function Reached(c: Caches, id: Id, tok: TokenEvent, addr: Addr, luck: Luck): Outcome {
    var (c', conn) := Connected(c, addr, luck);
    if conn.None? || !luck.streamed then Outcome(c', None, true)
    else Closed(c'.(streams := c'.streams[id := conn.value]), id, tok, conn.value, luck)
  }

  function Executed(c: Caches, id: Id, tok: TokenEvent, luck: Luck): Outcome {
    if id in c.streams then Closed(c, id, tok, c.streams[id], luck)
    else
      var addr := Resolved(c, id, luck);
      if addr.None? then Outcome(c, None, true)
      else Reached(c.(addrs := c.addrs[id := addr.value]), id, tok, addr.value, luck)
  }

  /** The call gets hold of a stream: an open one, or one it can open. */
  predicate HasStream(c: Caches, id: Id, luck: Luck) {
    id in c.streams ||
    (Resolved(c, id, luck).Some? && (Resolved(c, id, luck).value in c.conns || luck.made) && luck.streamed)
  }

  /**
   What a call means for the caches: it fails exactly when it gets no stream or the send fails; if
   it sends, it sends to the address the caches or the callback store have; a failed send or a Done
   forgets the request altogether; without a stream an address it found stays cached; and other
   requests keep their streams and addresses.
   */
  lemma WhatACallDoes(c: Caches, id: Id, tok: TokenEvent, luck: Luck)
    requires forall a :: a in c.conns ==> c.conns[a].addr == a
    requires forall q :: q in c.streams ==> q in c.addrs && c.streams[q].addr == c.addrs[q]
    ensures var o := Executed(c, id, tok, luck);
            && (o.failed <==> o.over.None?)
            && (!o.failed <==> luck.sent && HasStream(c, id, luck))
            && (!o.failed ==> Resolved(c, id, luck) == Some(o.over.value.addr))
            && (!o.failed && !tok.done ==> id in o.c.streams && o.c.streams[id] == o.over.value)
            && (HasStream(c, id, luck) && (!luck.sent || tok.done) ==> id !in o.c.streams && id !in o.c.addrs)
            && (!HasStream(c, id, luck) ==> id !in o.c.streams && (id in o.c.addrs <==> Resolved(c, id, luck).Some?))
            && (forall q :: q in o.c.streams ==> q in o.c.addrs && o.c.streams[q].addr == o.c.addrs[q])
            && (forall q :: q != id ==>
                  (q in o.c.streams <==> q in c.streams) && (q in c.streams ==> o.c.streams[q] == c.streams[q]) &&
                  (q in o.c.addrs <==> q in c.addrs) && (q in c.addrs ==> o.c.addrs[q] == c.addrs[q]))
  {
  }

  // ---------------------------------------------------------------- a call is a run

  /** The state after the call for `id` has returned with outcome `o`. */
  function Returned(s: State, id: Id, tok: TokenEvent, o: Outcome): State {
    State(s.store, o.c, s.calls - {id}, s.sent + (if o.over.Some? then [Sent(id, o.over.value.addr, tok)] else []),
          s.errors + if o.failed then 1 else 0)
  }

  /** Only the call for `id` begins and acts. */
  predicate OnlyCall(run: seq<Step>, id: Id) {
    forall i :: 0 <= i < |run| ==> (run[i].Begin? || run[i].Advance?) && run[i].id == id
  }

  lemma Prepend(s: State, step: Step, rest: seq<Step>, id: Id) returns (run: seq<Step>)
    requires Enabled(s, step) && Legal(Apply(s, step), rest)
    requires OnlyCall(rest, id) && (step.Begin? || step.Advance?) && step.id == id
    ensures OnlyCall(run, id)
    ensures Legal(s, run) && After(s, run) == After(Apply(s, step), rest)
  {
    run := [step] + rest;
    assert run[1..] == rest;
  }

  lemma RunEvicts(s: State, id: Id, failed: bool) returns (run: seq<Step>)
    requires id in s.calls && s.calls[id].at == DropStream(failed)
    ensures Legal(s, run) && OnlyCall(run, id)
    ensures After(s, run) == Return(s, id, failed).(c := s.c.(streams := s.c.streams - {id}, addrs := s.c.addrs - {id}))
  {
    var s1 := Move(s, id, true);
    var s2 := Move(s1, id, true);
    assert s2.calls == s.calls - {id};
    assert Legal(s2, []);
    run := Prepend(s1, Advance(id, true), [], id);
    run := Prepend(s, Advance(id, true), run, id);
  }

  lemma RunSends(s: State, id: Id, luck: Luck) returns (run: seq<Step>)
    requires id in s.calls && s.calls[id].at.SendToken?
    ensures Legal(s, run) && OnlyCall(run, id)
    ensures After(s, run) == Returned(s, id, s.calls[id].tok,
        Closed(s.c, id, s.calls[id].tok, s.calls[id].at.conn, luck))
  {
    var s1 := Move(s, id, luck.sent);
    if luck.sent && !s.calls[id].tok.done {
      run := [];
    } else {
      run := RunEvicts(s1, id, !luck.sent);
      assert s1.calls - {id} == s.calls - {id};
    }
    run := Prepend(s, Advance(id, luck.sent), run, id);
  }

  lemma RunOpens(s: State, id: Id, luck: Luck) returns (run: seq<Step>)
    requires id in s.calls && s.calls[id].at.OpenStream?
    ensures Legal(s, run) && OnlyCall(run, id)
    ensures var conn, tok := s.calls[id].at.conn, s.calls[id].tok;
            After(s, run) == Returned(s, id, tok,
              if luck.streamed then Closed(s.c.(streams := s.c.streams[id := conn]), id, tok, conn, luck)
                else Outcome(s.c, None, true))
  {
    var s1 := Move(s, id, luck.streamed);
    if luck.streamed {
      var s2 := Move(s1, id, true);
      assert s2.calls - {id} == s.calls - {id};
      run := RunSends(s2, id, luck);
      run := Prepend(s1, Advance(id, true), run, id);
    } else {
      run := [];
    }
    run := Prepend(s, Advance(id, luck.streamed), run, id);
  }

  lemma RunConnects(s: State, id: Id, luck: Luck) returns (run: seq<Step>)
    requires id in s.calls && s.calls[id].at.FindConn?
    ensures Legal(s, run) && OnlyCall(run, id)
    ensures After(s, run) == Returned(s, id, s.calls[id].tok,
        Reached(s.c, id, s.calls[id].tok, s.calls[id].at.addr, luck))
  {
    var s1 := Move(s, id, true);
    if s1.calls[id].at.OpenStream? {
      assert s1.calls - {id} == s.calls - {id};
      run := RunOpens(s1, id, luck);
    } else {
      run := RunMakes(s1, id, luck);
      assert s1.calls - {id} == s.calls - {id};
    }
    run := Prepend(s, Advance(id, true), run, id);
  }

  lemma RunMakes(s: State, id: Id, luck: Luck) returns (run: seq<Step>)
    requires id in s.calls && s.calls[id].at.MakeConn? && s.calls[id].at.addr !in s.c.conns
    ensures Legal(s, run) && OnlyCall(run, id)
    ensures After(s, run) == Returned(s, id, s.calls[id].tok,
        Reached(s.c, id, s.calls[id].tok, s.calls[id].at.addr, luck))
  {
    var s1 := Move(s, id, luck.made);
    if luck.made {
      var s2 := Move(s1, id, true);
      assert s2.calls - {id} == s.calls - {id};
      run := RunOpens(s2, id, luck);
      run := Prepend(s1, Advance(id, true), run, id);
    } else {
      run := [];
    }
    run := Prepend(s, Advance(id, luck.made), run, id);
  }

  lemma RunResolves(s: State, id: Id, luck: Luck) returns (run: seq<Step>)
    requires id in s.calls && s.calls[id].at == LoadAddr
    requires luck.found.Some? ==> id in s.store.live && luck.found.value == s.store.live[id]
    ensures Legal(s, run) && OnlyCall(run, id)
    ensures var tok, addr := s.calls[id].tok, Resolved(s.c, id, luck);
            After(s, run) == Returned(s, id, tok,
              if addr.None? then Outcome(s.c, None, true)
                else Reached(s.c.(addrs := s.c.addrs[id := addr.value]), id, tok, addr.value, luck))
  {
    var s1 := Move(s, id, true);
    if id in s.c.addrs {
      assert s1.calls - {id} == s.calls - {id} && s.c.addrs[id := s.c.addrs[id]] == s.c.addrs;
      run := RunConnects(s1, id, luck);
    } else {
      var s2 := Move(s1, id, luck.found.Some?);
      assert s2.calls - {id} == s.calls - {id};
      if luck.found.Some? {
        var s3 := Move(s2, id, true);
        assert s3.calls - {id} == s.calls - {id};
        run := RunConnects(s3, id, luck);
        run := Prepend(s2, Advance(id, true), run, id);
      } else {
        run := [];
      }
      run := Prepend(s1, Advance(id, luck.found.Some?), run, id);
    }
    run := Prepend(s, Advance(id, true), run, id);
  }

  /** A call that is not disturbed on its way is a run of the machine with exactly the outcome above. */
  lemma CallIsARun(s: State, id: Id, tok: TokenEvent, luck: Luck) returns (run: seq<Step>)
    requires Enabled(s, Begin(id, tok))
    requires luck.found.Some? ==> id in s.store.live && luck.found.value == s.store.live[id]
    ensures Legal(s, run) && After(s, run) == Returned(s, id, tok, Executed(s.c, id, tok, luck))
    ensures OnlyCall(run, id)
  {
    var s1 := Apply(s, Begin(id, tok));
    var s2 := Move(s1, id, true);
    assert s2.calls - {id} == s.calls == s.calls - {id};
    if id in s.c.streams {
      run := RunSends(s2, id, luck);
    } else {
      run := RunResolves(s2, id, luck);
    }
    run := Prepend(s1, Advance(id, true), run, id);
    run := Prepend(s, Begin(id, tok), run, id);
  }
}
