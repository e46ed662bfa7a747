/**
 Sequential use of the persistence use case: tokens and successful flushes in any order. When the
 flushes fall does not matter for the assistant text; for the prompt it matters exactly when the
 tokens of one request disagree about it.
 */
module FlushSchedules {
  import opened Types
  import opened MessageTable
  import opened FlushBatch

  /** A token is added, or the buffers are flushed in the given enumeration order. */
  datatype Op = Token(tok: TokenEvent) | Flush(order: seq<Id>)

  datatype World = World(mem: Memory, rows: seq<Message>)

  ghost predicate Can(w: World, op: Op) {
    op.Flush? ==> Enumerates(op.order, w.mem.buffers.Keys)
  }

  function Do(w: World, op: Op): World
    requires op.Flush? ==> forall r :: r in op.order ==> r in w.mem.buffers
  {
    match op
    case Token(tok) => World(Added(w.mem, tok), w.rows)
    case Flush(order) =>
      World(EMPTY, UpsertRows(w.rows, Batch(order, w.mem.buffers, ReadContents(w.rows, w.mem.buffers.Keys))))
  }

  ghost predicate Schedule(rows: seq<Message>, ops: seq<Op>)
    decreases |ops|, 0
  {
    ops == [] || (Schedule(rows, ops[..|ops| - 1]) && Can(Outcome(rows, ops[..|ops| - 1]), ops[|ops| - 1]))
  }

  ghost function Outcome(rows: seq<Message>, ops: seq<Op>): World
    requires Schedule(rows, ops)
    decreases |ops|, 1
  {
    if ops == [] then World(EMPTY, rows) else Do(Outcome(rows, ops[..|ops| - 1]), ops[|ops| - 1])
  }

  function Tokens(ops: seq<Op>): seq<TokenEvent> {
    if ops == [] then []
    else Tokens(ops[..|ops| - 1]) + match ops[|ops| - 1] case Token(tok) => [tok] case Flush(_) => []
  }

  /** The tokens added since the last flush. */
  function Pending(ops: seq<Op>): seq<TokenEvent> {
    if ops == [] then []
    else match ops[|ops| - 1] case Token(tok) => Pending(ops[..|ops| - 1]) + [tok] case Flush(_) => []
  }

  /** The tokens added before the last flush. */
  function Flushed(ops: seq<Op>): seq<TokenEvent> {
    if ops == [] then []
    else match ops[|ops| - 1] case Token(_) => Flushed(ops[..|ops| - 1]) case Flush(_) => Tokens(ops)
  }

  lemma {:induction false} TokensSplit(ops: seq<Op>)
    ensures Tokens(ops) == Flushed(ops) + Pending(ops)
  {
    if ops != [] {
      TokensSplit(ops[..|ops| - 1]);
    }
  }

  /** One more flush: everything pending is flushed, and the buffers it wrote held exactly that. */
  lemma OneMoreFlush(rows: seq<Message>, ops: seq<Op>)
    requires Schedule(rows, ops) && EndsFlushed(ops)
    ensures var init := ops[..|ops| - 1];
            && Flushed(ops) == Flushed(init) + Pending(init)
            && Outcome(rows, init).mem == Collect(Pending(init))
            && Can(Outcome(rows, init), ops[|ops| - 1])
            && Outcome(rows, ops) == Do(Outcome(rows, init), ops[|ops| - 1])
  {
    TokensSplit(ops[..|ops| - 1]);
    BuffersHoldPending(rows, ops[..|ops| - 1]);
  }

  /** `count` is the number of tokens held in the buffers, which hold exactly the pending ones. */
  lemma {:induction false} BuffersHoldPending(rows: seq<Message>, ops: seq<Op>)
    requires Schedule(rows, ops)
    ensures Outcome(rows, ops).mem == Collect(Pending(ops)) && Outcome(rows, ops).mem.count == |Pending(ops)|
  {
    if ops != [] {
      BuffersHoldPending(rows, ops[..|ops| - 1]);
      if ops[|ops| - 1].Token? { CollectSnoc(Pending(ops[..|ops| - 1]), ops[|ops| - 1].tok); }
    }
    CollectHolds(Pending(ops), "");
  }

  /** The answer of `r` after the tokens `toks` have reached the table: a row exists once one of them is its own. */
  function Answer(rows: seq<Message>, toks: seq<TokenEvent>, r: Id): Option<string> {
    if Of(r, toks) == [] then Lookup(rows, r, Assistant) else Some(Stored(rows, r) + Text(Of(r, toks)))
  }

  lemma AnswerGrows(rows: seq<Message>, a: seq<TokenEvent>, b: seq<TokenEvent>, r: Id, table: seq<Message>)
    requires Lookup(table, r, Assistant) == Answer(rows, a, r)
    ensures Answer(rows, a + b, r) ==
            if Of(r, b) == [] then Lookup(table, r, Assistant) else Some(Stored(table, r) + Text(Of(r, b)))
  {
    OfConcat(r, a, b);
    TextConcat(Of(r, a), Of(r, b));
    if Of(r, a) == [] {
      assert [] + Of(r, b) == Of(r, b);
    } else {
      Associate(Stored(rows, r), Text(Of(r, a)), Text(Of(r, b)));
      assert Of(r, a) + [] == Of(r, a);
    }
  }

  lemma FlushAnswers(w: World, order: seq<Id>, r: Id, pending: seq<TokenEvent>)
    requires Can(w, Flush(order)) && w.mem == Collect(pending)
    ensures Lookup(Do(w, Flush(order)).rows, r, Assistant) ==
            if Of(r, pending) == [] then Lookup(w.rows, r, Assistant)
              else Some(Stored(w.rows, r) + Text(Of(r, pending)))
  {
    LookupBatch(w.rows, order, w.mem.buffers, ReadContents(w.rows, w.mem.buffers.Keys), r, Assistant);
    CollectHolds(pending, r);
  }

  lemma {:induction false} StoredIsFlushed(rows: seq<Message>, ops: seq<Op>, r: Id)
    requires Schedule(rows, ops)
    ensures Lookup(Outcome(rows, ops).rows, r, Assistant) == Answer(rows, Flushed(ops), r)
  {
    if ops != [] {
      var init, op := ops[..|ops| - 1], ops[|ops| - 1];
      StoredIsFlushed(rows, init, r);
      if op.Flush? {
        OneMoreFlush(rows, ops);
        FlushAnswers(Outcome(rows, init), op.order, r, Pending(init));
        AnswerGrows(rows, Flushed(init), Pending(init), r, Outcome(rows, init).rows);
      }
    }
  }

  ghost predicate EndsFlushed(ops: seq<Op>) {
    ops != [] && ops[|ops| - 1].Flush?
  }

  /** The reference: every token appended straight to its row. */
  function Direct(rows: seq<Message>, toks: seq<TokenEvent>): seq<Message> {
    if toks == [] then rows
    else
      var before, t := Direct(rows, toks[..|toks| - 1]), toks[|toks| - 1];
      UpsertRow(UpsertRow(before, Message(t.sessionID, t.requestID, User, t.userMessage)),
                Message(t.sessionID, t.requestID, Assistant, Stored(before, t.requestID) + t.delta))
  }

  lemma {:induction false} DirectText(rows: seq<Message>, toks: seq<TokenEvent>, r: Id)
    ensures Lookup(Direct(rows, toks), r, Assistant) == Answer(rows, toks, r)
  {
    if toks != [] {
      var init, t := toks[..|toks| - 1], toks[|toks| - 1];
      DirectText(rows, init, r);
      var before := Direct(rows, init);
      var u := Message(t.sessionID, t.requestID, User, t.userMessage);
      var a := Message(t.sessionID, t.requestID, Assistant, Stored(before, t.requestID) + t.delta);
      LookupUpsertRow(before, u, r, Assistant);
      LookupUpsertRow(UpsertRow(before, u), a, r, Assistant);
      AnswerGrows(rows, init, [t], r, before);
      assert toks == init + [t];
      OfSnoc(r, [], t);
      TextSnoc([], t);
      assert [] + [t] == [t] && "" + t.delta == t.delta;
    }
  }

  /** Any schedule that ends in a flush leaves the answer the unbuffered store would hold, or none if that has none. */
  lemma ScheduleDoesNotMatter(rows: seq<Message>, ops: seq<Op>, r: Id)
    requires Schedule(rows, ops) && EndsFlushed(ops)
    ensures Lookup(Outcome(rows, ops).rows, r, Assistant) == Lookup(Direct(rows, Tokens(ops)), r, Assistant)
  {
    StoredIsFlushed(rows, ops, r);
    DirectText(rows, Tokens(ops), r);
  }

  // ---------------------------------------------------------------- the prompt

  /** All tokens of `r` quote the same prompt. */
  ghost predicate OnePrompt(r: Id, toks: seq<TokenEvent>) {
    forall i, j :: 0 <= i < |toks| && 0 <= j < |toks| && toks[i].requestID == r == toks[j].requestID ==>
      toks[i].userMessage == toks[j].userMessage
  }

  /** A schedule of these tokens that ends in a flush. */
  ghost predicate Complete(rows: seq<Message>, ops: seq<Op>, toks: seq<TokenEvent>) {
    Schedule(rows, ops) && EndsFlushed(ops) && Tokens(ops) == toks
  }

  ghost predicate PromptIndependent(rows: seq<Message>, toks: seq<TokenEvent>, r: Id) {
    forall a, b :: Complete(rows, a, toks) && Complete(rows, b, toks) ==>
      Lookup(Outcome(rows, a).rows, r, User) == Lookup(Outcome(rows, b).rows, r, User)
  }

  lemma FlushPrompt(w: World, order: seq<Id>, r: Id, pending: seq<TokenEvent>)
    requires Can(w, Flush(order)) && w.mem == Collect(pending)
    ensures Lookup(Do(w, Flush(order)).rows, r, User) ==
            if Of(r, pending) == [] then Lookup(w.rows, r, User) else Some(Of(r, pending)[0].userMessage)
  {
    LookupBatch(w.rows, order, w.mem.buffers, ReadContents(w.rows, w.mem.buffers.Keys), r, User);
    CollectHolds(pending, r);
  }

  /** The stored prompt is the initial one until a token of `r` is flushed, and then quotes a flushed token of `r`. */
  lemma {:induction false} PromptQuotesAToken(rows: seq<Message>, ops: seq<Op>, r: Id)
    requires Schedule(rows, ops)
    ensures Of(r, Flushed(ops)) == [] ==> Lookup(Outcome(rows, ops).rows, r, User) == Lookup(rows, r, User)
    ensures Of(r, Flushed(ops)) != [] ==>
              exists t :: t in Of(r, Flushed(ops)) && Lookup(Outcome(rows, ops).rows, r, User) == Some(t.userMessage)
  {
    if ops != [] {
      var init, op := ops[..|ops| - 1], ops[|ops| - 1];
      PromptQuotesAToken(rows, init, r);
      if op.Flush? {
        OneMoreFlush(rows, ops);
        OfConcat(r, Flushed(init), Pending(init));
        FlushPrompt(Outcome(rows, init), op.order, r, Pending(init));
        if Of(r, Pending(init)) != [] { assert Of(r, Pending(init))[0] in Of(r, Flushed(ops)); }
      }
    }
  }

  lemma OnePromptSuffices(rows: seq<Message>, toks: seq<TokenEvent>, r: Id)
    requires OnePrompt(r, toks)
    ensures PromptIndependent(rows, toks, r)
  {
    OfMembers(r, toks);
    forall a, b | Complete(rows, a, toks) && Complete(rows, b, toks)
      ensures Lookup(Outcome(rows, a).rows, r, User) == Lookup(Outcome(rows, b).rows, r, User)
    {
      PromptQuotesAToken(rows, a, r);
      PromptQuotesAToken(rows, b, r);
      assert Flushed(a) == toks && Flushed(b) == toks;
      if Of(r, toks) != [] {
        var t :| t in Of(r, toks) && Lookup(Outcome(rows, a).rows, r, User) == Some(t.userMessage);
        var u :| u in Of(r, toks) && Lookup(Outcome(rows, b).rows, r, User) == Some(u.userMessage);
        assert t in toks && u in toks;
      }
    }
  }

  lemma Extended(rows: seq<Message>, ops: seq<Op>, op: Op)
    requires Schedule(rows, ops) && Can(Outcome(rows, ops), op)
    ensures Schedule(rows, ops + [op]) && Outcome(rows, ops + [op]) == Do(Outcome(rows, ops), op)
    ensures Tokens(ops + [op]) == Tokens(ops) + match op case Token(tok) => [tok] case Flush(_) => []
    ensures Pending(ops + [op]) == match op case Token(tok) => Pending(ops) + [tok] case Flush(_) => []
  {
    assert (ops + [op])[..|ops|] == ops;
  }

  lemma AppendLast(a: seq<TokenEvent>, toks: seq<TokenEvent>)
    requires toks != []
    ensures a + toks == a + toks[..|toks| - 1] + [toks[|toks| - 1]]
  {
  }

  /** After `ops`, add the tokens `toks` without flushing. */
  lemma {:induction false} AddAll(rows: seq<Message>, ops: seq<Op>, toks: seq<TokenEvent>) returns (ops': seq<Op>)
    requires Schedule(rows, ops)
    ensures Schedule(rows, ops') && Tokens(ops') == Tokens(ops) + toks && Pending(ops') == Pending(ops) + toks
    decreases |toks|
  {
    if toks == [] {
      ops' := ops;
    } else {
      var front, last := toks[..|toks| - 1], toks[|toks| - 1];
      var init := AddAll(rows, ops, front);
      Extended(rows, init, Token(last));
      AppendLast(Tokens(ops), toks);
      AppendLast(Pending(ops), toks);
      ops' := init + [Token(last)];
    }
  }

  lemma FlushNow(rows: seq<Message>, ops: seq<Op>) returns (ops': seq<Op>)
    requires Schedule(rows, ops)
    ensures Schedule(rows, ops') && EndsFlushed(ops') && Tokens(ops') == Tokens(ops) && Pending(ops') == []
    ensures forall r :: Of(r, Pending(ops)) != [] ==>
        Lookup(Outcome(rows, ops').rows, r, User) == Some(Of(r, Pending(ops))[0].userMessage)
  {
    var order := Enumeration(Outcome(rows, ops).mem.buffers.Keys);
    Extended(rows, ops, Flush(order));
    ops' := ops + [Flush(order)];
    BuffersHoldPending(rows, ops);
    forall r | Of(r, Pending(ops)) != []
      ensures Lookup(Outcome(rows, ops').rows, r, User) == Some(Of(r, Pending(ops))[0].userMessage)
    {
      FlushPrompt(Outcome(rows, ops), order, r, Pending(ops));
    }
  }

  lemma {:induction false} OfStartsAt(r: Id, t: TokenEvent, rest: seq<TokenEvent>)
    requires t.requestID == r
    ensures Of(r, [t] + rest) != [] && Of(r, [t] + rest)[0] == t
  {
    OfConcat(r, [t], rest);
    assert Of(r, [t]) == [t] by { OfSnoc(r, [], t); assert [] + [t] == [t]; }
  }

  /** Flushing just before token `k` and again at the end leaves token `k`'s prompt in the table. */
  lemma FlushBefore(rows: seq<Message>, toks: seq<TokenEvent>, k: nat) returns (ops: seq<Op>)
    requires k < |toks|
    ensures Schedule(rows, ops) && EndsFlushed(ops) && Tokens(ops) == toks
    ensures Lookup(Outcome(rows, ops).rows, toks[k].requestID, User) == Some(toks[k].userMessage)
  {
    ops := AddAll(rows, [], toks[..k]);
    ops := FlushNow(rows, ops);
    ops := AddAll(rows, ops, toks[k..]);
    assert toks[..k] + toks[k..] == toks;
    assert toks[k..] == [toks[k]] + toks[k + 1..];
    OfStartsAt(toks[k].requestID, toks[k], toks[k + 1..]);
    assert [] + toks[..k] == toks[..k] && [] + toks[k..] == toks[k..];
    assert Pending(ops) == toks[k..];
    ops := FlushNow(rows, ops);
  }

  /** The stored prompt is independent of the schedule exactly when the tokens of the request agree on it. */
  lemma PromptIndependentIff(rows: seq<Message>, toks: seq<TokenEvent>, r: Id)
    ensures PromptIndependent(rows, toks, r) <==> OnePrompt(r, toks)
  {
    if OnePrompt(r, toks) {
      OnePromptSuffices(rows, toks, r);
    } else {
      var i, j :| 0 <= i < |toks| && 0 <= j < |toks| && toks[i].requestID == r == toks[j].requestID
                  && toks[i].userMessage != toks[j].userMessage;
      var a := FlushBefore(rows, toks, i);
      var b := FlushBefore(rows, toks, j);
      assert Complete(rows, a, toks) && Complete(rows, b, toks);
      assert Lookup(Outcome(rows, a).rows, r, User) != Lookup(Outcome(rows, b).rows, r, User);
    }
  }
}
