/**
 The values that travel through the pipeline: chat requests, token events and stored messages,
 together with the text a sequence of events spells.
 */
module Types {

  type Id = string

  datatype Option<+T> = None | Some(value: T)

  datatype ChatRequest = ChatRequest(requestID: Id, sessionID: Id, content: string)

  datatype TokenEvent = TokenEvent(requestID: Id, sessionID: Id, userMessage: string, delta: string, done: bool)

  datatype Role = User | Assistant

  datatype Message = Message(sessionID: Id, requestID: Id, role: Role, content: string)

  /** The three fields the streaming half decodes from an event; the others keep their zero value. */
  function View(e: TokenEvent): TokenEvent {
    TokenEvent(e.requestID, "", "", e.delta, e.done)
  }

  function Views(es: seq<TokenEvent>): seq<TokenEvent> {
    seq(|es|, i requires 0 <= i < |es| => View(es[i]))
  }

  /** The deltas of `es` joined in order. */
  function Text(es: seq<TokenEvent>): string {
    if es == [] then "" else Text(es[..|es| - 1]) + es[|es| - 1].delta
  }

  /** The events of request `r`, in order. */
  function Of(r: Id, es: seq<TokenEvent>): seq<TokenEvent> {
    if es == [] then []
    else
      var rest := Of(r, es[..|es| - 1]);
      if es[|es| - 1].requestID == r then rest + [es[|es| - 1]] else rest
  }

  ghost predicate Prefix<T>(a: seq<T>, b: seq<T>) {
    |a| <= |b| && a == b[..|a|]
  }

  /** Done occurs at most once and last. */
  ghost predicate DoneLast(es: seq<TokenEvent>) {
    forall i :: 0 <= i < |es| && es[i].done ==> i == |es| - 1
  }

  lemma TextSnoc(a: seq<TokenEvent>, e: TokenEvent)
    ensures Text(a + [e]) == Text(a) + e.delta
  {
    assert (a + [e])[..|a|] == a;
  }

  lemma {:induction false} TextConcat(a: seq<TokenEvent>, b: seq<TokenEvent>)
    ensures Text(a + b) == Text(a) + Text(b)
  {
    if b == [] {
      assert a + b == a;
    } else {
      var b' := b[..|b| - 1];
      assert (a + b)[..|a + b| - 1] == a + b';
      TextConcat(a, b');
    }
  }

  lemma OfSnoc(r: Id, a: seq<TokenEvent>, e: TokenEvent)
    ensures Of(r, a + [e]) == if e.requestID == r then Of(r, a) + [e] else Of(r, a)
  {
    assert (a + [e])[..|a|] == a;
  }

  lemma {:induction false} OfConcat(r: Id, a: seq<TokenEvent>, b: seq<TokenEvent>)
    ensures Of(r, a + b) == Of(r, a) + Of(r, b)
  {
    if b == [] {
      assert a + b == a;
    } else {
      var b' := b[..|b| - 1];
      assert (a + b)[..|a + b| - 1] == a + b';
      OfConcat(r, a, b');
    }
  }

  lemma {:induction false} OfAll(r: Id, es: seq<TokenEvent>)
    requires forall e :: e in es ==> e.requestID == r
    ensures Of(r, es) == es
  {
    if es != [] {
      OfAll(r, es[..|es| - 1]);
    }
  }

  lemma {:induction false} OfNone(r: Id, es: seq<TokenEvent>)
    requires forall e :: e in es ==> e.requestID != r
    ensures Of(r, es) == []
  {
    if es != [] {
      OfNone(r, es[..|es| - 1]);
    }
  }

  lemma {:induction false} OfMembers(r: Id, es: seq<TokenEvent>)
    ensures forall e :: e in Of(r, es) <==> e in es && e.requestID == r
  {
    if es != [] {
      OfMembers(r, es[..|es| - 1]);
      assert es == es[..|es| - 1] + [es[|es| - 1]];
    }
  }

  /** Decoding drops no delta and no request id. */
  lemma {:induction false} ViewsKeepText(es: seq<TokenEvent>)
    ensures Text(Views(es)) == Text(es)
  {
    if es != [] {
      var init := es[..|es| - 1];
      ViewsKeepText(init);
      assert Views(es)[..|es| - 1] == Views(init);
    }
  }

  lemma PrefixText(a: seq<TokenEvent>, b: seq<TokenEvent>)
    requires Prefix(a, b)
    ensures Prefix(Text(a), Text(b))
  {
    assert b == a + b[|a|..];
    TextConcat(a, b[|a|..]);
  }
}
