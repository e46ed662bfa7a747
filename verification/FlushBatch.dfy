/**
 What the persistence use case keeps in memory between flushes and the batch of messages a
 flush writes, as functions on values.
 */
module FlushBatch {
  import opened Types
  import opened MessageTable

  datatype TokenBuffer = TokenBuffer(sessionID: Id, userMessage: string, content: string)

  datatype Memory = Memory(buffers: map<Id, TokenBuffer>, count: nat)

  const EMPTY := Memory(map[], 0)

  /** The memory after one token: the first token of a request fixes its session and prompt. */
  function Added(m: Memory, t: TokenEvent): Memory {
    var buf := if t.requestID in m.buffers then m.buffers[t.requestID]
               else TokenBuffer(t.sessionID, t.userMessage, "");
    Memory(m.buffers[t.requestID := buf.(content := buf.content + t.delta)], m.count + 1)
  }

  /** The memory after all of `es`, starting empty. */
  function Collect(es: seq<TokenEvent>): Memory {
    if es == [] then EMPTY else Added(Collect(es[..|es| - 1]), es[|es| - 1])
  }

  lemma CollectSnoc(es: seq<TokenEvent>, e: TokenEvent)
    ensures Collect(es + [e]) == Added(Collect(es), e)
  {
    assert (es + [e])[..|es|] == es;
  }

  /** What the buffers hold: every token once, each request's deltas in order, nothing else. */
  lemma {:induction false} CollectHolds(es: seq<TokenEvent>, r: Id)
    ensures Collect(es).count == |es|
    ensures r in Collect(es).buffers <==> Of(r, es) != []
    ensures r in Collect(es).buffers ==>
              var first := Of(r, es)[0];
              Collect(es).buffers[r] == TokenBuffer(first.sessionID, first.userMessage, Text(Of(r, es)))
  {
    if es != [] {
      var init, e := es[..|es| - 1], es[|es| - 1];
      CollectHolds(init, r);
      TextSnoc(Of(r, init), e);
    }
  }

  lemma NothingCollected(es: seq<TokenEvent>)
    ensures es == [] <==> Collect(es).buffers == map[]
  {
    if es != [] {
      assert es[|es| - 1].requestID in Collect(es).buffers;
    }
  }

  function BufferedText(buffers: map<Id, TokenBuffer>, r: Id): string {
    if r in buffers then buffers[r].content else ""
  }

  lemma BufferedTextOf(es: seq<TokenEvent>, r: Id)
    ensures BufferedText(Collect(es).buffers, r) == Text(Of(r, es))
  {
    CollectHolds(es, r);
  }

  // ---------------------------------------------------------------- the batch

  /** `order` lists every element of `ids` exactly once: one way to range over a map's keys. */
  ghost predicate Enumerates(order: seq<Id>, ids: set<Id>) {
    && (forall i, j :: 0 <= i < j < |order| ==> order[i] != order[j])
    && (forall r :: r in order <==> r in ids)
  }

  lemma {:induction false} Enumeration(ids: set<Id>) returns (order: seq<Id>)
    ensures Enumerates(order, ids)
    decreases |ids|
  {
    if ids == {} {
      order := [];
    } else {
      var r :| r in ids;
      var rest := Enumeration(ids - {r});
      order := rest + [r];
    }
  }

  /** The assistant contents the database returns for `ids`: absent rows give no entry. */
  function ReadContents(rows: seq<Message>, ids: set<Id>): map<Id, string> {
    map r | r in ids && Lookup(rows, r, Assistant).Some? :: Lookup(rows, r, Assistant).value
  }

  function Entry(existing: map<Id, string>, r: Id): string {
    if r in existing then existing[r] else ""
  }

  function UserMessage(r: Id, buf: TokenBuffer): Message {
    Message(buf.sessionID, r, User, buf.userMessage)
  }

  function AssistantMessage(r: Id, buf: TokenBuffer, existing: map<Id, string>): Message {
    Message(buf.sessionID, r, Assistant, Entry(existing, r) + buf.content)
  }

  function Batch(order: seq<Id>, snap: map<Id, TokenBuffer>, existing: map<Id, string>): seq<Message>
    requires forall r :: r in order ==> r in snap
  {
    if order == [] then []
    else
      var r := order[|order| - 1];
      Batch(order[..|order| - 1], snap, existing) + [UserMessage(r, snap[r]), AssistantMessage(r, snap[r], existing)]
  }

  lemma BatchSnoc(order: seq<Id>, r: Id, snap: map<Id, TokenBuffer>, existing: map<Id, string>)
    requires r in snap && forall x :: x in order ==> x in snap
    ensures forall x :: x in order + [r] ==> x in snap
    ensures Batch(order + [r], snap, existing)
         == Batch(order, snap, existing) + [UserMessage(r, snap[r]), AssistantMessage(r, snap[r], existing)]
  {
    assert (order + [r])[..|order|] == order;
  }

  lemma {:induction false} BatchMembers(order: seq<Id>, snap: map<Id, TokenBuffer>, existing: map<Id, string>)
    requires forall r :: r in order ==> r in snap
    ensures forall m :: m in Batch(order, snap, existing) <==>
              m.requestID in order &&
              (m == UserMessage(m.requestID, snap[m.requestID]) ||
                  m == AssistantMessage(m.requestID, snap[m.requestID], existing))
  {
    if order != [] {
      var init, r := order[..|order| - 1], order[|order| - 1];
      BatchMembers(init, snap, existing);
      assert order == init + [r];
    }
  }

  lemma UniqueKeysWithPair(ms: seq<Message>, u: Message, a: Message)
    requires UniqueKeys(ms) && u.role == User && a.role == Assistant && u.requestID == a.requestID
    requires forall m :: m in ms ==> m.requestID != u.requestID
    ensures UniqueKeys(ms + [u, a])
  {
    forall i, j | 0 <= i < j < |ms| + 2 ensures !SameKey((ms + [u, a])[i], (ms + [u, a])[j]) {
      if i < |ms| { assert ms[i] in ms; }
    }
  }

  /** A batch carries exactly two messages for each buffered request and never repeats a key. */
  lemma {:induction false} BatchHasDistinctKeys(order: seq<Id>, snap: map<Id, TokenBuffer>, existing: map<Id, string>)
    requires forall r :: r in order ==> r in snap
    requires forall i, j :: 0 <= i < j < |order| ==> order[i] != order[j]
    ensures |Batch(order, snap, existing)| == 2 * |order|
    ensures UniqueKeys(Batch(order, snap, existing))
    ensures forall m :: m in Batch(order, snap, existing) <==>
              m.requestID in order &&
              (m == UserMessage(m.requestID, snap[m.requestID]) ||
                  m == AssistantMessage(m.requestID, snap[m.requestID], existing))
  {
    BatchMembers(order, snap, existing);
    if order != [] {
      var init, r := order[..|order| - 1], order[|order| - 1];
      BatchHasDistinctKeys(init, snap, existing);
      assert r !in init;
      UniqueKeysWithPair(Batch(init, snap, existing), UserMessage(r, snap[r]), AssistantMessage(r, snap[r], existing));
    }
  }

  lemma LookupPair(rows: seq<Message>, x: Id, buf: TokenBuffer, existing: map<Id, string>, r: Id, role: Role)
    ensures Lookup(UpsertRow(UpsertRow(rows, UserMessage(x, buf)), AssistantMessage(x, buf, existing)), r, role) ==
            if r == x then Some(if role == User then buf.userMessage else Entry(existing, r) + buf.content)
            else Lookup(rows, r, role)
  {
    LookupUpsertRow(rows, UserMessage(x, buf), r, role);
    LookupUpsertRow(UpsertRow(rows, UserMessage(x, buf)), AssistantMessage(x, buf, existing), r, role);
  }

  /** Upserting a batch writes exactly the batch's keys. */
  lemma {:induction false} LookupBatch(rows: seq<Message>, order: seq<Id>, snap: map<Id, TokenBuffer>, existing: map<Id,
      string>, r: Id, role: Role)
    requires forall x :: x in order ==> x in snap
    ensures Lookup(UpsertRows(rows, Batch(order, snap, existing)), r, role) ==
            if r in order then
              Some(if role == User then snap[r].userMessage else Entry(existing, r) + snap[r].content)
            else Lookup(rows, r, role)
  {
    if order != [] {
      var init, x := order[..|order| - 1], order[|order| - 1];
      assert order == init + [x];
      assert r in order <==> r in init || r == x;
      LookupBatch(rows, init, snap, existing, r, role);
      var batch := Batch(init, snap, existing);
      BatchSnoc(init, x, snap, existing);
      UpsertRowsSnoc2(rows, batch, UserMessage(x, snap[x]), AssistantMessage(x, snap[x], existing));
      LookupPair(UpsertRows(rows, batch), x, snap[x], existing, r, role);
    }
  }

  /** Go ranges over a map in any order; the contents written do not depend on it. */
  lemma EnumerationDoesNotMatter(rows: seq<Message>, o1: seq<Id>, o2: seq<Id>, snap: map<Id, TokenBuffer>,
      existing: map<Id, string>, r: Id, role: Role)
    requires Enumerates(o1, snap.Keys) && Enumerates(o2, snap.Keys)
    ensures Lookup(UpsertRows(rows, Batch(o1, snap, existing)), r, role)
         == Lookup(UpsertRows(rows, Batch(o2, snap, existing)), r, role)
  {
    LookupBatch(rows, o1, snap, existing, r, role);
    LookupBatch(rows, o2, snap, existing, r, role);
  }

  /** When the table still holds what the flush read, its upsert appends the snapshot's text. */
  lemma FlushAppends(rows: seq<Message>, order: seq<Id>, snap: map<Id, TokenBuffer>, existing: map<Id, string>, r: Id)
    requires Enumerates(order, snap.Keys)
    requires forall x :: x in snap ==> Entry(existing, x) == Stored(rows, x)
    ensures Stored(UpsertRows(rows, Batch(order, snap, existing)), r) == Stored(rows, r) + BufferedText(snap, r)
  {
    LookupBatch(rows, order, snap, existing, r, Assistant);
  }

  lemma CancelSuffix(a: string, b: string, c: string)
    ensures a + c == b + c <==> a == b
  {
    if a + c == b + c {
      assert |a| == |b|;
      assert (a + c)[..|a|] == a && (b + c)[..|b|] == b;
    }
  }

  /** What the flush read is what the table holds. */
  ghost predicate Current(rows: seq<Message>, snap: map<Id, TokenBuffer>, existing: map<Id, string>) {
    forall r :: r in snap ==> Entry(existing, r) == Stored(rows, r)
  }

  /** The upsert appends the snapshot's text for every request if and only if what the flush read is still current. */
  lemma AppendsIffCurrent(rows: seq<Message>, order: seq<Id>, snap: map<Id, TokenBuffer>, existing: map<Id, string>)
    requires Enumerates(order, snap.Keys)
    ensures (forall r ::
              Stored(UpsertRows(rows, Batch(order, snap, existing)), r) == Stored(rows, r) + BufferedText(snap, r))
            <==> Current(rows, snap, existing)
  {
    var after := UpsertRows(rows, Batch(order, snap, existing));
    if Current(rows, snap, existing) {
      forall r ensures Stored(after, r) == Stored(rows, r) + BufferedText(snap, r) {
        FlushAppends(rows, order, snap, existing, r);
      }
    } else {
      var r :| r in snap && Entry(existing, r) != Stored(rows, r);
      LookupBatch(rows, order, snap, existing, r, Assistant);
      CancelSuffix(Entry(existing, r), Stored(rows, r), snap[r].content);
      assert Stored(after, r) != Stored(rows, r) + BufferedText(snap, r);
    }
  }

  /** The text of request `r` splits where the sequence of events does. */
  lemma SpelledConcat(r: Id, a: seq<TokenEvent>, b: seq<TokenEvent>)
    ensures Text(Of(r, a + b)) == Text(Of(r, a)) + Text(Of(r, b))
  {
    OfConcat(r, a, b);
    TextConcat(Of(r, a), Of(r, b));
  }

  lemma Associate(a: string, b: string, c: string)
    ensures (a + b) + c == a + (b + c)
  {
  }

  /** Flushing the buffers of `src` leaves what was read and then the text of `src`, or the row as it was. */
  lemma FlushWrites(rows: seq<Message>, order: seq<Id>, snap: map<Id, TokenBuffer>, existing: map<Id, string>, r: Id,
                    src: seq<TokenEvent>)
    requires Enumerates(order, snap.Keys) && snap == Collect(src).buffers
    ensures Stored(UpsertRows(rows, Batch(order, snap, existing)), r) ==
            if r in snap then Entry(existing, r) + Text(Of(r, src)) else Stored(rows, r)
  {
    LookupBatch(rows, order, snap, existing, r, Assistant);
    BufferedTextOf(src, r);
  }

  /** If the table spells `initial` and then `kept`, flushing the buffers of `src` makes it spell `src` as well. */
  lemma FlushSpells(rows: seq<Message>, order: seq<Id>, snap: map<Id, TokenBuffer>, existing: map<Id, string>,
                    r: Id, initial: string, kept: seq<TokenEvent>, src: seq<TokenEvent>)
    requires Enumerates(order, snap.Keys) && snap == Collect(src).buffers
    requires forall x :: x in snap ==> Entry(existing, x) == Stored(rows, x)
    requires Stored(rows, r) == initial + Text(Of(r, kept))
    ensures Stored(UpsertRows(rows, Batch(order, snap, existing)), r) == initial + Text(Of(r, kept + src))
  {
    FlushAppends(rows, order, snap, existing, r);
    BufferedTextOf(src, r);
    SpelledConcat(r, kept, src);
    Associate(initial, Text(Of(r, kept)), Text(Of(r, src)));
  }

  /** A flush keeps the table in question and answer pairs. */
  lemma {:induction false} BatchKeepsPairs(rows: seq<Message>, order: seq<Id>, snap: map<Id, TokenBuffer>,
      existing: map<Id, string>)
    requires Paired(rows) && forall x :: x in order ==> x in snap
    ensures Paired(UpsertRows(rows, Batch(order, snap, existing)))
  {
    if order != [] {
      var init, x := order[..|order| - 1], order[|order| - 1];
      BatchKeepsPairs(rows, init, snap, existing);
      var u, a := UserMessage(x, snap[x]), AssistantMessage(x, snap[x], existing);
      UpsertRowsSnoc2(rows, Batch(init, snap, existing), u, a);
      UpsertPairKeepsPairs(UpsertRows(rows, Batch(init, snap, existing)), u, a);
    }
  }

  /**
   A row of one of `requests` names the request's session, and a user row quotes its prompt; any other row is
   in `base`.
   */
  ghost predicate OwnRow(m: Message, requests: map<Id, ChatRequest>, base: seq<Message>) {
    if m.requestID in requests then
      m.sessionID == requests[m.requestID].sessionID && (m.role == User ==> m.content == requests[m.requestID].content)
    else
      m in base
  }

  ghost predicate OwnRows(rows: seq<Message>, requests: map<Id, ChatRequest>, base: seq<Message>) {
    forall m :: m in rows ==> OwnRow(m, requests, base)
  }

  ghost predicate OwnBuffers(snap: map<Id, TokenBuffer>, requests: map<Id, ChatRequest>) {
    forall r :: r in snap ==>
      r in requests && snap[r].sessionID == requests[r].sessionID && snap[r].userMessage == requests[r].content
  }

  lemma UpsertOwnRow(rows: seq<Message>, m: Message, requests: map<Id, ChatRequest>, base: seq<Message>)
    requires OwnRows(rows, requests, base) && m.requestID in requests && OwnRow(m, requests, base)
    ensures OwnRows(UpsertRow(rows, m), requests, base)
  {
    forall x | x in UpsertRow(rows, m) ensures OwnRow(x, requests, base) {
      UpsertRowMembers(rows, m, x);
    }
  }

  lemma {:induction false} BatchKeepsOwnRows(
      rows: seq<Message>, order: seq<Id>, snap: map<Id, TokenBuffer>, existing: map<Id, string>,
      requests: map<Id, ChatRequest>, base: seq<Message>)
    requires OwnRows(rows, requests, base) && OwnBuffers(snap, requests)
    requires forall x :: x in order ==> x in snap
    ensures OwnRows(UpsertRows(rows, Batch(order, snap, existing)), requests, base)
  {
    if order != [] {
      var init, x := order[..|order| - 1], order[|order| - 1];
      BatchKeepsOwnRows(rows, init, snap, existing, requests, base);
      var u, a := UserMessage(x, snap[x]), AssistantMessage(x, snap[x], existing);
      UpsertRowsSnoc2(rows, Batch(init, snap, existing), u, a);
      var before := UpsertRows(rows, Batch(init, snap, existing));
      UpsertOwnRow(before, u, requests, base);
      UpsertOwnRow(UpsertRow(before, u), a, requests, base);
    }
  }

  lemma {:induction false} CollectOwnBuffers(es: seq<TokenEvent>, requests: map<Id, ChatRequest>)
    requires forall e :: e in es ==>
               e.requestID in requests && e.sessionID == requests[e.requestID].sessionID &&
                   e.userMessage == requests[e.requestID].content
    ensures OwnBuffers(Collect(es).buffers, requests)
  {
    if es != [] {
      CollectOwnBuffers(es[..|es| - 1], requests);
    }
  }
}
