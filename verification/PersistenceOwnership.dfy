/** Whose text the worker carries and writes: every token, buffer and row belongs to its own request. */
module PersistenceOwnership {
  import opened Types
  import opened MessageTable
  import opened FlushBatch
  import opened PersistenceMachine
  import opened PersistenceInvariant

  ghost predicate OwnToken(e: TokenEvent, requests: map<Id, ChatRequest>) {
    && e.requestID in requests
    && e.sessionID == requests[e.requestID].sessionID
    && e.userMessage == requests[e.requestID].content
  }

  ghost predicate OwnLogs(s: State, requests: map<Id, ChatRequest>) {
    forall p, e :: 0 <= p < |s.d.logs| && e in s.d.logs[p] ==> OwnToken(e, requests)
  }

  ghost predicate OwnStamps(ss: seq<Stamp>, requests: map<Id, ChatRequest>) {
    forall x :: x in ss ==> OwnToken(x.tok, requests)
  }

  /** Everything the worker holds quotes the request it belongs to. */
  ghost predicate Own(s: State, requests: map<Id, ChatRequest>) {
    && OwnStamps(s.h.held, requests)
    && (forall f :: f in s.w.flights ==> OwnStamps(s.w.flights[f].src, requests))
    && (Handing(s) ==> OwnToken(s.w.loop.st.tok, requests))
  }

  lemma OwnInitially(s: State, requests: map<Id, ChatRequest>)
    requires Init(s)
    ensures Own(s, requests) && forall x :: x !in Kept(s.h.ended)
  {
  }

  lemma OwnFrame(s: State, s': State, requests: map<Id, ChatRequest>)
    requires Own(s, requests)
    requires s'.w.loop == s.w.loop || !Handing(s') || OwnToken(s'.w.loop.st.tok, requests)
    requires s'.h.held == s.h.held || s'.h.held == [] || (Handing(s) && s'.h.held == s.h.held + [s.w.loop.st])
    requires forall f :: f in s'.w.flights ==>
               s'.w.flights[f].src == [] || s'.w.flights[f].src == s.h.held ||
                   (f in s.w.flights && s'.w.flights[f].src == s.w.flights[f].src)
    ensures Own(s', requests)
  {
  }

  lemma OwnFetch(s: State, p: nat, requests: map<Id, ChatRequest>)
    requires Own(s, requests) && OwnLogs(s, requests) && Enabled(s, Fetch(p))
    ensures Own(Apply(s, Fetch(p)), requests)
  {
    assert s.d.logs[p][s.w.fetched[p]] in s.d.logs[p];
    OwnFrame(s, Apply(s, Fetch(p)), requests);
  }

  lemma OwnSnapshot(s: State, f: nat, requests: map<Id, ChatRequest>)
    requires Own(s, requests) && Enabled(s, Snapshot(f))
    ensures Own(Apply(s, Snapshot(f)), requests)
  {
    OwnFrame(s, Apply(s, Snapshot(f)), requests);
  }

  lemma OwnOneFlight(s: State, s': State, f: nat, requests: map<Id, ChatRequest>)
    requires Own(s, requests) && s'.h.held == s.h.held
    requires s'.w.loop == s.w.loop || !Handing(s')
    requires forall g :: g in s'.w.flights && g != f ==> g in s.w.flights && s'.w.flights[g] == s.w.flights[g]
    requires f in s'.w.flights ==>
        s'.w.flights[f].src == [] || (f in s.w.flights && s'.w.flights[f].src == s.w.flights[f].src)
    ensures Own(s', requests)
  {
  }

  lemma OwnKept(s: State, step: Step, requests: map<Id, ChatRequest>)
    requires Own(s, requests) && OwnLogs(s, requests) && Enabled(s, step)
    ensures Own(Apply(s, step), requests)
  {
    var s' := Apply(s, step);
    match step
    case Fetch(p) => OwnFetch(s, p, requests);
    case Commit(ok) => OwnFrame(s, s', requests);
    case AddToken => OwnFrame(s, s', requests);
    case Snapshot(f) => OwnSnapshot(s, f, requests);
    case Read(f, ok) => OwnOneFlight(s, s', f, requests);
    case Upsert(f, order, ok) => OwnOneFlight(s, s', f, requests);
    case Trigger(f) => OwnOneFlight(s, s', f, requests);
    case Tick(f) => OwnOneFlight(s, s', f, requests);
    case Stop(f) => OwnOneFlight(s, s', f, requests);
    case Release(f) => OwnOneFlight(s, s', f, requests);
    case CrashRestart =>
    case _ => OwnOneFlight(s, s', 0, requests);
  }

  /** A snapshot in flight quotes the requests it carries. */
  lemma SnapshotQuotes(s: State, f: nat, requests: map<Id, ChatRequest>)
    requires Buffered(s) && Own(s, requests) && f in s.w.flights && CarriesSnapshot(s.w.flights[f])
    ensures OwnBuffers(s.w.flights[f].snap, requests)
  {
    assert OwnStamps(s.w.flights[f].src, requests);
    CollectOwnBuffers(Toks(s.w.flights[f].src), requests);
  }

  lemma OwnRowsKept(s: State, step: Step, requests: map<Id, ChatRequest>)
    requires Buffered(s) && Own(s, requests) && OwnRows(s.d.rows, requests, s.k.base) && Enabled(s, step)
    ensures OwnRows(Apply(s, step).d.rows, requests, s.k.base)
  {
    if step.Upsert? && step.ok {
      var fl := s.w.flights[step.f];
      SnapshotQuotes(s, step.f, requests);
      BatchKeepsOwnRows(s.d.rows, step.order, fl.snap, fl.existing, requests, s.k.base);
    }
  }

  /** Once a token of a request is in the table, so is the request's user row with its prompt. */
  ghost predicate Quoted(s: State, requests: map<Id, ChatRequest>) {
    forall x :: x in Kept(s.h.ended) ==> Quotes(s.d.rows, x.tok.requestID, requests)
  }

  ghost predicate Quotes(rows: seq<Message>, r: Id, requests: map<Id, ChatRequest>) {
    r in requests && Lookup(rows, r, User) == Some(requests[r].content)
  }

  lemma QuotedFrame(s: State, s': State, requests: map<Id, ChatRequest>)
    requires Quoted(s, requests) && s'.d.rows == s.d.rows && Kept(s'.h.ended) == Kept(s.h.ended)
    ensures Quoted(s', requests)
  {
  }

  /** An upsert writes the prompts of the requests it carries and no other. */
  lemma BatchQuotes(rows: seq<Message>, order: seq<Id>, snap: map<Id, TokenBuffer>, existing: map<Id, string>,
                    requests: map<Id, ChatRequest>, r: Id)
    requires Enumerates(order, snap.Keys) && OwnBuffers(snap, requests)
    requires r in snap || Quotes(rows, r, requests)
    ensures Quotes(UpsertRows(rows, Batch(order, snap, existing)), r, requests)
  {
    LookupBatch(rows, order, snap, existing, r, User);
  }

  lemma CarriedIsBuffered(src: seq<Stamp>, x: Stamp)
    requires x in src
    ensures x.tok.requestID in Collect(Toks(src)).buffers
  {
    var i :| 0 <= i < |src| && src[i] == x;
    assert Toks(src)[i] == x.tok;
    assert x.tok in Toks(src);
    OfMembers(x.tok.requestID, Toks(src));
    CollectHolds(Toks(src), x.tok.requestID);
    assert x.tok in Of(x.tok.requestID, Toks(src));
  }

  lemma QuotedUpsert(s: State, f: nat, order: seq<Id>, requests: map<Id, ChatRequest>)
    requires Buffered(s) && Own(s, requests) && Quoted(s, requests) && Enabled(s, Upsert(f, order, true))
    ensures Quoted(Apply(s, Upsert(f, order, true)), requests)
  {
    var s' := Apply(s, Upsert(f, order, true));
    var fl := s.w.flights[f];
    SnapshotQuotes(s, f, requests);
    EndedSnoc(s.h.ended, Ended(fl.src, true));
    forall x | x in Kept(s'.h.ended) ensures Quotes(s'.d.rows, x.tok.requestID, requests) {
      if x in fl.src {
        CarriedIsBuffered(fl.src, x);
      } else {
        assert x in Kept(s.h.ended);
      }
      BatchQuotes(s.d.rows, order, fl.snap, fl.existing, requests, x.tok.requestID);
    }
  }

  lemma QuotedKept(s: State, step: Step, requests: map<Id, ChatRequest>)
    requires Buffered(s) && Own(s, requests) && Quoted(s, requests) && Enabled(s, step)
    ensures Quoted(Apply(s, step), requests)
  {
    var s' := Apply(s, step);
    match step
    case Upsert(f, order, ok) =>
      if ok {
        QuotedUpsert(s, f, order, requests);
      } else {
        EndedSnoc(s.h.ended, Ended(s.w.flights[f].src, false));
        QuotedFrame(s, s', requests);
      }
    case Read(f, ok) =>
      EndedSnoc(s.h.ended, Ended(s.w.flights[f].src, false));
      QuotedFrame(s, s', requests);
    case CrashRestart =>
      DiscardedEnds(s);
      QuotedFrame(s, s', requests);
    case _ => QuotedFrame(s, s', requests);
  }
}
