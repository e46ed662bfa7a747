/** The use case that buffers tokens per request and flushes them into the store. */
module PersistSession {
  import opened Types
  import opened MessageTable
  import opened FlushBatch
  import opened MessageStore

  class PersistSessionUseCase {
    const store: MessageStoreImpl
    var buffers: map<Id, TokenBuffer>
    var count: nat

    ghost function Mem(): Memory
      reads this
    {
      Memory(buffers, count)
    }

    constructor (store: MessageStoreImpl)
      ensures this.store == store && Mem() == EMPTY
    {
      this.store := store;
      buffers, count := map[], 0;
    }

    method AddToken(token: TokenEvent)
      modifies this
      ensures Mem() == Added(old(Mem()), token)
    {
      if token.requestID !in buffers {
        buffers := buffers[token.requestID := TokenBuffer(token.sessionID, token.userMessage, "")];
      }
      var buf := buffers[token.requestID];
      buffers := buffers[token.requestID := buf.(content := buf.content + token.delta)];
      count := count + 1;
    }

    method ShouldFlush(threshold: int) returns (yes: bool)
      ensures yes <==> count >= threshold
    {
      yes := count >= threshold;
    }

    /** The locked part of a flush: copy the buffers and clear them, unless there are none. */
    method TakeSnapshot() returns (snapshot: map<Id, TokenBuffer>)
      modifies this
      ensures snapshot == old(buffers)
      ensures Mem() == if old(buffers) == map[] then old(Mem()) else EMPTY
    {
      if |buffers| == 0 {
        return map[];
      }
      snapshot := map[];
      var todo := buffers.Keys;
      while todo != {}
        invariant todo <= buffers.Keys
        invariant snapshot == map r | r in buffers && r !in todo :: buffers[r]
      {
        var id :| id in todo;
        snapshot := snapshot[id := TokenBuffer(buffers[id].sessionID, buffers[id].userMessage, buffers[id].content)];
        todo := todo - {id};
      }
      buffers := map[];
      count := 0;
    }

    /** Reads what the store already holds for the snapshot's requests. */
    method ReadExisting(snapshot: map<Id, TokenBuffer>, fault: bool) returns (err: bool, existing: map<Id, string>)
      requires store.Valid()
      ensures err <==> fault && snapshot != map[]
      ensures !err ==> existing == ReadContents(store.rows, snapshot.Keys)
    {
      var requestIDs: seq<Id> := [];
      var todo := snapshot.Keys;
      while todo != {}
        invariant todo <= snapshot.Keys
        invariant forall r :: r in requestIDs <==> r in snapshot && r !in todo
      {
        var id :| id in todo;
        requestIDs := requestIDs + [id];
        todo := todo - {id};
      }
      assert (set r | r in requestIDs) == snapshot.Keys;
      assert snapshot != map[] ==> requestIDs != [] by {
        if snapshot != map[] { var r :| r in snapshot; assert r in requestIDs; }
      }
      assert requestIDs != [] ==> requestIDs[0] in snapshot;
      err, existing := store.GetContentByRequestIDs(requestIDs, fault);
    }

    /** Merges a snapshot with what was read: two messages per request, in some order of the requests. */
    method BuildBatch(snapshot: map<Id, TokenBuffer>, existing: map<Id, string>)
        returns (msgs: seq<Message>, ghost order: seq<Id>)
      ensures Enumerates(order, snapshot.Keys) && msgs == Batch(order, snapshot, existing)
      ensures UniqueKeys(msgs) && |msgs| == 2 * |order|
    {
      msgs, order := [], [];
      var todo := snapshot.Keys;
      while todo != {}
        invariant todo <= snapshot.Keys
        invariant Enumerates(order, snapshot.Keys - todo)
        invariant msgs == Batch(order, snapshot, existing)
      {
        var id :| id in todo;
        var buf := snapshot[id];
        var stored := if id in existing then existing[id] else "";
        BatchSnoc(order, id, snapshot, existing);
        msgs := msgs + [Message(buf.sessionID, id, User, buf.userMessage),
                        Message(buf.sessionID, id, Assistant, stored + buf.content)];
        order := order + [id];
        todo := todo - {id};
      }
      BatchHasDistinctKeys(order, snapshot, existing);
    }

    /**
     A flush nobody interferes with. On success each request's stored text has grown by exactly its
     buffered text; on failure the table is as before, but the buffers are gone all the same.
     */
    method Flush(readFault: bool, writeFault: Fault) returns (err: bool)
      requires store.Valid()
      modifies this, store
      ensures store.Valid()
      ensures err <==> old(buffers) != map[] && (readFault || writeFault != NoFault)
      ensures Mem() == if old(buffers) == map[] then old(Mem()) else EMPTY
      ensures err ==> store.rows == old(store.rows)
      ensures !err ==> forall r ::
                Stored(store.rows, r) == old(Stored(store.rows, r)) + BufferedText(old(buffers), r)
      ensures !err ==> forall r :: r in old(buffers) ==>
                Lookup(store.rows, r, User) == Some(old(buffers)[r].userMessage)
      ensures old(Paired(store.rows)) ==> Paired(store.rows)
    {
      var snapshot := TakeSnapshot();
      if snapshot == map[] {
        return false;
      }
      var existing;
      err, existing := ReadExisting(snapshot, readFault);
      if err {
        return true;
      }
      ghost var rows := store.rows;
      var msgs, order := BuildBatch(snapshot, existing);
      assert |order| > 0 by { var r :| r in snapshot; assert r in order; }
      err := store.BulkUpsertMessages(msgs, writeFault);
      if !err {
        forall r ensures Stored(store.rows, r) == Stored(rows, r) + BufferedText(snapshot, r) {
          FlushAppends(rows, order, snapshot, existing, r);
        }
        forall r | r in snapshot ensures Lookup(store.rows, r, User) == Some(snapshot[r].userMessage) {
          LookupBatch(rows, order, snapshot, existing, r, User);
        }
        if Paired(rows) { BatchKeepsPairs(rows, order, snapshot, existing); }
      }
    }
  }
}
