/** The message store: two tables, written and read one statement at a time. */
module MessageStore {
  import opened Types
  import opened MessageTable
  import opened FlushBatch

  /** Which database statement of an upsert fails, if any. */
  datatype Fault = NoFault | SessionsFault | RowsFault

  lemma {:induction false} UpsertRowKeepsKeys(rows: seq<Message>, m: Message)
    requires UniqueKeys(rows)
    ensures UniqueKeys(UpsertRow(rows, m))
    ensures forall x :: x in UpsertRow(rows, m) ==> SameKey(x, m) || x in rows
  {
    if rows != [] && !SameKey(rows[0], m) {
      var rest := UpsertRow(rows[1..], m);
      UpsertRowKeepsKeys(rows[1..], m);
      forall i, j | 0 <= i < j < |rest| + 1 ensures !SameKey(UpsertRow(rows, m)[i], UpsertRow(rows, m)[j]) {
        if i == 0 { assert rest[j - 1] in rest; } else { assert !SameKey(rest[i - 1], rest[j - 1]); }
      }
    } else if rows != [] {
      forall i, j | 0 <= i < j < |rows| ensures !SameKey(UpsertRow(rows, m)[i], UpsertRow(rows, m)[j]) {
        assert !SameKey(rows[i], rows[j]);
      }
    }
  }

  lemma {:induction false} UpsertRowsKeepKeys(rows: seq<Message>, ms: seq<Message>)
    requires UniqueKeys(rows)
    ensures UniqueKeys(UpsertRows(rows, ms))
  {
    if ms != [] {
      UpsertRowsKeepKeys(rows, ms[..|ms| - 1]);
      UpsertRowKeepsKeys(UpsertRows(rows, ms[..|ms| - 1]), ms[|ms| - 1]);
    }
  }

  ghost predicate SessionsKnown(rows: seq<Message>, sessions: set<Id>) {
    forall m :: m in rows ==> m.sessionID in sessions
  }

  lemma {:induction false} UpsertRowsKnown(rows: seq<Message>, ms: seq<Message>, sessions: set<Id>)
    requires SessionsKnown(rows, sessions) && SessionsKnown(ms, sessions)
    ensures SessionsKnown(UpsertRows(rows, ms), sessions)
  {
    if ms != [] {
      var before := UpsertRows(rows, ms[..|ms| - 1]);
      UpsertRowsKnown(rows, ms[..|ms| - 1], sessions);
      forall x | x in UpsertRow(before, ms[|ms| - 1]) ensures x.sessionID in sessions {
        UpsertRowMembers(before, ms[|ms| - 1], x);
      }
    }
  }

  /** The assistant rows of the given requests. */
  function SelectAssistant(rows: seq<Message>, ids: set<Id>): seq<Message> {
    if rows == [] then []
    else if rows[0].requestID in ids && rows[0].role == Assistant then [rows[0]] + SelectAssistant(rows[1..], ids)
    else SelectAssistant(rows[1..], ids)
  }

  lemma {:induction false} SelectedIsLookedUp(rows: seq<Message>, ids: set<Id>)
    requires UniqueKeys(rows)
    ensures forall m :: m in SelectAssistant(rows, ids) ==>
              m in rows && m.requestID in ids && Lookup(rows, m.requestID, Assistant) == Some(m.content)
    ensures forall r :: r in ids && Lookup(rows, r, Assistant).Some? ==>
              exists m :: m in SelectAssistant(rows, ids) && m.requestID == r
    ensures forall i, j :: 0 <= i < j < |SelectAssistant(rows, ids)| ==>
              SelectAssistant(rows, ids)[i].requestID != SelectAssistant(rows, ids)[j].requestID
  {
    if rows != [] {
      var rest := SelectAssistant(rows[1..], ids);
      SelectedIsLookedUp(rows[1..], ids);
      forall m | m in rest ensures !SameKey(rows[0], m) || m.role != Assistant {
        var k :| 0 <= k < |rows[1..]| && rows[1..][k] == m;
        assert !SameKey(rows[0], rows[k + 1]);
      }
      SelectedAreAssistants(rows[1..], ids);
      forall r | r in ids && Lookup(rows, r, Assistant).Some?
        ensures exists m :: m in SelectAssistant(rows, ids) && m.requestID == r
      {
        if rows[0].requestID == r && rows[0].role == Assistant {
          assert rows[0] in SelectAssistant(rows, ids);
        } else {
          var m :| m in rest && m.requestID == r;
          assert m in SelectAssistant(rows, ids);
        }
      }
    }
  }

  lemma {:induction false} SelectedAreAssistants(rows: seq<Message>, ids: set<Id>)
    ensures forall m :: m in SelectAssistant(rows, ids) ==> m.role == Assistant
  {
    if rows != [] { SelectedAreAssistants(rows[1..], ids); }
  }

  class MessageStoreImpl {
    var rows: seq<Message>
    var sessions: set<Id>

    ghost predicate Valid()
      reads this
    {
      UniqueKeys(rows) && SessionsKnown(rows, sessions)
    }

    constructor ()
      ensures Valid() && rows == [] && sessions == {}
    {
      rows, sessions := [], {};
    }

    /**
     Inserts the sessions the batch names, then upserts its rows. A batch that repeats a
     (request, role) key is refused by the database.
     */
    method BulkUpsertMessages(msgs: seq<Message>, fault: Fault) returns (err: bool)
      requires Valid()
      modifies this
      ensures Valid()
      ensures err <==> msgs != [] && (fault != NoFault || !UniqueKeys(msgs))
      ensures rows == if err then old(rows) else UpsertRows(old(rows), msgs)
      ensures KeepsPlaces(old(rows), rows)
      ensures sessions == if msgs == [] || fault == SessionsFault then old(sessions)
                          else old(sessions) + set m | m in msgs :: m.sessionID
    {
      if |msgs| == 0 {
        return false;
      }
      var seen: set<Id> := {};
      for i := 0 to |msgs|
        invariant seen == set m | m in msgs[..i] :: m.sessionID
      {
        assert msgs[..i + 1] == msgs[..i] + [msgs[i]];
        seen := seen + {msgs[i].sessionID};
      }
      assert msgs[..|msgs|] == msgs;
      if fault == SessionsFault {
        return true;
      }
      sessions := sessions + seen;
      var batch: seq<Message> := [];
      for i := 0 to |msgs|
        invariant batch == msgs[..i]
      {
        batch := batch + [Message(msgs[i].sessionID, msgs[i].requestID, msgs[i].role, msgs[i].content)];
      }
      if fault == RowsFault || !UniqueKeys(batch) {
        return true;
      }
      UpsertRowsKeepKeys(rows, batch);
      UpsertRowsKnown(rows, batch, sessions);
      UpsertRowsKeepPlaces(rows, batch);
      rows := UpsertRows(rows, batch);
      return false;
    }

    /** The stored assistant contents of the given requests; a request without a row has no entry. */
    method GetContentByRequestIDs(requestIDs: seq<Id>, fault: bool) returns (err: bool, result: map<Id, string>)
      requires Valid()
      ensures err <==> fault && requestIDs != []
      ensures !err ==> result == ReadContents(rows, set r | r in requestIDs)
      ensures err ==> result == map[]
    {
      if |requestIDs| == 0 {
        return false, map[];
      }
      if fault {
        return true, map[];
      }
      var ids := set r | r in requestIDs;
      var selected := SelectAssistant(rows, ids);
      SelectedIsLookedUp(rows, ids);
      result := map[];
      for i := 0 to |selected|
        invariant result.Keys == set m | m in selected[..i] :: m.requestID
        invariant forall r :: r in result ==> Lookup(rows, r, Assistant) == Some(result[r])
      {
        assert selected[i] in selected && selected[..i + 1] == selected[..i] + [selected[i]];
        result := result[selected[i].requestID := selected[i].content];
      }
      assert selected[..|selected|] == selected;
      forall r ensures r in result <==> r in ids && Lookup(rows, r, Assistant).Some? {
        if r in ids && Lookup(rows, r, Assistant).Some? {
          var m :| m in selected && m.requestID == r;
        }
      }
      err := false;
    }

    /** The messages of one session in id order: `ix` are their positions in the table. */
    method GetHistory(sessionID: Id, fault: bool) returns (err: bool, messages: seq<Message>, ghost ix: seq<nat>)
      ensures err == fault
      ensures messages == if fault then [] else OfSession(rows, sessionID)
      ensures !err ==> |ix| == |messages|
      ensures !err ==> forall k :: 0 <= k < |ix| ==> ix[k] < |rows| && messages[k] == rows[ix[k]]
      ensures !err ==> forall j, k :: 0 <= j < k < |ix| ==> ix[j] < ix[k]
      ensures !err ==> forall i :: 0 <= i < |rows| ==> (i in ix <==> rows[i].sessionID == sessionID)
      ensures !err && Paired(rows) ==> Paired(messages)
    {
      ix := [];
      if fault {
        return true, [], [];
      }
      var selected := OfSession(rows, sessionID);
      messages := [];
      for i := 0 to |selected|
        invariant messages == selected[..i]
      {
        var row := selected[i];
        messages := messages + [Message(row.sessionID, row.requestID, row.role, row.content)];
      }
      ix := SessionPositions(rows, sessionID);
      if Paired(rows) { SessionHistoryPaired(rows, sessionID); }
      err := false;
    }
  }
}
