/**
 The `messages` table as a value: rows in id order with a unique (request, role) key, and the
 insert-or-update statement the store issues against it.
 */
module MessageTable {
  import opened Types
  import opened Subsequences

  predicate SameKey(a: Message, b: Message) {
    a.requestID == b.requestID && a.role == b.role
  }

  predicate UniqueKeys(rows: seq<Message>) {
    forall i, j :: 0 <= i < j < |rows| ==> !SameKey(rows[i], rows[j])
  }

  /** The content under key (r, role), if the table has such a row. */
  function Lookup(rows: seq<Message>, r: Id, role: Role): Option<string> {
    if rows == [] then None
    else if rows[0].requestID == r && rows[0].role == role then Some(rows[0].content)
    else Lookup(rows[1..], r, role)
  }

  /** The stored assistant text of r; a missing row reads as the empty string. */
  function Stored(rows: seq<Message>, r: Id): string {
    match Lookup(rows, r, Assistant)
    case Some(text) => text
    case None => ""
  }

  /**
   One row of the insert: a row with the same request and role gets the new content, any other is added at the
   end.
   */
  function UpsertRow(rows: seq<Message>, m: Message): seq<Message> {
    if rows == [] then [m]
    else if SameKey(rows[0], m) then [rows[0].(content := m.content)] + rows[1..]
    else [rows[0]] + UpsertRow(rows[1..], m)
  }

  /** The whole insert, row by row. */
  function UpsertRows(rows: seq<Message>, ms: seq<Message>): seq<Message> {
    if ms == [] then rows
    else UpsertRow(UpsertRows(rows, ms[..|ms| - 1]), ms[|ms| - 1])
  }

  function OfSession(rows: seq<Message>, s: Id): seq<Message> {
    if rows == [] then []
    else if rows[0].sessionID == s then [rows[0]] + OfSession(rows[1..], s)
    else OfSession(rows[1..], s)
  }

  lemma {:induction false} LookupUpsertRow(rows: seq<Message>, m: Message, r: Id, role: Role)
    ensures Lookup(UpsertRow(rows, m), r, role) ==
            if m.requestID == r && m.role == role then Some(m.content) else Lookup(rows, r, role)
  {
    if rows != [] && !SameKey(rows[0], m) {
      LookupUpsertRow(rows[1..], m, r, role);
      assert UpsertRow(rows, m)[1..] == UpsertRow(rows[1..], m);
    }
  }

  lemma UpsertRowsSnoc(rows: seq<Message>, ms: seq<Message>, m: Message)
    ensures UpsertRows(rows, ms + [m]) == UpsertRow(UpsertRows(rows, ms), m)
  {
    assert (ms + [m])[..|ms|] == ms;
  }

  lemma UpsertRowsSnoc2(rows: seq<Message>, ms: seq<Message>, m: Message, n: Message)
    ensures UpsertRows(rows, ms + [m, n]) == UpsertRow(UpsertRow(UpsertRows(rows, ms), m), n)
  {
    UpsertRowsSnoc(rows, ms, m);
    UpsertRowsSnoc(rows, ms + [m], n);
    assert ms + [m] + [n] == ms + [m, n];
  }

  /** A key absent from the batch keeps its row. */
  lemma {:induction false} LookupUntouched(rows: seq<Message>, ms: seq<Message>, r: Id, role: Role)
    requires forall m :: m in ms ==> m.requestID != r || m.role != role
    ensures Lookup(UpsertRows(rows, ms), r, role) == Lookup(rows, r, role)
  {
    if ms != [] {
      var init := ms[..|ms| - 1];
      LookupUntouched(rows, init, r, role);
      LookupUpsertRow(UpsertRows(rows, init), ms[|ms| - 1], r, role);
    }
  }

  // ---------------------------------------------------------------- question and answer pairs

  predicate IsPair(u: Message, a: Message) {
    u.role == User && a.role == Assistant && u.requestID == a.requestID && u.sessionID == a.sessionID
  }

  /** Rows in id order form consecutive (user, assistant) pairs, one pair for each request. */
  predicate Paired(rows: seq<Message>) {
    rows == [] ||
    (|rows| >= 2 && IsPair(rows[0], rows[1]) && Paired(rows[2..]) &&
     forall m :: m in rows[2..] ==> m.requestID != rows[0].requestID)
  }

  /** The same shape read by position. */
  ghost predicate PairedByPosition(rows: seq<Message>) {
    && |rows| % 2 == 0
    && (forall k :: 0 <= 2 * k < |rows| ==> IsPair(rows[2 * k], rows[2 * k + 1]))
    && (forall j, k :: 0 <= 2 * j < |rows| && 0 <= 2 * k < |rows| && j != k ==>
          rows[2 * j].requestID != rows[2 * k].requestID)
  }

  lemma {:induction false} PairedPositions(rows: seq<Message>)
    ensures Paired(rows) <==> PairedByPosition(rows)
  {
    if |rows| >= 2 {
      var rest := rows[2..];
      PairedPositions(rest);
      if Paired(rows) {
        forall k | 0 <= 2 * k < |rows| ensures IsPair(rows[2 * k], rows[2 * k + 1]) {
          if k > 0 { assert IsPair(rest[2 * (k - 1)], rest[2 * (k - 1) + 1]); }
        }
        forall j, k | 0 <= 2 * j < |rows| && 0 <= 2 * k < |rows| && j != k
          ensures rows[2 * j].requestID != rows[2 * k].requestID
        {
          if j > 0 && k > 0 {
            assert rest[2 * (j - 1)].requestID != rest[2 * (k - 1)].requestID;
          } else if j > 0 {
            assert rest[2 * (j - 1)] in rest;
          } else {
            assert rest[2 * (k - 1)] in rest;
          }
        }
      }
      if PairedByPosition(rows) {
        FrontPair(rows);
      }
    }
  }

  lemma FrontPair(rows: seq<Message>)
    requires |rows| >= 2 && PairedByPosition(rows)
    ensures IsPair(rows[0], rows[1]) && PairedByPosition(rows[2..])
    ensures forall m :: m in rows[2..] ==> m.requestID != rows[0].requestID
  {
    var rest := rows[2..];
    assert IsPair(rows[2 * 0], rows[2 * 0 + 1]);
    forall k | 0 <= 2 * k < |rest| ensures IsPair(rest[2 * k], rest[2 * k + 1]) {
      assert IsPair(rows[2 * (k + 1)], rows[2 * (k + 1) + 1]);
    }
    forall j, k | 0 <= 2 * j < |rest| && 0 <= 2 * k < |rest| && j != k
      ensures rest[2 * j].requestID != rest[2 * k].requestID
    {
      assert rows[2 * (j + 1)].requestID != rows[2 * (k + 1)].requestID;
    }
    forall m | m in rest ensures m.requestID != rows[0].requestID {
      var i :| 0 <= i < |rest| && rest[i] == m;
      var k := i / 2 + 1;
      assert IsPair(rows[2 * k], rows[2 * k + 1]);
      assert rows[2 * 0].requestID != rows[2 * k].requestID;
    }
  }

  /** Writing both messages of one request keeps the pairs. */
  lemma {:induction false} UpsertPairKeepsPairs(rows: seq<Message>, u: Message, a: Message)
    requires Paired(rows) && IsPair(u, a)
    ensures Paired(UpsertRow(UpsertRow(rows, u), a))
    ensures forall m :: m in UpsertRow(UpsertRow(rows, u), a) ==>
              m.requestID == u.requestID || m in rows
  {
    var one := UpsertRow(rows, u);
    var two := UpsertRow(one, a);
    if rows == [] {
      assert two == [u, a];
    } else if rows[0].requestID == u.requestID {
      assert one == [rows[0].(content := u.content)] + rows[1..];
      assert one[1..] == rows[1..];
      assert UpsertRow(rows[1..], a) == [rows[1].(content := a.content)] + rows[1..][1..];
      assert two == [rows[0].(content := u.content), rows[1].(content := a.content)] + rows[2..];
      assert two[2..] == rows[2..];
    } else {
      var rest := rows[2..];
      UpsertPairKeepsPairs(rest, u, a);
      PairBehind(rows, u);
      PairBehind(one, a);
      assert one[2..] == UpsertRow(rest, u);
      assert two == [rows[0], rows[1]] + UpsertRow(UpsertRow(rest, u), a);
      assert two[2..] == UpsertRow(UpsertRow(rest, u), a);
      assert rows == [rows[0], rows[1]] + rest;
    }
  }

  lemma PairBehind(rows: seq<Message>, m: Message)
    requires |rows| >= 2 && rows[0].requestID != m.requestID && rows[1].requestID != m.requestID
    ensures UpsertRow(rows, m) == [rows[0], rows[1]] + UpsertRow(rows[2..], m)
  {
    assert rows[1..][1..] == rows[2..];
    assert UpsertRow(rows[1..], m) == [rows[1]] + UpsertRow(rows[2..], m);
  }

  /** The session filter takes or leaves a pair as a whole. */
  lemma SessionOfPair(rows: seq<Message>, s: Id)
    requires |rows| >= 2 && rows[0].sessionID == rows[1].sessionID
    ensures OfSession(rows, s) == (if rows[0].sessionID == s then [rows[0], rows[1]] else []) + OfSession(rows[2..], s)
  {
    assert rows[1..][1..] == rows[2..];
    assert OfSession(rows[1..], s) == (if rows[1].sessionID == s then [rows[1]] else []) + OfSession(rows[2..], s);
  }

  lemma {:induction false} SessionMembers(rows: seq<Message>, s: Id)
    ensures forall m :: m in OfSession(rows, s) <==> m in rows && m.sessionID == s
  {
    if rows != [] {
      SessionMembers(rows[1..], s);
      assert rows == [rows[0]] + rows[1..];
    }
  }

  /** The history of one session has the shape of the whole table. */
  lemma {:induction false} SessionHistoryPaired(rows: seq<Message>, s: Id)
    requires Paired(rows)
    ensures Paired(OfSession(rows, s))
    ensures forall m :: m in OfSession(rows, s) <==> m in rows && m.sessionID == s
  {
    SessionMembers(rows, s);
    if rows != [] {
      var rest := OfSession(rows[2..], s);
      SessionHistoryPaired(rows[2..], s);
      SessionOfPair(rows, s);
      if rows[0].sessionID == s {
        assert OfSession(rows, s)[2..] == rest;
      } else {
        assert OfSession(rows, s) == rest;
      }
    }
  }

  lemma {:induction false} PairedHasUniqueKeys(rows: seq<Message>)
    requires Paired(rows)
    ensures UniqueKeys(rows)
  {
    if rows != [] {
      PairedHasUniqueKeys(rows[2..]);
      forall i, j | 0 <= i < j < |rows| ensures !SameKey(rows[i], rows[j]) {
        if i >= 2 {
          assert !SameKey(rows[2..][i - 2], rows[2..][j - 2]);
        } else if j >= 2 {
          assert rows[2..][j - 2] in rows[2..];
        }
      }
    }
  }

  /** Every row written by a batch of well-formed pairs is the pair's own or was there before. */
  lemma {:induction false} UpsertRowMembers(rows: seq<Message>, m: Message, x: Message)
    requires x in UpsertRow(rows, m)
    ensures x in rows || x == m || exists y :: y in rows && SameKey(y, m) && x == y.(content := m.content)
  {
    if rows != [] {
      if SameKey(rows[0], m) {
        assert x == rows[0].(content := m.content) || x in rows[1..];
      } else if x != rows[0] {
        UpsertRowMembers(rows[1..], m, x);
      }
    }
  }

  // ---------------------------------------------------------------- the order of the rows

  function Shifted(ix: seq<nat>): seq<nat> {
    seq(|ix|, k requires 0 <= k < |ix| => ix[k] + 1)
  }

  /** Positions in a tail are positions in the whole, one further on. */
  lemma PicksShifted(ix: seq<nat>, ms: seq<Message>, rows: seq<Message>)
    requires rows != [] && Picks(ix, ms, rows[1..])
    ensures Picks(Shifted(ix), ms, rows)
    ensures Picks([0] + Shifted(ix), [rows[0]] + ms, rows)
  {
    forall k | 0 <= k < |ix| ensures Shifted(ix)[k] < |rows| && ms[k] == rows[Shifted(ix)[k]] {
      assert rows[1..][ix[k]] == rows[ix[k] + 1];
    }
  }

  /** The history of a session lies in the table at increasing positions, and these are all its rows. */
  lemma {:induction false} SessionPositions(rows: seq<Message>, s: Id) returns (ix: seq<nat>)
    ensures Picks(ix, OfSession(rows, s), rows)
    ensures forall i :: 0 <= i < |rows| ==> (i in ix <==> rows[i].sessionID == s)
  {
    if rows == [] {
      ix := [];
    } else {
      var rest := SessionPositions(rows[1..], s);
      PicksShifted(rest, OfSession(rows[1..], s), rows);
      ix := if rows[0].sessionID == s then [0] + Shifted(rest) else Shifted(rest);
      forall i | 0 <= i < |rows| ensures i in ix <==> rows[i].sessionID == s {
        ShiftedMembers(rest, Shifted(rest), i);
        if i > 0 { assert rows[i] == rows[1..][i - 1]; }
      }
    }
  }

  lemma ShiftedMembers(ix: seq<nat>, later: seq<nat>, i: nat)
    requires |later| == |ix| && forall k :: 0 <= k < |ix| ==> later[k] == ix[k] + 1
    ensures i in later <==> i > 0 && i - 1 in ix
  {
    if i > 0 && i - 1 in ix {
      var k :| 0 <= k < |ix| && ix[k] == i - 1;
      assert later[k] == i;
    }
  }

  /** Every row keeps its place, its key and its session; new rows come after. */
  ghost predicate KeepsPlaces(before: seq<Message>, after: seq<Message>) {
    |before| <= |after| && forall i :: 0 <= i < |before| ==> after[i].(content := before[i].content) == before[i]
  }

  /** An insert-or-update moves no row: it changes one content, or adds the row at the end. */
  lemma {:induction false} UpsertRowKeepsPlaces(rows: seq<Message>, m: Message)
    ensures KeepsPlaces(rows, UpsertRow(rows, m))
    ensures (exists i :: 0 <= i < |rows| && SameKey(rows[i], m)) ==> |UpsertRow(rows, m)| == |rows|
    ensures (forall i :: 0 <= i < |rows| ==> !SameKey(rows[i], m)) ==> UpsertRow(rows, m) == rows + [m]
  {
    if rows != [] && !SameKey(rows[0], m) {
      UpsertRowKeepsPlaces(rows[1..], m);
      assert rows == [rows[0]] + rows[1..];
      if i :| 0 <= i < |rows| && SameKey(rows[i], m) {
        assert SameKey(rows[1..][i - 1], m);
      }
      assert (forall i :: 0 <= i < |rows| ==> !SameKey(rows[i], m)) ==>
          forall i :: 0 <= i < |rows[1..]| ==> !SameKey(rows[1..][i], m);
    }
  }

  lemma {:induction false} UpsertRowsKeepPlaces(rows: seq<Message>, ms: seq<Message>)
    ensures KeepsPlaces(rows, UpsertRows(rows, ms))
  {
    if ms != [] {
      UpsertRowsKeepPlaces(rows, ms[..|ms| - 1]);
      UpsertRowKeepsPlaces(UpsertRows(rows, ms[..|ms| - 1]), ms[|ms| - 1]);
    }
  }

  /** So a session's history only grows at its end. */
  lemma {:induction false} HistoryKeepsPlaces(before: seq<Message>, after: seq<Message>, s: Id)
    requires KeepsPlaces(before, after)
    ensures KeepsPlaces(OfSession(before, s), OfSession(after, s))
  {
    if before != [] {
      assert after[0].(content := before[0].content) == before[0];
      HistoryKeepsPlaces(before[1..], after[1..], s);
    }
  }
}
