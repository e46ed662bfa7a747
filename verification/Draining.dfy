/** Taking tokens from the front of a queue up to the first Done, as processors and handlers do. */
module Draining {
  import opened Types

  /** The tokens up to the first Done, or all of them. */
  function UpToDone(q: seq<TokenEvent>): seq<TokenEvent> {
    if q == [] then [] else if q[0].done then [q[0]] else [q[0]] + UpToDone(q[1..])
  }

  predicate EndsInDone(q: seq<TokenEvent>) {
    q != [] && q[|q| - 1].done
  }

  lemma Shift(a: seq<TokenEvent>, x: TokenEvent, b: seq<TokenEvent>)
    ensures a + ([x] + b) == (a + [x]) + b
  {
  }

  /** A reader that began with `executed` and `queue` has taken `taken`, and has left if Done was among it. */
  ghost predicate Taken(executed: seq<TokenEvent>, queue: seq<TokenEvent>, taken: seq<TokenEvent>, left: bool,
                        done: seq<TokenEvent>, rest: seq<TokenEvent>) {
    && done == executed + taken && taken + rest == queue
    && UpToDone(queue) == taken + (if left then [] else UpToDone(rest))
    && (left <==> EndsInDone(taken))
  }

  lemma TakenNone(executed: seq<TokenEvent>, queue: seq<TokenEvent>)
    ensures Taken(executed, queue, [], false, executed, queue)
  {
    assert [] + UpToDone(queue) == UpToDone(queue);
  }

  lemma TakenNext(executed: seq<TokenEvent>, queue: seq<TokenEvent>, taken: seq<TokenEvent>, done: seq<TokenEvent>,
      rest: seq<TokenEvent>)
    requires Taken(executed, queue, taken, false, done, rest) && rest != []
    ensures Taken(executed, queue, taken + [rest[0]], rest[0].done, done + [rest[0]], rest[1..])
  {
    assert rest == [rest[0]] + rest[1..];
    Shift(taken, rest[0], rest[1..]);
    Shift(taken, rest[0], if rest[0].done then [] else UpToDone(rest[1..]));
    assert [rest[0]] + [] == [rest[0]];
  }

  lemma TakenAll(executed: seq<TokenEvent>, queue: seq<TokenEvent>, taken: seq<TokenEvent>, left: bool,
      done: seq<TokenEvent>, rest: seq<TokenEvent>)
    requires Taken(executed, queue, taken, left, done, rest) && (left || rest == [])
    ensures done == executed + UpToDone(queue) && UpToDone(queue) + rest == queue
    ensures (left <==> EndsInDone(UpToDone(queue)))
  {
    assert taken + [] == taken;
  }

  /** What is read is the front of the queue, with Done at most last; all of it, if Done is not among it. */
  lemma {:induction false} UpToDoneIs(q: seq<TokenEvent>)
    ensures Prefix(UpToDone(q), q) && DoneLast(UpToDone(q))
    ensures EndsInDone(UpToDone(q)) || UpToDone(q) == q
  {
    if q != [] && !q[0].done {
      UpToDoneIs(q[1..]);
      assert q == [q[0]] + q[1..];
    }
  }
}
